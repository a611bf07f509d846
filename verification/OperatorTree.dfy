/** Event operators of init/event_operator.c as linked nodes, changed in place, with
    the blocks they take on the events. */
module OperatorTree {
  import opened Options
  import opened Operators

  class Event {
    const name: string
    const env: seq<string>
    var blockers: nat

    constructor (name: string, env: seq<string>)
      ensures this.name == name && this.env == env && blockers == 0
    {
      this.name, this.env, blockers := name, env, 0;
    }

    /** event_block. */
    method Block()
      modifies this
      ensures blockers == old(blockers) + 1
    {
      blockers := blockers + 1;
    }

    /** event_unblock. */
    method Unblock()
      requires blockers > 0
      modifies this
      ensures blockers == old(blockers) - 1
    {
      blockers := blockers - 1;
    }
  }

  class OperatorNode {
    const op: Option<Op>          // none for an event match
    const name: string
    const args: seq<string>
    var value: bool
    var event: Event?
    var left: OperatorNode?
    var right: OperatorNode?
    ghost var Repr: set<OperatorNode>
    ghost var Model: Tree<Event>

    ghost predicate Valid()
      reads this, Repr
      ensures Valid() ==> this in Repr
      decreases Repr
    {
      && this in Repr
      && (op.None? ==>
          && left == null && right == null
          && Model == Match(name, args, value, Held()))
      && (op.Some? ==>
          && event == null && left != null && right != null
          && left in Repr && right in Repr
          && left.Repr <= Repr && right.Repr <= Repr
          && this !in left.Repr && this !in right.Repr && left.Repr !! right.Repr
          && left.Valid() && right.Valid()
          && Model == Node(op.value, value, left.Model, right.Model))
    }

    ghost function Held(): Option<Event>
      reads this
    {
      if event == null then None else Some(event)
    }

    /** event_operator_new for an event match. */
    constructor Leaf(name: string, args: seq<string>)
      ensures Valid() && fresh(Repr) && Model == Match(name, args, false, None)
      ensures op.None? && this.name == name && this.args == args
    {
      this.op, this.name, this.args := None, name, args;
      value, event, left, right := false, null, null, null;
      Repr, Model := {this}, Match(name, args, false, None);
    }

    /** event_operator_new for an operator, and its children added to it. */
    constructor Branch(op: Op, value: bool, left: OperatorNode, right: OperatorNode)
      requires left.Valid() && right.Valid() && left.Repr !! right.Repr
      ensures Valid() && Repr == {this} + left.Repr + right.Repr && fresh(this)
      ensures Model == Node(op, value, left.Model, right.Model)
    {
      this.op, this.name, this.args := Some(op), "", [];
      this.value, event := value, null;
      this.left, this.right := left, right;
      Repr, Model := {this} + left.Repr + right.Repr, Node(op, value, left.Model, right.Model);
    }

    /** event_operator_update, after the children have changed. */
    method Update()
      requires op.Some? && event == null && left != null && right != null
      requires this in Repr && left in Repr && right in Repr && left.Repr <= Repr && right.Repr <= Repr
      requires this !in left.Repr && this !in right.Repr && left.Repr !! right.Repr
      requires left.Valid() && right.Valid()
      modifies this`value, this`Model
      ensures Valid() && Model == Node(op.value, value, left.Model, right.Model)
      ensures op.value.And? ==> (value <==> left.value && right.value)
      ensures op.value.Or? ==> (value <==> left.value || right.value)
    {
      match op.value {
        case Or => value := left.value || right.value;
        case And => value := left.value && right.value;
      }
      Model := Node(op.value, value, left.Model, right.Model);
    }

    lemma ValueOfModel()
      requires Valid()
      ensures Model.value == value
    {
    }

    /** event_operator_handle: the post-order walk. */
    method Handle(e: Event, m: Matcher<Event>) returns (ret: bool)
      requires Valid()
      modifies Repr, e
      ensures Valid() && Repr == old(Repr) && Model == Operators.Handle(old(Model), e, m)
      ensures e.blockers == old(e.blockers) + Hits(old(Model), e, m)
      ensures ret == (Hits(old(Model), e, m) > 0)
      decreases Repr
    {
      if op.Some? {
        var l := left.Handle(e, m);
        var r := right.Handle(e, m);
        ret := l || r;
        left.ValueOfModel();
        right.ValueOfModel();
        assert left.Model.value == left.value && right.Model.value == right.value;
        Update();
      } else {
        ret := false;
        if !value && m(name, args, e) {
          value := true;
          event := e;
          e.Block();
          Model := Match(name, args, value, Held());
          ret := true;
        }
      }
    }

    /** Every event the tree holds is one of the events of `pool`. */
    ghost predicate Holds(pool: set<Event>)
      reads this
    {
      forall e :: e in Refs(Model) ==> e in pool
    }

    /** Leave an event match holding nothing. */
    method ResetMatch(ghost pool: set<Event>)
      requires Valid() && op.None? && Holds(pool)
      requires forall e :: e in pool ==> Refs(Model)[e] <= e.blockers
      modifies this, pool
      ensures Valid() && Repr == old(Repr) && Model == Operators.Reset(old(Model))
      ensures forall e :: e in pool ==> e.blockers == old(e.blockers) - old(Refs(Model))[e]
    {
      value := false;
      if event != null {
        assert event in Refs(Model);
        event.Unblock();
        event := null;
      }
      Model := Match(name, args, value, Held());
    }

    /** event_operator_reset; no event is unblocked more often than it is blocked. */
    method Reset(ghost pool: set<Event>)
      requires Valid() && Holds(pool)
      requires forall e :: e in pool ==> Refs(Model)[e] <= e.blockers
      modifies Repr, pool
      ensures Valid() && Repr == old(Repr) && Model == Operators.Reset(old(Model))
      ensures forall e :: e in pool ==> e.blockers == old(e.blockers) - old(Refs(Model))[e]
      decreases Repr
    {
      if op.None? {
        ResetMatch(pool);
      } else {
        assert Refs(Model) == Refs(left.Model) + Refs(right.Model);
        ResetBoth(left, right, pool);
        Update();
      }
    }

    static method ResetBoth(left: OperatorNode, right: OperatorNode, ghost pool: set<Event>)
      requires left.Valid() && right.Valid() && left.Repr !! right.Repr && left.Holds(pool) && right.Holds(pool)
      requires forall e :: e in pool ==> Refs(left.Model)[e] + Refs(right.Model)[e] <= e.blockers
      modifies left.Repr, right.Repr, pool
      ensures left.Valid() && right.Valid() && left.Repr == old(left.Repr) && right.Repr == old(right.Repr)
      ensures left.Model == Operators.Reset(old(left.Model)) && left.value == left.Model.value
      ensures right.Model == Operators.Reset(old(right.Model)) && right.value == right.Model.value
      ensures forall e :: e in pool ==>
        e.blockers == old(e.blockers) - old(Refs(left.Model) + Refs(right.Model))[e]
      decreases left.Repr + right.Repr
    {
      left.Reset(pool);
      right.Reset(pool);
      left.ValueOfModel();
      right.ValueOfModel();
    }

    /** A copy of an event match, with its own block. */
    method CopyMatch(ghost pool: set<Event>) returns (copy: OperatorNode)
      requires Valid() && op.None? && Holds(pool)
      modifies pool
      ensures copy.Valid() && fresh(copy.Repr) && copy.Model == Model
      ensures forall e :: e in pool ==> e.blockers == old(e.blockers) + Refs(Model)[e]
    {
      copy := new OperatorNode.Leaf(name, args);
      copy.value, copy.event, copy.Model := value, event, Model;
      if event != null {
        assert event in Refs(Model);
        event.Block();
      }
    }

    /** event_operator_copy: the copy takes its own blocks. */
    method Copy(ghost pool: set<Event>) returns (copy: OperatorNode)
      requires Valid() && Holds(pool)
      modifies pool
      ensures copy.Valid() && fresh(copy.Repr) && copy.Model == Model
      ensures forall e :: e in pool ==> e.blockers == old(e.blockers) + Refs(Model)[e]
      decreases Repr
    {
      if op.None? {
        copy := CopyMatch(pool);
      } else {
        assert Refs(Model) == Refs(left.Model) + Refs(right.Model);
        var l, r := CopyBoth(left, right, pool);
        copy := new OperatorNode.Branch(op.value, value, l, r);
      }
    }

    static method CopyBoth(left: OperatorNode, right: OperatorNode, ghost pool: set<Event>)
      returns (l: OperatorNode, r: OperatorNode)
      requires left.Valid() && right.Valid() && left.Repr !! right.Repr && left.Holds(pool) && right.Holds(pool)
      modifies pool
      ensures l.Valid() && r.Valid() && fresh(l.Repr) && fresh(r.Repr) && l.Repr !! r.Repr
      ensures l.Model == left.Model && r.Model == right.Model
      ensures forall e :: e in pool ==> e.blockers == old(e.blockers) + (Refs(left.Model) + Refs(right.Model))[e]
      decreases left.Repr + right.Repr
    {
      l := left.Copy(pool);
      r := right.Copy(pool);
    }

    /** event_operator_events: block each event of the filtered walk. */
    method Events(ghost pool: set<Event>) returns (list: seq<Event>)
      requires Valid() && Linked(Model) && Holds(pool)
      modifies pool
      ensures list == Collected(Model)
      ensures forall e :: e in pool ==> e.blockers == old(e.blockers) + multiset(list)[e]
      decreases Repr, 1
    {
      if !value { return []; }
      if op.None? {
        assert event in Refs(Model);
        event.Block();
        return [event];
      }
      list := EventsBoth(pool);
    }

    /** The filtered walk below an operator that is TRUE. */
    method EventsBoth(ghost pool: set<Event>) returns (list: seq<Event>)
      requires Valid() && Linked(Model) && Holds(pool) && op.Some?
      modifies pool
      ensures list == Collected(Model.left) + Collected(Model.right)
      ensures forall e :: e in pool ==> e.blockers == old(e.blockers) + multiset(list)[e]
      decreases Repr, 0
    {
      assert Refs(Model) == Refs(left.Model) + Refs(right.Model);
      var l := left.Events(pool);
      ghost var lm: multiset<Event> := multiset(l);
      assert forall e: Event :: e in pool ==> e.blockers == old(e.blockers) + lm[e];
      var r := right.Events(pool);
      ghost var rm: multiset<Event> := multiset(r);
      assert forall e: Event :: e in pool ==> e.blockers == old(e.blockers) + lm[e] + rm[e];
      list := l + r;
      assert multiset(list) == lm + rm by { Concatenated(l, r); }
    }
  }

  lemma Concatenated(a: seq<Event>, b: seq<Event>)
    ensures multiset(a + b) == multiset(a) + multiset(b)
  {
  }
}
