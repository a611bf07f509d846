/** event_operator_serialise_all and event_operator_deserialise_all of
    init/event_operator.c: a tree written as its nodes in post-order, and rebuilt with a
    stack; events are named by their place in the event list. */
module Serialise {
  import opened Options
  import opened Operators

  /** A serialised node. */
  datatype Record =
    | Leaf(name: string, args: seq<string>, value: bool, index: Option<int>)
    | Branch(op: Op, value: bool)

  /** What rebuilding comes to: a failed assertion, an error return, or the tree. */
  datatype Outcome<+T> = Crash | Failed | Done(result: T)

  predicate Distinct(events: seq<nat>) {
    forall i, j :: 0 <= i < j < |events| ==> events[i] != events[j]
  }

  // ----- events by index -----

  /** event_to_index, or the length of the list where the C code says -1. */
  function IndexOf(events: seq<nat>, e: nat): (i: nat)
    ensures i <= |events| && (i < |events| ==> events[i] == e)
    ensures i == |events| <==> e !in events
  {
    if events == [] || events[0] == e then 0 else IndexOf(events[1..], e) + 1
  }

  /** The indices of a list of distinct events name them uniquely. */
  lemma IndexUnique(events: seq<nat>, i: nat)
    requires Distinct(events) && i < |events|
    ensures IndexOf(events, events[i]) == i
  {
    var j := IndexOf(events, events[i]);
    assert events[j] == events[i];
  }

  // ----- writing -----

  function Write(events: seq<nat>, t: Tree<nat>): Record {
    match t
    case Match(name, args, value, event) =>
      Leaf(name, args, value, if event.None? then None else Some(IndexOf(events, event.value)))
    case Node(op, value, _, _) => Branch(op, value)
  }

  predicate Known(events: seq<nat>, t: Tree<nat>) {
    match t
    case Match(_, _, _, event) => event.Some? ==> event.value in events
    case Node(_, _, left, right) => Known(events, left) && Known(events, right)
  }

  function PostOrder(t: Tree<nat>): (r: seq<Tree<nat>>)
    ensures r != []
  {
    if t.Match? then [t] else PostOrder(t.left) + PostOrder(t.right) + [t]
  }

  /** The whole tree, node by node. */
  function Records(events: seq<nat>, t: Tree<nat>): (r: seq<Record>) {
    if t.Match? then [Write(events, t)]
    else Records(events, t.left) + Records(events, t.right) + [Write(events, t)]
  }

  /** Whether a node refers to no event outside the list. */
  predicate Writable(events: seq<nat>, t: Tree<nat>) {
    t.Match? && t.event.Some? ==> t.event.value in events
  }

  function WriteAll(events: seq<nat>, list: seq<Tree<nat>>): Option<seq<Record>> {
    if list == [] then Some([])
    else
      var front := WriteAll(events, list[..|list| - 1]);
      var last := list[|list| - 1];
      if front.None? || !Writable(events, last) then None
      else Some(front.value + [Write(events, last)])
  }

  /** event_operator_serialise_all. */
  method SerialiseAll(events: seq<nat>, root: Tree<nat>) returns (r: Option<seq<Record>>)
    ensures r == if Known(events, root) then Some(Records(events, root)) else None
  {
    var list, records := PostOrder(root), [];
    WritePostOrder(events, root);
    for i := 0 to |list|
      invariant WriteAll(events, list[..i]) == Some(records)
    {
      assert list[..i + 1][..i] == list[..i];
      if !Writable(events, list[i]) {
        WriteFails(events, list, i + 1);
        return None;
      }
      records := records + [Write(events, list[i])];
    }
    assert list[..|list|] == list;
    return Some(records);
  }

  lemma {:induction false} WriteFails(events: seq<nat>, list: seq<Tree<nat>>, n: nat)
    requires n <= |list| && WriteAll(events, list[..n]).None?
    ensures WriteAll(events, list).None?
    decreases |list|
  {
    if n == |list| {
      assert list[..n] == list;
    } else {
      assert list[..|list| - 1][..n] == list[..n];
      WriteFails(events, list[..|list| - 1], n);
    }
  }

  lemma {:induction false} WriteAppend(events: seq<nat>, a: seq<Tree<nat>>, b: seq<Tree<nat>>)
    ensures
      var wa, wb := WriteAll(events, a), WriteAll(events, b);
      WriteAll(events, a + b) == if wa.None? || wb.None? then None else Some(wa.value + wb.value)
  {
    var wa := WriteAll(events, a);
    if b == [] {
      assert a + b == a;
      if wa.Some? { assert wa.value + [] == wa.value; }
    } else {
      var front := b[..|b| - 1];
      assert (a + b)[..|a + b| - 1] == a + front && (a + b)[|a + b| - 1] == b[|b| - 1];
      WriteAppend(events, a, front);
      var wf, w := WriteAll(events, front), Write(events, b[|b| - 1]);
      if wa.Some? && wf.Some? { assert wa.value + (wf.value + [w]) == wa.value + wf.value + [w]; }
    }
  }

  lemma {:induction false} WritePostOrder(events: seq<nat>, t: Tree<nat>)
    ensures WriteAll(events, PostOrder(t)) == if Known(events, t) then Some(Records(events, t)) else None
  {
    assert [t][..0] == [] && WriteAll(events, []) == Some([]);
    assert [] + [Write(events, t)] == [Write(events, t)];
    if t.Node? {
      WriteAppend(events, PostOrder(t.left) + PostOrder(t.right), [t]);
      WriteAppend(events, PostOrder(t.left), PostOrder(t.right));
      WritePostOrder(events, t.left);
      WritePostOrder(events, t.right);
    }
  }

  // ----- reading -----

  /** One record: a new leaf, or an operator over the top two trees of the stack, the
      right one on top. */
  function Read(events: seq<nat>, r: Record, stack: seq<Tree<nat>>): Outcome<seq<Tree<nat>>> {
    match r
    case Leaf(name, args, value, index) =>
      if index.None? then Done([Match(name, args, value, None)] + stack)
      else if index.value < 0 then Crash
      else if index.value >= |events| then Failed
      else Done([Match(name, args, value, Some(events[index.value]))] + stack)
    case Branch(op, value) =>
      if |stack| < 2 then Crash else Done([Node(op, value, stack[1], stack[0])] + stack[2..])
  }

  function Rebuild(events: seq<nat>, list: seq<Record>, stack: seq<Tree<nat>>): Outcome<seq<Tree<nat>>>
    decreases list
  {
    if list == [] then Done(stack)
    else match Read(events, list[0], stack)
      case Done(s) => Rebuild(events, list[1..], s)
      case other => other
  }

  function Deserialise(events: seq<nat>, list: seq<Record>): Outcome<Tree<nat>> {
    match Rebuild(events, list, [])
    case Done(stack) => if |stack| == 1 then Done(stack[0]) else Crash
    case Crash => Crash
    case Failed => Failed
  }

  /** event_operator_deserialise_all. */
  method DeserialiseAll(events: seq<nat>, list: seq<Record>) returns (r: Outcome<Tree<nat>>)
    ensures r == Deserialise(events, list)
  {
    var stack: seq<Tree<nat>> := [];
    assert list[0..] == list;
    for i := 0 to |list|
      invariant Rebuild(events, list[i..], stack) == Rebuild(events, list, [])
    {
      assert list[i..][1..] == list[i + 1..];
      match list[i] {
        case Leaf(name, args, value, index) =>
          var event: Option<nat> := None;
          if index.Some? {
            if index.value < 0 { return Crash; }
            if index.value >= |events| { return Failed; }
            event := Some(events[index.value]);
          }
          stack := [Match(name, args, value, event)] + stack;
        case Branch(op, value) =>
          if stack == [] { return Crash; }
          var right, rest := stack[0], stack[1..];
          if rest == [] { return Crash; }
          var left := rest[0];
          assert rest[1..] == stack[2..];
          stack := [Node(op, value, left, right)] + rest[1..];
      }
    }
    if |stack| != 1 { return Crash; }
    return Done(stack[0]);
  }

  // ----- the two are inverse -----

  lemma {:induction false} RebuildAppend(events: seq<nat>, a: seq<Record>, b: seq<Record>, stack: seq<Tree<nat>>)
    ensures Rebuild(events, a + b, stack) == match Rebuild(events, a, stack)
      case Done(s) => Rebuild(events, b, s)
      case other => other
    decreases a
  {
    if a == [] {
      assert a + b == b;
    } else {
      assert (a + b)[1..] == a[1..] + b;
      var r := Read(events, a[0], stack);
      if r.Done? { RebuildAppend(events, a[1..], b, r.result); }
    }
  }

  lemma RebuildOne(events: seq<nat>, r: Record, stack: seq<Tree<nat>>)
    ensures Rebuild(events, [r], stack) == Read(events, r, stack)
  {
    assert [r][1..] == [];
  }

  /** The records of a tree put just that tree on the stack. */
  lemma {:induction false} RebuildTree(events: seq<nat>, t: Tree<nat>, stack: seq<Tree<nat>>)
    requires Known(events, t)
    ensures Rebuild(events, Records(events, t), stack) == Done([t] + stack)
  {
    RebuildOne(events, Write(events, t), stack);
    if t.Node? {
      var l, r := Records(events, t.left), Records(events, t.right);
      RebuildAppend(events, l + r, [Write(events, t)], stack);
      RebuildAppend(events, l, r, stack);
      RebuildTree(events, t.left, stack);
      RebuildTree(events, t.right, [t.left] + stack);
      var both := [t.right] + ([t.left] + stack);
      RebuildOne(events, Write(events, t), both);
      assert both[2..] == stack;
    }
  }

  /** The records of the trees of a stack, from the bottom up. */
  function StackRecords(events: seq<nat>, stack: seq<Tree<nat>>): seq<Record> {
    if stack == [] then [] else StackRecords(events, stack[1..]) + Records(events, stack[0])
  }

  predicate AllKnown(events: seq<nat>, stack: seq<Tree<nat>>) {
    stack != [] ==> Known(events, stack[0]) && AllKnown(events, stack[1..])
  }

  /** Reading a record adds it to what the stack records. */
  lemma ReadRecords(events: seq<nat>, r: Record, stack: seq<Tree<nat>>)
    requires Distinct(events) && AllKnown(events, stack) && Read(events, r, stack).Done?
    ensures var next := Read(events, r, stack).result;
      AllKnown(events, next) && StackRecords(events, next) == StackRecords(events, stack) + [r]
  {
    var next := Read(events, r, stack).result;
    match r {
      case Leaf(_, _, _, index) =>
        if index.Some? { IndexUnique(events, index.value); }
        assert next[1..] == stack;
      case Branch(_, _) =>
        assert next[1..] == stack[1..][1..];
        var below, left, right :=
          StackRecords(events, stack[2..]), Records(events, stack[1]), Records(events, stack[0]);
        assert stack[1..][1..] == stack[2..];
        assert below + (left + right + [r]) == (below + left) + right + [r];
    }
  }

  lemma {:induction false} RebuildRecords(events: seq<nat>, list: seq<Record>, stack: seq<Tree<nat>>)
    requires Distinct(events) && AllKnown(events, stack) && Rebuild(events, list, stack).Done?
    ensures var end := Rebuild(events, list, stack).result;
      AllKnown(events, end) && StackRecords(events, end) == StackRecords(events, stack) + list
    decreases list
  {
    if list == [] {
      assert StackRecords(events, stack) + [] == StackRecords(events, stack);
    } else {
      var next := Read(events, list[0], stack).result;
      ReadRecords(events, list[0], stack);
      RebuildRecords(events, list[1..], next);
      assert StackRecords(events, stack) + [list[0]] + list[1..] == StackRecords(events, stack) + list;
    }
  }

  /** Rebuilding gives a tree exactly from that tree's own records. */
  lemma DeserialiseIffRecords(events: seq<nat>, list: seq<Record>, t: Tree<nat>)
    requires Distinct(events)
    ensures Deserialise(events, list) == Done(t) <==> Known(events, t) && Records(events, t) == list
  {
    if Known(events, t) && Records(events, t) == list {
      RebuildTree(events, t, []);
      assert [t] + [] == [t];
    }
    if Deserialise(events, list) == Done(t) {
      RebuildRecords(events, list, []);
      assert [t][1..] == [];
      assert [] + Records(events, t) == Records(events, t);
      assert [] + list == list;
    }
  }

  // ----- when the stack holds -----

  /** How many trees a list leaves on the stack. */
  function Height(list: seq<Record>): int {
    if list == [] then 0 else Height(list[..|list| - 1]) + if list[|list| - 1].Leaf? then 1 else -1
  }

  /** A list in post-order: every part of it leaves a tree, and the whole just one. */
  predicate PostOrdered(list: seq<Record>) {
    Height(list) == 1 && forall i :: 1 <= i <= |list| ==> Height(list[..i]) >= 1
  }

  predicate Indexed(events: seq<nat>, list: seq<Record>) {
    forall i :: 0 <= i < |list| && list[i].Leaf? && list[i].index.Some? ==> 0 <= list[i].index.value < |events|
  }

  lemma {:induction false} RebuildHeight(events: seq<nat>, list: seq<Record>)
    requires Indexed(events, list)
    ensures Rebuild(events, list, []).Done? <==> forall i :: 1 <= i <= |list| ==> Height(list[..i]) >= 1
    ensures Rebuild(events, list, []).Done? ==> |Rebuild(events, list, []).result| == Height(list)
    ensures !Rebuild(events, list, []).Failed?
  {
    if list != [] {
      var front, last := list[..|list| - 1], list[|list| - 1];
      assert front + [last] == list && list[..|list|] == list;
      RebuildHeight(events, front);
      RebuildAppend(events, front, [last], []);
      if Rebuild(events, front, []).Done? {
        RebuildOne(events, last, Rebuild(events, front, []).result);
      }
      forall i | 1 <= i < |list| ensures list[..i] == front[..i] {}
    }
  }

  /** With valid event indices, rebuilding never fails, and no assertion fails exactly
      for the lists in post-order. */
  lemma DeserialiseIffPostOrdered(events: seq<nat>, list: seq<Record>)
    requires Indexed(events, list)
    ensures Deserialise(events, list).Done? <==> PostOrdered(list)
    ensures !Deserialise(events, list).Failed?
  {
    RebuildHeight(events, list);
  }
}
