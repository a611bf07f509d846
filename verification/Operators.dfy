/** Event operator trees of init/event_operator.c: the values that handling and
    resetting compute, and what they mean over the history of events. */
module Operators {
  import opened Options

  datatype Op = And | Or

  /** A node's value and event change as events are handled; the rest is fixed. */
  datatype Tree<E> =
    | Match(name: string, args: seq<string>, value: bool, event: Option<E>)
    | Node(op: Op, value: bool, left: Tree<E>, right: Tree<E>)

  /** Which events match a leaf with the given name and arguments. */
  type Matcher<!E> = (string, seq<string>, E) -> bool

  function Combine(op: Op, l: bool, r: bool): bool {
    match op case And => l && r case Or => l || r
  }

  /** event_operator_handle. */
  function Handle<E>(t: Tree<E>, e: E, m: Matcher<E>): Tree<E> {
    match t
    case Match(name, args, value, _) =>
      if !value && m(name, args, e) then t.(value := true, event := Some(e)) else t
    case Node(op, _, left, right) =>
      var l, r := Handle(left, e, m), Handle(right, e, m);
      Node(op, Combine(op, l.value, r.value), l, r)
  }

  /** How many leaves an event newly matches. */
  function Hits<E>(t: Tree<E>, e: E, m: Matcher<E>): nat {
    match t
    case Match(name, args, value, _) => if !value && m(name, args, e) then 1 else 0
    case Node(_, _, left, right) => Hits(left, e, m) + Hits(right, e, m)
  }

  /** event_operator_reset. */
  function Reset<E>(t: Tree<E>): Tree<E> {
    match t
    case Match(_, _, _, _) => t.(value := false, event := None)
    case Node(op, _, left, right) =>
      var l, r := Reset(left), Reset(right);
      Node(op, Combine(op, l.value, r.value), l, r)
  }

  /** The events the tree holds a block on. */
  ghost function Refs<E>(t: Tree<E>): multiset<E> {
    match t
    case Match(_, _, _, event) => if event.Some? then multiset{event.value} else multiset{}
    case Node(_, _, left, right) => Refs(left) + Refs(right)
  }

  /** A leaf is TRUE when and only when it holds an event. */
  predicate Linked<E>(t: Tree<E>) {
    match t
    case Match(_, _, value, event) => value == event.Some?
    case Node(_, _, left, right) => Linked(left) && Linked(right)
  }

  /** Every operator has the value its children give it. */
  predicate Consistent<E>(t: Tree<E>) {
    match t
    case Match(_, _, _, _) => true
    case Node(And, value, left, right) =>
      Consistent(left) && Consistent(right) && (value <==> left.value && right.value)
    case Node(Or, value, left, right) =>
      Consistent(left) && Consistent(right) && (value <==> left.value || right.value)
  }

  // ----- the formula over the history -----

  /** The first event of a history that matches a leaf. */
  ghost function First<E>(h: seq<E>, name: string, args: seq<string>, m: Matcher<E>): Option<E> {
    if h == [] then None
    else if m(name, args, h[0]) then Some(h[0])
    else First(h[1..], name, args, m)
  }

  /** The boolean formula the tree is: a leaf holds when some event so far matched it. */
  ghost predicate Holds<E(!new)>(t: Tree<E>, h: seq<E>, m: Matcher<E>) {
    match t
    case Match(name, args, _, _) => exists i :: 0 <= i < |h| && m(name, args, h[i])
    case Node(And, _, left, right) => Holds(left, h, m) && Holds(right, h, m)
    case Node(Or, _, left, right) => Holds(left, h, m) || Holds(right, h, m)
  }

  /** The same tree with the value and events that a history gives it. */
  ghost function Settled<E(!new)>(t: Tree<E>, h: seq<E>, m: Matcher<E>): Tree<E> {
    match t
    case Match(name, args, _, _) =>
      var first := First(h, name, args, m);
      Match(name, args, first.Some?, first)
    case Node(op, _, left, right) =>
      Node(op, Holds(t, h, m), Settled(left, h, m), Settled(right, h, m))
  }

  function HandleAll<E>(t: Tree<E>, h: seq<E>, m: Matcher<E>): Tree<E> {
    if h == [] then t else Handle(HandleAll(t, h[..|h| - 1], m), h[|h| - 1], m)
  }

  lemma {:induction false} FirstHolds<E(!new)>(h: seq<E>, name: string, args: seq<string>, m: Matcher<E>)
    ensures First(h, name, args, m).Some? <==> exists i :: 0 <= i < |h| && m(name, args, h[i])
  {
    if h != [] {
      FirstHolds(h[1..], name, args, m);
      if i :| 0 <= i < |h| && m(name, args, h[i]) && i > 0 { assert h[1..][i - 1] == h[i]; }
      if i :| 0 <= i < |h[1..]| && m(name, args, h[1..][i]) { assert h[i + 1] == h[1..][i]; }
    }
  }

  lemma {:induction false} FirstExtend<E>(h: seq<E>, e: E, name: string, args: seq<string>, m: Matcher<E>)
    ensures First(h + [e], name, args, m) ==
            if First(h, name, args, m).Some? then First(h, name, args, m)
            else if m(name, args, e) then Some(e) else None
  {
    if h == [] {
      assert (h + [e])[1..] == [];
    } else {
      assert (h + [e])[1..] == h[1..] + [e];
      FirstExtend(h[1..], e, name, args, m);
    }
  }

  /** The value of a settled tree is its formula. */
  lemma {:induction false} SettledValue<E(!new)>(t: Tree<E>, h: seq<E>, m: Matcher<E>)
    ensures Settled(t, h, m).value == Holds(t, h, m)
    ensures Linked(Settled(t, h, m)) && Consistent(Settled(t, h, m))
  {
    match t {
      case Match(name, args, _, _) => FirstHolds(h, name, args, m);
      case Node(_, _, left, right) =>
        SettledValue(left, h, m);
        SettledValue(right, h, m);
    }
  }

  lemma {:induction false} HandleSettled<E(!new)>(t: Tree<E>, h: seq<E>, e: E, m: Matcher<E>)
    ensures Handle(Settled(t, h, m), e, m) == Settled(t, h + [e], m)
  {
    SettledValue(t, h + [e], m);
    match t {
      case Match(name, args, _, _) => FirstExtend(h, e, name, args, m);
      case Node(_, _, left, right) =>
        HandleSettled(left, h, e, m);
        HandleSettled(right, h, e, m);
        SettledValue(left, h + [e], m);
        SettledValue(right, h + [e], m);
    }
  }

  lemma {:induction false} ResetSettled<E(!new)>(t: Tree<E>, m: Matcher<E>)
    ensures Reset(t) == Settled(t, [], m)
  {
    if t.Node? {
      ResetSettled(t.left, m);
      ResetSettled(t.right, m);
      SettledValue(t.left, [], m);
      SettledValue(t.right, [], m);
    }
  }

  /** From a reset tree, after any events: each leaf is TRUE exactly when some event
      matched it and holds the first that did; every operator, and so the root, has the
      value of its formula. */
  lemma {:induction false} HandleHistory<E(!new)>(t: Tree<E>, h: seq<E>, m: Matcher<E>)
    ensures HandleAll(Reset(t), h, m) == Settled(t, h, m)
    ensures HandleAll(Reset(t), h, m).value == Holds(t, h, m)
  {
    SettledValue(t, h, m);
    if h == [] {
      ResetSettled(t, m);
    } else {
      var front, e := h[..|h| - 1], h[|h| - 1];
      HandleHistory(t, front, m);
      HandleSettled(t, front, e, m);
      assert front + [e] == h;
    }
  }

  /** Handling makes a tree consistent whatever its operators said before. */
  lemma {:induction false} HandleConsistent<E>(t: Tree<E>, e: E, m: Matcher<E>)
    ensures Consistent(Handle(t, e, m)) && Consistent(Reset(t)) && Linked(Reset(t))
    ensures Linked(t) ==> Linked(Handle(t, e, m))
  {
    if t.Node? {
      HandleConsistent(t.left, e, m);
      HandleConsistent(t.right, e, m);
    }
  }

  // ----- blocks -----

  ghost function Copies<E>(e: E, n: nat): multiset<E> {
    multiset{}[e := n]
  }

  /** A newly matched leaf takes one block on the event; nothing else changes hands. */
  lemma {:induction false} HandleRefs<E>(t: Tree<E>, e: E, m: Matcher<E>)
    requires Linked(t)
    ensures Refs(Handle(t, e, m)) == Refs(t) + Copies(e, Hits(t, e, m))
  {
    if t.Node? {
      HandleRefs(t.left, e, m);
      HandleRefs(t.right, e, m);
    }
  }

  lemma {:induction false} ResetRefs<E>(t: Tree<E>)
    ensures Refs(Reset(t)) == multiset{}
  {
    if t.Node? {
      ResetRefs(t.left);
      ResetRefs(t.right);
    }
  }

  // ----- the filtered walk -----

  /** event_operator_events: the events of the leaves reached through TRUE nodes only. */
  function Collected<E>(t: Tree<E>): seq<E>
    requires Linked(t)
  {
    if !t.value then []
    else match t
      case Match(_, _, _, event) => [event.value]
      case Node(_, _, left, right) => Collected(left) + Collected(right)
  }

  /** The tree with every leaf that the walk does not reach set FALSE. */
  ghost function Kept<E>(t: Tree<E>): Tree<E> {
    if !t.value then Reset(t)
    else match t
      case Match(_, _, _, _) => t
      case Node(op, value, left, right) =>
        var l, r := Kept(left), Kept(right);
        Node(op, Combine(op, l.value, r.value), l, r)
  }

  lemma {:induction false} ResetFalse<E>(t: Tree<E>)
    ensures !Reset(t).value
  {
    if t.Node? { ResetFalse(t.left); ResetFalse(t.right); }
  }

  /** The collected events are a witness: they are held by TRUE leaves of the tree, and
      those leaves alone make the tree TRUE whenever it is TRUE. */
  lemma {:induction false} CollectedWitness<E>(t: Tree<E>)
    requires Linked(t) && Consistent(t)
    ensures Kept(t).value == t.value
    ensures multiset(Collected(t)) == Refs(Kept(t)) <= Refs(t)
  {
    if !t.value {
      ResetFalse(t);
      ResetRefs(t);
    } else if t.Node? {
      CollectedWitness(t.left);
      CollectedWitness(t.right);
      assert multiset(Collected(t.left) + Collected(t.right))
          == multiset(Collected(t.left)) + multiset(Collected(t.right));
    }
  }

  /** Nothing is collected from a tree that is not TRUE, something from one that is. */
  lemma {:induction false} CollectedEmpty<E>(t: Tree<E>)
    requires Linked(t) && Consistent(t)
    ensures Collected(t) == [] <==> !t.value
  {
    if t.Node? {
      CollectedEmpty(t.left);
      CollectedEmpty(t.right);
    }
  }

  // ----- when a condition fires -----

  lemma {:induction false} NoHitsNoChange<E>(t: Tree<E>, e: E, m: Matcher<E>)
    requires Consistent(t) && Hits(t, e, m) == 0
    ensures Handle(t, e, m) == t
  {
    if t.Node? {
      NoHitsNoChange(t.left, e, m);
      NoHitsNoChange(t.right, e, m);
    }
  }

  /** A consistent tree that an event makes TRUE had a leaf newly matched by it. */
  lemma BecomesTrueHits<E>(t: Tree<E>, e: E, m: Matcher<E>)
    requires Consistent(t) && !t.value
    ensures Handle(t, e, m).value ==> Hits(t, e, m) > 0
  {
    if Hits(t, e, m) == 0 { NoHitsNoChange(t, e, m); }
  }

  /** A condition "A and B" needs both, a condition "A or B" either. */
  lemma {:induction false} TwoLeaves<E(!new)>(a: Tree<E>, b: Tree<E>, h: seq<E>, m: Matcher<E>)
    requires a.Match? && b.Match?
    ensures HandleAll(Reset(Node(And, false, a, b)), h, m).value <==>
      (exists i :: 0 <= i < |h| && m(a.name, a.args, h[i])) && (exists i :: 0 <= i < |h| && m(b.name, b.args, h[i]))
    ensures HandleAll(Reset(Node(Or, false, a, b)), h, m).value <==>
      (exists i :: 0 <= i < |h| && m(a.name, a.args, h[i])) || (exists i :: 0 <= i < |h| && m(b.name, b.args, h[i]))
  {
    HandleHistory(Node(And, false, a, b), h, m);
    HandleHistory(Node(Or, false, a, b), h, m);
  }
}
