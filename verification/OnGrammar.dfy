/** What the parser accepts: E ::= T | E op T, T ::= word+ | ( E ), with no positional
    argument after a named one, read as a left-associative tree. */
module OnGrammar {
  import opened Options
  import opened Operators
  import opened ParseOn

  /** Derivations of the grammar. */
  datatype Cst =
    | Atom(name: string, args: seq<string>)
    | Group(inner: Cst)
    | Chain(left: Cst, op: Op, right: Cst)

  predicate NoneNamed(args: seq<string>) {
    forall i :: 0 <= i < |args| ==> '=' !in args[i]
  }

  predicate AllNamed(args: seq<string>) {
    forall i :: 0 <= i < |args| ==> '=' in args[i]
  }

  /** Positional arguments first, then named ones. */
  ghost predicate PositionalFirst(args: seq<string>) {
    exists n: nat :: n <= |args| && NoneNamed(args[..n]) && AllNamed(args[n..])
  }

  lemma {:induction false} PrefixOrder(args: seq<string>) returns (n: nat)
    requires ValidOrder(args)
    ensures n <= |args| && NoneNamed(args[..n]) && AllNamed(args[n..])
  {
    n := 0;
    if args != [] && '=' !in args[0] {
      var m := PrefixOrder(args[1..]);
      n := m + 1;
      assert args[..n] == [args[0]] + args[1..][..m] && args[n..] == args[1..][m..];
    }
  }

  /** That is the order the parser asks for. */
  lemma OrderIff(args: seq<string>)
    ensures ValidOrder(args) <==> PositionalFirst(args)
  {
    if ValidOrder(args) { var _ := PrefixOrder(args); }
    if n: nat :| n <= |args| && NoneNamed(args[..n]) && AllNamed(args[n..]) {
      assert forall i :: 0 <= i < n ==> args[..n][i] == args[i];
      assert forall i :: n <= i < |args| ==> args[n..][i - n] == args[i];
    }
  }

  ghost predicate WellFormed(c: Cst) {
    match c
    case Atom(_, args) => PositionalFirst(args)
    case Group(inner) => WellFormed(inner)
    case Chain(left, _, right) => WellFormed(left) && WellFormed(right) && !right.Chain?
  }

  function Words(args: seq<string>): (r: seq<Token>)
    ensures |r| == |args|
  {
    if args == [] then [] else Words(args[..|args| - 1]) + [Word(args[|args| - 1])]
  }

  /** The tokens a derivation derives. */
  function Tokens(c: Cst): seq<Token> {
    match c
    case Atom(name, args) => [Word(name)] + Words(args)
    case Group(inner) => [Open] + Tokens(inner) + [Close]
    case Chain(left, op, right) => Tokens(left) + [Keyword(op)] + Tokens(right)
  }

  /** The condition a derivation stands for; parentheses only group. */
  function Meaning(c: Cst): Expr {
    match c
    case Atom(name, args) => Event(name, args)
    case Group(inner) => Meaning(inner)
    case Chain(left, op, right) => Binary(op, Meaning(left), Meaning(right))
  }

  // ----- everything derived is accepted -----

  /** The state after reading `c` as an operand of state `s`. */
  ghost function After(c: Cst, s: State): State {
    match c
    case Atom(name, args) => State([Operand(name, args)] + s.stack, None)
    case Group(inner) => State(s.stack, Some(Meaning(inner)))
    case Chain(left, op, right) => After(right, State([Pending(op, Meaning(left))] + s.stack, None))
  }

  /** A state in which an operand may start. */
  predicate Ready(s: State) {
    s.root.None? && !OperandOnTop(s.stack)
  }

  /** A state in which an expression may start. */
  predicate Base(s: State) {
    s.root.None? && (s.stack == [] || s.stack[0].Marker?)
  }

  lemma {:induction false} CollectAfter(c: Cst, s: State)
    requires WellFormed(c) && Base(s)
    ensures var a := After(c, s); Collect(a.stack, a.root) == Ok(State(s.stack, Some(Meaning(c))))
  {
    match c {
      case Atom(name, args) =>
        assert ([Operand(name, args)] + s.stack)[1..] == s.stack;
      case Group(_) =>
      case Chain(left, op, right) =>
        var stack := [Pending(op, Meaning(left))] + s.stack;
        assert stack[1..] == s.stack;
        assert Collect(stack, Some(Meaning(right))) == Collect(s.stack, Some(Meaning(c)));
        if right.Atom? {
          assert ([Operand(right.name, right.args)] + stack)[1..] == stack;
        }
    }
  }

  lemma {:induction false} RunWords(name: string, args: seq<string>, stack: seq<Item>)
    requires ValidOrder(args)
    ensures Run(State([Operand(name, [])] + stack, None), Words(args)) == Ok(State([Operand(name, args)] + stack, None))
  {
    var start := State([Operand(name, [])] + stack, None);
    if args != [] {
      var front, last := args[..|args| - 1], args[|args| - 1];
      RunWords(name, front, stack);
      RunAppend(start, Words(front), [Word(last)]);
      var s := State([Operand(name, front)] + stack, None);
      assert front + [last] == args && s.stack[1..] == stack;
      RunOne(s, Word(last));
    }
  }

  lemma RunOne(s: State, t: Token)
    ensures Run(s, [t]) == Step(s, t)
  {
    assert [t][1..] == [];
  }

  lemma {:induction false} RunDerived(c: Cst, s: State)
    requires WellFormed(c) && Ready(s) && (c.Chain? ==> Base(s))
    ensures Run(s, Tokens(c)) == Ok(After(c, s))
    decreases c
  {
    match c {
      case Atom(name, args) =>
        RunAppend(s, [Word(name)], Words(args));
        RunOne(s, Word(name));
        OrderIff(args);
        RunWords(name, args, s.stack);
      case Group(inner) =>
        var open := State([Marker] + s.stack, None);
        RunAppend(s, [Open] + Tokens(inner), [Close]);
        RunAppend(s, [Open], Tokens(inner));
        RunOne(s, Open);
        RunDerived(inner, open);
        CollectAfter(inner, open);
        RunOne(After(inner, open), Close);
        assert open.stack[1..] == s.stack;
      case Chain(left, op, right) =>
        RunAppend(s, Tokens(left) + [Keyword(op)], Tokens(right));
        RunAppend(s, Tokens(left), [Keyword(op)]);
        RunDerived(left, s);
        CollectAfter(left, s);
        RunOne(After(left, s), Keyword(op));
        RunDerived(right, State([Pending(op, Meaning(left))] + s.stack, None));
    }
  }

  /** Every derived sequence of tokens is accepted, as the tree of its derivation. */
  lemma DerivedIsParsed(c: Cst)
    requires WellFormed(c)
    ensures Parse(Tokens(c)) == Ok(Meaning(c))
  {
    RunDerived(c, START);
    CollectAfter(c, START);
  }

  // ----- everything accepted is derived -----

  /** A stack entry with the derivation of what it was built from. */
  datatype Entry = Parenthesis | Waiting(op: Op, left: Cst) | Named(name: string, args: seq<string>)

  datatype Trail = Trail(entries: seq<Entry>, root: Option<Cst>)

  function ItemOf(e: Entry): Item {
    match e
    case Parenthesis => Marker
    case Waiting(op, left) => Pending(op, Meaning(left))
    case Named(name, args) => Operand(name, args)
  }

  function StackOf(entries: seq<Entry>): (r: seq<Item>)
    ensures |r| == |entries|
  {
    if entries == [] then [] else [ItemOf(entries[0])] + StackOf(entries[1..])
  }

  function StateOf(t: Trail): State {
    State(StackOf(t.entries), if t.root.None? then None else Some(Meaning(t.root.value)))
  }

  function EntryTokens(e: Entry): seq<Token> {
    match e
    case Parenthesis => [Open]
    case Waiting(op, left) => Tokens(left) + [Keyword(op)]
    case Named(name, args) => [Word(name)] + Words(args)
  }

  /** What has been read: the entries from the bottom up, then the root. */
  function Read(entries: seq<Entry>): seq<Token> {
    if entries == [] then [] else Read(entries[1..]) + EntryTokens(entries[0])
  }

  function ReadAll(t: Trail): seq<Token> {
    Read(t.entries) + if t.root.Some? then Tokens(t.root.value) else []
  }

  /** Between parentheses there is at most one waiting operator, with at most one event
      above it, and what is waiting is well formed. */
  ghost predicate Layered(entries: seq<Entry>) {
    entries != [] ==>
      && Layered(entries[1..])
      && match entries[0]
         case Parenthesis => |entries| == 1 || !entries[1].Named?
         case Waiting(_, left) => WellFormed(left) && (|entries| == 1 || entries[1].Parenthesis?)
         case Named(_, args) => ValidOrder(args) && (|entries| == 1 || !entries[1].Named?)
  }

  /** A root is a single operand, with no event waiting beside it. */
  ghost predicate Sound(t: Trail) {
    && Layered(t.entries)
    && (t.root.Some? ==>
        && WellFormed(t.root.value) && !t.root.value.Chain?
        && (t.entries != [] ==> !t.entries[0].Named?))
  }

  /** A second operand where an operator was expected: nothing accepts that any more. */
  predicate Doomed(s: State) {
    s.root.Some? && OperandOnTop(s.stack)
  }

  lemma {:induction false} DoomedFails(s: State, tokens: seq<Token>)
    requires Doomed(s)
    ensures Run(s, tokens).Ok? ==> Doomed(Run(s, tokens).value)
    ensures forall d :: Doomed(d) ==> Finish(d).Fail?
    decreases tokens
  {
    if tokens != [] {
      var s' := Step(s, tokens[0]);
      if s'.Ok? { DoomedFails(s'.value, tokens[1..]); }
    }
  }

  /** Collecting keeps what has been read, as one derivation in place of the entries. */
  lemma CollectTrail(t: Trail) returns (t': Trail)
    requires Sound(t) && (t.root.Some? || (t.entries != [] && t.entries[0].Named?))
    ensures t'.root.Some? && WellFormed(t'.root.value) && Layered(t'.entries)
    ensures t'.entries == [] || t'.entries[0].Parenthesis?
    ensures var s := StateOf(t); Collect(s.stack, s.root) == Ok(StateOf(t'))
    ensures ReadAll(t') == ReadAll(t)
  {
    var s := StateOf(t);
    var u := t;
    if t.root.None? {
      u := Trail(t.entries[1..], Some(Atom(t.entries[0].name, t.entries[0].args)));
      CollectEvent(t, u);
    }
    t' := u;
    if u.entries != [] && u.entries[0].Waiting? {
      t' := Trail(u.entries[1..], Some(Chain(u.entries[0].left, u.entries[0].op, u.root.value)));
      CollectOperator(u, t');
    }
  }

  lemma CollectEvent(t: Trail, t': Trail)
    requires Sound(t) && t.root.None? && t.entries != [] && t.entries[0].Named?
    requires t' == Trail(t.entries[1..], Some(Atom(t.entries[0].name, t.entries[0].args)))
    ensures Sound(t') && ReadAll(t') == ReadAll(t)
    ensures var s, s' := StateOf(t), StateOf(t'); Collect(s.stack, s.root) == Collect(s'.stack, s'.root)
  {
    OrderIff(t.entries[0].args);
    assert StateOf(t).stack[1..] == StateOf(t').stack;
  }

  lemma CollectOperator(t: Trail, t': Trail)
    requires Sound(t) && t.root.Some? && t.entries != [] && t.entries[0].Waiting?
    requires t' == Trail(t.entries[1..], Some(Chain(t.entries[0].left, t.entries[0].op, t.root.value)))
    ensures WellFormed(t'.root.value) && ReadAll(t') == ReadAll(t)
    ensures var s, s' := StateOf(t), StateOf(t'); Collect(s.stack, s.root) == Collect(s'.stack, s'.root)
  {
    assert StateOf(t).stack[1..] == StateOf(t').stack;
    var below, left, op, right := Read(t'.entries), Tokens(t.entries[0].left),
      [Keyword(t.entries[0].op)], Tokens(t.root.value);
    assert below + (left + op) + right == below + (left + op + right);
  }

  /** When collecting fails from a sound trail there is no operand to collect. */
  lemma NothingToCollect(t: Trail)
    requires Sound(t) && t.root.None? && (t.entries == [] || !t.entries[0].Named?)
    ensures var s := StateOf(t); Collect(s.stack, s.root).Fail?
  {
  }

  /** The machine follows the trail, which records the token. */
  ghost predicate Follows(t: Trail, token: Token, t': Trail) {
    Sound(t') && Step(StateOf(t), token) == Ok(StateOf(t')) && ReadAll(t') == ReadAll(t) + [token]
  }

  lemma OpenTrail(t: Trail)
    requires Sound(t) && Step(StateOf(t), Open).Ok?
    ensures Follows(t, Open, Trail([Parenthesis] + t.entries, None))
  {
    assert ([Parenthesis] + t.entries)[1..] == t.entries;
  }

  lemma CloseTrail(t: Trail) returns (t': Trail)
    requires Sound(t) && Step(StateOf(t), Close).Ok?
    ensures Follows(t, Close, t')
  {
    if t.root.None? && (t.entries == [] || !t.entries[0].Named?) { NothingToCollect(t); }
    var u := CollectTrail(t);
    t' := Trail(u.entries[1..], Some(Group(u.root.value)));
    CloseGroup(t, u, t');
  }

  lemma CloseGroup(t: Trail, u: Trail, t': Trail)
    requires Sound(t) && u.root.Some? && WellFormed(u.root.value) && Layered(u.entries)
    requires u.entries != [] && u.entries[0].Parenthesis?
    requires var s := StateOf(t); Collect(s.stack, s.root) == Ok(StateOf(u))
    requires ReadAll(u) == ReadAll(t) && t' == Trail(u.entries[1..], Some(Group(u.root.value)))
    ensures Follows(t, Close, t')
  {
    assert StateOf(u).stack[1..] == StackOf(t'.entries);
    var below, body := Read(t'.entries), Tokens(u.root.value);
    assert ReadAll(u) == below + [Open] + body;
    assert below + ([Open] + body + [Close]) == (below + [Open]) + body + [Close];
  }

  lemma KeywordTrail(t: Trail, op: Op) returns (t': Trail)
    requires Sound(t) && Step(StateOf(t), Keyword(op)).Ok?
    ensures Follows(t, Keyword(op), t')
  {
    if t.root.None? && (t.entries == [] || !t.entries[0].Named?) { NothingToCollect(t); }
    var u := CollectTrail(t);
    t' := Trail([Waiting(op, u.root.value)] + u.entries, None);
    assert t'.entries[1..] == u.entries;
    var below, left := Read(u.entries), Tokens(u.root.value);
    assert below + (left + [Keyword(op)]) + [] == below + left + [Keyword(op)];
  }

  lemma ArgumentTrail(t: Trail, text: string) returns (t': Trail)
    requires Sound(t) && t.entries != [] && t.entries[0].Named? && Step(StateOf(t), Word(text)).Ok?
    ensures Follows(t, Word(text), t')
  {
    var name, args, below := t.entries[0].name, t.entries[0].args, t.entries[1..];
    t' := Trail([Named(name, args + [text])] + below, None);
    assert t'.entries[1..] == below && StateOf(t).stack[1..] == StackOf(below);
    assert (args + [text])[..|args|] == args;
    var read, words := Read(below), Words(args);
    assert read + ([Word(name)] + (words + [Word(text)])) + []
        == read + ([Word(name)] + words) + [] + [Word(text)];
  }

  lemma NameTrail(t: Trail, text: string)
    requires Sound(t) && t.root.None? && (t.entries == [] || !t.entries[0].Named?)
    ensures Follows(t, Word(text), Trail([Named(text, [])] + t.entries, None))
  {
    assert ([Named(text, [])] + t.entries)[1..] == t.entries;
  }

  /** One token: the machine follows the trail, or the parse can no longer succeed. */
  lemma StepTrail(t: Trail, token: Token) returns (t': Trail)
    requires Sound(t) && Step(StateOf(t), token).Ok?
    ensures Doomed(Step(StateOf(t), token).value) || Follows(t, token, t')
  {
    t' := t;
    match token {
      case Open =>
        OpenTrail(t);
        t' := Trail([Parenthesis] + t.entries, None);
      case Close => t' := CloseTrail(t);
      case Keyword(op) => t' := KeywordTrail(t, op);
      case Word(text) =>
        if t.entries != [] && t.entries[0].Named? {
          t' := ArgumentTrail(t, text);
        } else if t.root.None? {
          NameTrail(t, text);
          t' := Trail([Named(text, [])] + t.entries, None);
        }
    }
  }

  lemma Regrouped(read: seq<Token>, first: Token, tokens: seq<Token>)
    requires tokens != [] && tokens[0] == first
    ensures read + [first] + tokens[1..] == read + tokens
  {
  }

  lemma {:induction false} RunTrail(t: Trail, tokens: seq<Token>) returns (t': Trail)
    requires Sound(t) && Run(StateOf(t), tokens).Ok?
    ensures var s := Run(StateOf(t), tokens).value;
      Doomed(s) || (Sound(t') && s == StateOf(t') && ReadAll(t') == ReadAll(t) + tokens)
    decreases tokens
  {
    t' := t;
    if tokens == [] {
      assert ReadAll(t) + tokens == ReadAll(t);
    } else {
      var first, rest := tokens[0], tokens[1..];
      var s := Step(StateOf(t), first).value;
      assert Run(StateOf(t), tokens) == Run(s, rest);
      var u := StepTrail(t, first);
      if Doomed(s) {
        DoomedFails(s, rest);
      } else {
        t' := RunTrail(u, rest);
        Regrouped(ReadAll(t), first, tokens);
      }
    }
  }

  /** Every accepted sequence of tokens has a derivation, and the parse is its tree. */
  lemma ParsedIsDerived(tokens: seq<Token>) returns (c: Cst)
    requires Parse(tokens).Ok?
    ensures WellFormed(c) && Tokens(c) == tokens && Parse(tokens) == Ok(Meaning(c))
  {
    var start := Trail([], None);
    assert StateOf(start) == START;
    var s := Run(START, tokens).value;
    var t := RunTrail(start, tokens);
    if Doomed(s) {
      DoomedFails(s, []);
      c := Atom("", []);
    } else {
      if t.root.None? && (t.entries == [] || !t.entries[0].Named?) { NothingToCollect(t); }
      var u := CollectTrail(t);
      c := u.root.value;
      assert ReadAll(start) + tokens == tokens;
      assert Read([]) + Tokens(c) == Tokens(c);
      assert StateOf(u).stack == [];
    }
  }

  /** The parser accepts exactly what the grammar derives, and builds its tree. */
  lemma ParseIffDerived(tokens: seq<Token>, e: Expr)
    ensures Parse(tokens) == Ok(e) <==> exists c :: WellFormed(c) && Tokens(c) == tokens && Meaning(c) == e
  {
    if Parse(tokens) == Ok(e) {
      var c := ParsedIsDerived(tokens);
    }
    if c :| WellFormed(c) && Tokens(c) == tokens && Meaning(c) == e {
      DerivedIsParsed(c);
    }
  }

  // ----- which error is raised -----

  lemma RunThenFails(front: seq<Token>, s: State, t: Token, rest: seq<Token>)
    requires Run(START, front) == Ok(s) && Step(s, t).Fail?
    ensures Parse(front + [t] + rest) == Fail(Step(s, t).error)
  {
    assert front + [t] + rest == front + ([t] + rest);
    RunAppend(START, front, [t] + rest);
    assert ([t] + rest)[1..] == rest;
  }

  /** A parenthesis without its partner. */
  lemma Unbalanced(c: Cst, rest: seq<Token>)
    requires WellFormed(c)
    ensures Parse(Tokens(c) + [Close] + rest) == Fail(MismatchedParens)
    ensures Parse([Open] + Tokens(c)) == Fail(MismatchedParens)
  {
    RunDerived(c, START);
    CollectAfter(c, START);
    RunThenFails(Tokens(c), After(c, START), Close, rest);
    var open := State([Marker], None);
    assert [Marker] + [] == [Marker];
    RunOne(START, Open);
    RunAppend(START, [Open], Tokens(c));
    RunDerived(c, open);
    CollectAfter(c, open);
  }

  /** Where a condition should begin there is an operator, a closing parenthesis or
      nothing. */
  lemma EventMissing(c: Cst, op: Op, op': Op, rest: seq<Token>)
    requires WellFormed(c)
    ensures Parse([]) == Fail(ExpectedEvent)
    ensures Parse([Keyword(op)] + rest) == Fail(ExpectedEvent)
    ensures Parse([Open] + [Close] + rest) == Fail(ExpectedEvent)
    ensures Parse(Tokens(c) + [Keyword(op)]) == Fail(ExpectedEvent)
    ensures Parse(Tokens(c) + [Keyword(op)] + [Keyword(op')] + rest) == Fail(ExpectedEvent)
  {
    assert [] + [Keyword(op)] + rest == [Keyword(op)] + rest;
    RunThenFails([], START, Keyword(op), rest);
    RunOne(START, Open);
    assert [Marker] + [] == [Marker];
    RunThenFails([Open], State([Marker], None), Close, rest);
    RunDerived(c, START);
    CollectAfter(c, START);
    RunAppend(START, Tokens(c), [Keyword(op)]);
    RunOne(After(c, START), Keyword(op));
    var s := State([Pending(op, Meaning(c))], None);
    assert [Pending(op, Meaning(c))] + [] == [Pending(op, Meaning(c))];
    RunThenFails(Tokens(c) + [Keyword(op)], s, Keyword(op'), rest);
  }

  /** A condition follows another one with no operator between them. */
  lemma OperatorMissing(c: Cst, word: string, rest: seq<Token>)
    requires WellFormed(c)
    ensures Parse(Tokens(c) + [Open] + rest) == Fail(ExpectedOperator)
    ensures Parse(Tokens(Group(c)) + [Word(word)]) == Fail(ExpectedOperator)
  {
    RunDerived(c, START);
    LastOperand(c, START);
    RunThenFails(Tokens(c), After(c, START), Open, rest);
    RunDerived(Group(c), START);
    RunAppend(START, Tokens(Group(c)), [Word(word)]);
    RunOne(After(Group(c), START), Word(word));
    assert ([Operand(word, [])] + [])[1..] == [];
  }

  /** After a condition nothing but an operator can come, an argument apart. */
  lemma {:induction false} LastOperand(c: Cst, s: State)
    requires WellFormed(c)
    ensures var a := After(c, s); a.root.Some? || OperandOnTop(a.stack)
  {
    if c.Chain? { LastOperand(c.right, State([Pending(c.op, Meaning(c.left))] + s.stack, None)); }
  }

  /** A positional argument follows a named one. */
  lemma VariableMissing(name: string, args: seq<string>, i: nat, word: string, rest: seq<Token>)
    requires PositionalFirst(args) && i < |args| && '=' in args[i] && '=' !in word
    ensures Parse(Tokens(Atom(name, args)) + [Word(word)] + rest) == Fail(ExpectedVariable)
  {
    RunDerived(Atom(name, args), START);
    var more := args + [word];
    assert '=' in more[i] && '=' !in more[|args|];
    RunThenFails(Tokens(Atom(name, args)), After(Atom(name, args), START), Word(word), rest);
  }

  // ----- lines -----

  function Join(lines: seq<seq<Token>>): seq<Token> {
    if lines == [] then [] else Join(lines[..|lines| - 1]) + lines[|lines| - 1]
  }

  /** Open parentheses less closed ones. */
  function Depth(tokens: seq<Token>): int {
    if tokens == [] then 0
    else Depth(tokens[..|tokens| - 1]) + match tokens[|tokens| - 1]
      case Open => 1
      case Close => -1
      case _ => 0
  }

  lemma StepDepth(s: State, t: Token)
    requires Step(s, t).Ok?
    ensures Markers(Step(s, t).value.stack) == Markers(s.stack) + Depth([t])
  {
    assert [t][..0] == [];
    CollectKeepsMarkers(s.stack, s.root);
    var stack' := Step(s, t).value.stack;
    match t {
      case Open => assert stack'[1..] == s.stack;
      case Close =>
      case Keyword(op) => assert stack'[1..] == Collect(s.stack, s.root).value.stack;
      case Word(text) => assert OperandOnTop(s.stack) || stack'[1..] == s.stack;
    }
  }

  lemma {:induction false} RunDepth(tokens: seq<Token>)
    requires Run(START, tokens).Ok?
    ensures Markers(Run(START, tokens).value.stack) == Depth(tokens)
  {
    if tokens != [] {
      var front, last := tokens[..|tokens| - 1], tokens[|tokens| - 1];
      assert front + [last] == tokens && [last][..0] == [];
      RunAppend(START, front, [last]);
      RunDepth(front);
      RunOne(Run(START, front).value, last);
      StepDepth(Run(START, front).value, last);
    }
  }

  /** The stanza takes `k` lines: none of them is empty, parentheses are open at the end
      of each but the last, and together they are the condition `e`. */
  ghost predicate Taken(lines: seq<seq<Token>>, k: nat, e: Expr) {
    && 1 <= k <= |lines|
    && (forall j :: 0 <= j < k ==> lines[j] != [])
    && (forall j :: 1 <= j < k ==> Depth(Join(lines[..j])) > 0)
    && Parse(Join(lines[..k])) == Ok(e)
  }

  lemma JoinNext(lines: seq<seq<Token>>, k: nat)
    requires k < |lines|
    ensures Join(lines[..k + 1]) == Join(lines[..k]) + lines[k]
  {
    assert lines[..k + 1][..k] == lines[..k];
  }

  lemma ParsedDepth(tokens: seq<Token>)
    requires Parse(tokens).Ok?
    ensures Depth(tokens) == 0
  {
    var s := Run(START, tokens).value;
    RunDepth(tokens);
    CollectKeepsMarkers(s.stack, s.root);
  }

  lemma {:induction false} RunPrefixOk(lines: seq<seq<Token>>, j: nat, k: nat)
    requires j <= k <= |lines| && Run(START, Join(lines[..k])).Ok?
    ensures Run(START, Join(lines[..j])).Ok?
    decreases k
  {
    if j < k {
      JoinNext(lines, k - 1);
      RunAppend(START, Join(lines[..k - 1]), lines[k - 1]);
      RunPrefixOk(lines, j, k - 1);
    }
  }

  /** The first lines have been read and the next is to be. */
  ghost predicate Reading(lines: seq<seq<Token>>, read: nat, s: State) {
    && read < |lines| && Run(START, Join(lines[..read])) == Ok(s)
    && (forall j :: 0 <= j < read ==> lines[j] != [])
    && (forall j :: 1 <= j <= read ==> Depth(Join(lines[..j])) > 0)
  }

  lemma NextLine(lines: seq<seq<Token>>, read: nat, s: State)
    requires Reading(lines, read, s)
    ensures Run(START, Join(lines[..read + 1])) == Run(s, lines[read])
  {
    JoinNext(lines, read);
    RunAppend(START, Join(lines[..read]), lines[read]);
  }

  lemma BadLine(lines: seq<seq<Token>>, read: nat, s: State, e: Expr, k: nat)
    requires Reading(lines, read, s) && (lines[read] == [] || Run(s, lines[read]).Fail?) && k > read
    ensures !Taken(lines, k, e)
  {
    NextLine(lines, read, s);
    if Taken(lines, k, e) { RunPrefixOk(lines, read + 1, k); }
  }

  lemma LastLine(lines: seq<seq<Token>>, read: nat, s: State, e: Expr, k: nat)
    requires Reading(lines, read, s) && lines[read] != [] && Run(s, lines[read]).Ok?
    requires read + 1 == |lines| || Markers(Run(s, lines[read]).value.stack) == 0
    ensures Taken(lines, k, e) && k > read <==> Finish(Run(s, lines[read]).value) == Ok(e) && k == read + 1
  {
    NextLine(lines, read, s);
    RunDepth(Join(lines[..read + 1]));
    if k > read + 1 && k <= |lines| { assert !(Depth(Join(lines[..read + 1])) > 0); }
  }

  lemma {:induction false} RunLinesFrom(lines: seq<seq<Token>>, read: nat, s: State, e: Expr, k: nat)
    requires Reading(lines, read, s)
    ensures RunLines(s, lines, read) == Ok((e, k)) <==> Taken(lines, k, e) && k > read
    decreases |lines| - read
  {
    var r := Run(s, lines[read]);
    if lines[read] == [] || r.Fail? {
      if k > read { BadLine(lines, read, s, e, k); }
    } else if read + 1 < |lines| && Markers(r.value.stack) > 0 {
      NextLine(lines, read, s);
      var tokens := Join(lines[..read + 1]);
      RunDepth(tokens);
      RunLinesFrom(lines, read + 1, r.value, e, k);
      if Parse(tokens).Ok? { ParsedDepth(tokens); }
    } else {
      LastLine(lines, read, s, e, k);
    }
  }

  /** A stanza is read over exactly the lines the grammar needs. */
  lemma LinesTaken(lines: seq<seq<Token>>, e: Expr, k: nat)
    requires lines != []
    ensures RunLines(START, lines, 0) == Ok((e, k)) <==> Taken(lines, k, e)
  {
    assert lines[..0] == [];
    RunLinesFrom(lines, 0, START, e, k);
  }
}
