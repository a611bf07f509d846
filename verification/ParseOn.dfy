/** The "start on" and "stop on" parser of init/parse_job.c: a stack machine over the
    tokens of one or more lines. */
module ParseOn {
  import opened Options
  import opened Operators

  /** A word that is one of the operators, unquoted, is a keyword. */
  datatype Token = Open | Close | Keyword(op: Op) | Word(text: string)

  /** A parsed condition. */
  datatype Expr = Event(name: string, args: seq<string>) | Binary(op: Op, left: Expr, right: Expr)

  datatype Error = ExpectedToken | ExpectedOperator | ExpectedEvent | ExpectedVariable | MismatchedParens

  datatype Result<+T> = Ok(value: T) | Fail(error: Error) {
    predicate IsFailure() { Fail? }
    function PropagateFailure<U>(): Result<U> requires Fail? { Fail(error) }
    function Extract(): T requires Ok? { value }
  }

  /** Entries of the parser's stack, the top one first: an open parenthesis, an operator
      with its left operand, or an event. */
  datatype Item = Marker | Pending(op: Op, left: Expr) | Operand(name: string, args: seq<string>)

  datatype State = State(stack: seq<Item>, root: Option<Expr>)

  /** No positional argument follows a named one. */
  predicate ValidOrder(args: seq<string>) {
    forall i, j :: 0 <= i < j < |args| && '=' in args[i] ==> '=' in args[j]
  }

  // ----- the machine -----

  /** parse_on_collect: fold the stack into the root, down to an open parenthesis. */
  function Collect(stack: seq<Item>, root: Option<Expr>): (r: Result<State>)
    ensures r.Ok? ==> r.value.root.Some?
  {
    if stack == [] || stack[0].Marker? then
      if root.None? then Fail(ExpectedEvent) else Ok(State(stack, root))
    else match stack[0]
      case Pending(op, left) =>
        if root.None? then Fail(ExpectedEvent)
        else Collect(stack[1..], Some(Binary(op, left, root.value)))
      case Operand(name, args) =>
        if root.Some? then Fail(ExpectedOperator)
        else Collect(stack[1..], Some(Event(name, args)))
  }

  predicate OperandOnTop(stack: seq<Item>) {
    stack != [] && stack[0].Operand?
  }

  function Step(s: State, t: Token): Result<State> {
    match t
    case Open =>
      if s.root.Some? || OperandOnTop(s.stack) then Fail(ExpectedOperator)
      else Ok(State([Marker] + s.stack, None))
    case Close =>
      var c :- Collect(s.stack, s.root);
      if c.stack == [] then Fail(MismatchedParens) else Ok(State(c.stack[1..], c.root))
    case Keyword(op) =>
      var c :- Collect(s.stack, s.root);
      Ok(State([Pending(op, c.root.value)] + c.stack, None))
    case Word(text) =>
      if OperandOnTop(s.stack) then
        var args := s.stack[0].args + [text];
        if ValidOrder(args) then Ok(State([s.stack[0].(args := args)] + s.stack[1..], s.root))
        else Fail(ExpectedVariable)
      else Ok(State([Operand(text, [])] + s.stack, s.root))
  }

  function Run(s: State, tokens: seq<Token>): Result<State>
    decreases tokens
  {
    if tokens == [] then Ok(s)
    else
      var s' :- Step(s, tokens[0]);
      Run(s', tokens[1..])
  }

  /** The end of the stanza: everything must fold into one condition. */
  function Finish(s: State): Result<Expr> {
    var c :- Collect(s.stack, s.root);
    if c.stack != [] then Fail(MismatchedParens) else Ok(c.root.value)
  }

  const START := State([], None)

  function Parse(tokens: seq<Token>): Result<Expr> {
    var s :- Run(START, tokens);
    Finish(s)
  }

  function Markers(stack: seq<Item>): nat {
    if stack == [] then 0 else (if stack[0].Marker? then 1 else 0) + Markers(stack[1..])
  }

  /** Lines are read while a parenthesis is open; a line must hold a token.  The result
      is the condition and how many lines it took. */
  function RunLines(s: State, lines: seq<seq<Token>>, read: nat): Result<(Expr, nat)>
    requires read < |lines|
    decreases |lines| - read
  {
    if lines[read] == [] then Fail(ExpectedToken)
    else
      var s' :- Run(s, lines[read]);
      if read + 1 < |lines| && Markers(s'.stack) > 0 then RunLines(s', lines, read + 1)
      else
        var e :- Finish(s');
        Ok((e, read + 1))
  }

  // ----- the parser -----

  lemma {:induction false} RunAppend(s: State, a: seq<Token>, b: seq<Token>)
    ensures Run(s, a + b) == match Run(s, a) case Ok(m) => Run(m, b) case Fail(e) => Fail(e)
    decreases a
  {
    if a == [] {
      assert a + b == b;
    } else {
      assert (a + b)[1..] == a[1..] + b;
      var s' := Step(s, a[0]);
      if s'.Ok? { RunAppend(s'.value, a[1..], b); }
    }
  }

  lemma {:induction false} CollectKeepsMarkers(stack: seq<Item>, root: Option<Expr>)
    ensures var c := Collect(stack, root);
      c.Ok? ==> Markers(c.value.stack) == Markers(stack)
                && (c.value.stack == [] || c.value.stack[0].Marker?)
  {
    if stack != [] && !stack[0].Marker? {
      if stack[0].Pending? && root.Some? {
        CollectKeepsMarkers(stack[1..], Some(Binary(stack[0].op, stack[0].left, root.value)));
      } else if stack[0].Operand? && root.None? {
        CollectKeepsMarkers(stack[1..], Some(Event(stack[0].name, stack[0].args)));
      }
    }
  }

  class Parser {
    var stack: seq<Item>
    var root: Option<Expr>
    var paren: int

    ghost function Current(): State
      reads this
    {
      State(stack, root)
    }

    /** The parser did to its state what the machine does. */
    ghost predicate Did(r: Result<State>, error: Option<Error>)
      reads this
    {
      match r
      case Ok(s) => error == None && Current() == s && paren == Markers(stack)
      case Fail(e) => error == Some(e)
    }

    constructor ()
      ensures Current() == START && paren == 0
    {
      stack, root, paren := [], None, 0;
    }

    /** parse_on_collect. */
    method CollectStack() returns (error: Option<Error>)
      modifies this`stack, this`root
      ensures
        var r := old(Collect(stack, root));
        if r.Ok? then error == None && Current() == r.value else error == Some(r.error)
    {
      while stack != [] && !stack[0].Marker?
        invariant Collect(stack, root) == old(Collect(stack, root))
        decreases |stack|
      {
        var item := stack[0];
        stack := stack[1..];
        match item {
          case Pending(op, left) =>
            if root.None? { return Some(ExpectedEvent); }
            root := Some(Binary(op, left, root.value));
          case Operand(name, args) =>
            if root.Some? { return Some(ExpectedOperator); }
            root := Some(Event(name, args));
        }
      }
      if root.None? { return Some(ExpectedEvent); }
      return None;
    }

    /** parse_on_paren. */
    method Paren(t: Token) returns (error: Option<Error>)
      requires (t == Open || t == Close) && paren == Markers(stack)
      modifies this
      ensures Did(old(Step(Current(), t)), error)
    {
      ghost var before := Current();
      match t {
        case Open =>
          paren := paren + 1;
          if root.Some? || OperandOnTop(stack) { return Some(ExpectedOperator); }
          stack := [Marker] + stack;
          assert stack[1..] == before.stack;
        case Close =>
          paren := paren - 1;
          CollectKeepsMarkers(stack, root);
          error := CollectStack();
          if error.Some? { return; }
          if stack == [] { return Some(MismatchedParens); }
          stack := stack[1..];
      }
      return None;
    }

    /** parse_on_operator. */
    method Operator(t: Token) returns (error: Option<Error>)
      requires (t.Keyword? || t.Word?) && paren == Markers(stack)
      modifies this
      ensures Did(old(Step(Current(), t)), error)
    {
      if t.Word? {
        error := EventWord(t.text);
        return;
      }
      CollectKeepsMarkers(stack, root);
      error := CollectStack();
      if error.Some? { return; }
      ghost var rest := stack;
      stack := [Pending(t.op, root.value)] + stack;
      root := None;
      assert stack[1..] == rest;
    }

    /** parse_on_operand. */
    method EventWord(text: string) returns (error: Option<Error>)
      requires paren == Markers(stack)
      modifies this
      ensures Did(old(Step(Current(), Word(text))), error)
    {
      ghost var before := stack;
      if !OperandOnTop(stack) {
        stack := [Operand(text, [])] + stack;
        assert stack[1..] == before;
        return None;
      }
      var args := stack[0].args + [text];
      stack := [stack[0].(args := args)] + stack[1..];
      assert stack[1..] == before[1..];
      var positional := true;
      for i := 0 to |args|
        invariant ValidOrder(args[..i])
        invariant positional <==> forall k :: 0 <= k < i ==> '=' !in args[k]
      {
        if '=' in args[i] {
          positional := false;
        } else if !positional {
          var k :| 0 <= k < i && '=' in args[k];
          assert !ValidOrder(args);
          return Some(ExpectedVariable);
        }
        assert args[..i + 1] == args[..i] + [args[i]];
      }
      assert args[..|args|] == args;
      return None;
    }

    /** parse_on. */
    method ParseLines(lines: seq<seq<Token>>) returns (r: Result<(Expr, nat)>)
      requires lines != [] && Current() == START && paren == 0
      modifies this
      ensures r == RunLines(START, lines, 0)
    {
      var line, more := 0, true;
      while more
        invariant line <= |lines| && paren == Markers(stack)
        invariant more ==> line < |lines| && RunLines(Current(), lines, line) == RunLines(START, lines, 0)
        invariant !more ==>
          line > 0
          && RunLines(START, lines, 0)
          == (match Finish(Current()) case Ok(e) => Ok((e, line)) case Fail(e) => Fail(e))
        decreases |lines| - line, more
      {
        var tokens := lines[line];
        if tokens == [] { return Fail(ExpectedToken); }
        ghost var at := Current();
        var i := 0;
        while i < |tokens|
          invariant i <= |tokens| && paren == Markers(stack)
          invariant Run(at, tokens) == Run(Current(), tokens[i..])
        {
          var error;
          assert tokens[i..][1..] == tokens[i + 1..];
          if tokens[i] == Open || tokens[i] == Close {
            error := Paren(tokens[i]);
          } else {
            error := Operator(tokens[i]);
          }
          if error.Some? { return Fail(error.value); }
          i := i + 1;
        }
        assert Run(at, tokens) == Ok(Current());
        line := line + 1;
        more := line < |lines| && paren != 0;
      }
      var error := CollectStack();
      if error.Some? { return Fail(error.value); }
      if stack != [] { return Fail(MismatchedParens); }
      return Ok((root.value, line));
    }
  }
}
