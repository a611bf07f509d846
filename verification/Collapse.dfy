/** event_operator_collapse of init/event_operator.c with state_collapse_env of
    init/state.c: a condition printed with a stack of partial expressions, and what the
    parser makes of the text. */
module Collapse {
  import opened Options
  import opened Operators
  import opened ParseOn
  import opened OnGrammar
  import V = Environ

  // ----- printing -----

  predicate HasSpace(s: string) {
    ' ' in s || '\t' in s
  }

  /** A value is quoted if there is whitespace after the first equals sign. */
  predicate IsQuoted(arg: string) {
    '=' in arg && HasSpace(arg[V.Equals(arg)..])
  }

  function ArgText(arg: string): string {
    if IsQuoted(arg) then
      var i := V.Equals(arg);
      arg[..i + 1] + QUOTE + arg[i + 1..] + QUOTE
    else arg
  }

  function EnvText(args: seq<string>): string {
    if args == [] then ""
    else
      var last := |args| - 1;
      EnvText(args[..last]) + (if last == 0 then "" else " ") + ArgText(args[last])
  }

  function EventText(name: string, args: seq<string>): string {
    name + (if args == [] then "" else " ") + EnvText(args)
  }

  function OpText(op: Op): string {
    match op case And => "and" case Or => "or"
  }

  function GroupText(left: string, op: Op, right: string): string {
    "(" + left + " " + OpText(op) + " " + right + ")"
  }

  /** The fully parenthesised text of a condition. */
  function Text(e: Expr): string {
    match e
    case Event(name, args) => EventText(name, args)
    case Binary(op, left, right) => GroupText(Text(left), op, Text(right))
  }

  /** state_collapse_env. */
  method CollapseEnv(env: seq<string>) returns (flattened: string)
    ensures flattened == EnvText(env)
  {
    flattened := "";
    for i := 0 to |env|
      invariant flattened == EnvText(env[..i])
    {
      assert env[..i + 1][..i] == env[..i];
      var elem := env[i];
      flattened := flattened + if i == 0 then "" else " ";
      if IsQuoted(elem) {
        var p := V.Equals(elem);
        flattened := flattened + (elem[..p + 1] + QUOTE + elem[p + 1..] + QUOTE);
      } else {
        flattened := flattened + elem;
      }
    }
    assert env[..|env|] == env;
  }

  method CollapseEvent(name: string, env: seq<string>) returns (text: string)
    ensures text == EventText(name, env)
  {
    var flattened := CollapseEnv(env);
    text := name + (if env == [] then "" else " ") + flattened;
  }

  function PostOrder(e: Expr): (r: seq<Expr>)
    ensures r != [] && r[|r| - 1] == e
  {
    if e.Event? then [e] else PostOrder(e.left) + PostOrder(e.right) + [e]
  }

  /** What visiting a node that is not the root does to the stack, if it can be done. */
  ghost function Visit(e: Expr, stack: seq<string>): Option<seq<string>> {
    if e.Event? then Some(stack)
    else if e.right.Binary? && stack == [] then None
    else
      var right := if e.right.Binary? then stack[0] else EventText(e.right.name, e.right.args);
      var rest := if e.right.Binary? then stack[1..] else stack;
      if e.left.Binary? && rest == [] then None
      else
        var left := if e.left.Binary? then rest[0] else EventText(e.left.name, e.left.args);
        Some([GroupText(left, e.op, right)] + if e.left.Binary? then rest[1..] else rest)
  }

  ghost function VisitAll(list: seq<Expr>, stack: seq<string>): Option<seq<string>>
    decreases list
  {
    if list == [] then Some(stack)
    else match Visit(list[0], stack)
      case None => None
      case Some(s) => VisitAll(list[1..], s)
  }

  lemma {:induction false} VisitAppend(a: seq<Expr>, b: seq<Expr>, stack: seq<string>)
    ensures VisitAll(a + b, stack) == match VisitAll(a, stack) case None => None case Some(s) => VisitAll(b, s)
    decreases a
  {
    if a == [] {
      assert a + b == b;
    } else {
      assert (a + b)[1..] == a[1..] + b;
      var s := Visit(a[0], stack);
      if s.Some? { VisitAppend(a[1..], b, s.value); }
    }
  }

  /** A subtree leaves its own text on the stack, or nothing if it is an event. */
  lemma {:induction false} VisitTree(e: Expr, stack: seq<string>)
    ensures VisitAll(PostOrder(e), stack) == Some((if e.Binary? then [Text(e)] else []) + stack)
  {
    if e.Event? {
      assert [e][1..] == [] && [] + stack == stack;
    } else {
      var l, r := PostOrder(e.left), PostOrder(e.right);
      var afterLeft := (if e.left.Binary? then [Text(e.left)] else []) + stack;
      var afterRight := (if e.right.Binary? then [Text(e.right)] else []) + afterLeft;
      VisitAppend(l + r, [e], stack);
      VisitAppend(l, r, stack);
      VisitTree(e.left, stack);
      VisitTree(e.right, afterLeft);
      assert VisitAll([e], afterRight) == Visit(e, afterRight) by { assert [e][1..] == []; }
      assert e.right.Binary? ==> afterRight[1..] == afterLeft;
      assert e.left.Binary? ==> afterLeft[1..] == stack;
      assert !e.left.Binary? ==> afterLeft == stack;
      assert !e.right.Binary? ==> afterRight == afterLeft;
    }
  }

  /** event_operator_collapse. */
  method CollapseTree(root: Expr) returns (text: string)
    ensures text == Text(root)
  {
    var list := PostOrder(root);
    if root.Event? {
      text := CollapseEvent(root.name, root.args);
      return;
    }
    var stack: seq<string> := [];
    VisitTree(root, []);
    assert list[0..] == list && [Text(root)] + [] == [Text(root)];
    for i := 0 to |list|
      invariant VisitAll(list[i..], stack) == Some([Text(root)])
    {
      var node := list[i];
      assert list[i..][1..] == list[i + 1..];
      if node.Event? { continue; }
      var left, right;
      if node.right.Binary? {
        assert stack != [];
        right, stack := stack[0], stack[1..];
      } else {
        right := CollapseEvent(node.right.name, node.right.args);
      }
      if node.left.Binary? {
        assert stack != [];
        left, stack := stack[0], stack[1..];
      } else {
        left := CollapseEvent(node.left.name, node.left.args);
      }
      stack := [GroupText(left, node.op, right)] + stack;
    }
    assert list[|list|..] == [] && stack == [Text(root)];
    text, stack := stack[0], stack[1..];
    assert stack == [];
  }

  // ----- reading -----

  /** What ends a word outside quotes. */
  predicate Delimits(c: char) {
    c == ' ' || c == '\t' || c == '(' || c == ')'
  }

  /** The length of the word at the start of `s`, unless a quote in it is never closed. */
  function WordEnd(s: string, quoted: bool): (n: Option<nat>)
    ensures n.Some? ==> n.value <= |s|
    ensures n.Some? && s != "" && (quoted || !Delimits(s[0])) ==> n.value > 0
  {
    if s == "" then if quoted then None else Some(0)
    else if !quoted && Delimits(s[0]) then Some(0)
    else
      match WordEnd(s[1..], if s[0] == '"' then !quoted else quoted)
      case None => None
      case Some(n) => Some(n + 1)
  }

  function Dequote(word: string): (r: string)
    ensures '"' !in r
  {
    if word == "" then "" else (if word[0] == '"' then "" else [word[0]]) + Dequote(word[1..])
  }

  /** Operators are told by the word as it stands, quotes included. */
  function WordToken(word: string): Token {
    if word == "and" then Keyword(And) else if word == "or" then Keyword(Or) else Word(Dequote(word))
  }

  /** The tokens of a text without line ends, comments or escapes, unless a quote in it is
      never closed. */
  function Lex(s: string): Option<seq<Token>>
    decreases |s|
  {
    if s == "" then Some([])
    else if s[0] == '(' then Push(Open, Lex(s[1..]))
    else if s[0] == ')' then Push(Close, Lex(s[1..]))
    else if Delimits(s[0]) then Lex(s[1..])
    else
      match WordEnd(s, false)
      case None => None
      case Some(n) => Push(WordToken(s[..n]), Lex(s[n..]))
  }

  function Push(t: Token, r: Option<seq<Token>>): Option<seq<Token>> {
    if r.None? then None else Some([t] + r.value)
  }

  function Prefixed(a: seq<Token>, r: Option<seq<Token>>): Option<seq<Token>> {
    if r.None? then None else Some(a + r.value)
  }

  /** The text is read as that condition. */
  predicate ReadsAs(text: string, e: Expr) {
    var tokens := Lex(text);
    tokens.Some? && Parse(tokens.value) == Ok(e)
  }

  // ----- which conditions -----

  /** No character of a word is one that ends a line, starts a comment or escapes. */
  predicate OrdinaryWord(word: string) {
    forall c :: c in word ==> c !in {'\n', '\r', '#', '\\', '\''}
  }

  predicate Ordinary(e: Expr) {
    match e
    case Event(name, args) => OrdinaryWord(name) && forall i :: 0 <= i < |args| ==> OrdinaryWord(args[i])
    case Binary(_, left, right) => Ordinary(left) && Ordinary(right)
  }

  predicate IsKeyword(text: string) {
    text == "and" || text == "or"
  }

  predicate PlainWords(args: seq<string>) {
    forall i :: 0 <= i < |args| ==> !IsKeyword(args[i])
  }

  /** No event name or argument is spelled like an operator. */
  predicate Plain(e: Expr) {
    match e
    case Event(name, args) => !IsKeyword(name) && PlainWords(args)
    case Binary(_, left, right) => Plain(left) && Plain(right)
  }

  predicate Ordered(e: Expr) {
    match e
    case Event(_, args) => ValidOrder(args)
    case Binary(_, left, right) => Ordered(left) && Ordered(right)
  }

  predicate Solid(s: string) {
    forall c :: c in s ==> !Delimits(c)
  }

  /** The part of an argument that is printed outside quotes. */
  function Bare(arg: string): string {
    if IsQuoted(arg) then arg[..V.Equals(arg) + 1] else arg
  }

  predicate ReadableName(name: string) {
    name != "" && '"' !in name && Solid(name)
  }

  predicate ReadableArg(arg: string) {
    arg != "" && '"' !in arg && Solid(Bare(arg))
  }

  predicate ReadableArgs(args: seq<string>) {
    forall i :: 0 <= i < |args| ==> ReadableArg(args[i])
  }

  /** No word is empty or holds a quotation mark, and none holds whitespace or a
      parenthesis outside a quoted value. */
  predicate Readable(e: Expr) {
    match e
    case Event(name, args) => ReadableName(name) && ReadableArgs(args)
    case Binary(_, left, right) => Readable(left) && Readable(right)
  }

  /** The same, but for words that may be empty. */
  predicate SolidArgs(args: seq<string>) {
    forall i :: 0 <= i < |args| ==> '"' !in args[i] && Solid(Bare(args[i]))
  }

  predicate SolidWords(e: Expr) {
    match e
    case Event(name, args) => '"' !in name && Solid(name) && SolidArgs(args)
    case Binary(_, left, right) => SolidWords(left) && SolidWords(right)
  }

  // ----- what the text is read as -----

  /** An empty word prints as nothing. */
  function Seen(word: string): seq<Token> {
    if word == "" then [] else [if IsKeyword(word) then WordToken(word) else Word(word)]
  }

  function SeenArgs(args: seq<string>): seq<Token> {
    if args == [] then [] else SeenArgs(args[..|args| - 1]) + Seen(args[|args| - 1])
  }

  function SeenTokens(e: Expr): seq<Token> {
    match e
    case Event(name, args) => Seen(name) + SeenArgs(args)
    case Binary(op, left, right) => [Open] + SeenTokens(left) + [Keyword(op)] + SeenTokens(right) + [Close]
  }

  predicate Ends(rest: string) {
    rest == "" || Delimits(rest[0])
  }

  /** A word goes on past characters that do not end it. */
  lemma {:induction false} WordGoesOn(w: string, t: string)
    requires '"' !in w && Solid(w)
    ensures WordEnd(w + t, false) ==
      match WordEnd(t, false) { case None => None case Some(n) => Some(|w| + n) }
  {
    if w == "" {
      assert w + t == t;
    } else {
      assert (w + t)[1..] == w[1..] + t && w[0] in w;
      WordGoesOn(w[1..], t);
    }
  }

  lemma {:induction false} DequotePlain(w: string)
    requires '"' !in w
    ensures Dequote(w) == w
  {
    if w != "" {
      DequotePlain(w[1..]);
      assert [w[0]] + w[1..] == w && w[0] in w;
    }
  }

  lemma {:induction false} DequoteAppend(a: string, b: string)
    ensures Dequote(a + b) == Dequote(a) + Dequote(b)
  {
    if a == "" {
      assert a + b == b;
    } else {
      assert (a + b)[1..] == a[1..] + b;
      DequoteAppend(a[1..], b);
    }
  }

  lemma BareWordEnd(w: string, rest: string)
    requires '"' !in w && Solid(w) && Ends(rest)
    ensures WordEnd(w + rest, false) == Some(|w|) && Dequote(w) == w
  {
    WordGoesOn(w, rest);
    DequotePlain(w);
  }

  const QUOTE := "\""

  lemma {:induction false} QuotedEnd(value: string, rest: string)
    requires '"' !in value && Ends(rest)
    ensures WordEnd(value + (QUOTE + rest), true) == Some(|value| + 1)
  {
    var s := value + (QUOTE + rest);
    if value == "" {
      assert s[0] == '"' && s[1..] == rest;
    } else {
      assert s[1..] == value[1..] + (QUOTE + rest) && value[0] in value;
      QuotedEnd(value[1..], rest);
    }
  }

  lemma KeyThen(key: string, t: string, n: nat)
    requires '"' !in key && Solid(key) && WordEnd(t, false) == Some(n)
    ensures WordEnd(key + t, false) == Some(|key| + n)
  {
    WordGoesOn(key, t);
  }

  lemma OpensQuote(t: string)
    ensures WordEnd(QUOTE + t, false) == match WordEnd(t, true) { case None => None case Some(n) => Some(n + 1) }
  {
    assert (QUOTE + t)[1..] == t;
  }

  lemma KeyDequoted(key: string, value: string)
    requires '"' !in key && '"' !in value
    ensures Dequote(key + QUOTE + value + QUOTE) == key + value
  {
    DequotePlain(key);
    DequotePlain(value);
    DropsQuote(key);
    DequoteAppend(key + QUOTE, value);
    DropsQuote(key + QUOTE + value);
  }

  lemma DropsQuote(t: string)
    ensures Dequote(t + QUOTE) == Dequote(t)
  {
    DequoteAppend(t, QUOTE);
    assert Dequote(QUOTE) == "" by { assert QUOTE[1..] == ""; }
    assert Dequote(t) + "" == Dequote(t);
  }

  lemma Apart(a: string, b: string, c: string, d: string, e: string)
    ensures a + b + c + d + e == a + (b + (c + (d + e)))
  {
  }

  lemma LexWord(w: string, rest: string)
    requires w != "" && !Delimits(w[0]) && WordEnd(w + rest, false) == Some(|w|)
    ensures Lex(w + rest) == Push(WordToken(w), Lex(rest))
  {
    assert (w + rest)[..|w|] == w && (w + rest)[|w|..] == rest;
  }

  lemma LexName(name: string, rest: string)
    requires '"' !in name && Solid(name) && Ends(rest)
    ensures Lex(name + rest) == Prefixed(Seen(name), Lex(rest))
  {
    if name == "" {
      assert name + rest == rest;
      assert Lex(rest).Some? ==> [] + Lex(rest).value == Lex(rest).value;
    } else {
      assert name[0] in name;
      BareWordEnd(name, rest);
      LexWord(name, rest);
    }
  }

  lemma LexArg(arg: string, rest: string)
    requires '"' !in arg && Solid(Bare(arg)) && Ends(rest)
    ensures Lex(ArgText(arg) + rest) == Prefixed(Seen(arg), Lex(rest))
  {
    if IsQuoted(arg) {
      LexQuoted(arg, rest);
    } else {
      LexName(arg, rest);
    }
  }

  lemma LexQuoted(arg: string, rest: string)
    requires IsQuoted(arg) && '"' !in arg && Solid(Bare(arg)) && Ends(rest)
    ensures Lex(ArgText(arg) + rest) == Prefixed([Word(arg)], Lex(rest)) && !IsKeyword(arg)
  {
    QuotedEnds(arg, rest);
    QuotedIsNoKeyword(arg);
    FirstOfKey(arg);
    LexWord(ArgText(arg), rest);
  }

  lemma QuotedEnds(arg: string, rest: string)
    requires IsQuoted(arg) && '"' !in arg && Solid(Bare(arg)) && Ends(rest)
    ensures WordEnd(ArgText(arg) + rest, false) == Some(|ArgText(arg)|) && Dequote(ArgText(arg)) == arg
  {
    var i := V.Equals(arg);
    var key, value := arg[..i + 1], arg[i + 1..];
    NoQuoteParts(arg, i + 1);
    KeyDequoted(key, value);
    assert key + value == arg;
    QuotedEnd(value, rest);
    KeyAndValue(key, value, rest);
  }

  /** A key and its quoted value are one word. */
  lemma KeyAndValue(key: string, value: string, rest: string)
    requires '"' !in key && Solid(key) && WordEnd(value + (QUOTE + rest), true) == Some(|value| + 1)
    ensures WordEnd(key + QUOTE + value + QUOTE + rest, false) == Some(|key + QUOTE + value + QUOTE|)
  {
    var t := value + (QUOTE + rest);
    OpensQuote(t);
    KeyThen(key, QUOTE + t, |value| + 2);
    assert key + QUOTE + value + QUOTE + rest == key + (QUOTE + t) by { Apart(key, QUOTE, value, QUOTE, rest); }
  }

  lemma FirstOfKey(arg: string)
    requires IsQuoted(arg) && Solid(Bare(arg))
    ensures ArgText(arg) != "" && !Delimits(ArgText(arg)[0])
  {
    assert ArgText(arg)[0] == Bare(arg)[0] && Bare(arg)[0] in Bare(arg);
  }

  lemma NoQuoteParts(s: string, i: nat)
    requires '"' !in s && i <= |s|
    ensures '"' !in s[..i] && '"' !in s[i..]
  {
  }

  lemma QuotedIsNoKeyword(arg: string)
    requires IsQuoted(arg)
    ensures !IsKeyword(arg) && !IsKeyword(ArgText(arg))
  {
    var i := V.Equals(arg);
    assert ArgText(arg)[i] == '=' && '=' !in "and" && '=' !in "or";
  }

  lemma LexBlank(rest: string)
    ensures Lex(" " + rest) == Lex(rest)
  {
    assert (" " + rest)[1..] == rest;
  }

  lemma LexParen(open: bool, rest: string)
    ensures Lex((if open then "(" else ")") + rest) == Push(if open then Open else Close, Lex(rest))
  {
    assert ((if open then "(" else ")") + rest)[1..] == rest;
  }

  lemma PrefixedTwice(a: seq<Token>, b: seq<Token>, r: Option<seq<Token>>)
    ensures Prefixed(a, Prefixed(b, r)) == Prefixed(a + b, r)
  {
    if r.Some? { assert a + (b + r.value) == (a + b) + r.value; }
  }

  /** The words of an event, one after the other. */
  lemma EventTextLast(name: string, args: seq<string>)
    requires args != []
    ensures EventText(name, args) == EventText(name, args[..|args| - 1]) + " " + ArgText(args[|args| - 1])
  {
  }

  lemma EventTextThen(name: string, args: seq<string>, rest: string)
    requires args != []
    ensures EventText(name, args) + rest ==
      EventText(name, args[..|args| - 1]) + (" " + (ArgText(args[|args| - 1]) + rest))
  {
    EventTextLast(name, args);
    Three(EventText(name, args[..|args| - 1]), " ", ArgText(args[|args| - 1]), rest);
  }

  lemma Three(a: string, b: string, c: string, d: string)
    ensures a + b + c + d == a + (b + (c + d))
  {
  }

  lemma SolidFront(args: seq<string>)
    requires args != [] && SolidArgs(args)
    ensures SolidArgs(args[..|args| - 1]) && '"' !in args[|args| - 1] && Solid(Bare(args[|args| - 1]))
  {
  }

  lemma OneMoreSeen(name: string, args: seq<string>, r: Option<seq<Token>>)
    requires args != []
    ensures var front := args[..|args| - 1];
      Prefixed(Seen(name) + SeenArgs(front), Prefixed(Seen(args[|args| - 1]), r))
      == Prefixed(Seen(name) + SeenArgs(args), r)
  {
    var front, last := args[..|args| - 1], args[|args| - 1];
    PrefixedTwice(Seen(name) + SeenArgs(front), Seen(last), r);
    assert Seen(name) + SeenArgs(front) + Seen(last) == Seen(name) + SeenArgs(args);
  }

  lemma {:induction false} LexEvent(name: string, args: seq<string>, rest: string)
    requires '"' !in name && Solid(name) && SolidArgs(args) && Ends(rest)
    ensures Lex(EventText(name, args) + rest) == Prefixed(Seen(name) + SeenArgs(args), Lex(rest))
    decreases |args|
  {
    if args == [] {
      assert EventText(name, args) == name && Seen(name) + [] == Seen(name);
      LexName(name, rest);
    } else {
      var front, last := args[..|args| - 1], args[|args| - 1];
      var more := " " + (ArgText(last) + rest);
      EventTextThen(name, args, rest);
      SolidFront(args);
      LexEvent(name, front, more);
      LexBlank(ArgText(last) + rest);
      LexArg(last, rest);
      OneMoreSeen(name, args, Lex(rest));
    }
  }

  lemma LexOp(op: Op, rest: string)
    requires Ends(rest)
    ensures Lex(OpText(op) + rest) == Push(Keyword(op), Lex(rest))
  {
    assert Solid(OpText(op)) && '"' !in OpText(op);
    BareWordEnd(OpText(op), rest);
    LexWord(OpText(op), rest);
  }

  lemma {:induction false} LexText(e: Expr, rest: string)
    requires SolidWords(e) && Ends(rest)
    ensures Lex(Text(e) + rest) == Prefixed(SeenTokens(e), Lex(rest))
    decreases e
  {
    match e {
      case Event(name, args) => LexEvent(name, args, rest);
      case Binary(op, left, right) =>
        var afterRight := ")" + rest;
        var afterOp := " " + (Text(right) + afterRight);
        var afterLeft := " " + (OpText(op) + afterOp);
        GroupApart(Text(left), op, Text(right), rest);
        LexParen(true, Text(left) + afterLeft);
        LexText(left, afterLeft);
        LexBlank(OpText(op) + afterOp);
        LexOp(op, afterOp);
        LexBlank(Text(right) + afterRight);
        LexText(right, afterRight);
        LexParen(false, rest);
        Grouped(SeenTokens(left), op, SeenTokens(right), Lex(rest));
    }
  }

  lemma GroupApart(l: string, op: Op, r: string, rest: string)
    ensures GroupText(l, op, r) + rest == "(" + (l + (" " + (OpText(op) + (" " + (r + (")" + rest))))))
  {
    var o := OpText(op);
    assert "(" + l + " " + o + " " + r + ")" + rest == "(" + l + " " + o + " " + (r + (")" + rest));
    Apart("(", l, " ", o, " " + (r + (")" + rest)));
    assert "(" + l + " " + o + " " + (r + (")" + rest)) == "(" + l + " " + o + (" " + (r + (")" + rest)));
  }

  lemma Grouped(l: seq<Token>, op: Op, r: seq<Token>, rest: Option<seq<Token>>)
    ensures Push(Open, Prefixed(l, Push(Keyword(op), Prefixed(r, Push(Close, rest)))))
            == Prefixed([Open] + l + [Keyword(op)] + r + [Close], rest)
  {
    if rest.Some? {
      assert [Open] + (l + ([Keyword(op)] + (r + ([Close] + rest.value))))
          == [Open] + l + [Keyword(op)] + r + [Close] + rest.value;
    }
  }

  lemma LexWhole(e: Expr)
    requires SolidWords(e)
    ensures Lex(Text(e)) == Some(SeenTokens(e))
  {
    LexText(e, "");
    assert Text(e) + "" == Text(e) && SeenTokens(e) + [] == SeenTokens(e);
  }

  // ----- it comes back -----

  /** The derivation that the printed text has. */
  function Derivation(e: Expr): Cst {
    match e
    case Event(name, args) => Atom(name, args)
    case Binary(op, left, right) => Group(Chain(Derivation(left), op, Derivation(right)))
  }

  lemma {:induction false} ReadableArgsSeen(args: seq<string>)
    requires ReadableArgs(args) && PlainWords(args)
    ensures SeenArgs(args) == Words(args)
  {
    if args != [] { ReadableArgsSeen(args[..|args| - 1]); }
  }

  lemma {:induction false} ReadableSeen(e: Expr)
    requires Readable(e) && Plain(e)
    ensures SolidWords(e) && SeenTokens(e) == Tokens(Derivation(e)) && Meaning(Derivation(e)) == e
    ensures Ordered(e) ==> WellFormed(Derivation(e))
  {
    match e {
      case Event(name, args) => ReadableArgsSeen(args); OrderIff(args);
      case Binary(op, left, right) =>
        ReadableSeen(left);
        ReadableSeen(right);
        Regroup(SeenTokens(left), [Keyword(op)], SeenTokens(right));
    }
  }

  lemma Regroup(l: seq<Token>, op: seq<Token>, r: seq<Token>)
    ensures [Open] + l + op + r + [Close] == [Open] + (l + op + r) + [Close]
  {
  }

  // ----- nothing else does: letters are kept or lost -----

  function Letters(tokens: seq<Token>): nat {
    if tokens == [] then 0 else Letters(tokens[..|tokens| - 1]) + TokenLetters(tokens[|tokens| - 1])
  }

  function TokenLetters(t: Token): nat {
    match t
    case Word(text) => |text|
    case Keyword(op) => |OpText(op)|
    case _ => 0
  }

  /** The characters of a text that end up in words, and whether it ends inside quotes. */
  function Lettering(s: string, quoted: bool): nat {
    if s == "" then 0
    else if s[0] == '"' then Lettering(s[1..], !quoted)
    else (if !quoted && Delimits(s[0]) then 0 else 1) + Lettering(s[1..], quoted)
  }

  function EndsQuoted(s: string, quoted: bool): bool {
    if s == "" then quoted else EndsQuoted(s[1..], if s[0] == '"' then !quoted else quoted)
  }

  lemma {:induction false} LettersAppend(a: seq<Token>, b: seq<Token>)
    ensures Letters(a + b) == Letters(a) + Letters(b)
  {
    if b == [] {
      assert a + b == a;
    } else {
      assert (a + b)[..|a + b| - 1] == a + b[..|b| - 1];
      LettersAppend(a, b[..|b| - 1]);
    }
  }

  lemma LettersOne(t: Token)
    ensures Letters([t]) == TokenLetters(t)
  {
    assert [t][..0] == [];
  }

  lemma {:induction false} LetteringAppend(a: string, b: string, quoted: bool)
    ensures Lettering(a + b, quoted) == Lettering(a, quoted) + Lettering(b, EndsQuoted(a, quoted))
    ensures EndsQuoted(a + b, quoted) == EndsQuoted(b, EndsQuoted(a, quoted))
    decreases |a|
  {
    if a == "" {
      assert a + b == b;
    } else {
      assert (a + b)[1..] == a[1..] + b;
      LetteringAppend(a[1..], b, if a[0] == '"' then !quoted else quoted);
    }
  }

  lemma {:induction false} WordLettering(s: string, quoted: bool)
    requires WordEnd(s, quoted).Some?
    ensures var n := WordEnd(s, quoted).value;
      Lettering(s, quoted) == |Dequote(s[..n])| + Lettering(s[n..], false)
    decreases |s|
  {
    var n := WordEnd(s, quoted).value;
    if n == 0 {
      assert s[..n] == "" && s[n..] == s;
    } else {
      WordLettering(s[1..], if s[0] == '"' then !quoted else quoted);
      assert s[..n][1..] == s[1..][..n - 1] && s[n..] == s[1..][n - 1..];
    }
  }

  /** Reading loses no letter and adds none. */
  lemma {:induction false} LexLetters(s: string)
    requires Lex(s).Some?
    ensures Letters(Lex(s).value) == Lettering(s, false)
    decreases |s|
  {
    if s != "" {
      if Delimits(s[0]) {
        LexLetters(s[1..]);
        LettersAppend([Open], Lex(s[1..]).value);
        LettersAppend([Close], Lex(s[1..]).value);
        LettersOne(Open);
        LettersOne(Close);
      } else {
        var n := WordEnd(s, false).value;
        WordLettering(s, false);
        LexLetters(s[n..]);
        LettersAppend([WordToken(s[..n])], Lex(s[n..]).value);
        LettersOne(WordToken(s[..n]));
        KeywordLetters(s[..n]);
      }
    }
  }

  lemma KeywordLetters(w: string)
    ensures TokenLetters(WordToken(w)) == |Dequote(w)|
  {
    if IsKeyword(w) {
      assert Solid(w) && '"' !in w;
      BareWordEnd(w, "");
    }
  }

  predicate NoQuotes(e: Expr) {
    match e
    case Event(name, args) => '"' !in name && forall i :: 0 <= i < |args| ==> '"' !in args[i]
    case Binary(_, left, right) => NoQuotes(left) && NoQuotes(right)
  }

  function ArgsSize(args: seq<string>): nat {
    if args == [] then 0 else ArgsSize(args[..|args| - 1]) + |args[|args| - 1]|
  }

  function Size(e: Expr): nat {
    match e
    case Event(name, args) => |name| + ArgsSize(args)
    case Binary(op, left, right) => Size(left) + |OpText(op)| + Size(right)
  }

  /** How many characters of a word are lost, since they end words. */
  function Lost(s: string): nat {
    if s == "" then 0 else (if Delimits(s[0]) then 1 else 0) + Lost(s[1..])
  }

  lemma {:induction false} LostSolid(s: string)
    ensures Lost(s) == 0 <==> Solid(s)
  {
    if s != "" {
      LostSolid(s[1..]);
      assert s[0] in s;
      assert forall c :: c in s <==> c == s[0] || c in s[1..];
    }
  }

  lemma {:induction false} BareLettering(s: string, quoted: bool)
    requires '"' !in s
    ensures EndsQuoted(s, quoted) == quoted
    ensures Lettering(s, quoted) == if quoted then |s| else |s| - Lost(s)
  {
    if s != "" { BareLettering(s[1..], quoted); }
  }

  lemma ArgLettering(arg: string)
    requires '"' !in arg
    ensures !EndsQuoted(ArgText(arg), false)
    ensures Lettering(ArgText(arg), false) == |arg| - Lost(Bare(arg))
  {
    if IsQuoted(arg) {
      var i := V.Equals(arg);
      var key, value := arg[..i + 1], arg[i + 1..];
      NoQuoteParts(arg, i + 1);
      BareLettering(key, false);
      BareLettering(value, true);
      assert Lettering(QUOTE, true) == 0 && !EndsQuoted(QUOTE, true);
      assert Lettering(QUOTE, false) == 0 && EndsQuoted(QUOTE, false);
      LetteringAppend(key + QUOTE + value, QUOTE, false);
      LetteringAppend(key + QUOTE, value, false);
      LetteringAppend(key, QUOTE, false);
    } else {
      BareLettering(arg, false);
    }
  }

  function LostArgs(args: seq<string>): nat {
    if args == [] then 0 else LostArgs(args[..|args| - 1]) + Lost(Bare(args[|args| - 1]))
  }

  function LostIn(e: Expr): nat {
    match e
    case Event(name, args) => Lost(name) + LostArgs(args)
    case Binary(_, left, right) => LostIn(left) + LostIn(right)
  }

  lemma {:induction false} EventLettering(name: string, args: seq<string>)
    requires NoQuotes(Event(name, args))
    ensures !EndsQuoted(EventText(name, args), false)
    ensures Lettering(EventText(name, args), false) + Lost(name) + LostArgs(args) == |name| + ArgsSize(args)
    decreases |args|
  {
    if args == [] {
      assert EventText(name, args) == name;
      BareLettering(name, false);
    } else {
      var front, last := args[..|args| - 1], args[|args| - 1];
      EventTextLast(name, args);
      EventLettering(name, front);
      ArgLettering(last);
      LetteringAppend(EventText(name, front) + " ", ArgText(last), false);
      LetteringAppend(EventText(name, front), " ", false);
      assert Lettering(" ", false) == 0 && !EndsQuoted(" ", false);
    }
  }

  /** The text of a condition keeps all letters of its words but those that end words. */
  lemma {:induction false} TextLettering(e: Expr)
    requires NoQuotes(e)
    ensures !EndsQuoted(Text(e), false)
    ensures Lettering(Text(e), false) + LostIn(e) == Size(e)
  {
    match e {
      case Event(name, args) => EventLettering(name, args);
      case Binary(op, left, right) =>
        TextLettering(left);
        TextLettering(right);
        GroupLettering(Text(left), op, Text(right));
    }
  }

  lemma GroupLettering(l: string, op: Op, r: string)
    requires !EndsQuoted(l, false) && !EndsQuoted(r, false)
    ensures !EndsQuoted(GroupText(l, op, r), false)
    ensures Lettering(GroupText(l, op, r), false) == Lettering(l, false) + |OpText(op)| + Lettering(r, false)
  {
    var o := OpText(op);
    EndsWords("(");
    EndsWords(" ");
    EndsWords(")");
    BareLettering(o, false);
    LostSolid(o);
    LetteringAppend("(" + l + " " + o + " " + r, ")", false);
    LetteringAppend("(" + l + " " + o + " ", r, false);
    LetteringAppend("(" + l + " " + o, " ", false);
    LetteringAppend("(" + l + " ", o, false);
    LetteringAppend("(" + l, " ", false);
    LetteringAppend("(", l, false);
  }

  lemma EndsWords(s: string)
    requires |s| == 1 && Delimits(s[0])
    ensures Lettering(s, false) == 0 && !EndsQuoted(s, false)
  {
    assert s[1..] == "";
  }

  lemma {:induction false} WordsLetters(args: seq<string>)
    ensures Letters(Words(args)) == ArgsSize(args)
  {
    if args != [] { WordsLetters(args[..|args| - 1]); }
  }

  lemma {:induction false} DerivedLetters(c: Cst)
    ensures Letters(Tokens(c)) == Size(Meaning(c))
  {
    match c {
      case Atom(name, args) =>
        LettersAppend([Word(name)], Words(args));
        LettersOne(Word(name));
        WordsLetters(args);
      case Group(inner) =>
        LettersAppend([Open] + Tokens(inner), [Close]);
        LettersAppend([Open], Tokens(inner));
        LettersOne(Open);
        LettersOne(Close);
        DerivedLetters(inner);
      case Chain(left, op, right) =>
        LettersAppend(Tokens(left) + [Keyword(op)], Tokens(right));
        LettersAppend(Tokens(left), [Keyword(op)]);
        LettersOne(Keyword(op));
        DerivedLetters(left);
        DerivedLetters(right);
    }
  }

  // ----- no word read holds a quotation mark -----

  predicate QuoteFree(tokens: seq<Token>) {
    forall i :: 0 <= i < |tokens| && tokens[i].Word? ==> '"' !in tokens[i].text
  }

  lemma {:induction false} LexQuoteFree(s: string)
    ensures Lex(s).Some? ==> QuoteFree(Lex(s).value)
    decreases |s|
  {
    if s != "" {
      LexQuoteFree(s[1..]);
      if !Delimits(s[0]) && WordEnd(s, false).Some? { LexQuoteFree(s[WordEnd(s, false).value..]); }
    }
  }

  lemma {:induction false} WordsQuoteFree(args: seq<string>)
    requires QuoteFree(Words(args))
    ensures forall i :: 0 <= i < |args| ==> '"' !in args[i]
  {
    if args != [] {
      var front := args[..|args| - 1];
      assert Words(args)[..|args| - 1] == Words(front);
      assert forall i :: 0 <= i < |front| ==> Words(front)[i] == Words(args)[i];
      WordsQuoteFree(front);
      assert Words(args)[|args| - 1] == Word(args[|args| - 1]);
    }
  }

  lemma QuoteFreeParts(a: seq<Token>, b: seq<Token>)
    requires QuoteFree(a + b)
    ensures QuoteFree(a) && QuoteFree(b)
  {
    assert forall i :: 0 <= i < |a| ==> a[i] == (a + b)[i];
    assert forall i :: 0 <= i < |b| ==> b[i] == (a + b)[|a| + i];
  }

  lemma {:induction false} DerivedQuoteFree(c: Cst)
    requires QuoteFree(Tokens(c))
    ensures NoQuotes(Meaning(c))
  {
    match c {
      case Atom(name, args) =>
        QuoteFreeParts([Word(name)], Words(args));
        assert [Word(name)][0] == Word(name);
        WordsQuoteFree(args);
      case Group(inner) =>
        QuoteFreeParts([Open] + Tokens(inner), [Close]);
        QuoteFreeParts([Open], Tokens(inner));
        DerivedQuoteFree(inner);
      case Chain(left, op, right) =>
        QuoteFreeParts(Tokens(left) + [Keyword(op)], Tokens(right));
        QuoteFreeParts(Tokens(left), [Keyword(op)]);
        DerivedQuoteFree(left);
        DerivedQuoteFree(right);
    }
  }

  // ----- counting words and operators -----

  /** Words and operators, or operators alone. */
  function Many(tokens: seq<Token>, words: bool): nat {
    if tokens == [] then 0
    else Many(tokens[..|tokens| - 1], words) + One(tokens[|tokens| - 1], words)
  }

  function One(t: Token, words: bool): nat {
    if t.Keyword? || (words && t.Word?) then 1 else 0
  }

  function Operations(e: Expr): nat {
    if e.Event? then 0 else Operations(e.left) + Operations(e.right) + 1
  }

  function WordCount(e: Expr): nat {
    match e
    case Event(_, args) => 1 + |args|
    case Binary(_, left, right) => WordCount(left) + WordCount(right)
  }

  lemma {:induction false} ManyAppend(a: seq<Token>, b: seq<Token>, words: bool)
    ensures Many(a + b, words) == Many(a, words) + Many(b, words)
  {
    if b == [] {
      assert a + b == a;
    } else {
      assert (a + b)[..|a + b| - 1] == a + b[..|b| - 1];
      ManyAppend(a, b[..|b| - 1], words);
    }
  }

  lemma ManyOne(t: Token, words: bool)
    ensures Many([t], words) == One(t, words)
  {
    assert [t][..0] == [];
  }

  lemma {:induction false} ManyWords(args: seq<string>, words: bool)
    ensures Many(Words(args), words) == if words then |args| else 0
  {
    if args != [] { ManyWords(args[..|args| - 1], words); }
  }

  /** What a derivation derives has its words and its operators. */
  lemma {:induction false} DerivedMany(c: Cst, words: bool)
    ensures Many(Tokens(c), words) == Operations(Meaning(c)) + if words then WordCount(Meaning(c)) else 0
  {
    match c {
      case Atom(name, args) =>
        ManyAppend([Word(name)], Words(args), words);
        ManyOne(Word(name), words);
        ManyWords(args, words);
      case Group(inner) =>
        ManyAppend([Open] + Tokens(inner), [Close], words);
        ManyAppend([Open], Tokens(inner), words);
        ManyOne(Open, words);
        ManyOne(Close, words);
        DerivedMany(inner, words);
      case Chain(left, op, right) =>
        ManyAppend(Tokens(left) + [Keyword(op)], Tokens(right), words);
        ManyAppend(Tokens(left), [Keyword(op)], words);
        ManyOne(Keyword(op), words);
        DerivedMany(left, words);
        DerivedMany(right, words);
    }
  }

  predicate NoneEmpty(args: seq<string>) {
    forall i :: 0 <= i < |args| ==> args[i] != ""
  }

  predicate NoEmpty(e: Expr) {
    match e
    case Event(name, args) => name != "" && NoneEmpty(args)
    case Binary(_, left, right) => NoEmpty(left) && NoEmpty(right)
  }

  lemma ManySeen(word: string, words: bool)
    ensures Many(Seen(word), words) == if word != "" && (words || IsKeyword(word)) then 1 else 0
  {
    if word != "" { ManyOne(Seen(word)[0], words); }
  }

  lemma {:induction false} SeenArgsMany(args: seq<string>)
    ensures Many(SeenArgs(args), true) <= |args|
    ensures Many(SeenArgs(args), true) == |args| <==> NoneEmpty(args)
    ensures Many(SeenArgs(args), false) == 0 <==> PlainWords(args)
  {
    if args != [] {
      var front, last := args[..|args| - 1], args[|args| - 1];
      SeenArgsMany(front);
      ManySeen(last, true);
      ManySeen(last, false);
      ManyAppend(SeenArgs(front), Seen(last), true);
      ManyAppend(SeenArgs(front), Seen(last), false);
      Lasts(args);
    }
  }

  lemma Lasts(args: seq<string>)
    requires args != []
    ensures NoneEmpty(args) <==> NoneEmpty(args[..|args| - 1]) && args[|args| - 1] != ""
    ensures PlainWords(args) <==> PlainWords(args[..|args| - 1]) && !IsKeyword(args[|args| - 1])
  {
  }

  /** An empty word is one too few to read, and one spelled like an operator makes one
      operator too many. */
  lemma {:induction false} SeenMany(e: Expr)
    ensures Many(SeenTokens(e), true) <= Operations(e) + WordCount(e)
    ensures Many(SeenTokens(e), true) == Operations(e) + WordCount(e) <==> NoEmpty(e)
    ensures Many(SeenTokens(e), false) >= Operations(e)
    ensures Many(SeenTokens(e), false) == Operations(e) <==> Plain(e)
  {
    match e {
      case Event(name, args) =>
        ManySeen(name, true);
        ManySeen(name, false);
        SeenArgsMany(args);
        ManyAppend(Seen(name), SeenArgs(args), true);
        ManyAppend(Seen(name), SeenArgs(args), false);
      case Binary(op, left, right) =>
        SeenMany(left);
        SeenMany(right);
        GroupMany(SeenTokens(left), op, SeenTokens(right), true);
        GroupMany(SeenTokens(left), op, SeenTokens(right), false);
    }
  }

  lemma GroupMany(l: seq<Token>, op: Op, r: seq<Token>, words: bool)
    ensures Many([Open] + l + [Keyword(op)] + r + [Close], words) == Many(l, words) + 1 + Many(r, words)
  {
    ManyAppend([Open] + l + [Keyword(op)] + r, [Close], words);
    ManyAppend([Open] + l + [Keyword(op)], r, words);
    ManyAppend([Open] + l, [Keyword(op)], words);
    ManyAppend([Open], l, words);
    ManyOne(Open, words);
    ManyOne(Keyword(op), words);
    ManyOne(Close, words);
  }

  lemma {:induction false} LostArgsSolid(args: seq<string>)
    requires LostArgs(args) == 0 && forall i :: 0 <= i < |args| ==> '"' !in args[i]
    ensures SolidArgs(args)
  {
    if args != [] {
      LostArgsSolid(args[..|args| - 1]);
      LostSolid(Bare(args[|args| - 1]));
    }
  }

  lemma {:induction false} NothingLostSolid(e: Expr)
    requires NoQuotes(e) && LostIn(e) == 0
    ensures SolidWords(e)
  {
    match e {
      case Event(name, args) => LostSolid(name); LostArgsSolid(args);
      case Binary(_, left, right) => NothingLostSolid(left); NothingLostSolid(right);
    }
  }

  lemma {:induction false} SolidReadable(e: Expr)
    requires SolidWords(e) && NoEmpty(e)
    ensures Readable(e)
  {
    if e.Binary? { SolidReadable(e.left); SolidReadable(e.right); }
  }

  lemma {:induction false} DerivedOrdered(c: Cst)
    requires WellFormed(c)
    ensures Ordered(Meaning(c))
  {
    match c {
      case Atom(_, args) => OrderIff(args);
      case Group(inner) => DerivedOrdered(inner);
      case Chain(left, _, right) => DerivedOrdered(left); DerivedOrdered(right);
    }
  }

  // ----- the round trip -----

  lemma ComesBack(e: Expr)
    requires Plain(e) && Ordered(e) && Readable(e)
    ensures ReadsAs(Text(e), e)
  {
    ReadableSeen(e);
    LexWhole(e);
    DerivedIsParsed(Derivation(e));
  }

  lemma OnlyIfReadable(e: Expr)
    requires ReadsAs(Text(e), e)
    ensures Plain(e) && Ordered(e) && Readable(e)
  {
    var tokens := Lex(Text(e)).value;
    var c := ParsedIsDerived(tokens);
    DerivedOrdered(c);
    LexQuoteFree(Text(e));
    DerivedQuoteFree(c);
    LexLetters(Text(e));
    DerivedLetters(c);
    TextLettering(e);
    NothingLostSolid(e);
    LexWhole(e);
    DerivedMany(c, true);
    DerivedMany(c, false);
    SeenMany(e);
    SolidReadable(e);
  }

  /** Printing and then parsing gives the condition back exactly if no word is spelled like
      an operator, no positional argument follows a named one, and no word is empty, holds
      a quotation mark, or holds whitespace or a parenthesis outside a quoted value. */
  lemma PrintParse(e: Expr)
    requires Ordinary(e)
    ensures ReadsAs(Text(e), e) <==> Plain(e) && Ordered(e) && Readable(e)
  {
    if ReadsAs(Text(e), e) { OnlyIfReadable(e); }
    if Plain(e) && Ordered(e) && Readable(e) { ComesBack(e); }
  }

  /** A printed condition may only be lost or changed: an event called "and" shows it. */
  lemma KeywordNameLost()
    ensures !ReadsAs(Text(Event("and", [])), Event("and", []))
  {
    PrintParse(Event("and", []));
  }

  /** A positional argument with a space in it is printed as two. */
  lemma SpacedArgumentLost()
    ensures var e := Event("e", ["a b"]); Plain(e) && Ordered(e) && !ReadsAs(Text(e), e)
  {
    var arg := "a b";
    assert arg[1] == ' ' && arg[1] in arg && '=' !in arg && Bare(arg) == arg;
    assert !ReadableArg(["a b"][0]);
    PrintParse(Event("e", ["a b"]));
  }

  /** A value with a parenthesis and no space is not quoted, and the word ends there. */
  lemma ParenthesisLost()
    ensures var e := Event("e", ["K=(x)"]); Plain(e) && Ordered(e) && !ReadsAs(Text(e), e)
  {
    var arg := "K=(x)";
    assert arg[2] == '(' && arg[2] in arg && !HasSpace(arg);
    assert !IsQuoted(arg) by {
      if IsQuoted(arg) {
        var i := V.Equals(arg);
        assert forall c :: c in arg[i..] ==> c in arg;
      }
    }
    assert !ReadableArg(["K=(x)"][0]);
    PrintParse(Event("e", ["K=(x)"]));
  }

  // ----- the text, spelled out -----

  lemma KeyValue(key: string, value: string)
    requires '=' !in key
    ensures
      var s := key + "=" + value;
      && '=' in s && V.Equals(s) == |key| && s[..|key| + 1] == key + "=" && s[|key| + 1..] == value
      && (IsQuoted(s) <==> HasSpace(value))
  {
    var s := key + "=" + value;
    assert s[|key|] == '=' && s[..|key|] == key;
    V.EqualsAt(s, |key|);
    var tail := s[|key|..];
    assert tail == ['='] + value;
    assert HasSpace(tail) <==> HasSpace(value) by {
      assert forall c :: c in tail <==> c == '=' || c in value;
    }
  }

  /** An argument is printed as it is, but for the quotation marks around a value that
      holds a space or a tab. */
  lemma ArgumentPrinted(key: string, value: string)
    requires '=' !in key
    ensures ArgText(key) == key
    ensures ArgText(key + "=" + value)
         == if ' ' in value || '\t' in value then key + "=\"" + value + "\"" else key + "=" + value
  {
    KeyValue(key, value);
    assert key + "=" + "\"" == key + "=\"";
  }

  lemma GroupPrinted(left: string, right: string)
    ensures GroupText(left, And, right) == "(" + left + " and " + right + ")"
    ensures GroupText(left, Or, right) == "(" + left + " or " + right + ")"
  {
    assert " and " == " " + "and" + " " && " or " == " " + "or" + " ";
    Spaced(left, "and", right);
    Spaced(left, "or", right);
  }

  lemma Spaced(left: string, op: string, right: string)
    ensures "(" + left + " " + op + " " + right + ")" == "(" + left + (" " + op + " ") + right + ")"
  {
  }

  /** Words are separated by a space, and an operator and its operands put in
      parentheses. */
  lemma ConditionPrinted(l: Expr, r: Expr, name: string, args: seq<string>, arg: string)
    ensures Text(Binary(And, l, r)) == "(" + Text(l) + " and " + Text(r) + ")"
    ensures Text(Binary(Or, l, r)) == "(" + Text(l) + " or " + Text(r) + ")"
    ensures Text(Event(name, [])) == name
    ensures Text(Event(name, args + [arg])) == Text(Event(name, args)) + " " + ArgText(arg)
  {
    GroupPrinted(Text(l), Text(r));
    var more := args + [arg];
    EventTextLast(name, more);
    assert more[..|more| - 1] == args;
  }

  /** The words that come back: solid ones without quotation marks, or a solid key with
      a value that holds whitespace. */
  lemma ReadableMeans(arg: string)
    ensures ReadableArg(arg) <==>
      && arg != "" && '"' !in arg
      && (Solid(arg)
          || exists key, value :: arg == key + "=" + value && '=' !in key && Solid(key) && HasSpace(value))
  {
    if IsQuoted(arg) {
      var i := V.Equals(arg);
      assert arg == arg[..i] + "=" + arg[i + 1..];
      QuotedReadable(arg[..i], arg[i + 1..]);
    }
    forall key, value | arg == key + "=" + value && '=' !in key && Solid(key) && HasSpace(value)
      ensures Solid(Bare(arg))
    {
      KeyValue(key, value);
      QuotedReadable(key, value);
    }
  }

  lemma QuotedReadable(key: string, value: string)
    requires '=' !in key && HasSpace(value)
    ensures var arg := key + "=" + value; !Solid(arg) && (Solid(Bare(arg)) <==> Solid(key))
  {
    KeyValue(key, value);
    var arg := key + "=" + value;
    assert forall c :: c in value ==> c in arg;
    assert forall c :: c in key + "=" <==> c in key || c == '=';
  }
}
