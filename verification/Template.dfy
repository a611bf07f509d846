/** What an expansion means: the text is read once, without the environment, into a
    template, and the template is then evaluated.  Substituted text is never read. */
module Template {
  import opened Environ

  datatype Template = End | Then(item: Item, more: Template)

  datatype Item =
    | Plain(c: char)                    // any other character
    | Lone                              // a dollar sign on its own
    | Escape                            // ${}
    | Name(name: string)                // $NAME
    | Brace(key: Template, op: Operator, ignoreEmpty: bool, argument: Template)
    | Unclosed(key: Template, op: Operator, ignoreEmpty: bool, argument: Template)
    | NoOperator(key: Template)         // ${KEY and then a stray colon

  /** A template, or an item, and the text after it. */
  datatype Reading = Reading(t: Template, rest: string)
  datatype ItemReading = ItemReading(item: Item, rest: string)

  // ----- meaning -----

  function Eval(env: Table, t: Template): Result<string>
    requires ValidTable(env)
    decreases t
  {
    match t
    case End => Ok("")
    case Then(item, more) =>
      var text :- EvalItem(env, item);
      var r :- Eval(env, more);
      Ok(text + r)
  }

  function EvalItem(env: Table, item: Item): Result<string>
    requires ValidTable(env)
    decreases item
  {
    match item
    case Plain(c) => Ok([c])
    case Lone => Ok("$")
    case Escape => Ok("$")
    case Name(name) =>
      var v := Get(env, name);
      if v.Set? then Ok(v.text) else Fail(UnknownParam)
    case Brace(key, op, ignoreEmpty, argument) =>
      var k :- Eval(env, key);
      var a :- Eval(env, argument);
      var v := Get(env, k);
      if op == OpValue then if v.Set? then Ok(v.text) else Fail(UnknownParam)
      else if v.Unset? || (ignoreEmpty && v.text == "") then Ok(if op == OpDefault then a else "")
      else Ok(if op == OpDefault then v.text else a)
    case Unclosed(key, _, _, argument) =>
      var _ :- Eval(env, key);
      var _ :- Eval(env, argument);
      Fail(MismatchedBraces)
    case NoOperator(key) =>
      var _ :- Eval(env, key);
      Fail(ExpectedOperator)
  }

  // ----- concrete syntax -----

  function PrintOperator(op: Operator, ignoreEmpty: bool): string {
    match op
    case OpValue => ""
    case OpDefault => if ignoreEmpty then ":-" else "-"
    case OpAlternate => if ignoreEmpty then ":+" else "+"
  }

  function Print(t: Template): string
    decreases t
  {
    match t
    case End => ""
    case Then(item, more) => PrintItem(item) + Print(more)
  }

  function PrintItem(item: Item): string
    decreases item
  {
    match item
    case Plain(c) => [c]
    case Lone => "$"
    case Escape => "${}"
    case Name(name) => "$" + name
    case Brace(key, op, ignoreEmpty, argument) =>
      "${" + Print(key) + PrintOperator(op, ignoreEmpty) + Print(argument) + "}"
    case Unclosed(key, op, ignoreEmpty, argument) =>
      "${" + Print(key) + PrintOperator(op, ignoreEmpty) + Print(argument)
    case NoOperator(key) => "${" + Print(key)
  }

  /** Read `s` up to a character of `until` outside a reference. */
  function Read(s: string, until: set<char>): (r: Reading)
    ensures Suffix(r.rest, s)
    ensures r.rest == "" || (r.rest[0] in until && r.rest[0] != '$')
    decreases |s|, 1
  {
    if s == "" || (s[0] != '$' && s[0] in until) then Reading(End, s)
    else
      var i := if s[0] == '$' then ReadItem(s) else ItemReading(Plain(s[0]), s[1..]);
      var r := Read(i.rest, until);
      Reading(Then(i.item, r.t), r.rest)
  }

  function ReadItem(s: string): (r: ItemReading)
    requires s != "" && s[0] == '$'
    ensures Suffix(r.rest, s) && |r.rest| < |s|
    decreases |s|, 0
  {
    var t := s[1..];
    if t != "" && NameStart(t[0]) then
      var n := NameLength(t);
      ItemReading(Name(t[..n]), t[n..])
    else if |t| >= 2 && t[0] == '{' && t[1] == '}' then ItemReading(Escape, t[2..])
    else if t != "" && t[0] == '{' then
      var key := Read(t[1..], NAME_END);
      ReadArgument(key.t, key.rest)
    else ItemReading(Lone, t)
  }

  function ReadArgument(key: Template, s: string): (r: ItemReading)
    ensures Suffix(r.rest, s)
    decreases |s|, 2
  {
    var op := ParseOperator(s);
    if op.Fail? then ItemReading(NoOperator(key), s)
    else
      var argument := Read(s[op.value.2..], {'}'});
      if argument.rest == "" then
        ItemReading(Unclosed(key, op.value.0, op.value.1, argument.t), "")
      else
        ItemReading(Brace(key, op.value.0, op.value.1, argument.t), argument.rest[1..])
  }

  // ----- expanding is reading and then evaluating -----

  function Meaning(env: Table, r: Reading): Result<Scan>
    requires ValidTable(env)
  {
    var out :- Eval(env, r.t);
    Ok(Scan(out, r.rest))
  }

  function ItemMeaning(env: Table, r: ItemReading): Result<Scan>
    requires ValidTable(env)
  {
    var out :- EvalItem(env, r.item);
    Ok(Scan(out, r.rest))
  }

  lemma {:induction false} ExpandMeans(env: Table, s: string, until: set<char>)
    requires ValidTable(env)
    ensures Expand(env, s, until) == Meaning(env, Read(s, until))
    decreases |s|, 1
  {
    if s == "" || (s[0] != '$' && s[0] in until) {
      assert Read(s, until) == Reading(End, s);
    } else if s[0] != '$' {
      ExpandMeans(env, s[1..], until);
      ThenMeans(env, ItemReading(Plain(s[0]), s[1..]), Read(s[1..], until));
    } else {
      var i := ReadItem(s);
      ReferenceMeans(env, s);
      ExpandMeans(env, i.rest, until);
      ThenMeans(env, i, Read(i.rest, until));
    }
  }

  lemma ThenMeans(env: Table, i: ItemReading, r: Reading)
    requires ValidTable(env)
    ensures
      var item, more := ItemMeaning(env, i), Meaning(env, r);
      Meaning(env, Reading(Then(i.item, r.t), r.rest)) ==
      if item.Fail? then item
      else if more.Fail? then more
      else Ok(Scan(item.value.out + more.value.out, more.value.rest))
  {
  }

  lemma {:induction false} ReferenceMeans(env: Table, s: string)
    requires ValidTable(env) && s != "" && s[0] == '$'
    ensures Reference(env, s) == ItemMeaning(env, ReadItem(s))
    decreases |s|, 0
  {
    var t := s[1..];
    if !(t != "" && NameStart(t[0])) && !(|t| >= 2 && t[0] == '{' && t[1] == '}') && t != "" && t[0] == '{' {
      ExpandMeans(env, t[1..], NAME_END);
      var key := Read(t[1..], NAME_END);
      ArgumentMeans(env, key.t, key.rest);
    }
  }

  lemma {:induction false} ArgumentMeans(env: Table, key: Template, s: string)
    requires ValidTable(env)
    ensures Eval(env, key).Ok? ==> Argument(env, Eval(env, key).value, s) == ItemMeaning(env, ReadArgument(key, s))
    ensures Eval(env, key).Fail? ==> EvalItem(env, ReadArgument(key, s).item) == Eval(env, key)
    decreases |s|, 2
  {
    var op := ParseOperator(s);
    if op.Ok? {
      var argument := Read(s[op.value.2..], {'}'});
      ExpandMeans(env, s[op.value.2..], {'}'});
      BraceMeans(env, key, op.value, argument);
    }
  }

  lemma BraceMeans(env: Table, key: Template, op: (Operator, bool, nat), argument: Reading)
    requires ValidTable(env)
    ensures
      var k, a := Eval(env, key), Meaning(env, argument);
      var item := if argument.rest == "" then Unclosed(key, op.0, op.1, argument.t)
                  else Brace(key, op.0, op.1, argument.t);
      if k.Fail? then EvalItem(env, item) == k
      else if a.Fail? then EvalItem(env, item) == Fail(a.error)
      else
        var r := Close(env, k.value, op.0, op.1, a.value);
        EvalItem(env, item) == if r.Fail? then Fail(r.error) else Ok(r.value.out)
  {
  }

  // ----- nothing of the text is lost by reading it -----

  lemma {:induction false} ReadPrint(s: string, until: set<char>)
    ensures var r := Read(s, until); Print(r.t) + r.rest == s
    decreases |s|, 1
  {
    var r := Read(s, until);
    if r.t.Then? {
      if s[0] == '$' {
        ReadItemPrint(s);
        ReadPrint(ReadItem(s).rest, until);
      } else {
        ReadPrint(s[1..], until);
      }
    }
  }

  lemma Regroup(s: string, key: string, rest: string)
    requires |s| >= 2 && s[0] == '$' && s[1] == '{' && s[1..][1..] == key + rest
    ensures "${" + key + rest == s
  {
    assert s == "${" + s[1..][1..];
  }

  lemma {:induction false} ReadItemPrint(s: string)
    requires s != "" && s[0] == '$'
    ensures var r := ReadItem(s); PrintItem(r.item) + r.rest == s
    decreases |s|, 0
  {
    var t := s[1..];
    assert s == "$" + t;
    if t != "" && NameStart(t[0]) {
      var n := NameLength(t);
      assert t[..n] + t[n..] == t;
    } else if |t| >= 2 && t[0] == '{' && t[1] == '}' {
      assert s == "${}" + t[2..];
    } else if t != "" && t[0] == '{' {
      var key := Read(t[1..], NAME_END);
      ReadPrint(t[1..], NAME_END);
      ReadArgumentPrint(key.t, key.rest);
      Regroup(s, Print(key.t), key.rest);
    }
  }

  lemma OperatorPrint(s: string)
    requires ParseOperator(s).Ok?
    ensures var (op, ignoreEmpty, n) := ParseOperator(s).value; PrintOperator(op, ignoreEmpty) == s[..n]
  {
  }

  lemma {:induction false} ReadArgumentPrint(key: Template, s: string)
    ensures var r := ReadArgument(key, s); PrintItem(r.item) + r.rest == "${" + Print(key) + s
    decreases |s|, 2
  {
    var op := ParseOperator(s);
    if op.Ok? {
      var n := op.value.2;
      var argument := Read(s[n..], {'}'});
      ReadPrint(s[n..], {'}'});
      OperatorPrint(s);
      BracePrint(key, op.value, argument, s);
    }
  }

  lemma BracePrint(key: Template, op: (Operator, bool, nat), argument: Reading, s: string)
    requires op.2 <= |s| && PrintOperator(op.0, op.1) == s[..op.2]
    requires Print(argument.t) + argument.rest == s[op.2..]
    requires argument.rest != "" ==> argument.rest[0] == '}'
    ensures
      var item := if argument.rest == "" then Unclosed(key, op.0, op.1, argument.t)
                  else Brace(key, op.0, op.1, argument.t);
      PrintItem(item) + (if argument.rest == "" then "" else argument.rest[1..]) == "${" + Print(key) + s
  {
    var front, o, tail := "${" + Print(key), s[..op.2], Print(argument.t);
    assert s == o + s[op.2..];
    if argument.rest != "" {
      assert argument.rest == "}" + argument.rest[1..];
      Rejoin(front, o, tail, "}", argument.rest[1..]);
    } else {
      Rejoin(front, o, tail, "", "");
      assert tail + argument.rest == tail + "" + "";
    }
  }

  lemma Rejoin(a: string, b: string, c: string, d: string, e: string)
    ensures a + b + c + d + e == a + (b + (c + (d + e)))
    ensures d + e == "" ==> a + b + c == a + b + c + d + e
  {
  }

  // ----- quoting -----

  /** Every dollar sign written as its escape. */
  function Quote(s: string): string {
    if s == "" then "" else (if s[0] == '$' then "${}" else [s[0]]) + Quote(s[1..])
  }

  /** Whatever the environment holds, a quoted string expands to itself. */
  lemma {:induction false} QuoteExpands(env: Table, s: string)
    requires ValidTable(env)
    ensures Expansion(env, Quote(s)) == Ok(s)
  {
    if s != "" {
      var q := Quote(s[1..]);
      QuoteExpands(env, s[1..]);
      if s[0] == '$' {
        assert Quote(s) == "${}" + q;
        assert Quote(s)[1..] == "{}" + q;
        assert ("{}" + q)[2..] == q;
        assert Reference(env, Quote(s)) == Ok(Scan("$", q));
        assert ['$'] + s[1..] == s;
      } else {
        assert Quote(s)[1..] == q;
        assert [s[0]] + s[1..] == s;
      }
    }
  }
}
