/** What each form of reference that the expander of init/environ.c knows comes to, as
    text: by the map the environment stands for, and by nothing else of the expander. */
module ExpandForms {
  import opened Environ
  import opened EnvTable
  import opened ExpandBuffer

  /** The name of a variable, as written between braces. */
  predicate IsKey(key: string) {
    forall k :: 0 <= k < |key| ==> key[k] !in {'$', '}', ':', '-', '+', '='}
  }

  /** Before the closing brace and what follows it, the argument `text` expands to `value`. */
  ghost predicate Argues(env: Table, text: string, value: string, after: string)
    requires ValidTable(env)
  {
    Expand(env, text + "}" + after, {'}'}) == Ok(Scan(value, "}" + after))
  }

  /** An argument without references stands for itself. */
  lemma PlainArgues(env: Table, text: string, after: string)
    requires ValidTable(env) && '$' !in text && '}' !in text
    ensures Argues(env, text, text, after)
  {
    CopyRun(env, text, "}" + after, {'}'});
    assert text + "}" + after == text + ("}" + after);
    assert text + "" == text;
  }

  lemma Opened(env: Table, key: string, tail: string)
    requires ValidTable(env) && IsKey(key) && tail != "" && tail[0] in {'}', ':', '-', '+'}
    requires key == "" ==> tail[0] != '}'
    ensures Reference(env, "${" + key + tail) == Argument(env, key, tail)
  {
    var s := "${" + key + tail;
    var t := s[1..];
    assert t[1..] == key + tail;
    assert |t| >= 2 && t[1] == (if key == "" then tail[0] else key[0]);
    CopyRun(env, key, tail, NAME_END);
    assert Expand(env, tail, NAME_END) == Ok(Scan("", tail));
    assert key + "" == key;
  }

  lemma Regrouped(key: string, op: string, arg: string, after: string)
    ensures "${" + key + op + arg + "}" + after == "${" + key + (op + (arg + "}" + after))
    ensures (op + (arg + "}" + after))[|op|..] == arg + "}" + after
    ensures op != "" ==> (op + (arg + "}" + after))[0] == op[0]
    ensures |op| > 1 ==> (op + (arg + "}" + after))[1] == op[1]
    ensures ("}" + after)[1..] == after
  {
  }

  /** `${K}` is the value of K, which must have one. */
  lemma ValueForm(env: Table, key: string, after: string)
    requires ValidTable(env) && IsKey(key) && key != ""
    ensures
      Reference(env, "${" + key + "}" + after)
      == if key in AsMap(env) then Ok(Scan(AsMap(env)[key], after)) else Fail(UnknownParam)
  {
    GetReads(env, key);
    var tail := "}" + after;
    assert "${" + key + "}" + after == "${" + key + tail;
    Opened(env, key, tail);
    assert tail[0..] == tail && tail[1..] == after;
    assert Expand(env, tail, {'}'}) == Ok(Scan("", tail));
  }

  /** `${K-A}` is the value of K if it has one, even an empty one, and A otherwise. */
  lemma DefaultForm(env: Table, key: string, arg: string, a: string, after: string)
    requires ValidTable(env) && IsKey(key) && Argues(env, arg, a, after)
    ensures
      Reference(env, "${" + key + "-" + arg + "}" + after)
      == Ok(Scan(if key in AsMap(env) then AsMap(env)[key] else a, after))
  {
    GetReads(env, key);
    Regrouped(key, "-", arg, after);
    Opened(env, key, "-" + (arg + "}" + after));
  }

  /** `${K:-A}` is the value of K if it has one that is not empty, and A otherwise. */
  lemma NonEmptyDefaultForm(env: Table, key: string, arg: string, a: string, after: string)
    requires ValidTable(env) && IsKey(key) && Argues(env, arg, a, after)
    ensures
      Reference(env, "${" + key + ":-" + arg + "}" + after)
      == Ok(Scan(if key in AsMap(env) && AsMap(env)[key] != "" then AsMap(env)[key] else a, after))
  {
    GetReads(env, key);
    Regrouped(key, ":-", arg, after);
    Opened(env, key, ":-" + (arg + "}" + after));
  }

  /** `${K+A}` is A if K has a value, even an empty one, and nothing otherwise. */
  lemma AlternateForm(env: Table, key: string, arg: string, a: string, after: string)
    requires ValidTable(env) && IsKey(key) && Argues(env, arg, a, after)
    ensures
      Reference(env, "${" + key + "+" + arg + "}" + after)
      == Ok(Scan(if key in AsMap(env) then a else "", after))
  {
    GetReads(env, key);
    Regrouped(key, "+", arg, after);
    Opened(env, key, "+" + (arg + "}" + after));
  }

  /** `${K:+A}` is A if K has a value that is not empty, and nothing otherwise. */
  lemma NonEmptyAlternateForm(env: Table, key: string, arg: string, a: string, after: string)
    requires ValidTable(env) && IsKey(key) && Argues(env, arg, a, after)
    ensures
      Reference(env, "${" + key + ":+" + arg + "}" + after)
      == Ok(Scan(if key in AsMap(env) && AsMap(env)[key] != "" then a else "", after))
  {
    GetReads(env, key);
    Regrouped(key, ":+", arg, after);
    Opened(env, key, ":+" + (arg + "}" + after));
  }

  predicate Letter(c: char) {
    'a' <= c <= 'z' || 'A' <= c <= 'Z' || c == '_'
  }

  predicate Digit(c: char) {
    '0' <= c <= '9'
  }

  lemma NameRun(key: string, after: string)
    requires forall k :: 0 <= k < |key| ==> Letter(key[k]) || Digit(key[k])
    requires after != "" ==> !Letter(after[0]) && !Digit(after[0])
    ensures NameLength(key + after) == |key|
  {
    var t := key + after;
    assert forall k :: 0 <= k < |key| ==> t[k] == key[k];
    LongestName(t, |key|);
  }

  lemma Named(env: Table, key: string, after: string)
    requires ValidTable(env) && key != "" && NameStart(key[0]) && NameLength(key + after) == |key|
    ensures Reference(env, "$" + key + after) == Simple(env, key, after)
  {
    var t := key + after;
    assert ("$" + key + after)[1..] == t;
    assert t[0] == key[0] && t[..|key|] == key && t[|key|..] == after;
  }

  /** `$K` is the value of K, where K is as long a run of letters, digits and underscores
      as there is, and begins with no digit. */
  lemma NameForm(env: Table, key: string, after: string)
    requires ValidTable(env) && key != "" && Letter(key[0])
    requires forall k :: 0 <= k < |key| ==> Letter(key[k]) || Digit(key[k])
    requires after != "" ==> !Letter(after[0]) && !Digit(after[0])
    ensures
      Reference(env, "$" + key + after)
      == if key in AsMap(env) then Ok(Scan(AsMap(env)[key], after)) else Fail(UnknownParam)
  {
    assert '=' !in key;
    GetReads(env, key);
    NameRun(key, after);
    Named(env, key, after);
  }

  /** A dollar sign before anything else, and `${}`, is a dollar sign. */
  lemma DollarForm(env: Table, after: string)
    requires ValidTable(env)
    ensures Reference(env, "${}" + after) == Ok(Scan("$", after))
    ensures after == "" || (!Letter(after[0]) && after[0] != '{') ==>
      Reference(env, "$" + after) == Ok(Scan("$", after))
  {
    assert ("${}" + after)[1..][2..] == after;
    assert ("$" + after)[1..] == after;
  }

  /** A brace that is not closed, and a colon that begins no operator, are errors. */
  lemma BrokenForms(env: Table, key: string, arg: string, after: string)
    requires ValidTable(env) && IsKey(key) && '$' !in arg && '}' !in arg
    ensures Reference(env, "${" + key) == Fail(MismatchedBraces)
    ensures Reference(env, "${" + key + "-" + arg) == Fail(MismatchedBraces)
    ensures Reference(env, "${" + key + "+" + arg) == Fail(MismatchedBraces)
    ensures after == "" || (after[0] != '-' && after[0] != '+') ==>
      Reference(env, "${" + key + ":" + after) == Fail(ExpectedOperator)
  {
    Unclosed(env, key);
    CopyRun(env, arg, "", {'}'});
    assert arg + "" == arg;
    UnclosedArgument(env, key, "-", arg);
    UnclosedArgument(env, key, "+", arg);
    assert "${" + key + ":" + after == "${" + key + (":" + after);
    Opened(env, key, ":" + after);
  }

  lemma Unclosed(env: Table, key: string)
    requires ValidTable(env) && IsKey(key)
    ensures Reference(env, "${" + key) == Fail(MismatchedBraces)
  {
    var t := ("${" + key)[1..];
    assert t[1..] == key && key + "" == key;
    CopyRun(env, key, "", NAME_END);
    assert Braced(env, key) == Argument(env, key, "");
    assert ""[0..] == "";
  }

  lemma UnclosedArgument(env: Table, key: string, op: string, arg: string)
    requires ValidTable(env) && IsKey(key) && (op == "-" || op == "+")
    requires Expand(env, arg, {'}'}) == Ok(Scan(arg, ""))
    ensures Reference(env, "${" + key + op + arg) == Fail(MismatchedBraces)
  {
    assert "${" + key + op + arg == "${" + key + (op + arg);
    assert (op + arg)[1..] == arg;
    Opened(env, key, op + arg);
  }

  /** Text before a reference is copied, the reference replaced, and what follows it
      expanded in turn. */
  lemma InText(env: Table, before: string, ref: string, value: string, after: string)
    requires ValidTable(env) && '$' !in before && ref != "" && ref[0] == '$'
    requires Reference(env, ref + after) == Ok(Scan(value, after))
    ensures
      Expansion(env, before + ref + after)
      == if Expansion(env, after).Fail? then Expansion(env, after)
         else Ok(before + value + Expansion(env, after).value)
  {
    assert before + ref + after == before + (ref + after);
    CopyRun(env, before, ref + after, {});
    TakeReference(env, before, ref + after, {});
    assert (ref + after)[0] == '$';
  }

  /** A reference that cannot be replaced spoils the whole text. */
  lemma BrokenText(env: Table, before: string, rest: string)
    requires ValidTable(env) && '$' !in before && rest != "" && rest[0] == '$' && Reference(env, rest).Fail?
    ensures Expansion(env, before + rest) == Fail(Reference(env, rest).error)
  {
    CopyRun(env, before, rest, {});
  }

  /** The default form within a text, of an argument without references. */
  lemma DefaultInText(env: Table, before: string, key: string, arg: string, after: string)
    requires ValidTable(env) && '$' !in before && IsKey(key)
    requires '$' !in arg && '}' !in arg && '$' !in after
    ensures
      Expansion(env, before + ("${" + key + ":-" + arg + "}") + after)
      == Ok(before + (if key in AsMap(env) && AsMap(env)[key] != "" then AsMap(env)[key] else arg) + after)
  {
    PlainArgues(env, arg, after);
    NonEmptyDefaultForm(env, key, arg, arg, after);
    var value := if key in AsMap(env) && AsMap(env)[key] != "" then AsMap(env)[key] else arg;
    InText(env, before, "${" + key + ":-" + arg + "}", value, after);
    CopyRun(env, after, "", {});
    assert after + "" == after;
  }
}
