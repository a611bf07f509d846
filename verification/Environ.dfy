/** Variable expansion of init/environ.c: a functional expander over the unread
    text, and environ_expand_until, which rewrites a buffer in place and refines
    it. */
module Environ {

  datatype Error = UnknownParam | ExpectedOperator | MismatchedBraces

  datatype Result<+T> = Ok(value: T) | Fail(error: Error) {
    predicate IsFailure() { Fail? }
    function PropagateFailure<U>(): Result<U> requires Fail? { Fail(error) }
    function Extract(): T requires Ok? { value }
  }

  /** C strings: no NUL before the end. */
  predicate NoNul(s: string) { '\0' !in s }

  /** An environment table: entries of KEY=VALUE form. */
  type Table = seq<string>

  predicate ValidTable(env: Table) {
    forall i :: 0 <= i < |env| ==> '=' in env[i] && NoNul(env[i])
  }

  // ----- lookup -----

  /** Whether the text of `entry` begins with `key` and then an equals sign. */
  predicate Matches(entry: string, key: string) {
    |key| < |entry| && entry[..|key|] == key && entry[|key|] == '='
  }

  /** environ_lookup: the first entry for `key`. */
  function Lookup(env: Table, key: string): (i: nat)
    ensures i <= |env|
    ensures i < |env| ==> Matches(env[i], key)
    ensures forall k :: 0 <= k < i ==> !Matches(env[k], key)
  {
    if env == [] || Matches(env[0], key) then 0
    else
      var i := Lookup(env[1..], key);
      assert forall k :: 1 <= k < i + 1 ==> env[k] == env[1..][k - 1];
      i + 1
  }

  /** The position of the first equals sign. */
  function Equals(s: string): (i: nat)
    requires '=' in s
    ensures i < |s| && s[i] == '=' && '=' !in s[..i]
  {
    if s[0] == '=' then 0 else Equals(s[1..]) + 1
  }

  datatype Value = Unset | Set(text: string)

  /** environ_getn: what follows the first equals sign of the entry found. */
  function Get(env: Table, key: string): (v: Value)
    requires ValidTable(env)
    ensures v.Set? ==> NoNul(v.text)
  {
    var i := Lookup(env, key);
    if i == |env| then Unset else Set(env[i][Equals(env[i]) + 1..])
  }

  /** environ_get finds nothing exactly if there is no entry for the key, and otherwise
      the rest of the first one. */
  lemma GetMeans(env: Table, key: string)
    requires ValidTable(env)
    ensures Get(env, key).Unset? <==> forall i :: 0 <= i < |env| ==> !Matches(env[i], key)
    ensures Get(env, key).Set? && '=' !in key ==>
      exists i :: 0 <= i < |env| && env[i] == key + "=" + Get(env, key).text
                  && forall k :: 0 <= k < i ==> !Matches(env[k], key)
  {
    var i := Lookup(env, key);
    if i < |env| && '=' !in key {
      var entry, e := env[i], Equals(env[i]);
      EqualsAt(entry, |key|);
      assert entry == entry[..e] + [entry[e]] + entry[e + 1..];
    }
  }

  lemma EqualsAt(s: string, k: nat)
    requires k < |s| && s[k] == '=' && '=' !in s[..k]
    ensures Equals(s) == k
  {
    forall j | 0 <= j < k ensures s[j] != '=' { assert s[j] in s[..k]; }
    forall j | 0 <= j < Equals(s) ensures s[j] != '=' { assert s[j] in s[..Equals(s)]; }
  }

  // ----- the functional expander -----

  predicate NameStart(c: char) {
    c == '_' || 'A' <= c <= 'Z' || 'a' <= c <= 'z'
  }

  predicate NameChar(c: char) {
    NameStart(c) || '0' <= c <= '9'
  }

  /** The length of the run of name characters at the start of `s`. */
  function NameLength(s: string): (n: nat)
    ensures n <= |s| && (forall i :: 0 <= i < n ==> NameChar(s[i]))
    ensures n < |s| ==> !NameChar(s[n])
  {
    if s == "" || !NameChar(s[0]) then 0 else NameLength(s[1..]) + 1
  }

  datatype Operator = OpValue | OpDefault | OpAlternate

  /** The operator of a braced reference, whether an empty value counts as unset,
      and how many characters the operator takes. */
  function ParseOperator(s: string): (r: Result<(Operator, bool, nat)>)
    ensures r.Ok? ==> r.value.2 <= |s|
  {
    if s == "" then Ok((OpValue, false, 0))
    else if s[0] == ':' && |s| > 1 && s[1] == '-' then Ok((OpDefault, true, 2))
    else if s[0] == ':' && |s| > 1 && s[1] == '+' then Ok((OpAlternate, true, 2))
    else if s[0] == '-' then Ok((OpDefault, false, 1))
    else if s[0] == '+' then Ok((OpAlternate, false, 1))
    else if s[0] == '}' then Ok((OpValue, false, 0))
    else Fail(ExpectedOperator)
  }

  /** What a reference is replaced with. */
  function Substitute(v: Value, op: Operator, ignoreEmpty: bool, argument: string): Result<string> {
    var unset := v.Unset? || (ignoreEmpty && v.text == "");
    match op
    case OpValue => if v.Unset? then Fail(UnknownParam) else Ok(v.text)
    case OpDefault => Ok(if unset then argument else v.text)
    case OpAlternate => Ok(if unset then "" else argument)
  }

  /** The text a scan produced, and the text it left unread. */
  datatype Scan = Scan(out: string, rest: string)

  /** Expand `s` up to the first character of `until` outside a reference. */
  function Expand(env: Table, s: string, until: set<char>): (r: Result<Scan>)
    requires ValidTable(env)
    ensures r.Ok? ==> |r.value.rest| <= |s|
    ensures r.Ok? ==> r.value.rest == "" || (r.value.rest[0] in until && r.value.rest[0] != '$')
    decreases |s|, 1
  {
    if s == "" then Ok(Scan("", ""))
    else if s[0] != '$' then
      if s[0] in until then Ok(Scan("", s))
      else
        var r :- Expand(env, s[1..], until);
        Ok(Scan([s[0]] + r.out, r.rest))
    else
      var ref :- Reference(env, s);
      var r :- Expand(env, ref.rest, until);
      Ok(Scan(ref.out + r.out, r.rest))
  }

  /** A name right after the dollar sign. */
  function Simple(env: Table, name: string, rest: string): (r: Result<Scan>)
    requires ValidTable(env)
    ensures r.Ok? ==> r.value.rest == rest
  {
    var text :- Substitute(Get(env, name), OpValue, false, "");
    Ok(Scan(text, rest))
  }

  /** Expand the reference, or the lone dollar sign, at the start of `s`. */
  function Reference(env: Table, s: string): (r: Result<Scan>)
    requires ValidTable(env) && s != "" && s[0] == '$'
    ensures r.Ok? ==> |r.value.rest| < |s|
    decreases |s|, 0
  {
    var t := s[1..];
    if t != "" && NameStart(t[0]) then
      var n := NameLength(t);
      Simple(env, t[..n], t[n..])
    else if |t| >= 2 && t[0] == '{' && t[1] == '}' then Ok(Scan("$", t[2..]))
    else if t != "" && t[0] == '{' then Braced(env, t[1..])
    else Ok(Scan("$", t))
  }

  const NAME_END: set<char> := {'}', ':', '-', '+'}

  /** The end of a braced reference: its closing brace, and what replaces it all. */
  function Close(env: Table, name: string, op: Operator, ignoreEmpty: bool, argument: Scan): (r: Result<Scan>)
    requires ValidTable(env)
    ensures r.Ok? ==> argument.rest != "" && r.value.rest == argument.rest[1..]
  {
    if argument.rest == "" then Fail(MismatchedBraces)
    else
      var text :- Substitute(Get(env, name), op, ignoreEmpty, argument.out);
      Ok(Scan(text, argument.rest[1..]))
  }

  /** The rest of a braced reference, after its expanded name. */
  function Argument(env: Table, name: string, s: string): (r: Result<Scan>)
    requires ValidTable(env)
    ensures r.Ok? ==> |r.value.rest| <= |s|
    decreases |s|, 2
  {
    var op :- ParseOperator(s);
    var argument :- Expand(env, s[op.2..], {'}'});
    Close(env, name, op.0, op.1, argument)
  }

  /** The rest of a braced reference, after its opening brace. */
  function Braced(env: Table, s: string): (r: Result<Scan>)
    requires ValidTable(env)
    ensures r.Ok? ==> |r.value.rest| <= |s|
    decreases |s|, 3
  {
    var name :- Expand(env, s, NAME_END);
    Argument(env, name.out, name.rest)
  }

  // ----- what a scan leaves unread -----

  ghost predicate Suffix(rest: string, s: string) {
    |rest| <= |s| && rest == s[|s| - |rest|..]
  }

  lemma SuffixTransitive(a: string, b: string, c: string)
    requires Suffix(a, b) && Suffix(b, c)
    ensures Suffix(a, c)
  {
  }

  /** What an expansion leaves unread is the end of the text as it was. */
  lemma {:induction false} ExpandLeavesSuffix(env: Table, s: string, until: set<char>)
    requires ValidTable(env)
    ensures var r := Expand(env, s, until); r.Ok? ==> Suffix(r.value.rest, s)
    decreases |s|, 1
  {
    var r := Expand(env, s, until);
    if s != "" && r.Ok? {
      if s[0] != '$' {
        if s[0] !in until {
          ExpandLeavesSuffix(env, s[1..], until);
          SuffixTransitive(r.value.rest, s[1..], s);
        }
      } else {
        ReferenceLeavesSuffix(env, s);
        var rest := Reference(env, s).value.rest;
        ExpandLeavesSuffix(env, rest, until);
        SuffixTransitive(r.value.rest, rest, s);
      }
    }
  }

  lemma {:induction false} ReferenceLeavesSuffix(env: Table, s: string)
    requires ValidTable(env) && s != "" && s[0] == '$'
    ensures var r := Reference(env, s); r.Ok? ==> Suffix(r.value.rest, s)
    decreases |s|, 0
  {
    var r, t := Reference(env, s), s[1..];
    if r.Ok? {
      if t != "" && NameStart(t[0]) {
        SuffixTransitive(t[NameLength(t)..], t, s);
      } else if |t| >= 2 && t[0] == '{' && t[1] == '}' {
        SuffixTransitive(t[2..], t, s);
      } else if t != "" && t[0] == '{' {
        BracedLeavesSuffix(env, t[1..]);
        SuffixTransitive(t[1..], t, s);
        SuffixTransitive(r.value.rest, t[1..], s);
      }
    }
  }

  lemma {:induction false} BracedLeavesSuffix(env: Table, s: string)
    requires ValidTable(env)
    ensures var r := Braced(env, s); r.Ok? ==> Suffix(r.value.rest, s)
    decreases |s|, 3
  {
    var name := Expand(env, s, NAME_END);
    if name.Ok? {
      ExpandLeavesSuffix(env, s, NAME_END);
      ArgumentLeavesSuffix(env, name.value.out, name.value.rest);
      var r := Argument(env, name.value.out, name.value.rest);
      if r.Ok? { SuffixTransitive(r.value.rest, name.value.rest, s); }
    }
  }

  lemma {:induction false} ArgumentLeavesSuffix(env: Table, name: string, s: string)
    requires ValidTable(env)
    ensures var r := Argument(env, name, s); r.Ok? ==> Suffix(r.value.rest, s)
    decreases |s|, 2
  {
    var op := ParseOperator(s);
    if op.Ok? {
      var tail := s[op.value.2..];
      var argument := Expand(env, tail, {'}'});
      if argument.Ok? && argument.value.rest != "" {
        ExpandLeavesSuffix(env, tail, {'}'});
        SuffixTransitive(argument.value.rest[1..], argument.value.rest, tail);
        SuffixTransitive(argument.value.rest[1..], tail, s);
      }
    }
  }

  /** What a whole string expands to. */
  function Expansion(env: Table, text: string): Result<string>
    requires ValidTable(env)
  {
    var scan :- Expand(env, text, {});
    Ok(scan.out)
  }
}
