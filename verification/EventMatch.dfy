/** event_operator_match of init/event_operator.c: whether an event satisfies the name
    and the arguments of an operator. */
module EventMatch {
  import opened Environ
  import opened EnvTable

  datatype Event = Event(name: string, env: Table)

  /** fnmatch: whether a pattern matches a text. */
  type Glob = (string, string) -> bool

  datatype Argument =
    | Positional(pattern: string)
    | Named(key: string, negate: bool, pattern: string)

  /** The position of the first "!=" of `s`, or its length. */
  function NotEquals(s: string): (i: nat)
    ensures i <= |s| && (i < |s| ==> i + 1 < |s| && s[i] == '!' && s[i + 1] == '=')
    ensures forall k :: 0 <= k < i && k + 1 < |s| ==> !(s[k] == '!' && s[k + 1] == '=')
  {
    if s == "" then 0
    else if |s| >= 2 && s[0] == '!' && s[1] == '=' then 0
    else NotEquals(s[1..]) + 1
  }

  /** An argument is split at its first "!=", wherever that is, or else at its first
      equals sign. */
  function Split(arg: string): Argument {
    var i := NotEquals(arg);
    if i < |arg| then Named(arg[..i], true, arg[i + 2..])
    else if '=' in arg then Named(arg[..Equals(arg)], false, arg[Equals(arg) + 1..])
    else Positional(arg)
  }

  /** Which entry of the event's environment argument `k` is compared with: the one of
      its name, or the one after the previous argument's. */
  function Entry(args: seq<string>, env: Table, k: nat): nat
    requires k < |args|
  {
    match Split(args[k])
    case Named(key, _, _) => Lookup(env, key)
    case Positional(_) => if k == 0 then 0 else Entry(args, env, k - 1) + 1
  }

  /** Entry `i` exists, and its value matches the expanded pattern, or does not where
      the argument negates. */
  predicate Agrees(pattern: string, negate: bool, i: nat, env: Table, jobEnv: Table, glob: Glob)
    requires ValidTable(env) && ValidTable(jobEnv)
  {
    i < |env| &&
    var expanded := Expansion(jobEnv, pattern);
    && expanded.Ok?
    && var accepted := glob(expanded.value, env[i][Equals(env[i]) + 1..]);
       if negate then !accepted else accepted
  }

  predicate Satisfied(args: seq<string>, event: Event, jobEnv: Table, glob: Glob, k: nat)
    requires k < |args| && ValidTable(event.env) && ValidTable(jobEnv)
  {
    var arg := Split(args[k]);
    Agrees(arg.pattern, arg.Named? && arg.negate, Entry(args, event.env, k), event.env, jobEnv, glob)
  }

  predicate Matches(name: string, args: seq<string>, event: Event, jobEnv: Table, glob: Glob)
    requires ValidTable(event.env) && ValidTable(jobEnv)
  {
    name == event.name && forall k :: 0 <= k < |args| ==> Satisfied(args, event, jobEnv, glob, k)
  }

  /** The part of the loop that finds the entry to compare `arg` with, which is the
      one at `next` if it has no name. */
  method Hunt(arg: string, env: Table, next: nat) returns (e: nat, negate: bool, pattern: string)
    ensures var a := Split(arg);
      pattern == a.pattern && negate == (a.Named? && a.negate)
      && e == if a.Named? then Lookup(env, a.key) else next
  {
    e, negate, pattern := next, false, arg;
    var oval := NotEquals(arg);
    if oval == |arg| && '=' in arg { oval := Equals(arg); }
    if oval < |arg| {
      e := Lookup(env, arg[..oval]);
      if arg[oval] == '!' {
        negate := true;
        oval := oval + 1;
      }
      pattern := arg[oval + 1..];
    }
  }

  /** The part of the loop that compares. */
  method Compare(pattern: string, negate: bool, e: nat, env: Table, jobEnv: Table, glob: Glob) returns (r: bool)
    requires ValidTable(env) && ValidTable(jobEnv)
    ensures r <==>
      && e < |env| && Expansion(jobEnv, pattern).Ok?
      && var accepted := glob(Expansion(jobEnv, pattern).value, env[e][Equals(env[e]) + 1..]);
         (accepted && !negate) || (!accepted && negate)
  {
    if !(e < |env|) { return false; }
    var value := env[e][Equals(env[e]) + 1..];
    var expanded := Expansion(jobEnv, pattern);
    if expanded.Fail? { return false; }
    var matched := glob(expanded.value, value);
    return !(if negate then matched else !matched);
  }

  /** event_operator_match. */
  method Match(name: string, args: seq<string>, event: Event, jobEnv: Table, glob: Glob) returns (r: bool)
    requires ValidTable(event.env) && ValidTable(jobEnv)
    ensures r <==> Matches(name, args, event, jobEnv, glob)
  {
    if name != event.name { return false; }
    var o, e := 0, 0;
    while o < |args|
      invariant o <= |args|
      invariant e == if o == 0 then 0 else Entry(args, event.env, o - 1) + 1
      invariant forall k :: 0 <= k < o ==> Satisfied(args, event, jobEnv, glob, k)
    {
      var negate, pattern;
      e, negate, pattern := Hunt(args[o], event.env, e);
      assert e == Entry(args, event.env, o);
      var agrees := Compare(pattern, negate, e, event.env, jobEnv, glob);
      assert agrees == Satisfied(args, event, jobEnv, glob, o);
      if !agrees { return false; }
      o, e := o + 1, e + 1;
    }
    return true;
  }

  /** Where positional arguments come first, as the parser requires, the k-th one is
      compared with the k-th entry of the event. */
  lemma {:induction false} PositionalInOrder(args: seq<string>, env: Table, k: nat)
    requires k < |args| && forall j :: 0 <= j <= k ==> Split(args[j]).Positional?
    ensures Entry(args, env, k) == k
  {
    if k > 0 { PositionalInOrder(args, env, k - 1); }
  }

  // ----- each form of argument by itself -----

  predicate HasNotEquals(s: string) {
    exists k :: 0 <= k < |s| - 1 && s[k] == '!' && s[k + 1] == '='
  }

  lemma {:induction false} NotEqualsAt(s: string, i: nat)
    requires i + 1 < |s| && s[i] == '!' && s[i + 1] == '='
    requires forall k :: 0 <= k < i ==> !(s[k] == '!' && s[k + 1] == '=')
    ensures NotEquals(s) == i
  {
    var n := NotEquals(s);
    assert n >= i;
  }

  lemma SplitNamed(key: string, pattern: string)
    requires '=' !in key && !HasNotEquals(key + "=" + pattern)
    ensures Split(key + "=" + pattern) == Named(key, false, pattern)
  {
    var s := key + "=" + pattern;
    assert NotEquals(s) == |s|;
    assert s[|key|] == '=' && s[..|key|] == key && s[|key| + 1..] == pattern;
    EqualsAt(s, |key|);
  }

  lemma SplitNegated(key: string, pattern: string)
    requires '=' !in key
    ensures Split(key + "!=" + pattern) == Named(key, true, pattern)
  {
    var s := key + "!=" + pattern;
    assert s[|key|] == '!' && s[|key| + 1] == '=' && s[..|key|] == key && s[|key| + 2..] == pattern;
    forall k | 0 <= k < |key| ensures s[k] != '=' { assert s[k] in key; }
    NotEqualsAt(s, |key|);
  }

  lemma SplitPositional(pattern: string)
    requires '=' !in pattern
    ensures Split(pattern) == Positional(pattern)
  {
    assert !HasNotEquals(pattern);
    assert NotEquals(pattern) == |pattern|;
  }

  lemma EntryOf(env: Table, key: string)
    requires ValidTable(env) && '=' !in key
    ensures
      var i := Lookup(env, key);
      if i < |env| then key in AsMap(env) && env[i][Equals(env[i]) + 1..] == AsMap(env)[key] else key !in AsMap(env)
  {
    GetReads(env, key);
  }

  /** `K=P` accepts the events of the name whose K has a value that P, expanded for the
      job, accepts. */
  lemma MatchNamed(name: string, key: string, pattern: string, event: Event, jobEnv: Table, glob: Glob)
    requires ValidTable(event.env) && ValidTable(jobEnv)
    requires '=' !in key && !HasNotEquals(key + "=" + pattern)
    ensures Matches(name, [key + "=" + pattern], event, jobEnv, glob) <==>
      && name == event.name && key in AsMap(event.env) && Expansion(jobEnv, pattern).Ok?
      && glob(Expansion(jobEnv, pattern).value, AsMap(event.env)[key])
  {
    SplitNamed(key, pattern);
    EntryOf(event.env, key);
    OneArgument(name, key + "=" + pattern, event, jobEnv, glob);
  }

  /** `K!=P` accepts those whose K has a value that P does not accept. */
  lemma MatchNegated(name: string, key: string, pattern: string, event: Event, jobEnv: Table, glob: Glob)
    requires ValidTable(event.env) && ValidTable(jobEnv) && '=' !in key
    ensures Matches(name, [key + "!=" + pattern], event, jobEnv, glob) <==>
      && name == event.name && key in AsMap(event.env) && Expansion(jobEnv, pattern).Ok?
      && !glob(Expansion(jobEnv, pattern).value, AsMap(event.env)[key])
  {
    SplitNegated(key, pattern);
    EntryOf(event.env, key);
    OneArgument(name, key + "!=" + pattern, event, jobEnv, glob);
  }

  /** A pattern alone is for the value of the first variable, whatever that is called. */
  lemma MatchPositional(name: string, pattern: string, event: Event, jobEnv: Table, glob: Glob)
    requires ValidTable(event.env) && ValidTable(jobEnv) && '=' !in pattern
    ensures Matches(name, [pattern], event, jobEnv, glob) <==>
      && name == event.name && event.env != [] && Expansion(jobEnv, pattern).Ok?
      && exists key, value :: '=' !in key && event.env[0] == key + "=" + value
           && glob(Expansion(jobEnv, pattern).value, value)
  {
    SplitPositional(pattern);
    OneArgument(name, pattern, event, jobEnv, glob);
    if event.env != [] {
      WholeEntry(event.env[0]);
      forall key, value | '=' !in key && event.env[0] == key + "=" + value
        ensures value == event.env[0][Equals(event.env[0]) + 1..]
      {
        SplitEntry(key, value);
      }
    }
  }

  /** Entry `i` of the event has a value, and the expanded pattern of `K=P` or of a
      pattern alone accepts it, and that of `K!=P` does not. */
  ghost predicate Meets(arg: Argument, i: nat, env: Table, jobEnv: Table, glob: Glob)
    requires ValidTable(env) && ValidTable(jobEnv)
  {
    i < |env| &&
    var value, pattern := env[i][Equals(env[i]) + 1..], Expansion(jobEnv, arg.pattern);
    match arg
    case Positional(_) => pattern.Ok? && glob(pattern.value, value)
    case Named(_, false, _) => pattern.Ok? && glob(pattern.value, value)
    case Named(_, true, _) => pattern.Ok? && !glob(pattern.value, value)
  }

  lemma SatisfiedMeets(args: seq<string>, event: Event, jobEnv: Table, glob: Glob, k: nat)
    requires k < |args| && ValidTable(event.env) && ValidTable(jobEnv)
    ensures Satisfied(args, event, jobEnv, glob, k)
      <==> Meets(Split(args[k]), Entry(args, event.env, k), event.env, jobEnv, glob)
  {
  }

  /** A list of arguments accepts the events of the name that meet every one. */
  lemma MatchesAll(name: string, args: seq<string>, event: Event, jobEnv: Table, glob: Glob)
    requires ValidTable(event.env) && ValidTable(jobEnv)
    ensures Matches(name, args, event, jobEnv, glob) <==>
      && name == event.name
      && forall k :: 0 <= k < |args| ==> Meets(Split(args[k]), Entry(args, event.env, k), event.env, jobEnv, glob)
  {
    forall k | 0 <= k < |args|
      ensures Satisfied(args, event, jobEnv, glob, k)
        <==> Meets(Split(args[k]), Entry(args, event.env, k), event.env, jobEnv, glob)
    {
      SatisfiedMeets(args, event, jobEnv, glob, k);
    }
  }

  lemma OneArgument(name: string, arg: string, event: Event, jobEnv: Table, glob: Glob)
    requires ValidTable(event.env) && ValidTable(jobEnv)
    ensures Matches(name, [arg], event, jobEnv, glob) <==>
      name == event.name && Satisfied([arg], event, jobEnv, glob, 0)
  {
  }
}
