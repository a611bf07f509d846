/** environ_add and environ_append of init/environ.c: an array of KEY=VALUE strings
    kept as a map from keys to values. */
module EnvTable {
  import opened Environ

  function Key(s: string): (k: string)
    ensures '=' !in k
  {
    if '=' in s then s[..Equals(s)] else s
  }

  predicate Entries(env: Table) {
    forall i :: 0 <= i < |env| ==> '=' in env[i]
  }

  predicate Distinct(env: Table) {
    forall i, j :: 0 <= i < j < |env| ==> Key(env[i]) != Key(env[j])
  }

  /** The map a table stands for; the first entry for a key counts. */
  ghost function AsMap(env: Table): map<string, string>
    requires Entries(env)
  {
    if env == [] then map[]
    else AsMap(env[1..])[Key(env[0]) := env[0][Equals(env[0]) + 1..]]
  }

  /** The value `str` gives its key: its own, or that of init's environment `own`. */
  function Given(own: map<string, string>, str: string): Value {
    if '=' in str then Set(str[Equals(str) + 1..])
    else if str in own then Set(own[str])
    else Unset
  }

  /** What adding does to the map. */
  ghost function Update(m: map<string, string>, replace: bool, key: string, value: Value): map<string, string> {
    if key in m && !replace then m
    else match value case Set(text) => m[key := text] case Unset => m - {key}
  }

  predicate NoneRemoves(own: map<string, string>, more: Table) {
    forall i :: 0 <= i < |more| ==> Given(own, more[i]).Set?
  }

  /** What adding does to the table: the first entry for the key is replaced or taken out,
      or a new one comes at the end. */
  function Added(env: Table, replace: bool, str: string, value: Value): Table {
    var i := Lookup(env, Key(str));
    if i < |env| then
      if !replace then env
      else if value.Set? then env[i := Key(str) + "=" + value.text]
      else env[..i] + env[i + 1..]
    else if value.Set? then env + [Key(str) + "=" + value.text]
    else env
  }

  class Environment {
    var entries: Table

    constructor ()
      ensures entries == []
    {
      entries := [];
    }

    /** environ_add. */
    method Add(own: map<string, string>, replace: bool, str: string)
      requires Entries(entries)
      modifies this
      ensures Entries(entries) && (old(Distinct(entries)) ==> Distinct(entries))
      ensures entries == Added(old(entries), replace, str, Given(own, str))
      ensures old(Distinct(entries)) || !replace || Given(own, str).Set? ==>
        AsMap(entries) == Update(old(AsMap(entries)), replace, Key(str), Given(own, str))
    {
      var key := 0;
      while key < |str| && str[key] != '='
        invariant key <= |str| && '=' !in str[..key]
      {
        key := key + 1;
      }
      KeyLength(str, key);
      var has, newStr := false, "";
      if key < |str| {
        has, newStr := true, str;
        WholeEntry(str);
      } else if str in own {
        has, newStr := true, str + "=" + own[str];
      }
      AddedKeeps(entries, replace, str, Given(own, str));
      if Distinct(entries) || !replace || Given(own, str).Set? {
        AddedAsMap(entries, replace, str, Given(own, str));
      }
      Put(str[..key], has, newStr, replace, str, Given(own, str));
    }

    /** The entry found is replaced or taken out, or the new one put at the end. */
    method Put(key: string, has: bool, newStr: string, replace: bool, ghost str: string, ghost value: Value)
      requires key == Key(str) && has == value.Set? && (has ==> newStr == key + "=" + value.text)
      modifies this
      ensures entries == Added(old(entries), replace, str, value)
    {
      var i := Lookup(entries, key);
      if i < |entries| && replace {
        if has {
          entries := entries[i := newStr];
        } else {
          entries := entries[..i] + entries[i + 1..];
        }
      } else if i < |entries| {
        return;
      } else if has {
        entries := entries + [newStr];
      }
    }

    /** environ_append. */
    method Append(own: map<string, string>, replace: bool, more: Table)
      requires Entries(entries)
      modifies this
      ensures Entries(entries) && (old(Distinct(entries)) ==> Distinct(entries))
      ensures old(Distinct(entries)) || !replace || NoneRemoves(own, more) ==>
        AsMap(entries) == UpdateAll(old(AsMap(entries)), own, replace, more)
    {
      ghost var plain := Distinct(entries) || !replace || NoneRemoves(own, more);
      for i := 0 to |more|
        invariant Entries(entries) && (old(Distinct(entries)) ==> Distinct(entries))
        invariant plain ==> AsMap(entries) == UpdateAll(old(AsMap(entries)), own, replace, more[..i])
      {
        Add(own, replace, more[i]);
        assert more[..i + 1][..i] == more[..i];
      }
      assert more[..|more|] == more;
    }
  }

  ghost function UpdateAll(m: map<string, string>, own: map<string, string>, replace: bool, more: Table)
    : map<string, string>
  {
    if more == [] then m
    else
      var last := |more| - 1;
      Update(UpdateAll(m, own, replace, more[..last]), replace, Key(more[last]), Given(own, more[last]))
  }

  lemma KeyLength(str: string, key: nat)
    requires key <= |str| && '=' !in str[..key] && (key < |str| ==> str[key] == '=')
    ensures Key(str) == str[..key] && ('=' in str <==> key < |str|)
  {
    forall k | 0 <= k < key ensures str[k] != '=' { assert str[k] in str[..key]; }
    if '=' in str {
      var e := Equals(str);
      forall k | 0 <= k < e ensures str[k] != '=' { assert str[k] in str[..e]; }
    }
  }

  lemma WholeEntry(str: string)
    requires '=' in str
    ensures str == Key(str) + "=" + str[Equals(str) + 1..]
  {
    var e := Equals(str);
    assert str == str[..e] + [str[e]] + str[e + 1..];
  }

  lemma SplitEntry(key: string, value: string)
    requires '=' !in key
    ensures var s := key + "=" + value; '=' in s && Key(s) == key && s[Equals(s) + 1..] == value
  {
    var s := key + "=" + value;
    assert s[|key|] == '=' && s[..|key|] == key;
    KeyLength(s, |key|);
  }

  /** A variable is added with the value written after its first equals sign, and without
      one with that of init's own environment, if it has one. */
  lemma GivenMeans(own: map<string, string>, key: string, value: string)
    requires '=' !in key
    ensures Given(own, key + "=" + value) == Set(value) && Key(key + "=" + value) == key && Key(key) == key
    ensures Given(own, key) == if key in own then Set(own[key]) else Unset
  {
    SplitEntry(key, value);
  }

  lemma {:induction false} LookupFinds(env: Table, key: string)
    requires Entries(env) && '=' !in key
    ensures var i := Lookup(env, key);
      if i < |env| then Key(env[i]) == key && key in AsMap(env) else key !in AsMap(env)
  {
    if env != [] {
      var entry := env[0];
      if Matches(entry, key) {
        KeyLength(entry, |key|);
      } else {
        assert Key(entry) != key;
        LookupFinds(env[1..], key);
      }
    }
  }

  /** environ_get reads the map. */
  lemma {:induction false} GetReads(env: Table, key: string)
    requires ValidTable(env) && '=' !in key
    ensures Get(env, key) == if key in AsMap(env) then Set(AsMap(env)[key]) else Unset
  {
    if env != [] {
      var entry := env[0];
      if Matches(entry, key) {
        KeyLength(entry, |key|);
      } else {
        assert Key(entry) != key;
        GetReads(env[1..], key);
        LookupFinds(env, key);
      }
    }
  }

  /** No entry before the one found is for the key. */
  lemma FoundFirst(env: Table, key: string)
    requires Entries(env) && '=' !in key
    ensures var i := Lookup(env, key);
      && (i < |env| ==> Key(env[i]) == key)
      && forall k :: 0 <= k < i ==> Key(env[k]) != key
  {
    var i := Lookup(env, key);
    if i < |env| { MatchesKey(env[i], key); }
    forall k | 0 <= k < i ensures Key(env[k]) != key { MatchesKey(env[k], key); }
  }

  lemma MatchesKey(entry: string, key: string)
    requires '=' in entry && '=' !in key
    ensures Matches(entry, key) <==> Key(entry) == key
  {
    if Matches(entry, key) { KeyLength(entry, |key|); }
  }

  lemma AddedKeeps(env: Table, replace: bool, str: string, value: Value)
    requires Entries(env)
    ensures var next := Added(env, replace, str, value); Entries(next) && (Distinct(env) ==> Distinct(next))
  {
    var key, i := Key(str), Lookup(env, Key(str));
    FoundFirst(env, key);
    LookupFinds(env, key);
    if value.Set? { SplitEntry(key, value.text); }
    if i < |env| {
      if value.Set? { ReplaceEntries(env, i, key + "=" + value.text); } else { RemoveEntries(env, i); }
    } else if value.Set? {
      AppendEntry(env, key + "=" + value.text);
    }
  }

  /** On a table whose keys may repeat, adding does to the map what is said, but for the
      removal of a key that another entry has as well. */
  lemma AddedAsMap(env: Table, replace: bool, str: string, value: Value)
    requires Entries(env) && Entries(Added(env, replace, str, value))
    requires Distinct(env) || !replace || value.Set?
    ensures AsMap(Added(env, replace, str, value)) == Update(AsMap(env), replace, Key(str), value)
  {
    var key, i := Key(str), Lookup(env, Key(str));
    FoundFirst(env, key);
    LookupFinds(env, key);
    if i < |env| && replace {
      match value
      case Set(text) => SplitEntry(key, text); ReplaceFirst(env, i, key + "=" + text);
      case Unset => TakenOut(env, i);
    } else if i == |env| && value.Set? {
      SplitEntry(key, value.text);
      AppendEntry(env, key + "=" + value.text);
    } else if i == |env| {
      assert AsMap(env) - {key} == AsMap(env);
    }
  }

  lemma TakenOut(env: Table, i: nat)
    requires Entries(env) && i < |env|
    ensures var next := env[..i] + env[i + 1..];
      && Entries(next)
      && (Distinct(env) ==> Distinct(next) && AsMap(next) == AsMap(env) - {Key(env[i])})
  {
    RemoveEntries(env, i);
    if Distinct(env) { RemoveAsMap(env, i); }
  }

  lemma ReplaceEntries(env: Table, i: nat, entry: string)
    requires Entries(env) && i < |env| && '=' in entry && Key(entry) == Key(env[i])
    ensures Entries(env[i := entry]) && (Distinct(env) ==> Distinct(env[i := entry]))
  {
  }

  lemma {:induction false} ReplaceFirst(env: Table, i: nat, entry: string)
    requires Entries(env) && i < |env| && '=' in entry && Key(entry) == Key(env[i])
    requires forall k :: 0 <= k < i ==> Key(env[k]) != Key(env[i])
    ensures Entries(env[i := entry])
    ensures AsMap(env[i := entry]) == AsMap(env)[Key(entry) := entry[Equals(entry) + 1..]]
  {
    var next, rest := env[i := entry], env[1..];
    if i == 0 {
      assert next[1..] == rest;
    } else {
      ReplaceTail(env, i, entry);
      ReplaceFirst(rest, i - 1, entry);
      SwapUpdates(AsMap(rest), Key(entry), entry[Equals(entry) + 1..], Key(env[0]), env[0][Equals(env[0]) + 1..]);
    }
  }

  lemma ReplaceTail(env: Table, i: nat, entry: string)
    requires 0 < i < |env|
    ensures env[i := entry][1..] == env[1..][i - 1 := entry] && env[i := entry][0] == env[0]
  {
  }

  /** Taking out the first entry takes the key out of the map exactly if no other entry
      has it. */
  lemma RemovesKeyIff(env: Table, i: nat)
    requires Entries(env) && i < |env| && forall k :: 0 <= k < i ==> Key(env[k]) != Key(env[i])
    ensures var next := env[..i] + env[i + 1..];
      Entries(next) &&
      (AsMap(next) == AsMap(env) - {Key(env[i])} <==> forall k :: i < k < |env| ==> Key(env[k]) != Key(env[i]))
  {
    var next, key := env[..i] + env[i + 1..], Key(env[i]);
    RemoveEntries(env, i);
    Present(next, key);
    if k :| i < k < |env| && Key(env[k]) == key {
      assert next[k - 1] == env[k];
    } else {
      RemoveOnly(env, i);
    }
  }

  // ----- maps -----

  lemma SwapUpdates<K, V>(m: map<K, V>, a: K, va: V, b: K, vb: V)
    requires a != b
    ensures m[a := va][b := vb] == m[b := vb][a := va]
  {
  }

  lemma RemoveUpdated<K, V>(m: map<K, V>, a: K, va: V, b: K)
    requires a != b
    ensures (m - {b})[a := va] == m[a := va] - {b}
  {
  }

  lemma RemoveFresh<K, V>(m: map<K, V>, a: K, va: V)
    requires a !in m
    ensures m[a := va] - {a} == m
  {
  }

  lemma OverlayUpdated<K, V>(m: map<K, V>, n: map<K, V>, a: K, va: V)
    ensures (m + n)[a := va] == m + n[a := va]
  {
  }

  lemma UnderlayUpdated<K, V>(m: map<K, V>, n: map<K, V>, a: K, va: V)
    requires a !in n
    ensures n[a := va] + m == if a in n + m then n + m else (n + m)[a := va]
  {
  }

  // ----- one entry changed -----

  /** The keys of the map are those of the entries. */
  lemma {:induction false} Present(env: Table, key: string)
    requires Entries(env)
    ensures key in AsMap(env) <==> exists j :: 0 <= j < |env| && Key(env[j]) == key
  {
    if env != [] {
      Present(env[1..], key);
      if j :| 0 <= j < |env| && Key(env[j]) == key && j > 0 {
        assert env[1..][j - 1] == env[j];
      }
      if key in AsMap(env[1..]) {
        var j :| 0 <= j < |env[1..]| && Key(env[1..][j]) == key;
        assert env[j + 1] == env[1..][j];
      }
    }
  }

  lemma RemoveEntries(env: Table, i: nat)
    requires Entries(env) && i < |env|
    ensures var next := env[..i] + env[i + 1..]; Entries(next) && (Distinct(env) ==> Distinct(next))
  {
  }

  lemma RemoveAsMap(env: Table, i: nat)
    requires Entries(env) && Distinct(env) && i < |env|
    ensures AsMap(env[..i] + env[i + 1..]) == AsMap(env) - {Key(env[i])}
  {
    RemoveOnly(env, i);
  }

  /** No other entry has the key of entry `i`. */
  predicate Alone(env: Table, i: nat)
    requires i < |env|
  {
    forall k :: 0 <= k < |env| && k != i ==> Key(env[k]) != Key(env[i])
  }

  lemma AloneInRest(env: Table, i: nat)
    requires 0 < i < |env| && Alone(env, i)
    ensures Alone(env[1..], i - 1) && env[1..][i - 1] == env[i] && Key(env[0]) != Key(env[i])
  {
    forall k | 0 <= k < |env[1..]| && k != i - 1 ensures Key(env[1..][k]) != Key(env[i]) {
      assert env[1..][k] == env[k + 1];
    }
  }

  lemma {:induction false} RemoveOnly(env: Table, i: nat)
    requires Entries(env) && i < |env| && Alone(env, i)
    ensures Entries(env[..i] + env[i + 1..])
    ensures AsMap(env[..i] + env[i + 1..]) == AsMap(env) - {Key(env[i])}
    decreases i, 1
  {
    RemoveEntries(env, i);
    if i == 0 { RemoveHead(env); } else { RemoveLater(env, i); }
  }

  lemma RemoveHead(env: Table)
    requires Entries(env) && env != [] && Alone(env, 0)
    ensures env[..0] + env[1..] == env[1..] && AsMap(env[1..]) == AsMap(env) - {Key(env[0])}
  {
    var rest := env[1..];
    Present(rest, Key(env[0]));
    assert forall j :: 0 <= j < |rest| ==> rest[j] == env[j + 1];
    RemoveFresh(AsMap(rest), Key(env[0]), env[0][Equals(env[0]) + 1..]);
  }

  lemma RemoveLater(env: Table, i: nat)
    requires Entries(env) && 0 < i < |env| && Alone(env, i) && Entries(env[..i] + env[i + 1..])
    ensures AsMap(env[..i] + env[i + 1..]) == AsMap(env) - {Key(env[i])}
    decreases i, 0
  {
    AloneInRest(env, i);
    RemoveOnly(env[1..], i - 1);
    RemoveTail(env, i);
    RemoveUpdated(AsMap(env[1..]), Key(env[0]), env[0][Equals(env[0]) + 1..], Key(env[i]));
  }

  lemma RemoveTail(env: Table, i: nat)
    requires 0 < i < |env|
    ensures (env[..i] + env[i + 1..])[1..] == env[1..][..i - 1] + env[1..][i - 1 + 1..]
    ensures (env[..i] + env[i + 1..])[0] == env[0]
  {
  }

  lemma AppendEntry(env: Table, entry: string)
    requires Entries(env) && '=' in entry && Key(entry) !in AsMap(env)
    ensures Entries(env + [entry]) && (Distinct(env) ==> Distinct(env + [entry]))
    ensures AsMap(env + [entry]) == AsMap(env)[Key(entry) := entry[Equals(entry) + 1..]]
  {
    Present(env, Key(entry));
    AppendAsMap(env, entry);
  }

  lemma {:induction false} AppendAsMap(env: Table, entry: string)
    requires Entries(env) && '=' in entry && Key(entry) !in AsMap(env)
    ensures AsMap(env + [entry]) == AsMap(env)[Key(entry) := entry[Equals(entry) + 1..]]
  {
    var next, value := env + [entry], entry[Equals(entry) + 1..];
    if env == [] {
      assert next[1..] == [];
    } else {
      assert next[1..] == env[1..] + [entry] && next[0] == env[0];
      AppendAsMap(env[1..], entry);
      SwapUpdates(AsMap(env[1..]), Key(entry), value, Key(env[0]), env[0][Equals(env[0]) + 1..]);
    }
  }

  /** Appending with replacement lays the new table over the old one; without, the old
      one wins. */
  lemma {:induction false} AppendOverlays(m: map<string, string>, own: map<string, string>, more: Table)
    requires Entries(more) && Distinct(more)
    ensures UpdateAll(m, own, true, more) == m + AsMap(more)
    ensures UpdateAll(m, own, false, more) == AsMap(more) + m
  {
    if more == [] {
      assert AsMap(more) == map[];
    } else {
      var last := |more| - 1;
      var front, entry := more[..last], more[last];
      var key, value := Key(entry), entry[Equals(entry) + 1..];
      AppendOverlays(m, own, front);
      Present(front, key);
      AppendAsMap(front, entry);
      assert front + [entry] == more;
      OverlayUpdated(m, AsMap(front), key, value);
      UnderlayUpdated(m, AsMap(front), key, value);
    }
  }
}
