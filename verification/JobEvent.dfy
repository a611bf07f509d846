/** The environment of the events that a job emits: job_emit_event of init/job.c. */
module JobEvent {
  import opened Options
  import opened JobMachine
  import opened EnvTable
  import V = Environ

  function ProcessName(p: Process): string {
    match p
    case ProcMain => "main"
    case ProcPreStart => "pre-start"
    case ProcPostStart => "post-start"
    case ProcPreStop => "pre-stop"
    case ProcPostStop => "post-stop"
    case ProcSecurity => "security"
  }

  function Decimal(n: int): string
    decreases if n < 0 then 1 - n else n
  {
    if n < 0 then "-" + Decimal(-n)
    else if n < 10 then ["0123456789"[n]]
    else Decimal(n / 10) + ["0123456789"[n % 10]]
  }

  /** The number that a text of decimal digits is. */
  ghost function Number(s: string): int {
    if s == "" then 0 else 10 * Number(s[..|s| - 1]) + (s[|s| - 1] as int - '0' as int)
  }

  lemma {:induction false} DecimalMeans(n: int)
    ensures
      var d := Decimal(n);
      if n < 0 then d == "-" + Decimal(-n)
      else
        && d != "" && Number(d) == n && (d[0] == '0' ==> n == 0)
        && forall i :: 0 <= i < |d| ==> '0' <= d[i] <= '9'
    decreases if n < 0 then 1 - n else n
  {
    if n < 0 {
    } else if n < 10 {
      assert Decimal(n)[..0] == "";
      assert "0123456789"[n] as int == '0' as int + n;
    } else {
      DecimalMeans(n / 10);
      var front, last := Decimal(n / 10), "0123456789"[n % 10];
      assert (front + [last])[..|front|] == front;
      assert last as int == '0' as int + n % 10;
    }
  }

  /** A signal by its name, or by its number if it has none. */
  function SignalText(names: map<int, string>, signal: int): string {
    if signal in names then names[signal] else Decimal(signal)
  }

  /** How the job came to stop, if it did. */
  function ResultVariables(r: StopResult, names: map<int, string>): map<string, string> {
    match r
    case NoResult => map[]
    case ResultOk => map["RESULT" := "ok"]
    case ResultExit(p, status) =>
      map["RESULT" := "failed", "PROCESS" := ProcessName(p), "EXIT_STATUS" := Decimal(status)]
    case ResultSignal(p, signal) =>
      map["RESULT" := "failed", "PROCESS" := ProcessName(p), "EXIT_SIGNAL" := SignalText(names, signal)]
    case ResultSpawn(p) => map["RESULT" := "failed", "PROCESS" := ProcessName(p)]
    case ResultRespawn => map["RESULT" := "failed", "PROCESS" := "respawn"]
  }

  /** The variables for a job that has ended as it has: without failure, by respawning too
      often, or because of a process, with what is known of how that ended. */
  lemma EndTold(j: Job, names: map<int, string>)
    ensures
      var vars := ResultVariables(StopEnvironment(j), names);
      && (!j.failed ==> vars == map["RESULT" := "ok"])
      && (j.failed && j.failedProcess == None ==> vars == map["RESULT" := "failed", "PROCESS" := "respawn"])
      && (j.failed && j.failedProcess.Some? ==>
            var p := match j.failedProcess.value {
              case ProcMain => "main"
              case ProcPreStart => "pre-start"
              case ProcPostStart => "post-start"
              case ProcPreStop => "pre-stop"
              case ProcPostStop => "post-stop"
              case ProcSecurity => "security"
            };
            vars ==
            if j.exitStatus == -1 then map["RESULT" := "failed", "PROCESS" := p]
            else if 0 <= j.exitStatus <= 255 then
              map["RESULT" := "failed", "PROCESS" := p, "EXIT_STATUS" := Decimal(j.exitStatus)]
            else
              map["RESULT" := "failed", "PROCESS" := p, "EXIT_SIGNAL" := SignalText(names, j.exitStatus / 256)])
  {
  }

  /** What the event says of itself. */
  function Own(job: string, instance: string, r: StopResult, names: map<int, string>): map<string, string> {
    map["JOB" := job, "INSTANCE" := instance] + ResultVariables(r, names)
  }

  /** With the variables of the job that its class exports, where they are set and new. */
  ghost function Exported(m: map<string, string>, exports: seq<string>, env: V.Table): map<string, string>
    requires Entries(env)
  {
    if exports == [] then m
    else
      var last := |exports| - 1;
      var done, i := Exported(m, exports[..last], env), V.Lookup(env, exports[last]);
      if i < |env| then Update(done, false, Key(env[i]), V.Set(env[i][V.Equals(env[i]) + 1..])) else done
  }

  /** An event's own variables are never overridden, and every other is the job's. */
  lemma {:induction false} ExportedMeans(m: map<string, string>, exports: seq<string>, env: V.Table, k: string)
    requires Entries(env) && forall i :: 0 <= i < |exports| ==> '=' !in exports[i]
    ensures k in Exported(m, exports, env) <==> k in m || (k in exports && k in AsMap(env))
    ensures k in Exported(m, exports, env) ==>
      Exported(m, exports, env)[k] == if k in m then m[k] else AsMap(env)[k]
  {
    if exports != [] {
      var last := |exports| - 1;
      var front, name := exports[..last], exports[last];
      ExportedMeans(m, front, env, k);
      assert exports == front + [name] && forall i :: 0 <= i < |front| ==> front[i] == exports[i];
      assert '=' !in name && (k in exports <==> k in front || k == name);
      OneMore(Exported(m, front, env), env, name, k);
    }
  }

  lemma OneMore(m: map<string, string>, env: V.Table, name: string, k: string)
    requires Entries(env) && '=' !in name
    ensures
      var i := V.Lookup(env, name);
      var next := if i < |env| then Update(m, false, Key(env[i]), V.Set(env[i][V.Equals(env[i]) + 1..])) else m;
      && (k in next <==> k in m || (k == name && k in AsMap(env)))
      && (k in next ==> next[k] == if k in m then m[k] else AsMap(env)[k])
  {
    LookupFinds(env, name);
    FoundValue(env, name);
  }

  lemma {:induction false} FoundValue(env: V.Table, key: string)
    requires Entries(env) && '=' !in key
    ensures var i := V.Lookup(env, key);
      i < |env| ==> Key(env[i]) == key && key in AsMap(env) && AsMap(env)[key] == env[i][V.Equals(env[i]) + 1..]
  {
    if env != [] {
      MatchesKey(env[0], key);
      if V.Matches(env[0], key) { LookupFinds(env, key); } else { FoundValue(env[1..], key); }
      FoundFirst(env, key);
    }
  }

  /** The environment of the event; `own` is that of init itself. */
  method EventEnvironment(job: string, instance: string, r: StopResult, names: map<int, string>,
                          exports: seq<string>, env: V.Table, own: map<string, string>)
    returns (table: Environment)
    requires Entries(env)
    ensures fresh(table) && Entries(table.entries) && Distinct(table.entries)
    ensures AsMap(table.entries) == Exported(Own(job, instance, r, names), exports, env)
  {
    table := new Environment();
    Set(table, own, "JOB", job);
    Set(table, own, "INSTANCE", instance);
    SetResult(table, own, r, names);
    assert AsMap(table.entries) == Own(job, instance, r, names);
    Export(table, own, exports, env);
  }

  method SetResult(table: Environment, own: map<string, string>, r: StopResult, names: map<int, string>)
    requires Entries(table.entries) && Distinct(table.entries)
    modifies table
    ensures Entries(table.entries) && Distinct(table.entries)
    ensures AsMap(table.entries) == old(AsMap(table.entries)) + ResultVariables(r, names)
  {
    ghost var m := AsMap(table.entries);
    match r {
      case NoResult =>
        assert m + map[] == m;
      case ResultOk =>
        Set(table, own, "RESULT", "ok");
        PlusOne(m, "RESULT", "ok");
      case ResultExit(p, status) =>
        SetFailed(table, own, ProcessName(p), "EXIT_STATUS", Decimal(status));
      case ResultSignal(p, signal) =>
        SetFailed(table, own, ProcessName(p), "EXIT_SIGNAL", SignalText(names, signal));
      case ResultSpawn(p) =>
        Set(table, own, "RESULT", "failed");
        Set(table, own, "PROCESS", ProcessName(p));
        PlusTwo(m, "RESULT", "failed", "PROCESS", ProcessName(p));
      case ResultRespawn =>
        Set(table, own, "RESULT", "failed");
        Set(table, own, "PROCESS", "respawn");
        PlusTwo(m, "RESULT", "failed", "PROCESS", "respawn");
    }
  }

  lemma PlusOne(m: map<string, string>, a: string, x: string)
    ensures m[a := x] == m + map[a := x]
  {
  }

  lemma PlusTwo(m: map<string, string>, a: string, x: string, b: string, y: string)
    ensures m[a := x][b := y] == m + map[a := x, b := y]
  {
  }

  lemma PlusThree(m: map<string, string>, a: string, x: string, b: string, y: string, c: string, z: string)
    ensures m[a := x][b := y][c := z] == m + map[a := x, b := y, c := z]
  {
  }

  method SetFailed(table: Environment, own: map<string, string>, process: string, key: string, value: string)
    requires Entries(table.entries) && Distinct(table.entries) && '=' !in key
    modifies table
    ensures Entries(table.entries) && Distinct(table.entries)
    ensures AsMap(table.entries) ==
      old(AsMap(table.entries)) + map["RESULT" := "failed", "PROCESS" := process, key := value]
  {
    ghost var m := AsMap(table.entries);
    Set(table, own, "RESULT", "failed");
    Set(table, own, "PROCESS", process);
    Set(table, own, key, value);
    PlusThree(m, "RESULT", "failed", "PROCESS", process, key, value);
  }

  /** The loop over the variables that the class exports. */
  method Export(table: Environment, own: map<string, string>, exports: seq<string>, env: V.Table)
    requires Entries(table.entries) && Distinct(table.entries) && Entries(env)
    modifies table
    ensures Entries(table.entries) && Distinct(table.entries)
    ensures AsMap(table.entries) == Exported(old(AsMap(table.entries)), exports, env)
  {
    for i := 0 to |exports|
      invariant Entries(table.entries) && Distinct(table.entries)
      invariant AsMap(table.entries) == Exported(old(AsMap(table.entries)), exports[..i], env)
    {
      assert exports[..i + 1][..i] == exports[..i];
      var found := V.Lookup(env, exports[i]);
      if found < |env| { table.Add(own, false, env[found]); }
    }
    assert exports[..|exports|] == exports;
  }

  /** environ_set, which adds the variable or replaces it. */
  method Set(table: Environment, own: map<string, string>, key: string, value: string)
    requires Entries(table.entries) && Distinct(table.entries) && '=' !in key
    modifies table
    ensures Entries(table.entries) && Distinct(table.entries)
    ensures AsMap(table.entries) == old(AsMap(table.entries))[key := value]
  {
    SplitEntry(key, value);
    table.Add(own, true, key + "=" + value);
  }
}
