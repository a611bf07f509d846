/** What one step of a job can ask of the rest of the daemon: at most one event to wait
    for, just when the job comes to wait, and its own end only after everything that
    waits for it has been released. */
module JobEffects {
  import opened Options
  import opened JobMachine
  import opened JobSafety
  import opened JobRuns

  /** An event that the job then waits for. */
  predicate Blocking(e: Effect) {
    e.Emits? && (e.name.StartingEvent? || e.name.StoppingEvent?)
  }

  function BlockCount(s: seq<Effect>): nat {
    if s == [] then 0 else BlockCount(s[..|s| - 1]) + if Blocking(s[|s| - 1]) then 1 else 0
  }

  /** The instance is freed last of all, right after its blocks have been released, or
      not at all. */
  predicate FreesLast(s: seq<Effect>, frees: bool) {
    && (frees ==> |s| >= 2 && s[|s| - 1] == Frees && s[|s| - 2] == Finishes(false))
    && forall i :: 0 <= i < |s| - (if frees then 1 else 0) ==> s[i] != Frees
  }

  /** `j'` is `j` after the effects `s`. */
  predicate Did(j: Job, s: seq<Effect>, j': Job) {
    && j'.outbox == j.outbox + s
    && BlockCount(s) == (if j'.blocked && !j.blocked then 1 else 0)
    && (j.blocked ==> j'.blocked)
    && FreesLast(s, j'.freed)
  }

  /** A step of a live job did something of that form. */
  ghost predicate Tidy(j: Job, o: Outcome) {
    o.Fine? ==> exists s :: Did(j, s, o.job)
  }

  lemma {:induction false} BlockCountAppend(a: seq<Effect>, b: seq<Effect>)
    ensures BlockCount(a + b) == BlockCount(a) + BlockCount(b)
  {
    if b == [] {
      assert a + b == a;
    } else {
      assert (a + b)[..|a + b| - 1] == a + b[..|b| - 1];
      BlockCountAppend(a, b[..|b| - 1]);
    }
  }

  lemma BlockCountOne(e: Effect)
    ensures BlockCount([e]) == if Blocking(e) then 1 else 0
  {
    assert [e][..0] == [];
  }

  lemma DidThen(j: Job, a: seq<Effect>, k: Job, b: seq<Effect>, l: Job)
    requires Did(j, a, k) && Did(k, b, l) && !k.freed
    ensures Did(j, a + b, l)
  {
    BlockCountAppend(a, b);
    assert j.outbox + (a + b) == j.outbox + a + b;
    FreesAppend(a, b, l.freed);
  }

  lemma FreesAppend(a: seq<Effect>, b: seq<Effect>, frees: bool)
    requires FreesLast(a, false) && FreesLast(b, frees)
    ensures FreesLast(a + b, frees)
  {
    var s := a + b;
    forall i | 0 <= i < |s| - (if frees then 1 else 0) ensures s[i] != Frees {
      assert s[i] == if i < |a| then a[i] else b[i - |a|];
    }
  }

  lemma DidNothing(j: Job, j': Job)
    requires j'.outbox == j.outbox && j'.blocked == j.blocked && !j'.freed
    ensures Did(j, [], j')
  {
    assert j.outbox + [] == j.outbox;
  }

  lemma DidOne(j: Job, e: Effect, j': Job)
    requires j'.outbox == j.outbox + [e] && !j'.freed && e != Frees
    requires if Blocking(e) then !j.blocked && j'.blocked else j'.blocked == j.blocked
    ensures Did(j, [e], j')
  {
    BlockCountOne(e);
  }

  lemma TidyThen(j: Job, k: Job, o: Outcome)
    requires Tidy(j, Fine(k)) && Tidy(k, o) && !k.freed
    ensures Tidy(j, o)
  {
    if o.Fine? {
      var a, b :| Did(j, a, k) && Did(k, b, o.job);
      DidThen(j, a, k, b, o.job);
    }
  }

  lemma TidySame(j: Job, k: Job, l: Job)
    requires Tidy(j, Fine(k)) && l.outbox == k.outbox && l.blocked == k.blocked && l.freed == k.freed
    ensures Tidy(j, Fine(l))
  {
    var s :| Did(j, s, k);
    assert Did(j, s, l);
  }

  // ----- entering a state -----

  lemma SpawnTidy(c: Class, env: Env, j: Job, p: Process)
    requires !j.freed
    ensures var r := NextState(c, j); r.Chosen? ==> Did(j, [], r.job) && r.job.blocked == j.blocked
    ensures var r := NextState(c, Started(c, env, j, p));
      r.Chosen? ==> Did(j, [Spawns(p)], r.job) && r.job.blocked == j.blocked
  {
    var r := NextState(c, j);
    if r.Chosen? { DidNothing(j, r.job); }
    var q := NextState(c, Started(c, env, j, p));
    if q.Chosen? { DidOne(j, Spawns(p), q.job); }
  }

  /** What entering a state does; the loop goes on only if the job neither waits nor is
      freed. */
  ghost predicate EntersTidy(j: Job, r: Chosen) {
    r.Chosen? ==> (exists s :: Did(j, s, r.job)) && (r.next != j.state ==> !r.job.blocked && !r.job.freed)
  }

  lemma EnterUpTidy(c: Class, env: Env, from: State, j: Job)
    requires !j.blocked && !j.freed
    requires
      j.state.SecuritySpawning? || j.state.Security? || j.state.PreStarting? || j.state.PreStart?
      || j.state.Spawning? || j.state.Spawned? || j.state.PostStarting? || j.state.PostStart?
    ensures EntersTidy(j, Enter(c, env, from, j))
  {
    var p := match j.state
      case SecuritySpawning => ProcSecurity
      case PreStarting => ProcPreStart
      case Spawning => ProcMain
      case _ => ProcPostStart;
    SpawnTidy(c, env, j, p);
    DidNothing(j, j);
  }

  lemma EnterDownTidy(c: Class, env: Env, from: State, j: Job)
    requires !j.blocked && !j.freed
    requires j.state.PreStopping? || j.state.PreStop? || j.state.PostStopping? || j.state.PostStop?
    ensures EntersTidy(j, Enter(c, env, from, j))
  {
    SpawnTidy(c, env, j, if j.state.PreStopping? then ProcPreStop else ProcPostStop);
    DidNothing(j, j);
  }

  lemma EnterKilledTidy(c: Class, env: Env, from: State, j: Job)
    requires !j.blocked && !j.freed && j.state.Killed?
    ensures EntersTidy(j, Enter(c, env, from, j))
  {
    SpawnTidy(c, env, j, ProcMain);
    var r := Kill(c, env, j, ProcMain);
    if r.Fine? { DidOne(j, Signals(ProcMain, false), r.job); }
  }

  lemma EnterWaitTidy(c: Class, env: Env, from: State, j: Job)
    requires !j.blocked && !j.freed && (j.state.Starting? || j.state.Stopping?)
    ensures EntersTidy(j, Enter(c, env, from, j))
  {
    var e := if j.state.Starting? then Emits(StartingEvent, NoResult) else Emits(StoppingEvent, StopEnvironment(j));
    var r := Enter(c, env, from, j);
    if r.Chosen? { DidOne(j, e, r.job); }
  }

  lemma EnterRunningTidy(c: Class, env: Env, from: State, j: Job)
    requires !j.blocked && !j.freed && j.state.Running?
    ensures EntersTidy(j, Enter(c, env, from, j))
  {
    var e := Emits(StartedEvent, NoResult);
    var k := j.Sends(e);
    DidOne(j, e, k);
    DidOne(j, Finishes(false), Finished(j, false));
    DidOne(k, Finishes(false), Finished(k, false));
    DidThen(j, [e], k, [Finishes(false)], Finished(k, false));
  }

  lemma EnterWaitingTidy(c: Class, env: Env, from: State, j: Job)
    requires !j.blocked && !j.freed && j.state.Waiting?
    ensures EntersTidy(j, Enter(c, env, from, j))
  {
    var e := Emits(StoppedEvent, StopEnvironment(j));
    var r := Enter(c, env, from, j);
    if r.Chosen? {
      var s := [e, Finishes(false), Frees];
      assert r.job.outbox == j.outbox + s;
      assert s == [e] + [Finishes(false)] + [Frees];
      BlockCountAppend([e] + [Finishes(false)], [Frees]);
      BlockCountAppend([e], [Finishes(false)]);
      BlockCountOne(e);
      BlockCountOne(Finishes(false));
      BlockCountOne(Frees);
      assert Did(j, s, r.job);
    }
  }

  lemma EnterTidy(c: Class, env: Env, from: State, j: Job)
    requires !j.blocked && !j.freed
    ensures EntersTidy(j, Enter(c, env, from, j))
  {
    match j.state {
      case Starting => EnterWaitTidy(c, env, from, j);
      case Stopping => EnterWaitTidy(c, env, from, j);
      case Running => EnterRunningTidy(c, env, from, j);
      case Waiting => EnterWaitingTidy(c, env, from, j);
      case Killed => EnterKilledTidy(c, env, from, j);
      case PreStopping => EnterDownTidy(c, env, from, j);
      case PreStop => EnterDownTidy(c, env, from, j);
      case PostStopping => EnterDownTidy(c, env, from, j);
      case PostStop => EnterDownTidy(c, env, from, j);
      case _ => EnterUpTidy(c, env, from, j);
    }
  }

  lemma {:induction false} ChangeStateTidy(c: Class, env: Env, j: Job, target: State)
    requires !j.freed
    ensures Tidy(j, ChangeState(c, env, j, target))
    decreases Rank(target)
  {
    if j.state == target || j.blocked {
      DidNothing(j, j);
    } else {
      var entered := j.(state := target);
      EnterTidy(c, env, j.state, entered);
      var r := Enter(c, env, j.state, entered);
      if r.Chosen? {
        var s :| Did(entered, s, r.job);
        assert Did(j, s, r.job);
        if r.next != target {
          ChangeStateTidy(c, env, r.job, r.next);
          TidyThen(j, r.job, ChangeState(c, env, r.job, r.next));
        }
      }
    }
  }

  lemma AdvanceTidy(c: Class, env: Env, j: Job)
    requires !j.freed
    ensures Tidy(j, Advance(c, env, j))
  {
    var n := NextState(c, j);
    if n.Chosen? {
      DidNothing(j, n.job);
      ChangeStateTidy(c, env, n.job, n.next);
      TidyThen(j, n.job, ChangeState(c, env, n.job, n.next));
    }
  }

  lemma ChangeGoalTidy(c: Class, env: Env, j: Job, goal: Goal)
    requires !j.freed
    ensures Tidy(j, ChangeGoal(c, env, j, goal))
  {
    var k := j.(goal := goal);
    DidNothing(j, j);
    DidNothing(j, k);
    AdvanceTidy(c, env, k);
    TidyThen(j, k, Advance(c, env, k));
  }

  lemma FailedTidy(j: Job, p: Option<Process>, status: int)
    requires !j.freed
    ensures Tidy(j, Fine(Failed(j, p, status))) && !Failed(j, p, status).freed
  {
    DidNothing(j, j);
    if !j.failed { DidOne(j, Finishes(true), Failed(j, p, status)); }
  }

  // ----- every step but commands and the end of an awaited event -----

  lemma ConcludedTidy(c: Class, env: Env, j: Job, stop: bool, advance: bool)
    requires !j.freed
    ensures Tidy(j, Concluded(c, env, j, stop, advance))
  {
    ChangeGoalTidy(c, env, j, GoalStop);
    DidNothing(j, j);
    if !(stop && j.state.Running?) {
      var k := if stop then j.(goal := GoalStop) else j;
      DidNothing(j, k);
      AdvanceTidy(c, env, k);
      TidyThen(j, k, Advance(c, env, k));
    }
  }

  lemma SpawningTerminated(c: Class, env: Env, j: Job, p: Process, status: int, stateOnly: bool)
    requires SpawningState(j.state)
    ensures var o := Terminated(c, env, j, p, status, stateOnly);
      o.Fine? ==> o.job.outbox == j.outbox && o.job.blocked == j.blocked && o.job.freed == j.freed
  {
  }

  lemma DiedTidy(c: Class, env: Env, j: Job, p: Process, status: int)
    requires !j.freed
    ensures Tidy(j, Terminated(c, env, j, p, status, false))
  {
    if SpawningState(j.state) {
      var o := Terminated(c, env, j, p, status, false);
      SpawningTerminated(c, env, j, p, status, false);
      if o.Fine? { DidNothing(j, o.job); }
    } else {
      var v := TerminatedVerdict(c, env, j, p, status);
      if v.Verdict? {
        VerdictTidy(c, env, j, p, status);
        var r := Reaped(v.job, p, false);
        DidNothing(v.job, r);
        TidyThen(j, v.job, Fine(r));
        var k := if v.failed then Failed(r, Some(p), status) else r;
        FailedTidy(r, Some(p), status);
        DidNothing(r, r);
        TidyThen(j, r, Fine(k));
        ConcludedTidy(c, env, k, v.stop, v.advance);
        TidyThen(j, k, Concluded(c, env, k, v.stop, v.advance));
      }
    }
  }

  lemma VerdictTidy(c: Class, env: Env, j: Job, p: Process, status: int)
    requires !j.freed
    ensures var v := TerminatedVerdict(c, env, j, p, status);
      v.Verdict? ==> Tidy(j, Fine(v.job)) && !v.job.freed
  {
    var (w, runaway) := CatchRunaway(c, env.now, j);
    DidNothing(j, j);
    DidNothing(j, w);
    DidNothing(j, w.(goal := GoalRespawn));
    FailedTidy(w, None, 0);
    TidyThen(j, w, Fine(Failed(w, None, 0)));
  }

  lemma ChildReaderTidy(c: Class, env: Env, j: Job, p: Process)
    requires !j.freed && (j.state.Running? ==> p.ProcMain?)
    ensures Tidy(j, ChildErrorHandler(c, env, j, p))
  {
    var k := j.WithPid(p, 0);
    DidNothing(j, k);
    var f := Failed(k, Some(p), -1);
    FailedTidy(k, Some(p), -1);
    TidyThen(j, k, Fine(f));
    if p.ProcPostStart? || p.ProcPreStop? {
      AdvanceTidy(c, env, k);
      TidyThen(j, k, Advance(c, env, k));
    } else if p.ProcSecurity? {
      ChangeGoalTidy(c, env, f, GoalStop);
      TidyThen(j, f, ChangeGoal(c, env, f, GoalStop));
    } else {
      StopThenAdvanceTidy(c, env, j, f);
    }
  }

  /** A failed main or script process stops the job, which then goes on at once. */
  lemma StopThenAdvanceTidy(c: Class, env: Env, j: Job, f: Job)
    requires Tidy(j, Fine(f)) && !f.freed && (f.state.Running? ==> !f.Alive(ProcMain))
    ensures var o := ChangeGoal(c, env, f, GoalStop); o.Fine? ==> Tidy(j, Advance(c, env, o.job))
  {
    var o := ChangeGoal(c, env, f, GoalStop);
    ChangeGoalTidy(c, env, f, GoalStop);
    TidyThen(j, f, o);
    if o.Fine? {
      StopFrees(c, env, f);
      AdvanceTidy(c, env, o.job);
      TidyThen(j, o.job, Advance(c, env, o.job));
    }
  }

  lemma StopFrees(c: Class, env: Env, j: Job)
    requires !j.freed && (j.state.Running? ==> !j.Alive(ProcMain))
    ensures var o := ChangeGoal(c, env, j, GoalStop); o.Fine? ==> !o.job.freed
  {
    var k := j.(goal := GoalStop);
    if j.state.Running? { assert NextState(c, k) == Chosen(k, Stopping); }
  }

  lemma SetupDoneTidy(c: Class, env: Env, j: Job, p: Process, status: int)
    requires !j.freed
    ensures Tidy(j, SetupComplete(c, env, j, p, status))
  {
    DidNothing(j, j);
    AdvanceTidy(c, env, j);
    var o := if j.state.Spawned? && c.expects.ExpectNone? && p.ProcMain? then Advance(c, env, j) else Fine(j);
    if o.Fine? && SpawningState(o.job.state) {
      var q := Terminated(c, env, o.job, p, status, true);
      SpawningTerminated(c, env, o.job, p, status, true);
      if q.Fine? { TidySame(j, o.job, q.job); }
    }
  }

  lemma TraceChildTidy(c: Class, env: Env, j: Job, p: Process)
    requires !j.freed
    ensures Tidy(j, TraceChild(c, env, j, p))
  {
    if LastFork(c, j, p) {
      DidNothing(j, Detached(j));
      AdvanceTidy(c, env, Detached(j));
      TidyThen(j, Detached(j), Advance(c, env, Detached(j)));
    } else {
      TraceOnTidy(env, j, p);
    }
  }

  lemma TraceOnTidy(env: Env, j: Job, p: Process)
    requires !j.freed
    ensures Tidy(j, TraceOn(env, j, p))
  {
    var o := TraceOn(env, j, p);
    if o.Fine? { DidNothing(j, o.job); }
  }

  /** A process event. */
  predicate ProcessStep(s: Step) {
    !s.StartCommand? && !s.StopCommand? && !s.RestartCommand? && !s.BlockerFinished?
  }

  lemma TraceTidy(c: Class, env: Env, j: Job, p: Process, signal: Trap)
    requires !j.freed
    ensures Tidy(j, ProcessStopped(c, env, j, p))
    ensures Tidy(j, TraceExec(c, env, j, p))
    ensures Tidy(j, Trapped(c, env, j, p, signal))
  {
    var k := j.(traceState := TraceNone);
    DidNothing(j, j);
    DidNothing(j, k);
    AdvanceTidy(c, env, j);
    AdvanceTidy(c, env, k);
    TidyThen(j, k, Advance(c, env, k));
    TraceChildTidy(c, env, j, p);
    DidNothing(j, j.(traceState := TraceNormal));
  }

  lemma ForkTidy(c: Class, env: Env, j: Job, p: Process)
    requires !j.freed
    ensures Tidy(j, TraceFork(c, env, j, p))
  {
    DidNothing(j, j);
    if env.child.Some? {
      var k := j.WithPid(p, env.child.value).(traceState := TraceNewChild);
      DidNothing(j, k);
      TraceChildTidy(c, env, k, p);
      TidyThen(j, k, TraceChild(c, env, k, p));
    }
  }

  lemma SetupTidy(c: Class, env: Env, j: Job, p: Process)
    requires !j.freed
    ensures Tidy(j, CloseHandler(c, env, j, p))
    ensures (j.state.Running? ==> p.ProcMain?) ==> Tidy(j, ChildReader(c, env, j, p))
  {
    DidNothing(j, j);
    var d := j.procs.Get(p).data;
    if d.Data? {
      var k := j.WithData(p, Data(d.status, false));
      DidNothing(j, k);
      SetupDoneTidy(c, env, k, p, d.status);
      TidyThen(j, k, SetupComplete(c, env, k, p, d.status));
      if j.state.Running? ==> p.ProcMain? {
        ChildReaderTidy(c, env, k, p);
        TidyThen(j, k, ChildErrorHandler(c, env, k, p));
      }
    }
  }

  /** Every process event of a sound job has effects of the form above. */
  lemma StepTidy(c: Class, env: Env, j: Job, s: Step)
    requires Sound(c, j) && Enabled(j, s) && ProcessStep(s)
    ensures Tidy(j, Next(c, env, j, s))
  {
    if s.KillTimerFires? {
      var o := KillTimer(j);
      if o.Fine? { DidOne(j, Signals(j.killProcess.value, true), o.job); }
    } else {
      var d := Decide(j, s.p);
      DidNothing(j, d);
      DidNothing(j, j);
      match s {
        case SetupDone(p) => SetupTidy(c, env, d, p);
        case SetupFailed(p) => SetupTidy(c, env, d, p);
        case Died(p, status) => DiedTidy(c, env, d, p, status);
        case SigStopped(p) => TraceTidy(c, env, j, p, OtherSignal);
        case Trap(p, signal) => TraceTidy(c, env, j, p, signal);
        case Forked(p) => ForkTidy(c, env, d, p);
        case Execed(p) => TraceTidy(c, env, d, p, OtherSignal);
      }
      if !s.SigStopped? && !s.Trap? { TidyThen(j, d, Next(c, env, j, s)); }
    }
  }
}
