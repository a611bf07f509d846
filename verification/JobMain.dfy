/** When RUNNING means that the main process is alive: a respawn in SPAWNED only moves the
    job forward (init/job_process.c:1739-1753, 1924-1925), and a script may outlive main
    and then bring the job to RUNNING. */
module JobMain {
  import opened Options
  import opened JobMachine
  import opened JobSafety
  import opened JobTrace
  import opened JobRuns
  import opened JobReach

  predicate Respawns(c: Class) {
    c.respawn && !c.respawnDisabled
  }

  /** Nothing leads a job on once its main process has ended. */
  predicate MainDecides(c: Class) {
    ProcPostStart !in c.has && ProcPreStop !in c.has && !Respawns(c)
  }

  predicate MainRuns(j: Job) {
    j.state.Running? ==> j.Alive(ProcMain)
  }

  /** On this run, whatever it is, RUNNING is never left without main. */
  ghost predicate MainRunsOn(c: Class, run: seq<(Env, Step)>) {
    var o := After(c, NewJob(), run);
    Feasible(c, NewJob(), run) && o.Fine? ==> MainRuns(o.job)
  }

  // ----- it does -----

  predicate NeedsMain(s: State) {
    s.Spawned? || s.PostStarting? || s.PostStart? || s.Running?
  }

  /** Between steps: main is alive in SPAWNED and RUNNING, and the states for scripts
      that the class does not have are never rested in. */
  predicate MainKept(j: Job) {
    && !j.goal.GoalRespawn? && !SpawningState(j.state) && !j.state.PostStart? && !j.state.PreStop?
    && (j.state.Running? ==> j.goal.GoalStart?) && (j.blocked ==> j.state.Starting? || j.state.Stopping?)
    && (NeedsMain(j.state) ==> j.Alive(ProcMain))
  }

  /** On the way to `target`. */
  predicate MainKeptTo(j: Job, target: State) {
    && !j.goal.GoalRespawn? && (NeedsMain(target) ==> j.Alive(ProcMain))
    && (j.blocked || j.state == target ==> MainKept(j))
  }

  ghost predicate EntersWithMain(c: Class, env: Env, j: Job, target: State) {
    var r := Enter(c, env, j.state, j.(state := target));
    r.Chosen? ==> if r.next == target then MainKept(r.job) else MainKeptTo(r.job, r.next)
  }

  lemma EnterUpKeepsMain(c: Class, env: Env, j: Job, target: State)
    requires ProcMain in c.has && MainDecides(c) && MainKeptTo(j, target) && !j.blocked && j.state != target
    requires Rank(target) >= 5
    ensures EntersWithMain(c, env, j, target)
  {
  }

  lemma EnterNearKeepsMain(c: Class, env: Env, j: Job, target: State)
    requires ProcMain in c.has && MainDecides(c) && MainKeptTo(j, target) && !j.blocked && j.state != target
    requires target.Spawned? || target.PostStarting? || target.PostStart? || target.Running?
    ensures EntersWithMain(c, env, j, target)
  {
  }

  lemma EnterDownKeepsMain(c: Class, env: Env, j: Job, target: State)
    requires ProcMain in c.has && MainDecides(c) && MainKeptTo(j, target) && !j.blocked && j.state != target
    requires Rank(target) < 5
    requires !target.Spawned? && !target.PostStarting? && !target.PostStart? && !target.Running?
    ensures EntersWithMain(c, env, j, target)
  {
  }

  lemma EnterKeepsMain(c: Class, env: Env, j: Job, target: State)
    requires ProcMain in c.has && MainDecides(c) && MainKeptTo(j, target) && !j.blocked && j.state != target
    ensures EntersWithMain(c, env, j, target)
  {
    if Rank(target) >= 5 {
      EnterUpKeepsMain(c, env, j, target);
    } else if target.Spawned? || target.PostStarting? || target.PostStart? || target.Running? {
      EnterNearKeepsMain(c, env, j, target);
    } else {
      EnterDownKeepsMain(c, env, j, target);
    }
  }

  lemma {:induction false} ChangeStateKeepsMain(c: Class, env: Env, j: Job, target: State)
    requires ProcMain in c.has && MainDecides(c) && MainKeptTo(j, target)
    ensures var o := ChangeState(c, env, j, target); o.Fine? ==> MainKept(o.job)
    decreases Rank(target)
  {
    if j.state != target && !j.blocked {
      EnterKeepsMain(c, env, j, target);
      var r := Enter(c, env, j.state, j.(state := target));
      if r.Chosen? && r.next != target { ChangeStateKeepsMain(c, env, r.job, r.next); }
    }
  }

  /** The next state keeps main, from a job that is to stop even without it. */
  lemma AdvanceKeepsMain(c: Class, env: Env, j: Job)
    requires ProcMain in c.has && MainDecides(c)
    requires MainKept(j) || (j.goal.GoalStop? && !j.blocked && !SpawningState(j.state))
    ensures var o := Advance(c, env, j); o.Fine? ==> MainKept(o.job)
  {
    var n := NextState(c, j);
    if n.Chosen? { ChangeStateKeepsMain(c, env, n.job, n.next); }
  }

  /** Main may have gone, if the job is to stop for that. */
  predicate MayStop(j: Job) {
    MainKept(j) || (!j.goal.GoalRespawn? && !j.blocked && (j.state.Spawned? || (j.state.Running? && j.goal.GoalStart?)))
  }

  lemma StopKeepsMain(c: Class, env: Env, j: Job)
    requires ProcMain in c.has && MainDecides(c) && MayStop(j)
    ensures var o := ChangeGoal(c, env, j, GoalStop);
      o.Fine? ==> if j.state.Spawned? then o.job == j.(goal := GoalStop) else MainKept(o.job)
  {
    AdvanceKeepsMain(c, env, j.(goal := GoalStop));
  }

  lemma StartKeepsMain(c: Class, env: Env, j: Job)
    requires ProcMain in c.has && MainDecides(c) && MainKept(j)
    ensures var o := ChangeGoal(c, env, j, GoalStart); o.Fine? ==> MainKept(o.job)
  {
    AdvanceKeepsMain(c, env, j.(goal := GoalStart));
  }

  lemma CommandKeepsMain(c: Class, env: Env, j: Job, goal: Goal)
    requires ProcMain in c.has && MainDecides(c) && MainKept(j) && !goal.GoalRespawn?
    ensures var o := ChangeGoal(c, env, j, goal); o.Fine? ==> MainKept(o.job)
  {
    if goal.GoalStop? { StopKeepsMain(c, env, j); } else { StartKeepsMain(c, env, j); }
  }

  lemma RestartKeepsMain(c: Class, env: Env, j: Job)
    requires ProcMain in c.has && MainDecides(c) && MainKept(j)
    ensures var o := Restart(c, env, j); o.Fine? ==> MainKept(o.job)
  {
    var f := Finished(j, false);
    CommandKeepsMain(c, env, f, GoalStop);
    var o := ChangeGoal(c, env, f, GoalStop);
    if o.Fine? { CommandKeepsMain(c, env, o.job, GoalStart); }
  }

  /** A job that stops, and goes on from SPAWNED at once. */
  lemma StopAndGoKeepsMain(c: Class, env: Env, j: Job)
    requires ProcMain in c.has && MainDecides(c) && MayStop(j)
    ensures var o := ChangeGoal(c, env, j, GoalStop);
      o.Fine? ==> var a := Advance(c, env, o.job); a.Fine? ==> MainKept(a.job)
  {
    StopKeepsMain(c, env, j);
    var o := ChangeGoal(c, env, j, GoalStop);
    if o.Fine? { AdvanceKeepsMain(c, env, o.job); }
  }

  lemma ConcludedKeepsMain(c: Class, env: Env, j: Job, stop: bool, advance: bool)
    requires ProcMain in c.has && MainDecides(c)
    requires MainKept(j) || (stop && MayStop(j) && (j.state.Spawned? ==> advance))
    ensures var o := Concluded(c, env, j, stop, advance); o.Fine? ==> MainKept(o.job)
  {
    if stop {
      StopKeepsMain(c, env, j);
      StopAndGoKeepsMain(c, env, j);
    } else {
      AdvanceKeepsMain(c, env, j);
    }
  }

  /** Without respawning, a main process that ends stops the job. */
  lemma MainEndStops(c: Class, env: Env, j: Job, status: int)
    requires MainDecides(c) && MainKept(j)
    ensures
      var v := MainVerdict(c, env, j, status);
      v.Verdict? ==>
        && v.job == j && (j.state.Spawned? || j.state.Running? ==> v.stop && v.advance)
  {
  }

  lemma DeathKeepsMain(c: Class, env: Env, j: Job, p: Process, status: int)
    requires ProcMain in c.has && MainDecides(c) && MainKept(j)
    ensures var o := Terminated(c, env, j, p, status, false); o.Fine? ==> MainKept(o.job)
  {
    DeathMayStop(c, env, j, p, status);
    var v := TerminatedVerdict(c, env, j, p, status);
    if v.Verdict? {
      var r := Reaped(j, p, false);
      ConcludedKeepsMain(c, env, if v.failed then Failed(r, Some(p), status) else r, v.stop, v.advance);
    }
  }

  lemma DeathMayStop(c: Class, env: Env, j: Job, p: Process, status: int)
    requires MainDecides(c) && MainKept(j)
    ensures
      var v := TerminatedVerdict(c, env, j, p, status);
      v.Verdict? ==>
        var r := Reaped(j, p, false);
        var k := if v.failed then Failed(r, Some(p), status) else r;
        && v.job == j
        && (MainKept(k) || (v.stop && MayStop(k) && (k.state.Spawned? ==> v.advance)))
  {
    MainEndStops(c, env, j, status);
  }

  lemma ErrorKeepsMain(c: Class, env: Env, j: Job, p: Process)
    requires ProcMain in c.has && MainDecides(c) && MainKept(j)
    ensures var o := ChildErrorHandler(c, env, j, p); o.Fine? ==> MainKept(o.job)
  {
    var k := j.WithPid(p, 0);
    var f := Failed(k, Some(p), -1);
    if p.ProcPostStart? || p.ProcPreStop? {
      AdvanceKeepsMain(c, env, k);
    } else if p.ProcSecurity? {
      CommandKeepsMain(c, env, f, GoalStop);
    } else {
      StopAndGoKeepsMain(c, env, f);
    }
  }

  lemma SetupDoneKeepsMain(c: Class, env: Env, j: Job, p: Process)
    requires ProcMain in c.has && MainDecides(c) && MainKept(j)
    ensures var o := CloseHandler(c, env, j, p); o.Fine? ==> MainKept(o.job)
  {
    var d := j.procs.Get(p).data;
    if d.Data? {
      var k := j.WithData(p, Data(d.status, false));
      assert MainKept(k);
      AdvanceKeepsMain(c, env, k);
      assert var o := SetupComplete(c, env, k, p, d.status); o.Fine? ==> MainKept(o.job);
    }
  }

  lemma SetupFailedKeepsMain(c: Class, env: Env, j: Job, p: Process)
    requires ProcMain in c.has && MainDecides(c) && MainKept(j)
    ensures var o := ChildReader(c, env, j, p); o.Fine? ==> MainKept(o.job)
  {
    var d := j.procs.Get(p).data;
    if d.Data? { ErrorKeepsMain(c, env, j.WithData(p, Data(d.status, false)), p); }
  }

  lemma StoppedKeepsMain(c: Class, env: Env, j: Job, p: Process)
    requires ProcMain in c.has && MainDecides(c) && MainKept(j)
    ensures var o := ProcessStopped(c, env, j, p); o.Fine? ==> MainKept(o.job)
    ensures var o := TraceExec(c, env, j, p); o.Fine? ==> MainKept(o.job)
  {
    AdvanceKeepsMain(c, env, j);
    AdvanceKeepsMain(c, env, j.(traceState := TraceNone));
  }

  lemma TraceChildKeepsMain(c: Class, env: Env, j: Job, p: Process)
    requires ProcMain in c.has && MainDecides(c) && MainKept(j)
    ensures var o := TraceChild(c, env, j, p); o.Fine? ==> MainKept(o.job)
  {
    if LastFork(c, j, p) { AdvanceKeepsMain(c, env, Detached(j)); }
  }

  lemma TrapKeepsMain(c: Class, env: Env, j: Job, p: Process, signal: Trap)
    requires ProcMain in c.has && MainDecides(c) && MainKept(j)
    ensures var o := Trapped(c, env, j, p, signal); o.Fine? ==> MainKept(o.job)
  {
    if j.traceState.TraceNewChild? { TraceChildKeepsMain(c, env, j, p); }
  }

  lemma ForkKeepsMain(c: Class, env: Env, j: Job, p: Process)
    requires ProcMain in c.has && MainDecides(c) && MainKept(j)
    ensures var o := TraceFork(c, env, j, p); o.Fine? ==> MainKept(o.job)
  {
    if env.child.Some? {
      TraceChildKeepsMain(c, env, j.WithPid(p, env.child.value).(traceState := TraceNewChild), p);
    }
  }

  lemma NextKeepsMain(c: Class, env: Env, j: Job, s: Step)
    requires ProcMain in c.has && MainDecides(c) && MainKept(j)
    ensures var o := Next(c, env, j, s); o.Fine? ==> MainKept(o.job)
  {
    match s
    case StartCommand => CommandKeepsMain(c, env, Finished(j, false), GoalStart);
    case StopCommand => CommandKeepsMain(c, env, Finished(j, false), GoalStop);
    case RestartCommand => RestartKeepsMain(c, env, j);
    case BlockerFinished => AdvanceKeepsMain(c, env, j.(blocked := false));
    case SetupDone(p) => SetupDoneKeepsMain(c, env, Decide(j, p), p);
    case SetupFailed(p) => SetupFailedKeepsMain(c, env, Decide(j, p), p);
    case Died(p, status) => DeathKeepsMain(c, env, Decide(j, p), p, status);
    case SigStopped(p) => StoppedKeepsMain(c, env, j, p);
    case Trap(p, signal) => TrapKeepsMain(c, env, j, p, signal);
    case Forked(p) => ForkKeepsMain(c, env, Decide(j, p), p);
    case Execed(p) => StoppedKeepsMain(c, env, Decide(j, p), p);
    case KillTimerFires =>
  }

  lemma {:induction false} RunKeepsMain(c: Class, j: Job, run: seq<(Env, Step)>)
    requires ProcMain in c.has && MainDecides(c) && MainKept(j)
    ensures var o := After(c, j, run); o.Fine? ==> MainKept(o.job)
    decreases |run|
  {
    if run != [] {
      NextKeepsMain(c, run[0].0, j, run[0].1);
      var o := Next(c, run[0].0, j, run[0].1);
      if o.Fine? { RunKeepsMain(c, o.job, run[1..]); }
    }
  }

  // ----- it does not -----

  ghost predicate LosesMain(c: Class, j: Job, run: seq<(Env, Step)>) {
    var o := After(c, j, run);
    Feasible(c, j, run) && o.Fine? && o.job.state.Running? && !o.job.Alive(ProcMain)
  }

  /** The system's answers at a given time. */
  function At(now: int): Env {
    Env(p => 1, true, now, Some(1), true, true)
  }

  /** A failing status that is no normal exit. */
  lemma AbnormalStatus(normal: set<int>) returns (status: int)
    ensures status > 0 && status !in normal
  {
    status := AboveAll(normal);
  }

  lemma {:induction false} AboveAll(normal: set<int>) returns (status: int)
    ensures status > 0 && forall n :: n in normal ==> n < status
    decreases normal
  {
    status := 1;
    if m :| m in normal {
      status := AboveAll(normal - {m});
      if m >= status { status := m + 1; }
      forall n | n in normal ensures n < status { assert n == m || n in normal - {m}; }
    }
  }

  /** A job in RUNNING, or in POST_START with its script, that has lost its main process. */
  predicate MainLost(c: Class, j: Job) {
    && AtRest(c, j) && !j.freed && j.goal.GoalStart? && !j.Alive(ProcMain)
    && (j.state.Running? || j.state.PostStart? || j.state.PreStop?)
  }

  /** Main dies in SPAWNED and is to be respawned: the job moves forward. */
  lemma RespawnMovesForward(c: Class, j: Job, status: int) returns (env: Env)
    requires ProcMain in c.has && Respawns(c) && status > 0 && status !in c.normalExit
    requires InSpawned(c, j) && j.goal.GoalStart?
    ensures Enabled(j, Died(ProcMain, status))
    ensures var o := Next(c, env, j, Died(ProcMain, status));
      o.Fine? && MainLost(c, o.job) && (o.job.state.PostStart? || o.job.state.Running?)
  {
    env := At(j.respawnTime + c.respawnInterval);
    var d := Decide(j, ProcMain);
    var (w, runaway) := CatchRunaway(c, env.now, d);
    assert !runaway && MainVerdict(c, env, d, status) == Verdict(w, false, false, true);
    var k := Reaped(w, ProcMain, false);
    assert Terminated(c, env, d, ProcMain, status, false) == Advance(c, env, k);
    GoesUpWithoutMain(c, env, k);
  }

  lemma GoesUpWithoutMain(c: Class, env: Env, j: Job)
    requires j.state.Spawned? && j.goal.GoalStart? && !j.Alive(ProcMain) && Ready(c, j, PostStarting)
    ensures var o := Advance(c, env, j);
      o.Fine? && MainLost(c, o.job) && (o.job.state.PostStart? || o.job.state.Running?)
  {
    MovesUp(c, env, j);
  }

  /** The script ends, and the job is RUNNING. */
  lemma ScriptEnds(c: Class, j: Job, p: Process) returns (run: seq<(Env, Step)>)
    requires MainLost(c, j) && !j.state.Running? && p == (if j.state.PostStart? then ProcPostStart else ProcPreStop)
    ensures LosesMain(c, j, run)
  {
    EndsInRunning(c, j, p);
    var k;
    run, k := OneStep(c, j, Died(p, 0));
  }

  lemma EndsInRunning(c: Class, j: Job, p: Process)
    requires MainLost(c, j) && !j.state.Running? && p == (if j.state.PostStart? then ProcPostStart else ProcPreStop)
    ensures Enabled(j, Died(p, 0))
    ensures var o := Next(c, ANSWERS, j, Died(p, 0)); o.Fine? && o.job.state.Running? && !o.job.Alive(ProcMain)
  {
    var d := Decide(j, p);
    var k := Reaped(d, p, false);
    assert TerminatedVerdict(c, ANSWERS, d, p, 0) == Verdict(d, false, false, true);
    assert Terminated(c, ANSWERS, d, p, 0, false) == Advance(c, ANSWERS, k);
    RunsWithoutMain(c, k);
  }

  lemma RunsWithoutMain(c: Class, j: Job)
    requires Ready(c, j, Running) && !j.Alive(ProcMain)
    ensures var o := Advance(c, ANSWERS, j); o.Fine? && o.job.state.Running? && !o.job.Alive(ProcMain)
  {
    assert NextState(c, j) == Chosen(j, Running);
    EnterRunning(c, ANSWERS, j);
  }

  /** A script runs beside main. */
  predicate Beside(c: Class, j: Job) {
    && AtRest(c, j) && !j.freed && j.Alive(ProcMain) && !j.goal.GoalRespawn?
    && (j.state.PostStart? || (j.state.PreStop? && j.goal.GoalStop?))
  }

  /** Main dies while the script runs; then the job is told to start. */
  lemma OutlivesMain(c: Class, j: Job) returns (run: seq<(Env, Step)>)
    requires ProcMain in c.has && !Respawns(c) && Beside(c, j)
    ensures LosesMain(c, j, run)
  {
    MainDiesBeside(c, j);
    var die, k := OneStep(c, j, Died(ProcMain, 0));
    var start, l := Then(c, j, die, k, StartCommand);
    var last := ScriptEnds(c, l, if l.state.PostStart? then ProcPostStart else ProcPreStop);
    RunThen(c, j, start, l, last);
    run := start + last;
  }

  lemma MainDiesBeside(c: Class, j: Job)
    requires ProcMain in c.has && !Respawns(c) && Beside(c, j)
    ensures
      var o := Next(c, ANSWERS, j, Died(ProcMain, 0));
      && o.Fine? && o.job.state == j.state && o.job.goal.GoalStop? && !o.job.freed
      && AtRest(c, o.job) && !o.job.Alive(ProcMain)
      && MainLost(c, Finished(o.job, false).(goal := GoalStart))
  {
    var d := Decide(j, ProcMain);
    var v := MainVerdict(c, ANSWERS, d, 0);
    assert v.Verdict? && v.job == d && v.stop && !v.advance;
  }

  /** For each class that lets something else lead the job on, a run to RUNNING without
      a main process. */
  lemma RunWithoutMain(c: Class) returns (run: seq<(Env, Step)>)
    requires ProcMain in c.has && !MainDecides(c)
    ensures LosesMain(c, NewJob(), run)
  {
    var reach, j1 := ReachFresh(c);
    if Respawns(c) {
      var last := RunAfterRespawn(c, j1);
      RunThen(c, NewJob(), reach, j1, last);
      run := reach + last;
    } else {
      var settle, s := Readied(c, j1);
      MovesOn(c, ANSWERS, s);
      RunThen(c, NewJob(), reach, j1, settle);
      var up, j2 := reach + settle, Advance(c, ANSWERS, s).job;
      if ProcPostStart !in c.has {
        StopsRunning(c, j2);
        up, j2 := Then(c, NewJob(), up, j2, StopCommand);
      }
      var last := OutlivesMain(c, j2);
      RunThen(c, NewJob(), up, j2, last);
      run := up + last;
    }
  }

  lemma RunAfterRespawn(c: Class, j: Job) returns (run: seq<(Env, Step)>)
    requires ProcMain in c.has && Respawns(c) && InSpawned(c, j) && j.goal.GoalStart?
    ensures LosesMain(c, j, run)
  {
    var status := AbnormalStatus(c.normalExit);
    var env := RespawnMovesForward(c, j, status);
    var k := Next(c, env, j, Died(ProcMain, status)).job;
    run := [(env, Died(ProcMain, status))];
    assert run[1..] == [];
    if !k.state.Running? {
      var last := ScriptEnds(c, k, ProcPostStart);
      RunThen(c, j, run, k, last);
      run := run + last;
    }
  }

  /** RUNNING means that main is alive, on every run, exactly for the classes with neither
      a post-start nor a pre-stop process that do not respawn. */
  lemma RunningMeansMainIff(c: Class)
    requires ProcMain in c.has
    ensures MainDecides(c) <==> forall run :: MainRunsOn(c, run)
  {
    if MainDecides(c) {
      forall run ensures MainRunsOn(c, run) {
        RunKeepsMain(c, NewJob(), run);
      }
    } else {
      var run := RunWithoutMain(c);
      assert !MainRunsOn(c, run);
    }
  }
}
