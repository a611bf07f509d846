/** Runs that lead a new instance to SPAWNED and beyond, whatever the class asks of its
    main process, with an environment that always answers well. */
module JobReach {
  import opened Options
  import opened JobMachine
  import opened JobSafety
  import opened JobTrace
  import opened JobRuns

  /** Main has just been spawned and reports are still awaited. */
  predicate Fresh(c: Class, j: Job) {
    && Awaited(j.procs.main) && j.procs.main.undecided
    && (c.expects.ExpectDaemon? || c.expects.ExpectFork? ==> j.traceState.TraceNew? && j.traceForks == 0)
  }

  predicate Climbing(s: State) {
    s.SecuritySpawning? || s.Security? || s.PreStarting? || s.PreStart? || s.Spawning? || s.Spawned?
  }

  /** A job with a main process on its way up, where the environment can move it on. */
  predicate OnTheWay(c: Class, j: Job) {
    && AtRest(c, j) && !j.freed && j.goal.GoalStart?
    && (j.state.Security? || j.state.PreStart? || j.state.Spawned?)
    && (j.state.Security? ==> j.Alive(ProcSecurity))
    && (j.state.Spawned? ==> Fresh(c, j))
  }

  ghost predicate ClimbsOn(c: Class, env: Env, j: Job, target: State) {
    var r := Enter(c, env, j.state, j.(state := target));
    && KeepsReady(c, env, j, target)
    && r.job.goal.GoalStart? && r.job.state == target && !r.job.freed
    && (r.next != target ==> Climbing(r.next) && Rank(r.next) < Rank(target))
    && (r.next == target ==> target.Security? || target.PreStart? || target.Spawned?)
    && (r.next.Spawned? ==> Fresh(c, r.job))
    && (r.next == target && target.Security? ==> r.job.Alive(ProcSecurity))
  }

  lemma ClimbSpawning(c: Class, env: Env, j: Job, target: State)
    requires Ready(c, j, target) && ProcMain in c.has
    requires target.SecuritySpawning? || target.PreStarting? || target.Spawning?
    ensures ClimbsOn(c, env, j, target)
  {
    match target {
      case Spawning => EnterSpawning(c, env, j);
      case PreStarting => EnterPreStarting(c, env, j);
      case _ => EnterSecuritySpawning(c, env, j);
    }
  }

  lemma ClimbResting(c: Class, env: Env, j: Job, target: State)
    requires Ready(c, j, target) && ProcMain in c.has
    requires target.Security? || target.PreStart? || target.Spawned?
    requires target.Spawned? ==> Fresh(c, j)
    ensures ClimbsOn(c, env, j, target)
  {
    EnterRestingUp(c, env, j, target);
  }

  lemma {:induction false} Climb(c: Class, env: Env, j: Job, target: State)
    requires Ready(c, j, target) && Climbing(target) && ProcMain in c.has
    requires target.Spawned? ==> Fresh(c, j)
    ensures
      var o := ChangeState(c, env, j, target);
      o.Fine? && OnTheWay(c, o.job) && Rank(o.job.state) <= Rank(target)
    decreases Rank(target)
  {
    if target.Security? || target.PreStart? || target.Spawned? {
      ClimbResting(c, env, j, target);
    } else {
      ClimbSpawning(c, env, j, target);
    }
    var r := Enter(c, env, j.state, j.(state := target));
    if r.next != target {
      Climb(c, env, r.job, r.next);
    }
  }

  const ANSWERS: Env := Env(p => 1, true, 0, Some(1), true, true)

  /** From anywhere on the way up, main gets spawned once the processes before it end. */
  lemma {:induction false} ReachSpawned(c: Class, j: Job) returns (run: seq<(Env, Step)>, k: Job)
    requires OnTheWay(c, j) && ProcMain in c.has
    ensures Feasible(c, j, run) && After(c, j, run) == Fine(k)
    ensures OnTheWay(c, k) && k.state.Spawned?
    decreases Rank(j.state)
  {
    if j.state.Spawned? {
      run, k := [], j;
    } else {
      var p := if j.state.Security? then ProcSecurity else ProcPreStart;
      var j1 := PrecursorEnds(c, j, p);
      run, k := ReachSpawned(c, j1);
      assert ([(ANSWERS, Died(p, 0))] + run)[1..] == run;
      run := [(ANSWERS, Died(p, 0))] + run;
    }
  }

  lemma PrecursorEnds(c: Class, j: Job, p: Process) returns (j1: Job)
    requires OnTheWay(c, j) && ProcMain in c.has && HomeOf(p, j.state) && !p.ProcMain?
    ensures Enabled(j, Died(p, 0)) && Next(c, ANSWERS, j, Died(p, 0)) == Fine(j1)
    ensures OnTheWay(c, j1) && Rank(j1.state) < Rank(j.state)
  {
    var j0 := Reaped(Decide(j, p), p, false);
    var next := if j.state.Security? then PreStarting else Spawning;
    assert Ready(c, j0, next);
    Climb(c, ANSWERS, j0, next);
    j1 := ChangeState(c, ANSWERS, j0, next).job;
  }

  lemma StartUp(c: Class) returns (run: seq<(Env, Step)>, k: Job)
    ensures Feasible(c, NewJob(), run) && After(c, NewJob(), run) == Fine(k)
    ensures k.state.Starting? && k.goal.GoalStart? && k.blocked && AtRest(c, k) && !k.freed
  {
    var j := Finished(NewJob(), false).(goal := GoalStart);
    assert Ready(c, j, Starting);
    EnterEvent(c, ANSWERS, j, Starting);
    assert Advance(c, ANSWERS, j) == ChangeState(c, ANSWERS, j, Starting);
    run, k := OneStep(c, NewJob(), StartCommand);
  }

  lemma FirstClimb(c: Class, j: Job) returns (run: seq<(Env, Step)>, k: Job)
    requires ProcMain in c.has
    requires j.state.Starting? && j.goal.GoalStart? && j.blocked && AtRest(c, j) && !j.freed
    ensures Feasible(c, j, run) && After(c, j, run) == Fine(k) && OnTheWay(c, k)
  {
    assert Ready(c, j.(blocked := false), SecuritySpawning);
    Climb(c, ANSWERS, j.(blocked := false), SecuritySpawning);
    run, k := OneStep(c, j, BlockerFinished);
  }

  lemma OneStep(c: Class, j: Job, s: Step) returns (run: seq<(Env, Step)>, k: Job)
    requires Enabled(j, s) && Next(c, ANSWERS, j, s).Fine?
    ensures Feasible(c, j, run) && After(c, j, run) == Fine(k) && Next(c, ANSWERS, j, s) == Fine(k)
  {
    run, k := [(ANSWERS, s)], Next(c, ANSWERS, j, s).job;
    assert run[1..] == [];
  }

  /** A new instance can be brought to SPAWNED, its main process just started. */
  lemma ReachFresh(c: Class) returns (run: seq<(Env, Step)>, k: Job)
    requires ProcMain in c.has
    ensures Feasible(c, NewJob(), run) && After(c, NewJob(), run) == Fine(k)
    ensures OnTheWay(c, k) && k.state.Spawned?
  {
    var start, j1 := StartUp(c);
    var climb, j2 := FirstClimb(c, j1);
    RunThen(c, NewJob(), start, j1, climb);
    var reach, j3 := ReachSpawned(c, j2);
    RunThen(c, NewJob(), start + climb, j2, reach);
    run, k := start + climb + reach, j3;
  }

  lemma Then(c: Class, j: Job, first: seq<(Env, Step)>, k: Job, s: Step) returns (run: seq<(Env, Step)>, l: Job)
    requires Feasible(c, j, first) && After(c, j, first) == Fine(k)
    requires Enabled(k, s) && Next(c, ANSWERS, k, s).Fine?
    ensures Feasible(c, j, run) && After(c, j, run) == Fine(l) && Next(c, ANSWERS, k, s) == Fine(l)
  {
    var last;
    last, l := OneStep(c, k, s);
    RunThen(c, j, first, k, last);
    run := first + last;
  }

  // ----- on from SPAWNED -----

  /** SPAWNED with main alive, where the job may move on. */
  predicate InSpawned(c: Class, j: Job) {
    AtRest(c, j) && !j.freed && j.state.Spawned?
  }

  predicate CanMoveOn(c: Class, j: Job) {
    InSpawned(c, j) && (j.procs.main.undecided ==> c.expects.ExpectStop?)
  }

  /** From SPAWNED, whether main is still alive or not: the job reaches POST_START if
      there is a process for that, and RUNNING if not. */
  predicate MovedUp(c: Class, j: Job, k: Job) {
    && AtRest(c, k) && !k.freed && k.goal.GoalStart? && k.procs.main == j.procs.main
    && (if ProcPostStart in c.has then k.state.PostStart? else k.state.Running?)
  }

  lemma MovesUp(c: Class, env: Env, j: Job)
    requires j.state.Spawned? && j.goal.GoalStart? && Ready(c, j, PostStarting)
    ensures var o := Advance(c, env, j); o.Fine? && MovedUp(c, j, o.job)
  {
    EnterPostStarting(c, env, j);
    var r := Enter(c, env, Spawned, j.(state := PostStarting));
    assert r.next.PostStart? && r.job.procs.main == j.procs.main && r.job.goal.GoalStart?;
    MovesToPostStart(c, env, r.job);
  }

  lemma MovesToPostStart(c: Class, env: Env, j: Job)
    requires j.state.PostStarting? && Ready(c, j, PostStart)
    ensures var o := ChangeState(c, env, j, PostStart); o.Fine? && MovedUp(c, j, o.job)
  {
    EnterRestingUp(c, env, j, PostStart);
    var r := Enter(c, env, PostStarting, j.(state := PostStart));
    if ProcPostStart !in c.has {
      assert r.next.Running? && r.job == j.(state := PostStart);
      EnterRunning(c, env, r.job);
    }
  }

  /** Told to stop before it moved on, the job announces that with main alive. */
  predicate MovedDown(c: Class, j: Job, k: Job) {
    AtRest(c, k) && k.state.Stopping? && k.blocked && !k.freed && k.procs.main == j.procs.main
  }

  lemma MovesDown(c: Class, env: Env, j: Job)
    requires CanMoveOn(c, j) && j.goal.GoalStop?
    ensures var o := Advance(c, env, j); o.Fine? && MovedDown(c, j, o.job)
  {
    assert Ready(c, j, Stopping);
    EnterEvent(c, env, j, Stopping);
  }

  lemma MovesOn(c: Class, env: Env, j: Job)
    requires CanMoveOn(c, j)
    ensures var o := Advance(c, env, j);
      o.Fine? && if j.goal.GoalStart? then MovedUp(c, j, o.job) else MovedDown(c, j, o.job)
  {
    if j.goal.GoalStart? {
      assert Ready(c, j, PostStarting);
      MovesUp(c, env, j);
    } else {
      MovesDown(c, env, j);
    }
  }

  /** However the class tells that main is ready, it can be told so now; a main process
      that stops itself may do so before its setup is complete. */
  lemma Readied(c: Class, j: Job) returns (run: seq<(Env, Step)>, s: Job)
    requires InSpawned(c, j) && Fresh(c, j)
    ensures CanMoveOn(c, s) && s.goal == j.goal && (c.expects.ExpectStop? ==> s == j)
    ensures Feasible(c, j, run) && After(c, j, run) == Advance(c, ANSWERS, s)
  {
    match c.expects
    case ExpectNone =>
      s := Decide(j, ProcMain).WithData(ProcMain, Data(j.procs.main.data.status, false));
      MovesOn(c, ANSWERS, s);
      run := Alone(c, j, SetupDone(ProcMain));
    case ExpectStop =>
      s := j;
      MovesOn(c, ANSWERS, s);
      run := Alone(c, j, SigStopped(ProcMain));
    case _ =>
      run, s := TraceUntilDetached(c, j);
  }

  lemma Alone(c: Class, j: Job, s: Step) returns (run: seq<(Env, Step)>)
    requires Enabled(j, s) && Next(c, ANSWERS, j, s).Fine?
    ensures Feasible(c, j, run) && After(c, j, run) == Next(c, ANSWERS, j, s)
  {
    var k;
    run, k := OneStep(c, j, s);
  }

  /** A run that ends in a failed assertion. */
  ghost predicate Crashing(c: Class, j: Job, run: seq<(Env, Step)>) {
    Feasible(c, j, run) && After(c, j, run).Crash?
  }

  lemma LastStep(c: Class, j: Job, s: Step) returns (run: seq<(Env, Step)>)
    requires Enabled(j, s) && Next(c, ANSWERS, j, s).Crash?
    ensures Crashing(c, j, run)
  {
    run := [(ANSWERS, s)];
    assert run[1..] == [];
  }

  /** The exec trap, then one fork or two. */
  lemma TraceUntilDetached(c: Class, j: Job) returns (run: seq<(Env, Step)>, s: Job)
    requires InSpawned(c, j) && Fresh(c, j) && (c.expects.ExpectDaemon? || c.expects.ExpectFork?)
    ensures CanMoveOn(c, s) && s.goal == j.goal
    ensures Feasible(c, j, run) && After(c, j, run) == Advance(c, ANSWERS, s)
  {
    var trap, j1 := OneStep(c, j, Trap(ProcMain, TrapSignal));
    assert j1 == j.(traceState := TraceNormal);
    if c.expects.ExpectFork? {
      s := LastForked(c, j1);
      var fork := Alone(c, j1, Forked(ProcMain));
      RunThen(c, j, trap, j1, fork);
      run := trap + fork;
    } else {
      FirstForked(c, j1);
      var fork, j2 := OneStep(c, j1, Forked(ProcMain));
      RunThen(c, j, trap, j1, fork);
      s := LastForked(c, j2);
      var again := Alone(c, j2, Forked(ProcMain));
      RunThen(c, j, trap + fork, j2, again);
      run := trap + fork + again;
    }
  }

  /** Main after a fork: the child in its place. */
  function Child(j: Job): Job {
    Decide(j, ProcMain).WithPid(ProcMain, 1).(traceForks := j.traceForks + 1)
  }

  lemma FirstForked(c: Class, j: Job)
    requires InSpawned(c, j) && j.traceState.TraceNormal? && j.traceForks == 0 && c.expects.ExpectDaemon?
    ensures InSpawned(c, Child(j)) && Next(c, ANSWERS, j, Forked(ProcMain)) == Fine(Child(j))
  {
  }

  lemma LastForked(c: Class, j: Job) returns (s: Job)
    requires InSpawned(c, j) && j.traceState.TraceNormal? && (j.traceForks > 0 || c.expects.ExpectFork?)
    ensures CanMoveOn(c, s) && s.goal == j.goal
    ensures Next(c, ANSWERS, j, Forked(ProcMain)) == Advance(c, ANSWERS, s) && Advance(c, ANSWERS, s).Fine?
  {
    s := Child(j).(traceState := TraceNone);
    var d := Decide(j, ProcMain);
    var f := d.WithPid(ProcMain, 1).(traceState := TraceNewChild);
    assert Detached(f) == s && LastFork(c, f, ProcMain);
    assert TraceFork(c, ANSWERS, d, ProcMain) == TraceChild(c, ANSWERS, f, ProcMain);
    MovesOn(c, ANSWERS, s);
  }

  // ----- on from RUNNING -----

  /** A running job that is stopped runs its pre-stop process first, if it has one. */
  predicate StopBegun(c: Class, j: Job, k: Job) {
    && AtRest(c, k) && !k.freed && k.goal.GoalStop? && k.procs.main == j.procs.main
    && (if ProcPreStop in c.has then k.state.PreStop? else k.state.Stopping?)
  }

  lemma StopsRunning(c: Class, j: Job)
    requires AtRest(c, j) && !j.freed && j.state.Running? && j.Alive(ProcMain)
    ensures var o := Next(c, ANSWERS, j, StopCommand); o.Fine? && StopBegun(c, j, o.job)
  {
    var k := Finished(j, false).(goal := GoalStop);
    assert NextState(c, k) == Chosen(k, PreStopping);
    StopsFirst(c, k);
  }

  lemma StopsFirst(c: Class, j: Job)
    requires j.state.Running? && Ready(c, j, PreStopping)
    ensures var o := ChangeState(c, ANSWERS, j, PreStopping); o.Fine? && StopBegun(c, j, o.job)
  {
    EnterPreStopping(c, ANSWERS, j);
    var r := Enter(c, ANSWERS, Running, j.(state := PreStopping));
    assert r.next.PreStop? && r.job.procs.main == j.procs.main;
    StopsInPreStop(c, r.job);
  }

  lemma StopsInPreStop(c: Class, j: Job)
    requires j.state.PreStopping? && Ready(c, j, PreStop)
    ensures var o := ChangeState(c, ANSWERS, j, PreStop); o.Fine? && StopBegun(c, j, o.job)
  {
    EnterPreStop(c, ANSWERS, j);
    var r := Enter(c, ANSWERS, PreStopping, j.(state := PreStop));
    if ProcPreStop !in c.has {
      assert r.next.Stopping? && r.job == j.(state := PreStop);
      EnterEvent(c, ANSWERS, r.job, Stopping);
    }
  }
}
