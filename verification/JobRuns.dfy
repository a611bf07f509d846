/** What every run of one job instance keeps: no assertion of init/job.c or
    init/job_process.c fails, and the job's effects follow the protocol of module
    JobTrace, whatever commands, process deaths, child-setup reports, trace
    notices, timers and event completions arrive, and in what order. */
module JobRuns {
  import opened Options
  import opened JobMachine
  import opened JobSafety
  import opened JobTrace

  datatype Step =
    | StartCommand | StopCommand | RestartCommand
    | BlockerFinished
    | SetupDone(p: Process)
    | SetupFailed(p: Process)
    | Died(p: Process, status: int)
    | SigStopped(p: Process)
    | Trap(p: Process, signal: Trap)
    | Forked(p: Process)
    | Execed(p: Process)
    | KillTimerFires

  /** What the environment can do next.  A child that fails its setup reports so
      before it dies, and a process that was seen to fork, exec or die has completed its
      setup; one that was seen to stop or trap need not have. */
  predicate Enabled(j: Job, s: Step) {
    !j.freed &&
    match s
    case StartCommand => true
    case StopCommand => true
    case RestartCommand => true
    case BlockerFinished => j.blocked
    case SetupDone(p) => Awaited(j.procs.Get(p))
    case SetupFailed(p) => j.procs.Get(p).undecided
    case Died(p, _) => j.Alive(p)
    case SigStopped(p) => j.Alive(p)
    case Trap(p, _) => j.Alive(p)
    case Forked(p) => j.Alive(p)
    case Execed(p) => j.Alive(p)
    case KillTimerFires => j.timer
  }

  function Decide(j: Job, p: Process): Job {
    j.WithProc(p, j.procs.Get(p).(undecided := false))
  }

  /** A start or stop request, from a command or from an event. */
  function Command(c: Class, env: Env, j: Job, goal: Goal): Outcome {
    if j.goal == goal then Fine(j) else ChangeGoal(c, env, Finished(j, false), goal)
  }

  function Restart(c: Class, env: Env, j: Job): Outcome {
    if j.goal.GoalStop? then Fine(j)
    else
      var j :- ChangeGoal(c, env, Finished(j, false), GoalStop);
      ChangeGoal(c, env, j, GoalStart)
  }

  function Next(c: Class, env: Env, j: Job, s: Step): Outcome {
    match s
    case StartCommand => Command(c, env, j, GoalStart)
    case StopCommand => Command(c, env, j, GoalStop)
    case RestartCommand => Restart(c, env, j)
    case BlockerFinished => Advance(c, env, j.(blocked := false))
    case SetupDone(p) => CloseHandler(c, env, Decide(j, p), p)
    case SetupFailed(p) => ChildReader(c, env, Decide(j, p), p)
    case Died(p, status) => Terminated(c, env, Decide(j, p), p, status, false)
    case SigStopped(p) => ProcessStopped(c, env, j, p)
    case Trap(p, signal) => Trapped(c, env, j, p, signal)
    case Forked(p) => TraceFork(c, env, Decide(j, p), p)
    case Execed(p) => TraceExec(c, env, Decide(j, p), p)
    case KillTimerFires => KillTimer(j)
  }

  // ----- the invariant -----

  /** What holds of a job, and of all it has done so far, whenever init is back in
      its main loop. */
  predicate Sound(c: Class, j: Job) {
    AtRest(c, j) && OnTrack(j)
  }

  predicate Good(c: Class, o: Outcome) {
    o.Fine? && Sound(c, o.job)
  }

  /** Nothing but main is alive and nothing is undecided: the job may go on from
      where it waited. */
  predicate OnlyMainLeft(c: Class, procs: Slots<Proc>, mainMay: bool) {
    && (procs.main.pid > 0 ==> mainMay && Wanted(c, ProcMain))
    && (procs.main.undecided ==> procs.main.pid > 0 && Awaited(procs.main) && MayReportLate(c, ProcMain))
    && procs.preStart.pid == 0 && !procs.preStart.undecided
    && procs.postStart.pid == 0 && !procs.postStart.undecided
    && procs.preStop.pid == 0 && !procs.preStop.undecided
    && procs.postStop.pid == 0 && !procs.postStop.undecided
    && procs.security.pid == 0 && !procs.security.undecided
  }

  predicate CanLeave(c: Class, j: Job) {
    && !SpawningState(j.state) && !j.state.Waiting?
    && !j.blocked && !j.freed && TraceOk(j)
    && j.killProcess == (if j.timer then Some(ProcMain) else None)
    && (j.timer ==> j.state.Killed? && j.goal.GoalStop? && ProcPostStop !in c.has)
    && (j.goal.GoalRespawn? ==> j.state.PostStart? || j.state.PreStop?)
    && OnlyMainLeft(c, j.procs,
                    j.state.Spawned? || j.state.PostStart? || j.state.Running? || j.state.PreStop? || j.state.Stopping?)
  }

  predicate CanGo(c: Class, j: Job) {
    CanLeave(c, j) && OnTrack(j)
  }

  lemma LeaveReady(c: Class, j: Job)
    requires CanLeave(c, j)
    ensures var n := NextState(c, j); n.Chosen? && Ready(c, n.job, n.next)
    ensures OnTrack(j) ==> OnTrack(NextState(c, j).job)
  {
  }

  lemma ReadySafe(c: Class, env: Env, j: Job, target: State)
    requires CanSetTimer(c) && Ready(c, j, target) && OnTrack(j)
    ensures Good(c, ChangeState(c, env, j, target))
  {
    ChangeStateSafe(c, env, j, target);
    ChangeStateOnTrack(c, env, j, target);
  }

  /** A job that may go on does, until it comes to rest again. */
  lemma AdvanceSafe(c: Class, env: Env, j: Job)
    requires CanSetTimer(c) && CanGo(c, j)
    ensures Good(c, Advance(c, env, j))
  {
    LeaveReady(c, j);
    var n := NextState(c, j);
    ReadySafe(c, env, n.job, n.next);
  }

  lemma ChangeGoalSafe(c: Class, env: Env, j: Job, goal: Goal)
    requires CanSetTimer(c) && Sound(c, j) && !j.freed && !goal.GoalRespawn?
    ensures Good(c, ChangeGoal(c, env, j, goal))
  {
    if j.goal != goal && ((goal.GoalStart? && j.state.Waiting?) || (goal.GoalStop? && j.state.Running?)) {
      var n := NextState(c, j.(goal := goal));
      ReadySafe(c, env, n.job, n.next);
    }
  }

  lemma FinishedSafe(c: Class, j: Job, failed: bool)
    requires OnTrack(j) && !j.freed
    ensures OnTrack(Finished(j, failed))
    ensures AtRest(c, j) ==> AtRest(c, Finished(j, failed))
    ensures CanLeave(c, j) ==> CanLeave(c, Finished(j, failed))
  {
    Sending(j, Finishes(failed));
  }

  lemma FailedSafe(c: Class, j: Job, p: Option<Process>, status: int)
    requires OnTrack(j) && !j.freed
    ensures OnTrack(Failed(j, p, status))
    ensures AtRest(c, j) ==> AtRest(c, Failed(j, p, status))
    ensures CanLeave(c, j) ==> CanLeave(c, Failed(j, p, status))
  {
    FinishedSafe(c, j.(failed := true, failedProcess := p, exitStatus := status), true);
  }

  // ----- the steps -----

  lemma CommandSafe(c: Class, env: Env, j: Job, goal: Goal)
    requires CanSetTimer(c) && Sound(c, j) && !j.freed && !goal.GoalRespawn?
    ensures Good(c, Command(c, env, j, goal))
  {
    FinishedSafe(c, j, false);
    ChangeGoalSafe(c, env, Finished(j, false), goal);
  }

  /** Neither change of goal of a restart frees the instance. */
  lemma RestartSafe(c: Class, env: Env, j: Job)
    requires CanSetTimer(c) && Sound(c, j) && !j.freed
    ensures Good(c, Restart(c, env, j))
  {
    if !j.goal.GoalStop? {
      FinishedSafe(c, j, false);
      StopThenStartSafe(c, env, Finished(j, false));
    }
  }

  lemma StopThenStartSafe(c: Class, env: Env, j: Job)
    requires CanSetTimer(c) && Sound(c, j) && !j.freed
    ensures var o := ChangeGoal(c, env, j, GoalStop);
      o.Fine? && Good(c, ChangeGoal(c, env, o.job, GoalStart))
  {
    ChangeGoalSafe(c, env, j, GoalStop);
    StopKeepsInstance(c, env, j);
    ChangeGoalSafe(c, env, ChangeGoal(c, env, j, GoalStop).job, GoalStart);
  }

  /** Stopping a job at rest never frees it at once: from RUNNING it gets no
      further than PRE_STOP or STOPPING. */
  lemma StopKeepsInstance(c: Class, env: Env, j: Job)
    requires CanSetTimer(c) && AtRest(c, j) && !j.freed
    ensures var o := ChangeGoal(c, env, j, GoalStop); o.Fine? && !o.job.freed
  {
  }

  /** The death of main, in each state in which main may be alive. */
  lemma MainVerdictKeeps(c: Class, env: Env, j: Job, status: int)
    requires AtRest(c, j) && j.Alive(ProcMain)
    ensures MainVerdict(c, env, j, status).Verdict?
    ensures
      var v := MainVerdict(c, env, j, status);
      && v.job.procs == j.procs && v.job.state == j.state && v.job.blocked == j.blocked && v.job.timer == j.timer
      && v.job.killProcess == j.killProcess && v.job.freed == j.freed
      && (v.job.outbox == j.outbox || v.job.outbox == j.outbox + [Finishes(true)])
      && (v.job.goal == j.goal
         || (v.job.goal.GoalRespawn? && !v.stop && !v.advance && (j.state.PostStart? || j.state.PreStop?)))
      && (v.advance <==> !(j.state.PostStart? || j.state.PreStop? || j.state.Stopping?))
      && (j.state.Killed? || j.state.Stopping? ==> !v.stop && !v.failed)
  {
  }

  /** The death of one of the other processes, in the one state it lives in. */
  lemma OtherGone(c: Class, j: Job, p: Process)
    requires AtRest(c, j) && j.Alive(p) && !p.ProcMain? && !j.procs.Get(p).undecided
    ensures HomeOf(p, j.state) && !j.timer && !j.freed && CanLeave(c, Reaped(j, p, false))
  {
  }

  lemma MainGone(c: Class, j: Job)
    requires AtRest(c, j) && j.Alive(ProcMain) && !j.procs.main.undecided
    ensures
      var j' := Reaped(j, ProcMain, false);
      !j.freed && if j.state.PostStart? || j.state.PreStop? || j.state.Stopping? then AtRest(c, j') else CanLeave(c, j')
  {
  }

  lemma ReapedOnTrack(j: Job, p: Process)
    requires OnTrack(j)
    ensures OnTrack(Reaped(j, p, false))
  {
  }

  lemma TerminatedSafe(c: Class, env: Env, j: Job, p: Process, status: int)
    requires CanSetTimer(c) && Sound(c, j) && j.Alive(p) && !j.procs.Get(p).undecided
    ensures Good(c, Terminated(c, env, j, p, status, false))
  {
    if p.ProcMain? { MainDiedSafe(c, env, j, status); } else { OtherDiedSafe(c, env, j, p, status); }
  }

  lemma MainReaped(c: Class, env: Env, j: Job, status: int)
    requires Sound(c, j) && j.Alive(ProcMain) && !j.procs.main.undecided
    ensures MainVerdict(c, env, j, status).Verdict?
    ensures
      var v := MainVerdict(c, env, j, status);
      var j1 := Reaped(v.job, ProcMain, false);
      && OnTrack(j1) && !j1.freed
      && (if v.advance then CanLeave(c, j1) else AtRest(c, j1) && !j1.state.Running?)
      && (v.stop && j1.state.Running? ==> j1.goal.GoalStart?)
  {
    MainVerdictKeeps(c, env, j, status);
    MainGone(c, j);
    Sending(j, Finishes(true));
    ReapedOnTrack(MainVerdict(c, env, j, status).job, ProcMain);
  }

  lemma MainDiedSafe(c: Class, env: Env, j: Job, status: int)
    requires CanSetTimer(c) && Sound(c, j) && j.Alive(ProcMain) && !j.procs.main.undecided
    ensures Good(c, Terminated(c, env, j, ProcMain, status, false))
  {
    MainReaped(c, env, j, status);
    var v := MainVerdict(c, env, j, status);
    var j1 := Reaped(v.job, ProcMain, false);
    FailedSafe(c, j1, Some(ProcMain), status);
    ConcludedSafe(c, env, if v.failed then Failed(j1, Some(ProcMain), status) else j1, v.stop, v.advance);
  }

  lemma OtherDiedSafe(c: Class, env: Env, j: Job, p: Process, status: int)
    requires CanSetTimer(c) && Sound(c, j) && j.Alive(p) && !j.procs.Get(p).undecided && !p.ProcMain?
    ensures Good(c, Terminated(c, env, j, p, status, false))
  {
    OtherGone(c, j, p);
    ReapedOnTrack(j, p);
    var j1 := Reaped(j, p, false);
    FailedSafe(c, j1, Some(p), status);
    var v := TerminatedVerdict(c, env, j, p, status);
    ConcludedSafe(c, env, if v.failed then Failed(j1, Some(p), status) else j1, v.stop, v.advance);
  }

  lemma ConcludedSafe(c: Class, env: Env, j: Job, stop: bool, advance: bool)
    requires CanSetTimer(c) && OnTrack(j)
    requires if advance then CanLeave(c, j) else AtRest(c, j) && !j.freed && !(stop && j.state.Running?)
    requires stop && j.state.Running? ==> j.goal.GoalStart?
    ensures Good(c, Concluded(c, env, j, stop, advance))
  {
    if advance {
      AdvanceSafe(c, env, if stop then j.(goal := GoalStop) else j);
    }
  }

  /** A job whose awaited process is gone, or known to be set up, may go on. */
  lemma HomeCanGo(c: Class, j: Job, p: Process)
    requires Sound(c, j) && !j.freed && HomeOf(p, j.state)
    ensures CanGo(c, Decide(j, p).WithPid(p, 0))
    ensures p.ProcMain? ==> CanGo(c, Decide(j, p))
  {
  }

  lemma DataCanGo(c: Class, j: Job, p: Process, d: ProcessData)
    requires CanGo(c, j) && !j.procs.Get(p).undecided
    ensures CanGo(c, j.WithData(p, d))
  {
  }

  lemma ChildReaderSafe(c: Class, env: Env, j: Job, p: Process)
    requires Safe(c) && Sound(c, j) && !j.freed && j.procs.Get(p).undecided
    ensures Good(c, ChildReader(c, env, Decide(j, p), p))
  {
    if HomeOf(p, j.state) { HomeReaderSafe(c, env, j, p); } else { LateReaderSafe(c, env, j); }
  }

  /** A setup that fails after main was taken to be ready: RUNNING ends as if main had
      died, and a job that is being stopped goes on with that. */
  lemma LateReaderSafe(c: Class, env: Env, j: Job)
    requires Safe(c) && Sound(c, j) && !j.freed
    requires j.procs.main.undecided && !j.state.Spawned?
    ensures Good(c, ChildReader(c, env, Decide(j, ProcMain), ProcMain))
  {
    var d := Data(j.procs.main.data.status, false);
    LateGone(c, j);
    LateErrorSafe(c, env, Decide(j, ProcMain).WithData(ProcMain, d));
  }

  lemma LateErrorSafe(c: Class, env: Env, j: Job)
    requires CanSetTimer(c) && OnTrack(j.WithPid(ProcMain, 0)) && !j.freed
    requires j.state.Running? || j.state.Stopping? || j.state.Killed?
    requires if j.state.Killed? then CanLeave(c, j.WithPid(ProcMain, 0).(goal := GoalStop))
             else AtRest(c, j.WithPid(ProcMain, 0))
    ensures Good(c, ChildErrorHandler(c, env, j, ProcMain))
  {
    var j1 := j.WithPid(ProcMain, 0);
    FailedSafe(c, j1, Some(ProcMain), -1);
    FailedSafe(c, j1.(goal := GoalStop), Some(ProcMain), -1);
    var f := Failed(j1, Some(ProcMain), -1);
    assert ChildErrorHandler(c, env, j, ProcMain) == StopAndGo(c, env, f);
    if j.state.Killed? {
      RestStop(c, env, f);
      AdvanceSafe(c, env, f.(goal := GoalStop));
    } else {
      LateStop(c, env, f);
    }
  }

  /** Where stopping does not move the job by itself. */
  lemma RestStop(c: Class, env: Env, j: Job)
    requires !j.state.Running?
    ensures StopAndGo(c, env, j) == Advance(c, env, j.(goal := GoalStop))
  {
    assert ChangeGoal(c, env, j, GoalStop) == Fine(j.(goal := GoalStop));
  }

  lemma LateGone(c: Class, j: Job)
    requires Safe(c) && Sound(c, j) && !j.freed && j.procs.main.undecided && !j.state.Spawned?
    ensures j.state.Running? || j.state.Stopping? || j.state.Killed?
    ensures
      var d := Data(j.procs.main.data.status, false);
      var j1 := Decide(j, ProcMain).WithData(ProcMain, d).WithPid(ProcMain, 0);
      && OnTrack(j1) && !j1.freed
      && if j.state.Killed? then CanLeave(c, j1.(goal := GoalStop)) else AtRest(c, j1)
  {
  }

  lemma LateStop(c: Class, env: Env, j: Job)
    requires CanSetTimer(c) && Sound(c, j) && !j.freed && (j.state.Running? || j.state.Stopping?)
    requires !j.Alive(ProcMain)
    ensures Good(c, StopAndGo(c, env, j))
  {
    ChangeGoalSafe(c, env, j, GoalStop);
    LateStops(c, env, j);
    var o := ChangeGoal(c, env, j, GoalStop);
    assert Advance(c, env, o.job) == o;
  }

  lemma LateStops(c: Class, env: Env, j: Job)
    requires AtRest(c, j) && (j.state.Running? || j.state.Stopping?) && !j.Alive(ProcMain)
    ensures var o := ChangeGoal(c, env, j, GoalStop); o.Fine? && o.job.state.Stopping? && o.job.blocked
  {
    assert NextState(c, j.(goal := GoalStop)).Chosen?;
  }

  lemma HomeReaderSafe(c: Class, env: Env, j: Job, p: Process)
    requires CanSetTimer(c) && Sound(c, j) && !j.freed
    requires j.procs.Get(p).undecided && HomeOf(p, j.state)
    ensures Good(c, ChildReader(c, env, Decide(j, p), p))
  {
    HomeCanGo(c, j, p);
    var d := Data(j.procs.Get(p).data.status, false);
    DataCanGo(c, Decide(j, p).WithPid(p, 0), p, d);
    assert Decide(j, p).WithPid(p, 0).WithData(p, d) == Decide(j, p).WithData(p, d).WithPid(p, 0);
    ChildErrorSafe(c, env, Decide(j, p).WithData(p, d), p);
  }

  lemma ChildErrorSafe(c: Class, env: Env, j: Job, p: Process)
    requires CanSetTimer(c) && CanGo(c, j.WithPid(p, 0)) && HomeOf(p, j.state)
    requires p.ProcSecurity? ==> c.RunsSecurity()
    ensures Good(c, ChildErrorHandler(c, env, j, p))
  {
    var j1 := j.WithPid(p, 0);
    FailedSafe(c, j1, Some(p), -1);
    if p.ProcPostStart? || p.ProcPreStop? {
      AdvanceSafe(c, env, j1);
    } else if p.ProcSecurity? {
      SecurityErrorSafe(c, env, j);
    } else {
      RestStop(c, env, Failed(j1, Some(p), -1));
      AdvanceSafe(c, env, Failed(j1, Some(p), -1).(goal := GoalStop));
    }
  }

  /** A failed security process changes the goal only. */
  lemma SecurityErrorSafe(c: Class, env: Env, j: Job)
    requires CanGo(c, j.WithPid(ProcSecurity, 0)) && j.state.Security? && c.RunsSecurity()
    ensures Good(c, ChildErrorHandler(c, env, j, ProcSecurity))
  {
    FailedSafe(c, j.WithPid(ProcSecurity, 0), Some(ProcSecurity), -1);
  }

  lemma DataSafe(c: Class, j: Job, p: Process, d: ProcessData)
    requires Sound(c, j)
    ensures Sound(c, Decide(j, p).WithData(p, d))
  {
  }

  lemma CloseHandlerSafe(c: Class, env: Env, j: Job, p: Process)
    requires CanSetTimer(c) && Sound(c, j) && !j.freed
    ensures Good(c, CloseHandler(c, env, Decide(j, p), p))
  {
    DecideSafe(c, j, p);
    if Awaited(j.procs.Get(p)) {
      var d := Data(j.procs.Get(p).data.status, false);
      DataSafe(c, j, p, d);
      if j.state.Spawned? && p.ProcMain? {
        HomeCanGo(c, j, p);
        DataCanGo(c, Decide(j, p), p, d);
      }
      SetupCompleteSafe(c, env, Decide(j, p).WithData(p, d), p, d.status);
    }
  }

  lemma SetupCompleteSafe(c: Class, env: Env, j: Job, p: Process, status: int)
    requires CanSetTimer(c) && Sound(c, j)
    requires j.state.Spawned? && p.ProcMain? ==> CanGo(c, j)
    ensures Good(c, SetupComplete(c, env, j, p, status))
  {
    if j.state.Spawned? && p.ProcMain? {
      AdvanceSafe(c, env, j);
    }
  }

  lemma StoppedSafe(c: Class, env: Env, j: Job, p: Process)
    requires CanSetTimer(c) && Sound(c, j) && j.Alive(p)
    ensures Good(c, ProcessStopped(c, env, j, p))
  {
    if Traced(j, p) && c.expects.ExpectStop? {
      StoppedCanGo(c, j);
      AdvanceSafe(c, env, j);
    }
  }

  lemma StoppedCanGo(c: Class, j: Job)
    requires Sound(c, j) && j.state.Spawned? && c.expects.ExpectStop?
    ensures CanGo(c, j)
  {
  }

  /** A traced main process that is let go of moves the job on from SPAWNED. */
  lemma DetachSafe(c: Class, env: Env, j: Job, forks: nat)
    requires CanSetTimer(c) && Sound(c, j) && j.Alive(ProcMain) && !j.procs.main.undecided && j.state.Spawned?
    ensures Good(c, Advance(c, env, j.(traceForks := forks, traceState := TraceNone)))
  {
    HomeCanGo(c, j, ProcMain);
    AdvanceSafe(c, env, j.(traceForks := forks, traceState := TraceNone));
  }

  lemma TraceFieldsSafe(c: Class, j: Job, forks: nat, t: TraceState)
    requires Sound(c, j) && (t.TraceNewChild? ==> !j.procs.main.undecided)
    ensures Sound(c, j.(traceForks := forks, traceState := t))
  {
  }

  lemma ExecSafe(c: Class, env: Env, j: Job, p: Process)
    requires CanSetTimer(c) && Sound(c, j) && j.Alive(p) && !j.procs.Get(p).undecided
    ensures Good(c, TraceExec(c, env, j, p))
  {
    if Traced(j, p) {
      DetachSafe(c, env, j, j.traceForks);
    }
  }

  lemma TraceSafe(c: Class, env: Env, j: Job, p: Process)
    requires CanSetTimer(c) && Sound(c, j) && j.Alive(p) && j.traceState.TraceNewChild?
    ensures Good(c, TraceChild(c, env, j, p))
  {
    var o := TraceChild(c, env, j, p);
    if LastFork(c, j, p) {
      LastForkSafe(c, env, j, p, o);
    } else {
      TraceOnSafe(c, env, j, p);
    }
  }

  lemma LastForkSafe(c: Class, env: Env, j: Job, p: Process, o: Outcome)
    requires CanSetTimer(c) && Sound(c, j) && j.Alive(p)
    requires LastFork(c, j, p) && o == Advance(c, env, Detached(j))
    ensures Good(c, o)
  {
    LastForkCanGo(c, j, p);
    AdvanceSafe(c, env, Detached(j));
  }

  lemma LastForkCanGo(c: Class, j: Job, p: Process)
    requires Sound(c, j) && j.Alive(p) && LastFork(c, j, p)
    ensures CanGo(c, Detached(j))
  {
    assert j.state.Spawned? && p.ProcMain?;
    HomeCanGo(c, j, ProcMain);
  }

  lemma TraceOnSafe(c: Class, env: Env, j: Job, p: Process)
    requires Sound(c, j) && j.traceState.TraceNewChild?
    ensures Good(c, TraceOn(env, j, p))
  {
    if Traced(j, p) {
      TraceFieldsSafe(c, j, j.traceForks + 1, if env.optionsOk then TraceNormal else TraceNewChild);
    }
  }

  lemma TrapSafe(c: Class, env: Env, j: Job, p: Process, signal: Trap)
    requires CanSetTimer(c) && Sound(c, j) && j.Alive(p)
    ensures Good(c, Trapped(c, env, j, p, signal))
  {
    if j.traceState.TraceNewChild? {
      TraceSafe(c, env, j, p);
    } else {
      TraceFieldsSafe(c, j, j.traceForks, TraceNormal);
    }
  }

  /** Deciding that a child was set up leaves the job as sound as it was. */
  lemma DecideSafe(c: Class, j: Job, p: Process)
    requires Sound(c, j)
    ensures Sound(c, Decide(j, p)) && !Decide(j, p).procs.Get(p).undecided
    ensures Decide(j, p).Alive(p) == j.Alive(p)
  {
  }

  /** A forked child takes over main's place with a new pid. */
  lemma ForkSafe(c: Class, env: Env, j: Job, p: Process)
    requires CanSetTimer(c) && Sound(c, j) && j.Alive(p) && !j.procs.Get(p).undecided
    ensures Good(c, TraceFork(c, env, j, p))
  {
    if Traced(j, p) && j.traceState.TraceNormal? && env.child.Some? {
      TraceSafe(c, env, j.WithPid(p, env.child.value).(traceState := TraceNewChild), p);
    }
  }

  lemma BlockerFinishedSafe(c: Class, env: Env, j: Job)
    requires CanSetTimer(c) && Sound(c, j) && !j.freed && j.blocked
    ensures Good(c, Advance(c, env, j.(blocked := false)))
  {
    AdvanceSafe(c, env, j.(blocked := false));
  }

  lemma KillTimerSafe(c: Class, j: Job)
    requires Sound(c, j) && !j.freed && j.timer
    ensures Good(c, KillTimer(j))
  {
    Sending(j.(timer := false, killProcess := None), Signals(ProcMain, true));
  }

  /** No step that can happen trips an assertion, and each leaves the job sound. */
  lemma NextSafe(c: Class, env: Env, j: Job, s: Step)
    requires Safe(c) && Sound(c, j) && Enabled(j, s)
    ensures Good(c, Next(c, env, j, s))
  {
    match s
    case StartCommand => CommandSafe(c, env, j, GoalStart);
    case StopCommand => CommandSafe(c, env, j, GoalStop);
    case RestartCommand => RestartSafe(c, env, j);
    case BlockerFinished => BlockerFinishedSafe(c, env, j);
    case SetupDone(p) => CloseHandlerSafe(c, env, j, p);
    case SetupFailed(p) => ChildReaderSafe(c, env, j, p);
    case Died(p, status) => DecideSafe(c, j, p); TerminatedSafe(c, env, Decide(j, p), p, status);
    case SigStopped(p) => StoppedSafe(c, env, j, p);
    case Trap(p, signal) => TrapSafe(c, env, j, p, signal);
    case Forked(p) => DecideSafe(c, j, p); ForkSafe(c, env, Decide(j, p), p);
    case Execed(p) => DecideSafe(c, j, p); ExecSafe(c, env, Decide(j, p), p);
    case KillTimerFires => KillTimerSafe(c, j);
  }

  // ----- runs -----

  /** A run feeds steps to the job, each with the system's answers to it. */
  ghost predicate Feasible(c: Class, j: Job, run: seq<(Env, Step)>)
    decreases |run|
  {
    run == [] ||
    (Enabled(j, run[0].1) &&
     match Next(c, run[0].0, j, run[0].1)
     case Crash => run[1..] == []
     case Fine(j') => Feasible(c, j', run[1..]))
  }

  ghost function After(c: Class, j: Job, run: seq<(Env, Step)>): Outcome
    decreases |run|
  {
    if run == [] then Fine(j)
    else
      var j :- Next(c, run[0].0, j, run[0].1);
      After(c, j, run[1..])
  }

  /** On every run of a new instance no assertion fails, the job comes to rest after
      every step, and what it has done follows the protocol. */
  lemma {:induction false} RunSafe(c: Class, j: Job, run: seq<(Env, Step)>)
    requires Safe(c) && Sound(c, j) && Feasible(c, j, run)
    ensures Good(c, After(c, j, run))
    decreases |run|
  {
    if run != [] {
      NextSafe(c, run[0].0, j, run[0].1);
      RunSafe(c, Next(c, run[0].0, j, run[0].1).job, run[1..]);
    }
  }

  lemma {:induction false} RunThen(c: Class, j: Job, first: seq<(Env, Step)>, k: Job, second: seq<(Env, Step)>)
    requires Feasible(c, j, first) && After(c, j, first) == Fine(k) && Feasible(c, k, second)
    ensures Feasible(c, j, first + second) && After(c, j, first + second) == After(c, k, second)
    decreases |first|
  {
    if first == [] {
      assert first + second == second;
    } else {
      assert (first + second)[1..] == first[1..] + second;
      RunThen(c, Next(c, first[0].0, j, first[0].1).job, first[1..], k, second);
    }
  }

  /** While a job waits for the event it emitted to finish, nothing but that event
      finishing changes its state. */
  lemma BlockedHoldsState(c: Class, env: Env, j: Job, s: Step)
    requires Safe(c) && Sound(c, j) && Enabled(j, s) && j.blocked && !s.BlockerFinished?
    ensures Next(c, env, j, s).Fine?
    ensures var j' := Next(c, env, j, s).job; j'.state == j.state && j'.blocked && !j'.freed
  {
    match s
    case StartCommand => CommandHolds(c, env, j, GoalStart);
    case StopCommand => CommandHolds(c, env, j, GoalStop);
    case RestartCommand => RestartHolds(c, env, j);
    case SetupDone(p) => SetupHolds(c, env, Decide(j, p), p);
    case SetupFailed(p) => LateFailureHolds(c, env, j, p);
    case Died(p, status) => DeathHolds(c, env, j, p, status);
    case _ =>
  }

  predicate Holding(j: Job, o: Outcome) {
    o.Fine? && o.job.state == j.state && o.job.blocked && !o.job.freed
  }

  lemma CommandHolds(c: Class, env: Env, j: Job, goal: Goal)
    requires AtRest(c, j) && j.blocked && !j.freed
    ensures Holding(j, Command(c, env, j, goal))
  {
  }

  lemma RestartHolds(c: Class, env: Env, j: Job)
    requires AtRest(c, j) && j.blocked && !j.freed
    ensures Holding(j, Restart(c, env, j))
  {
  }

  lemma SetupHolds(c: Class, env: Env, j: Job, p: Process)
    requires j.blocked && !j.freed && (j.state.Starting? || j.state.Stopping?)
    ensures Holding(j, CloseHandler(c, env, j, p))
  {
  }

  lemma LateFailureHolds(c: Class, env: Env, j: Job, p: Process)
    requires AtRest(c, j) && j.blocked && !j.freed && j.procs.Get(p).undecided
    ensures Holding(j, ChildReader(c, env, Decide(j, p), p))
  {
    assert p.ProcMain? && j.state.Stopping?;
    var k := Decide(j, p).WithData(p, Data(j.procs.Get(p).data.status, false));
    RestStop(c, env, Failed(k.WithPid(p, 0), Some(p), -1));
    assert ChildReader(c, env, Decide(j, p), p) == ChildErrorHandler(c, env, k, p);
  }

  lemma DeathHolds(c: Class, env: Env, j: Job, p: Process, status: int)
    requires AtRest(c, j) && j.blocked && !j.freed && j.Alive(p)
    ensures Holding(j, Terminated(c, env, Decide(j, p), p, status, false))
  {
    assert p.ProcMain? && j.state.Stopping?;
    assert MainVerdict(c, env, Decide(j, p), status) == Verdict(Decide(j, p), false, false, false);
  }

  lemma NewbornSound(c: Class, j: Job)
    requires j.state.Waiting? && j.goal.GoalStop? && !j.blocked && !j.timer && j.killProcess.None? && !j.freed
    requires j.procs == Slots(NO_PROC, NO_PROC, NO_PROC, NO_PROC, NO_PROC, NO_PROC) && j.outbox == []
    ensures Sound(c, j)
  {
  }

  /** A pending kill timer belongs to a job in KILLED whose main process is alive and has
      been sent the kill signal, but not yet SIGKILL; firing it trips no assertion and
      leaves no timer. */
  lemma KillTimerMeans(c: Class, j: Job)
    requires Sound(c, j) && j.timer && !j.freed
    ensures j.state.Killed? && j.killProcess == Some(ProcMain) && j.Alive(ProcMain)
    ensures Track(j.outbox) == Some(Killing)
    ensures KillTimer(j).Fine? && !KillTimer(j).job.timer
    ensures Track(KillTimer(j).job.outbox) == Some(Forced)
  {
    Sending(j.(timer := false, killProcess := None), Signals(ProcMain, true));
  }

  /** Over every run of a new instance: no more SIGKILLs than kill signals, no more of
      those than stops, and no more started events than starts. */
  lemma RunCounts(c: Class, j: Job, run: seq<(Env, Step)>)
    requires Safe(c) && Sound(c, j) && Feasible(c, j, run)
    ensures
      var o := After(c, j, run);
      && o.Fine?
      && Count(o.job.outbox, IsForcedKill) <= Count(o.job.outbox, IsKill) <= Count(o.job.outbox, IsStopping)
      && Count(o.job.outbox, IsStarted) <= Count(o.job.outbox, IsStarting)
      && Count(o.job.outbox, IsFree) <= 1
  {
    RunSafe(c, j, run);
    ProtocolCounts(After(c, j, run).job.outbox);
  }
}
