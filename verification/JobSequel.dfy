/** What each step makes of a job, in one go: where it comes to rest, with which goal,
    and everything it does on the way, told by the class, the state and the goal alone.
    The state by state machinery of init/job.c and init/job_process.c (module JobMachine)
    is proved to do exactly that for every sound job. */
module JobSequel {
  import opened Options
  import opened JobMachine
  import opened JobSafety
  import opened JobTrace
  import opened JobRuns

  /** Process `p` started in state `s`. */
  ghost function Begun(c: Class, env: Env, j: Job, s: State, p: Process): Job {
    var traced := p == ProcMain && (c.expects == ExpectDaemon || c.expects == ExpectFork);
    j.(state := s, procs := j.procs.Set(p, Proc(env.pid(p), Data(0, true), true)),
       traceForks := 0, traceState := if traced then TraceNew else TraceNone,
       outbox := j.outbox + [Spawns(p)])
  }

  /** On the way to running, with the first `done` of the security, pre-start, main and
      post-start processes behind it: the next one that the class has is started, and
      without any the job is RUNNING.  A service is then done; a task is not. */
  ghost function Upwards(c: Class, env: Env, j: Job, done: nat): Job {
    if done < 1 && ProcSecurity in c.has && c.apparmor then Begun(c, env, j, Security, ProcSecurity)
    else if done < 2 && ProcPreStart in c.has then Begun(c, env, j, PreStart, ProcPreStart)
    else if done < 3 && ProcMain in c.has then Begun(c, env, j, Spawned, ProcMain)
    else if done < 4 && ProcPostStart in c.has then Begun(c, env, j, PostStart, ProcPostStart)
    else
      j.(state := Running,
         outbox := j.outbox + [Emits(StartedEvent, NoResult)] + if c.task then [] else [Finishes(false)])
  }

  /** What a stopping or stopped event says of the end of the job. */
  ghost function Reason(j: Job): StopResult {
    if !j.failed then ResultOk
    else if j.failedProcess == None then ResultRespawn
    else if j.exitStatus == -1 then ResultSpawn(j.failedProcess.value)
    else if 0 <= j.exitStatus <= 255 then ResultExit(j.failedProcess.value, j.exitStatus)
    else ResultSignal(j.failedProcess.value, j.exitStatus / 256)
  }

  /** STOPPING, until its event is finished. */
  ghost function Stopped(j: Job): Job {
    j.(state := Stopping, blocked := true, outbox := j.outbox + [Emits(StoppingEvent, Reason(j))])
  }

  /** STARTING afresh, until its event is finished. */
  ghost function Afresh(j: Job): Job {
    j.(state := Starting, blocked := true, failed := false, failedProcess := None, exitStatus := 0,
       outbox := j.outbox + [Emits(StartingEvent, NoResult)])
  }

  /** With no process left: the instance goes, or starts again. */
  ghost function Over(j: Job): Job {
    if j.goal == GoalStop then
      j.(state := Waiting, freed := true,
         outbox := j.outbox + [Emits(StoppedEvent, Reason(j)), Finishes(false), Frees])
    else Afresh(j)
  }

  ghost function Downwards(c: Class, env: Env, j: Job): Job {
    if ProcPostStop in c.has then Begun(c, env, j, PostStop, ProcPostStop) else Over(j)
  }

  /** A job that waits for nothing any more goes on to where it next has to wait. */
  ghost function MovedOn(c: Class, env: Env, j: Job): Job {
    match j.state
    case Starting => if j.goal == GoalStop then Stopped(j) else Upwards(c, env, j, 0)
    case Security => if j.goal == GoalStop then Stopped(j) else Upwards(c, env, j, 1)
    case PreStart => if j.goal == GoalStop then Stopped(j) else Upwards(c, env, j, 2)
    case Spawned => if j.goal == GoalStop then Stopped(j) else Upwards(c, env, j, 3)
    case PostStart =>
      if j.goal == GoalStop then Stopped(j)
      else if j.goal == GoalRespawn then Stopped(j.(goal := GoalStart))
      else Upwards(c, env, j, 4)
    case Running =>
      if j.goal == GoalStop && j.Alive(ProcMain) && ProcMain in c.has && ProcPreStop in c.has
      then Begun(c, env, j, PreStop, ProcPreStop)
      else Stopped(j)
    case PreStop =>
      if j.goal == GoalStop then Stopped(j)
      else if j.goal == GoalRespawn then Stopped(j.(goal := GoalStart))
      else j.(state := Running, outbox := j.outbox + [Finishes(false)])
    case Stopping =>
      if j.Alive(ProcMain) && ProcMain in c.has then
        j.(state := Killed, timer := env.killOk, killProcess := if env.killOk then Some(ProcMain) else None,
           outbox := j.outbox + [Signals(ProcMain, false)])
      else Downwards(c, env, j)
    case Killed => Downwards(c, env, j)
    case PostStop => Over(j)
    case _ => j
  }

  // ----- the loop does that -----

  predicate GoingUp(j: Job) {
    j.goal == GoalStart && !j.blocked
  }

  lemma ToRunning(c: Class, env: Env, j: Job)
    requires GoingUp(j) && j.state.PostStart?
    ensures ChangeState(c, env, j, Running) == Fine(Upwards(c, env, j, 4))
  {
  }

  lemma ArrivesWithoutPostStart(c: Class, env: Env, j: Job)
    requires GoingUp(j) && j.state.PostStarting? && ProcPostStart !in c.has
    ensures ChangeState(c, env, j, PostStart) == ChangeState(c, env, j.(state := PostStart), Running)
  {
  }

  lemma SkipsPostStart(c: Class, env: Env, j: Job)
    requires GoingUp(j) && j.state.Spawned? && ProcPostStart !in c.has
    ensures ChangeState(c, env, j, PostStarting) == ChangeState(c, env, j.(state := PostStart), Running)
  {
    assert Enter(c, env, Spawned, j.(state := PostStarting)) == Chosen(j.(state := PostStarting), PostStart);
    ArrivesWithoutPostStart(c, env, j.(state := PostStarting));
  }

  lemma PastSpawned(c: Class, env: Env, j: Job)
    requires GoingUp(j) && j.state.Spawned?
    ensures ChangeState(c, env, j, PostStarting) == Fine(Upwards(c, env, j, 3))
  {
    if ProcPostStart !in c.has {
      SkipsPostStart(c, env, j);
      ToRunning(c, env, j.(state := PostStart));
    }
  }

  lemma ArrivesWithoutMain(c: Class, env: Env, j: Job)
    requires GoingUp(j) && j.state.Spawning? && ProcMain !in c.has
    ensures ChangeState(c, env, j, Spawned) == ChangeState(c, env, j.(state := Spawned), PostStarting)
  {
  }

  lemma SkipsMain(c: Class, env: Env, j: Job)
    requires GoingUp(j) && j.state.PreStart? && ProcMain !in c.has
    ensures ChangeState(c, env, j, Spawning) == ChangeState(c, env, j.(state := Spawned), PostStarting)
  {
    assert Enter(c, env, PreStart, j.(state := Spawning)) == Chosen(j.(state := Spawning), Spawned);
    ArrivesWithoutMain(c, env, j.(state := Spawning));
  }

  lemma PastPreStart(c: Class, env: Env, j: Job)
    requires GoingUp(j) && j.state.PreStart?
    ensures ChangeState(c, env, j, Spawning) == Fine(Upwards(c, env, j, 2))
  {
    if ProcMain !in c.has {
      SkipsMain(c, env, j);
      PastSpawned(c, env, j.(state := Spawned));
    }
  }

  lemma ArrivesWithoutPreStart(c: Class, env: Env, j: Job)
    requires GoingUp(j) && j.state.PreStarting? && ProcPreStart !in c.has
    ensures ChangeState(c, env, j, PreStart) == ChangeState(c, env, j.(state := PreStart), Spawning)
  {
  }

  lemma SkipsPreStart(c: Class, env: Env, j: Job)
    requires GoingUp(j) && j.state.Security? && ProcPreStart !in c.has
    ensures ChangeState(c, env, j, PreStarting) == ChangeState(c, env, j.(state := PreStart), Spawning)
  {
    assert Enter(c, env, Security, j.(state := PreStarting)) == Chosen(j.(state := PreStarting), PreStart);
    ArrivesWithoutPreStart(c, env, j.(state := PreStarting));
  }

  lemma PastSecurity(c: Class, env: Env, j: Job)
    requires GoingUp(j) && j.state.Security?
    ensures ChangeState(c, env, j, PreStarting) == Fine(Upwards(c, env, j, 1))
  {
    if ProcPreStart !in c.has {
      SkipsPreStart(c, env, j);
      PastPreStart(c, env, j.(state := PreStart));
    }
  }

  lemma ArrivesWithoutSecurity(c: Class, env: Env, j: Job)
    requires GoingUp(j) && j.state.SecuritySpawning? && !c.RunsSecurity()
    ensures ChangeState(c, env, j, Security) == ChangeState(c, env, j.(state := Security), PreStarting)
  {
  }

  lemma SkipsSecurity(c: Class, env: Env, j: Job)
    requires GoingUp(j) && j.state.Starting? && !c.RunsSecurity()
    ensures ChangeState(c, env, j, SecuritySpawning) == ChangeState(c, env, j.(state := Security), PreStarting)
  {
    assert Enter(c, env, Starting, j.(state := SecuritySpawning)) == Chosen(j.(state := SecuritySpawning), Security);
    ArrivesWithoutSecurity(c, env, j.(state := SecuritySpawning));
  }

  lemma PastStarting(c: Class, env: Env, j: Job)
    requires GoingUp(j) && j.state.Starting?
    ensures ChangeState(c, env, j, SecuritySpawning) == Fine(Upwards(c, env, j, 0))
  {
    if !c.RunsSecurity() {
      SkipsSecurity(c, env, j);
      PastSecurity(c, env, j.(state := Security));
    }
  }

  lemma ReasonGiven(j: Job)
    ensures StopEnvironment(j) == Reason(j)
  {
  }

  lemma ToStopping(c: Class, env: Env, j: Job)
    requires !j.blocked
    requires j.state.Starting? || j.state.PreStart? || j.state.Security? || j.state.Spawned?
             || j.state.PostStart? || j.state.Running? || j.state.PreStop?
    ensures ChangeState(c, env, j, Stopping) == Fine(Stopped(j))
  {
  }

  lemma ToTheEnd(c: Class, env: Env, j: Job)
    requires !j.blocked && !j.goal.GoalRespawn? && j.state.PostStop?
    ensures Advance(c, env, j) == Fine(Over(j))
  {
  }

  lemma ArrivesWithoutPostStop(c: Class, env: Env, j: Job)
    requires !j.blocked && !j.goal.GoalRespawn? && j.state.PostStopping? && ProcPostStop !in c.has
    ensures ChangeState(c, env, j, PostStop) == Advance(c, env, j.(state := PostStop))
  {
  }

  lemma SkipsPostStop(c: Class, env: Env, j: Job)
    requires !j.blocked && !j.goal.GoalRespawn? && j.state.Killed? && ProcPostStop !in c.has
    ensures ChangeState(c, env, j, PostStopping) == Advance(c, env, j.(state := PostStop))
  {
    assert Enter(c, env, Killed, j.(state := PostStopping)) == Chosen(j.(state := PostStopping), PostStop);
    ArrivesWithoutPostStop(c, env, j.(state := PostStopping));
  }

  lemma PastKilled(c: Class, env: Env, j: Job)
    requires !j.blocked && !j.goal.GoalRespawn? && j.state.Killed?
    ensures ChangeState(c, env, j, PostStopping) == Fine(Downwards(c, env, j))
  {
    if ProcPostStop !in c.has {
      SkipsPostStop(c, env, j);
      ToTheEnd(c, env, j.(state := PostStop));
    }
  }

  lemma KillsMain(c: Class, env: Env, j: Job)
    requires CanSetTimer(c) && CanLeave(c, j) && j.state.Stopping? && ProcMain in c.has && j.Alive(ProcMain)
    ensures ChangeState(c, env, j, Killed) == Fine(MovedOn(c, env, j))
  {
  }

  lemma PassesKilled(c: Class, env: Env, j: Job)
    requires CanLeave(c, j) && j.state.Stopping? && !(ProcMain in c.has && j.Alive(ProcMain))
    ensures ChangeState(c, env, j, Killed) == ChangeState(c, env, j.(state := Killed), PostStopping)
  {
  }

  lemma PastStopping(c: Class, env: Env, j: Job)
    requires CanSetTimer(c) && CanLeave(c, j) && j.state.Stopping?
    ensures ChangeState(c, env, j, Killed) == Fine(MovedOn(c, env, j))
  {
    if ProcMain in c.has && j.Alive(ProcMain) {
      KillsMain(c, env, j);
    } else {
      PassesKilled(c, env, j);
      PastKilled(c, env, j.(state := Killed));
    }
  }

  lemma PastRunning(c: Class, env: Env, j: Job)
    requires CanLeave(c, j) && j.state.Running?
    ensures Advance(c, env, j) == Fine(MovedOn(c, env, j))
  {
    if j.goal.GoalStop? && j.Alive(ProcMain) {
      if ProcPreStop !in c.has { ToStopping(c, env, j.(state := PreStop)); }
    } else {
      ToStopping(c, env, j);
    }
  }

  /** Going on, state by state, amounts to that. */
  lemma AdvanceMeans(c: Class, env: Env, j: Job)
    requires CanLeave(c, j) && (j.state.Stopping? ==> CanSetTimer(c))
    ensures Advance(c, env, j) == Fine(MovedOn(c, env, j))
  {
    match j.state
    case Starting => if j.goal == GoalStart { PastStarting(c, env, j); } else { ToStopping(c, env, j); }
    case Security => if j.goal == GoalStart { PastSecurity(c, env, j); } else { ToStopping(c, env, j); }
    case PreStart => if j.goal == GoalStart { PastPreStart(c, env, j); } else { ToStopping(c, env, j); }
    case Spawned => if j.goal == GoalStart { PastSpawned(c, env, j); } else { ToStopping(c, env, j); }
    case PostStart => if j.goal == GoalStart { ToRunning(c, env, j); } else { LeavesScript(c, env, j); }
    case PreStop => if j.goal != GoalStart { LeavesScript(c, env, j); }
    case Running => PastRunning(c, env, j);
    case Stopping => PastStopping(c, env, j);
    case Killed => PastKilled(c, env, j);
    case PostStop => ToTheEnd(c, env, j);
    case _ =>
  }

  lemma LeavesScript(c: Class, env: Env, j: Job)
    requires CanLeave(c, j) && (j.state.PostStart? || j.state.PreStop?) && j.goal != GoalStart
    ensures Advance(c, env, j) == Fine(MovedOn(c, env, j))
  {
    ToStopping(c, env, if j.goal == GoalRespawn then j.(goal := GoalStart) else j);
  }

  // ----- every step -----

  /** Process `p` is gone, and so is the timer that was to kill it. */
  ghost function Gone(j: Job, p: Process): Job {
    var procs := j.procs.Set(p, Proc(0, j.procs.Get(p).data, false));
    j.(procs := procs, timer := false, killProcess := None)
  }

  /** The first failure is kept, and the holds are released as failed. */
  ghost function Marked(j: Job, p: Option<Process>, status: int): Job {
    if j.failed then j
    else j.(failed := true, failedProcess := p, exitStatus := status, outbox := j.outbox + [Finishes(true)])
  }

  ghost predicate ScriptRuns(j: Job) {
    j.state == PostStart || j.state == PreStop
  }

  /** Main ended and the job is to stop; a post-start or pre-stop script is waited for. */
  ghost function Ended(c: Class, env: Env, j: Job): Job {
    if ScriptRuns(j) then j.(goal := GoalStop) else MovedOn(c, env, j.(goal := GoalStop))
  }

  /** The respawn counted: in the window that is open, or as the first of a new one. */
  ghost function Counted(c: Class, now: int, j: Job): Job {
    if c.respawnLimit == 0 || c.respawnInterval == 0 then j
    else if now - j.respawnTime >= c.respawnInterval then j.(respawnTime := now, respawnCount := 1)
    else j.(respawnCount := j.respawnCount + 1)
  }

  ghost predicate RunsAway(c: Class, now: int, j: Job) {
    && c.respawnLimit > 0 && c.respawnInterval > 0
    && now - j.respawnTime < c.respawnInterval && j.respawnCount >= c.respawnLimit
  }

  /** Whether the end of main was not what was asked for: the job was to stay up, and
      it was neither a task that succeeded nor an end listed as normal. */
  ghost predicate Abnormal(c: Class, j: Job, status: int) {
    j.goal == GoalStart && status !in c.normalExit && (status != 0 || (c.respawn && !c.task))
  }

  /** Main ended by itself or by a signal; `j` is the job without it. */
  ghost function MainGoneFrom(c: Class, env: Env, j: Job, status: int): Job {
    if j.state == Stopping then j
    else if j.state == Killed then Downwards(c, env, j)
    else if !Abnormal(c, j, status) then Ended(c, env, j)
    else if !c.respawn || c.respawnDisabled then Ended(c, env, Marked(j, Some(ProcMain), status))
    else if RunsAway(c, env.now, j) then Ended(c, env, Marked(Counted(c, env.now, j), None, 0))
    else if ScriptRuns(j) then Counted(c, env.now, j).(goal := GoalRespawn)
    else MovedOn(c, env, Counted(c, env.now, j))
  }

  /** A process ended with a status: a pre-start or post-stop script must succeed, and
      how the security, post-start and pre-stop processes end does not matter. */
  ghost function GoneFrom(c: Class, env: Env, j: Job, p: Process, status: int): Job {
    if p == ProcMain then MainGoneFrom(c, env, j, status)
    else if (p == ProcPreStart || p == ProcPostStop) && status != 0
    then MovedOn(c, env, Marked(j, Some(p), status).(goal := GoalStop))
    else MovedOn(c, env, j)
  }

  lemma MovesOn(c: Class, env: Env, j: Job)
    requires CanLeave(c, j) && !j.state.Stopping?
    ensures Concluded(c, env, j, false, true) == Fine(MovedOn(c, env, j))
  {
    AdvanceMeans(c, env, j);
  }

  lemma StopsAndMovesOn(c: Class, env: Env, j: Job)
    requires CanLeave(c, j) && !j.state.Stopping? && (j.state.Running? ==> j.goal.GoalStart?)
    ensures Concluded(c, env, j, true, true) == Fine(MovedOn(c, env, j.(goal := GoalStop)))
  {
    AdvanceMeans(c, env, j.(goal := GoalStop));
  }

  lemma OtherVerdict(c: Class, env: Env, j: Job, p: Process, status: int)
    requires HomeOf(p, j.state) && p != ProcMain
    ensures
      var bad := (p == ProcPreStart || p == ProcPostStop) && status != 0;
      TerminatedVerdict(c, env, j, p, status) == Verdict(j, bad, bad, true) && !SpawningState(j.state)
  {
  }

  lemma AtHome(c: Class, j: Job, p: Process)
    requires AtRest(c, j) && j.Alive(p) && p != ProcMain
    ensures HomeOf(p, j.state)
  {
  }

  /** What becomes of a job once the switch has decided. */
  lemma Judged(c: Class, env: Env, j: Job, p: Process, status: int, v: Verdict)
    requires !SpawningState(j.state) && v == TerminatedVerdict(c, env, j, p, status) && v.Verdict?
    ensures
      var k := Reaped(v.job, p, false);
      Terminated(c, env, j, p, status, false)
      == Concluded(c, env, if v.failed then Marked(k, Some(p), status) else k, v.stop, v.advance)
  {
    assert Failed(Reaped(v.job, p, false), Some(p), status) == Marked(Reaped(v.job, p, false), Some(p), status);
  }

  lemma OtherJudged(c: Class, env: Env, j: Job, p: Process, status: int)
    requires HomeOf(p, j.state) && p != ProcMain && Reaped(Decide(j, p), p, false) == Gone(j, p)
    ensures
      var k := Gone(j, p);
      var bad := (p == ProcPreStart || p == ProcPostStop) && status != 0;
      Next(c, env, j, Died(p, status))
      == Concluded(c, env, if bad then Marked(k, Some(p), status) else k, bad, true)
  {
    var k := Decide(j, p);
    assert k.state == j.state;
    OtherVerdict(c, env, k, p, status);
    Judged(c, env, k, p, status, TerminatedVerdict(c, env, k, p, status));
  }

  lemma GoneCanLeave(c: Class, j: Job, p: Process, status: int)
    requires Sound(c, j) && j.Alive(p) && p != ProcMain
    ensures CanLeave(c, Gone(j, p)) && CanLeave(c, Marked(Gone(j, p), Some(p), status))
    ensures !j.state.Running? && !j.state.Stopping?
  {
    DecideSafe(c, j, p);
    OtherGone(c, Decide(j, p), p);
    ReapedIsGone(c, j, p);
  }

  lemma OtherDied(c: Class, env: Env, j: Job, p: Process, status: int)
    requires Sound(c, j) && j.Alive(p) && p != ProcMain
    ensures Next(c, env, j, Died(p, status)) == Fine(GoneFrom(c, env, Gone(j, p), p, status))
  {
    AtHome(c, j, p);
    ReapedIsGone(c, j, p);
    OtherJudged(c, env, j, p, status);
    GoneCanLeave(c, j, p, status);
    if (p == ProcPreStart || p == ProcPostStop) && status != 0 {
      StopsAndMovesOn(c, env, Marked(Gone(j, p), Some(p), status));
    } else {
      MovesOn(c, env, Gone(j, p));
    }
  }

  lemma ReapedIsGone(c: Class, j: Job, p: Process)
    requires AtRest(c, j)
    ensures Reaped(Decide(j, p), p, false) == Gone(j, p)
  {
  }

  lemma MainJudged(c: Class, env: Env, j: Job, status: int)
    requires AtRest(c, j) && j.Alive(ProcMain)
    ensures
      var v := MainVerdict(c, env, Decide(j, ProcMain), status);
      && v.Verdict?
      && var k := Reaped(v.job, ProcMain, false);
         Next(c, env, j, Died(ProcMain, status))
         == Concluded(c, env, if v.failed then Marked(k, Some(ProcMain), status) else k, v.stop, v.advance)
  {
    var k := Decide(j, ProcMain);
    assert k.state == j.state && MainVerdict(c, env, k, status).Verdict?;
    Judged(c, env, k, ProcMain, status, MainVerdict(c, env, k, status));
  }

  /** What the switch decides about main, case by case. */
  lemma MainCases(c: Class, env: Env, j: Job, status: int)
    requires AtRest(c, j) && j.Alive(ProcMain)
    ensures
      var k := Counted(c, env.now, j);
      MainVerdict(c, env, j, status) ==
      if j.state == Stopping then Verdict(j, false, false, false)
      else if j.state == Killed then Verdict(j, false, false, true)
      else if !Abnormal(c, j, status) then Verdict(j, false, true, !ScriptRuns(j))
      else if !c.respawn || c.respawnDisabled then Verdict(j, true, true, !ScriptRuns(j))
      else if RunsAway(c, env.now, j) then Verdict(Marked(k, None, 0), false, true, !ScriptRuns(j))
      else if ScriptRuns(j) then Verdict(k.(goal := GoalRespawn), false, false, false)
      else Verdict(k, false, false, true)
  {
  }

  lemma MainReapedIsGone(c: Class, now: int, j: Job)
    requires AtRest(c, j)
    ensures
      var k := Decide(j, ProcMain);
      && Reaped(k, ProcMain, false) == Gone(j, ProcMain)
      && Reaped(Counted(c, now, k), ProcMain, false) == Counted(c, now, Gone(j, ProcMain))
      && Reaped(Counted(c, now, k).(goal := GoalRespawn), ProcMain, false)
         == Counted(c, now, Gone(j, ProcMain)).(goal := GoalRespawn)
      && Reaped(Marked(Counted(c, now, k), None, 0), ProcMain, false)
         == Marked(Counted(c, now, Gone(j, ProcMain)), None, 0)
  {
  }

  lemma Ending(c: Class, env: Env, j: Job)
    requires !j.state.Stopping? && (!ScriptRuns(j) ==> CanLeave(c, j)) && (j.state.Running? ==> j.goal.GoalStart?)
    ensures Concluded(c, env, j, true, !ScriptRuns(j)) == Fine(Ended(c, env, j))
  {
    if !ScriptRuns(j) { StopsAndMovesOn(c, env, j); }
  }

  lemma MainLeaves(c: Class, now: int, j: Job)
    requires Sound(c, j) && j.Alive(ProcMain)
    ensures
      var k := Gone(j, ProcMain);
      && (!ScriptRuns(k) && !k.state.Stopping? ==>
            CanLeave(c, k) && CanLeave(c, Counted(c, now, k)) && CanLeave(c, Marked(Counted(c, now, k), None, 0)))
      && (k.state.Running? ==> k.goal.GoalStart?)
  {
    DecideSafe(c, j, ProcMain);
    MainGone(c, Decide(j, ProcMain));
    MainReapedIsGone(c, now, j);
  }

  lemma MainConcludes(c: Class, env: Env, j: Job, status: int)
    requires j.state.Running? ==> j.goal.GoalStart?
    requires !ScriptRuns(j) && !j.state.Stopping? ==>
      CanLeave(c, j) && CanLeave(c, Counted(c, env.now, j)) && CanLeave(c, Marked(Counted(c, env.now, j), None, 0))
    ensures
      var k := Counted(c, env.now, j);
      Fine(MainGoneFrom(c, env, j, status)) ==
      if j.state == Stopping then Concluded(c, env, j, false, false)
      else if j.state == Killed then Concluded(c, env, j, false, true)
      else if !Abnormal(c, j, status) then Concluded(c, env, j, true, !ScriptRuns(j))
      else if !c.respawn || c.respawnDisabled then
        Concluded(c, env, Marked(j, Some(ProcMain), status), true, !ScriptRuns(j))
      else if RunsAway(c, env.now, j) then Concluded(c, env, Marked(k, None, 0), true, !ScriptRuns(j))
      else if ScriptRuns(j) then Concluded(c, env, k.(goal := GoalRespawn), false, false)
      else Concluded(c, env, k, false, true)
  {
    if j.state == Stopping {
    } else if j.state == Killed {
      MovesOn(c, env, j);
    } else if !Abnormal(c, j, status) {
      Ending(c, env, j);
    } else if !c.respawn || c.respawnDisabled {
      Ending(c, env, Marked(j, Some(ProcMain), status));
    } else if RunsAway(c, env.now, j) {
      Ending(c, env, Marked(Counted(c, env.now, j), None, 0));
    } else if !ScriptRuns(j) {
      MovesOn(c, env, Counted(c, env.now, j));
    }
  }

  lemma MainDied(c: Class, env: Env, j: Job, status: int)
    requires Sound(c, j) && j.Alive(ProcMain)
    ensures Next(c, env, j, Died(ProcMain, status)) == Fine(MainGoneFrom(c, env, Gone(j, ProcMain), status))
  {
    var k := Gone(j, ProcMain);
    var d := Decide(j, ProcMain);
    DecideSafe(c, j, ProcMain);
    MainJudged(c, env, j, status);
    MainCases(c, env, d, status);
    MainReapedIsGone(c, env.now, j);
    MainLeaves(c, env.now, j);
    SameQuestions(c, env.now, j, status);
    MainConcludes(c, env, k, status);
  }

  lemma SameQuestions(c: Class, now: int, j: Job, status: int)
    ensures
      var k, d := Gone(j, ProcMain), Decide(j, ProcMain);
      && Abnormal(c, d, status) == Abnormal(c, k, status) && RunsAway(c, now, d) == RunsAway(c, now, k)
      && ScriptRuns(d) == ScriptRuns(k) && d.state == k.state == j.state
  {
  }

  /** The goal to start: a job that waits begins. */
  ghost function Wished(j: Job): Job {
    var k := j.(goal := GoalStart);
    if j.goal != GoalStart && j.state == Waiting then Afresh(k) else k
  }

  /** The goal to stop: a job that runs is brought down. */
  ghost function Unwished(c: Class, env: Env, j: Job): Job {
    var k := j.(goal := GoalStop);
    if j.goal != GoalStop && j.state == Running then MovedOn(c, env, k) else k
  }

  /** Earlier requests are answered. */
  ghost function Answered(j: Job): Job {
    j.(outbox := j.outbox + [Finishes(false)])
  }

  /** The setup of process `p` has failed; `j` is the job without it.  Without its
      security, pre-start, main or post-stop process the job fails and is stopped, and
      only the security process is not waited for. */
  ghost function FailedSetup(c: Class, env: Env, j: Job, p: Process): Job {
    if p == ProcPostStart || p == ProcPreStop then MovedOn(c, env, j)
    else
      var k := Marked(j, Some(p), -1).(goal := GoalStop);
      if p == ProcSecurity || j.blocked then k else MovedOn(c, env, k)
  }

  ghost predicate BecomesReady(j: Job, p: Process) {
    p == ProcMain && j.state == Spawned
  }

  /** The child of a traced main process has stopped to be traced.  The first fork of a
      forking main process and the second of a daemon make it ready. */
  ghost function Followed(c: Class, env: Env, j: Job, p: Process): Job {
    if !BecomesReady(j, p) then j
    else if c.expects == ExpectFork || j.traceForks > 0 then
      MovedOn(c, env, j.(traceForks := j.traceForks + 1, traceState := TraceNone))
    else j.(traceForks := j.traceForks + 1, traceState := if env.optionsOk then TraceNormal else TraceNewChild)
  }

  ghost function SettledSetup(j: Job, p: Process): Job {
    var proc := j.procs.Get(p);
    var data := if proc.data.Data? then Data(proc.data.status, false) else NoData;
    j.(procs := j.procs.Set(p, Proc(proc.pid, data, false)))
  }

  ghost function Without(j: Job, p: Process): Job {
    j.(procs := j.procs.Set(p, j.procs.Get(p).(pid := 0)))
  }

  /** The forked child takes the place of process `p`. */
  ghost function Adopted(j: Job, p: Process, pid: Pid): Job {
    j.(procs := j.procs.Set(p, Proc(pid, j.procs.Get(p).data, false)), traceState := TraceNewChild)
  }

  /** What a step makes of a job at rest. */
  ghost function Sequel(c: Class, env: Env, j: Job, s: Step): Job {
    match s
    case StartCommand => if j.goal == GoalStart then j else Wished(Answered(j))
    case StopCommand => if j.goal == GoalStop then j else Unwished(c, env, Answered(j))
    case RestartCommand => if j.goal == GoalStop then j else Unwished(c, env, Answered(j)).(goal := GoalStart)
    case BlockerFinished => MovedOn(c, env, j.(blocked := false))
    case SetupDone(p) =>
      var proc, k := j.procs.Get(p), SettledSetup(j, p);
      if proc.data.Data? && proc.data.valid && c.expects == ExpectNone && BecomesReady(j, p)
      then MovedOn(c, env, k) else k
    case SetupFailed(p) =>
      FailedSetup(c, env, Without(SettledSetup(j, p), p), p)
    case Died(p, status) => GoneFrom(c, env, Gone(j, p), p, status)
    case SigStopped(p) => if c.expects == ExpectStop && BecomesReady(j, p) then MovedOn(c, env, j) else j
    case Trap(p, signal) =>
      if j.traceState == TraceNew && signal == TrapSignal then
        if BecomesReady(j, p) && env.optionsOk then j.(traceState := TraceNormal) else j
      else if j.traceState == TraceNewChild && signal == StopSignal then Followed(c, env, j, p)
      else j
    case Forked(p) =>
      var proc := j.procs.Get(p);
      var k := j.(procs := j.procs.Set(p, Proc(proc.pid, proc.data, false)));
      if !BecomesReady(j, p) || j.traceState != TraceNormal || env.child.None? then k
      else if env.attached then Followed(c, env, Adopted(j, p, env.child.value), p)
      else Adopted(j, p, env.child.value)
    case Execed(p) =>
      var proc := j.procs.Get(p);
      var k := j.(procs := j.procs.Set(p, Proc(proc.pid, proc.data, false)));
      if BecomesReady(j, p) && j.traceState == TraceNormal && j.traceForks > 0
      then MovedOn(c, env, k.(traceState := TraceNone)) else k
    case KillTimerFires =>
      j.(timer := false, killProcess := None, outbox := j.outbox + [Signals(ProcMain, true)])
  }

  lemma WishMeans(c: Class, env: Env, j: Job)
    requires AtRest(c, j)
    ensures ChangeGoal(c, env, j, GoalStart) == Fine(Wished(j))
  {
  }

  lemma UnwishMeans(c: Class, env: Env, j: Job)
    requires AtRest(c, j) && !j.freed
    ensures ChangeGoal(c, env, j, GoalStop) == Fine(Unwished(c, env, j))
  {
    if j.state == Running && j.goal != GoalStop { PastRunning(c, env, j.(goal := GoalStop)); }
  }

  lemma CommandMeans(c: Class, env: Env, j: Job, s: Step)
    requires AtRest(c, j) && !j.freed && (s.StartCommand? || s.StopCommand? || s.RestartCommand?)
    ensures Next(c, env, j, s) == Fine(Sequel(c, env, j, s))
  {
    var k := Answered(j);
    assert k == Finished(j, false) && AtRest(c, k);
    WishMeans(c, env, k);
    UnwishMeans(c, env, k);
    if s.RestartCommand? && j.goal != GoalStop {
      var m := Unwished(c, env, k);
      assert m.goal == GoalStop && !m.state.Waiting?;
    }
  }

  lemma SettledIs(j: Job, p: Process)
    requires Awaited(j.procs.Get(p))
    ensures
      var d := Data(j.procs.Get(p).data.status, false);
      SettledSetup(j, p) == Decide(j, p).WithData(p, d) == Decide(j, p).WithPid(p, j.procs.Get(p).pid).WithData(p, d)
  {
  }

  lemma DoneActs(c: Class, env: Env, j: Job, p: Process)
    requires CanSetTimer(c) && Awaited(j.procs.Get(p)) && !SpawningState(j.state)
    requires var k := SettledSetup(j, p); k.state == j.state && (BecomesReady(j, p) ==> CanLeave(c, k))
    ensures
      var k := SettledSetup(j, p);
      SetupComplete(c, env, k, p, j.procs.Get(p).data.status)
      == Fine(if c.expects == ExpectNone && BecomesReady(j, p) then MovedOn(c, env, k) else k)
  {
    var k := SettledSetup(j, p);
    if c.expects == ExpectNone && BecomesReady(j, p) {
      AdvanceMeans(c, env, k);
      MovedOnRests(c, env, k);
    }
  }

  lemma DoneIs(c: Class, env: Env, j: Job, p: Process)
    requires CanSetTimer(c) && !SpawningState(j.state) && SettledSetup(j, p).state == j.state
    requires Awaited(j.procs.Get(p)) && BecomesReady(j, p) ==> CanLeave(c, SettledSetup(j, p))
    ensures Next(c, env, j, SetupDone(p)) == Fine(Sequel(c, env, j, SetupDone(p)))
  {
    if Awaited(j.procs.Get(p)) {
      ReaderActs(c, env, j, p);
      DoneActs(c, env, j, p);
    }
  }

  lemma SetupDoneMeans(c: Class, env: Env, j: Job, p: Process)
    requires CanSetTimer(c) && Sound(c, j) && !j.freed
    ensures Next(c, env, j, SetupDone(p)) == Fine(Sequel(c, env, j, SetupDone(p)))
  {
    if Awaited(j.procs.Get(p)) && BecomesReady(j, p) { ReadyLeaves(c, j); }
    DoneIs(c, env, j, p);
  }

  lemma MovedOnRests(c: Class, env: Env, j: Job)
    requires j.state.Spawned?
    ensures !SpawningState(MovedOn(c, env, j).state)
  {
    var s := Upwards(c, env, j, 3).state;
    assert s == PostStart || s == Running;
  }

  lemma ReadyLeaves(c: Class, j: Job)
    requires Sound(c, j) && !j.freed && j.state.Spawned? && Awaited(j.procs.main)
    ensures CanLeave(c, SettledSetup(j, ProcMain))
  {
    SettledIs(j, ProcMain);
    HomeCanGo(c, j, ProcMain);
    DataCanGo(c, Decide(j, ProcMain), ProcMain, Data(j.procs.main.data.status, false));
  }

  lemma StopGoing(c: Class, env: Env, j: Job)
    requires CanSetTimer(c) && CanLeave(c, j.(goal := GoalStop))
    requires j.state.Running? ==> j.goal.GoalStart? && !j.Alive(ProcMain)
    ensures StopAndGo(c, env, j) == Fine(MovedOn(c, env, j.(goal := GoalStop)))
  {
    AdvanceMeans(c, env, j.(goal := GoalStop));
    if j.state.Running? {
      assert ChangeGoal(c, env, j, GoalStop) == Advance(c, env, j.(goal := GoalStop));
      StoppedStays(c, env, Stopped(j.(goal := GoalStop)));
    }
  }

  lemma StoppedStays(c: Class, env: Env, j: Job)
    requires j.blocked && j.state.Stopping? && !j.goal.GoalRespawn?
    ensures Advance(c, env, j) == Fine(j)
  {
  }

  lemma StopWaiting(c: Class, env: Env, j: Job)
    requires j.blocked && j.state.Stopping?
    ensures StopAndGo(c, env, j) == Fine(j.(goal := GoalStop))
  {
    StoppedStays(c, env, j.(goal := GoalStop));
  }

  /** Where the job may be when process `p` turns out not to have been set up. */
  predicate MayFail(c: Class, j: Job, p: Process) {
    var k := j.WithPid(p, 0);
    if j.blocked then j.state.Stopping? && p == ProcMain
    else if p == ProcSecurity then j.state.Security?
    else if p == ProcPostStart || p == ProcPreStop then CanLeave(c, k)
    else CanLeave(c, k.(goal := GoalStop)) && (j.state.Running? ==> j.goal.GoalStart? && p == ProcMain)
  }

  lemma HomeMayFail(c: Class, j: Job, p: Process)
    requires Sound(c, j) && !j.freed && HomeOf(p, j.state) && Awaited(j.procs.Get(p))
    ensures MayFail(c, SettledSetup(j, p), p)
  {
    SettledIs(j, p);
    HomeCanGo(c, j, p);
    var d := Data(j.procs.Get(p).data.status, false);
    DataCanGo(c, Decide(j, p).WithPid(p, 0), p, d);
    assert Decide(j, p).WithPid(p, 0).WithData(p, d) == SettledSetup(j, p).WithPid(p, 0);
  }

  lemma LateMayFail(c: Class, j: Job)
    requires Safe(c) && Sound(c, j) && !j.freed && j.procs.main.undecided && !j.state.Spawned?
    ensures MayFail(c, SettledSetup(j, ProcMain), ProcMain)
  {
    LateGone(c, j);
    UndecidedAwaited(c, j, ProcMain);
    SettledIs(j, ProcMain);
    if j.state.Running? { RunningCanLeave(c, SettledSetup(j, ProcMain).WithPid(ProcMain, 0)); }
  }

  lemma RunningCanLeave(c: Class, j: Job)
    requires AtRest(c, j) && j.state.Running? && !j.Alive(ProcMain) && !j.freed
    ensures CanLeave(c, j.(goal := GoalStop))
  {
  }

  lemma ErrorMeans(c: Class, env: Env, j: Job, p: Process)
    requires CanSetTimer(c) && MayFail(c, j, p)
    ensures ChildErrorHandler(c, env, j, p) == Fine(FailedSetup(c, env, j.WithPid(p, 0), p))
  {
    var k := j.WithPid(p, 0);
    if p == ProcPostStart || p == ProcPreStop {
      AdvanceMeans(c, env, k);
    } else if p != ProcSecurity {
      var m := Marked(k, Some(p), -1);
      assert m == Failed(k, Some(p), -1);
      if j.blocked { StopWaiting(c, env, m); } else { StopGoing(c, env, m); }
    }
  }

  lemma ReaderActs(c: Class, env: Env, j: Job, p: Process)
    requires Awaited(j.procs.Get(p))
    ensures ChildReader(c, env, Decide(j, p), p) == ChildErrorHandler(c, env, SettledSetup(j, p), p)
    ensures CloseHandler(c, env, Decide(j, p), p)
         == SetupComplete(c, env, SettledSetup(j, p), p, j.procs.Get(p).data.status)
  {
    SettledIs(j, p);
    assert Decide(j, p).procs.Get(p).data == j.procs.Get(p).data;
  }

  lemma FailureActs(c: Class, env: Env, j: Job, p: Process)
    requires CanSetTimer(c) && Awaited(j.procs.Get(p)) && MayFail(c, SettledSetup(j, p), p)
    ensures ChildReader(c, env, Decide(j, p), p) == Fine(FailedSetup(c, env, Without(SettledSetup(j, p), p), p))
  {
    ReaderActs(c, env, j, p);
    ErrorMeans(c, env, SettledSetup(j, p), p);
    assert SettledSetup(j, p).WithPid(p, 0) == Without(SettledSetup(j, p), p);
  }

  lemma FailureIs(c: Class, env: Env, j: Job, p: Process)
    requires CanSetTimer(c) && Awaited(j.procs.Get(p)) && MayFail(c, SettledSetup(j, p), p)
    ensures Next(c, env, j, SetupFailed(p)) == Fine(Sequel(c, env, j, SetupFailed(p)))
  {
    FailureActs(c, env, j, p);
  }

  lemma UndecidedMayFail(c: Class, j: Job, p: Process)
    requires Safe(c) && Sound(c, j) && !j.freed && j.procs.Get(p).undecided
    ensures Awaited(j.procs.Get(p)) && MayFail(c, SettledSetup(j, p), p)
  {
    UndecidedAwaited(c, j, p);
    if HomeOf(p, j.state) { HomeMayFail(c, j, p); } else { LateMayFail(c, j); }
  }

  lemma SetupFailedMeans(c: Class, env: Env, j: Job, p: Process)
    requires Safe(c) && Sound(c, j) && !j.freed && j.procs.Get(p).undecided
    ensures Next(c, env, j, SetupFailed(p)) == Fine(Sequel(c, env, j, SetupFailed(p)))
  {
    UndecidedMayFail(c, j, p);
    FailureIs(c, env, j, p);
  }

  lemma UndecidedAwaited(c: Class, j: Job, p: Process)
    requires AtRest(c, j) && j.procs.Get(p).undecided
    ensures Awaited(j.procs.Get(p)) && (HomeOf(p, j.state) || p == ProcMain)
  {
  }

  lemma StopReadies(c: Class, env: Env, j: Job)
    requires CanSetTimer(c) && Sound(c, j) && c.expects == ExpectStop && j.state.Spawned?
    ensures Advance(c, env, j) == Fine(MovedOn(c, env, j))
  {
    StoppedCanGo(c, j);
    AdvanceMeans(c, env, j);
  }

  lemma StoppedMeans(c: Class, env: Env, j: Job, p: Process)
    requires CanSetTimer(c) && Sound(c, j)
    ensures Next(c, env, j, SigStopped(p)) == Fine(Sequel(c, env, j, SigStopped(p)))
  {
    assert !SpawningState(j.state);
    if c.expects == ExpectStop && BecomesReady(j, p) { StopReadies(c, env, j); }
  }

  lemma FollowMeans(c: Class, env: Env, j: Job, p: Process)
    requires CanSetTimer(c) && Sound(c, j) && j.Alive(p) && j.traceState.TraceNewChild?
    ensures TraceChild(c, env, j, p) == Fine(Followed(c, env, j, p))
  {
    if LastFork(c, j, p) {
      LastForkCanGo(c, j, p);
      AdvanceMeans(c, env, Detached(j));
    }
  }

  lemma TrapMeans(c: Class, env: Env, j: Job, p: Process, signal: Trap)
    requires CanSetTimer(c) && Sound(c, j) && j.Alive(p)
    ensures Next(c, env, j, Trap(p, signal)) == Fine(Sequel(c, env, j, Trap(p, signal)))
  {
    assert !SpawningState(j.state);
    if j.traceState.TraceNewChild? { FollowMeans(c, env, j, p); }
  }

  lemma ForkFollows(c: Class, env: Env, j: Job, pid: Pid)
    requires CanSetTimer(c) && Sound(c, j) && j.Alive(ProcMain) && j.state.Spawned?
    ensures
      var child := Adopted(j, ProcMain, pid);
      && child == Decide(j, ProcMain).WithPid(ProcMain, pid).(traceState := TraceNewChild)
      && TraceChild(c, env, child, ProcMain) == Fine(Followed(c, env, child, ProcMain))
  {
    DecideSafe(c, j, ProcMain);
    FollowMeans(c, env, Adopted(j, ProcMain, pid), ProcMain);
  }

  lemma ForkIs(c: Class, env: Env, j: Job, p: Process)
    requires !SpawningState(j.state)
    requires BecomesReady(j, p) && env.child.Some? ==>
      var child := Adopted(j, ProcMain, env.child.value);
      && child == Decide(j, ProcMain).WithPid(ProcMain, env.child.value).(traceState := TraceNewChild)
      && TraceChild(c, env, child, ProcMain) == Fine(Followed(c, env, child, ProcMain))
    ensures Next(c, env, j, Forked(p)) == Fine(Sequel(c, env, j, Forked(p)))
  {
  }

  lemma ForkMeans(c: Class, env: Env, j: Job, p: Process)
    requires CanSetTimer(c) && Sound(c, j) && j.Alive(p)
    ensures Next(c, env, j, Forked(p)) == Fine(Sequel(c, env, j, Forked(p)))
  {
    if BecomesReady(j, p) && env.child.Some? { ForkFollows(c, env, j, env.child.value); }
    ForkIs(c, env, j, p);
  }

  lemma ExecCanLeave(c: Class, j: Job)
    requires Sound(c, j) && !j.freed && j.state.Spawned?
    ensures CanLeave(c, Decide(j, ProcMain).(traceState := TraceNone))
  {
    HomeCanGo(c, j, ProcMain);
  }

  lemma ExecIs(c: Class, env: Env, j: Job, p: Process)
    requires !SpawningState(j.state)
    requires BecomesReady(j, p) ==>
      var k := Decide(j, ProcMain).(traceState := TraceNone);
      Advance(c, env, k) == Fine(MovedOn(c, env, k))
    ensures Next(c, env, j, Execed(p)) == Fine(Sequel(c, env, j, Execed(p)))
  {
  }

  lemma ExecMeans(c: Class, env: Env, j: Job, p: Process)
    requires CanSetTimer(c) && Sound(c, j) && !j.freed
    ensures Next(c, env, j, Execed(p)) == Fine(Sequel(c, env, j, Execed(p)))
  {
    if BecomesReady(j, p) {
      ExecCanLeave(c, j);
      AdvanceMeans(c, env, Decide(j, p).(traceState := TraceNone));
    }
    ExecIs(c, env, j, p);
  }

  lemma BlockerMeans(c: Class, env: Env, j: Job)
    requires CanSetTimer(c) && AtRest(c, j) && j.blocked && !j.freed
    ensures Next(c, env, j, BlockerFinished) == Fine(Sequel(c, env, j, BlockerFinished))
  {
    AdvanceMeans(c, env, j.(blocked := false));
  }

  lemma TimerMeans(c: Class, env: Env, j: Job)
    requires AtRest(c, j) && j.timer && !j.freed
    ensures Next(c, env, j, KillTimerFires) == Fine(Sequel(c, env, j, KillTimerFires))
  {
  }

  /** Every step that can happen to a sound job of a safe class, by whatever states it
      leads through, has just that sequel. */
  lemma NextMeans(c: Class, env: Env, j: Job, s: Step)
    requires Safe(c) && Sound(c, j) && Enabled(j, s)
    ensures Next(c, env, j, s) == Fine(Sequel(c, env, j, s))
  {
    match s
    case StartCommand => CommandMeans(c, env, j, s);
    case StopCommand => CommandMeans(c, env, j, s);
    case RestartCommand => CommandMeans(c, env, j, s);
    case BlockerFinished => BlockerMeans(c, env, j);
    case SetupDone(p) => SetupDoneMeans(c, env, j, p);
    case SetupFailed(p) => SetupFailedMeans(c, env, j, p);
    case Died(p, status) =>
      if p == ProcMain { MainDied(c, env, j, status); } else { OtherDied(c, env, j, p, status); }
    case SigStopped(p) => StoppedMeans(c, env, j, p);
    case Trap(p, signal) => TrapMeans(c, env, j, p, signal);
    case Forked(p) => ForkMeans(c, env, j, p);
    case Execed(p) => ExecMeans(c, env, j, p);
    case KillTimerFires => TimerMeans(c, env, j);
  }

  // ----- in particular -----

  /** A pre-start script that does not succeed fails the job and stops it, and main is
      not started. */
  lemma PreStartFails(c: Class, env: Env, j: Job, status: int)
    requires Sound(c, j) && j.Alive(ProcPreStart) && !j.freed && status != 0
    ensures
      var o := Next(c, env, j, Died(ProcPreStart, status));
      && o.Fine? && o.job.goal == GoalStop && o.job.state == Stopping && o.job.failed && !o.job.Alive(ProcMain)
      && (!j.failed ==>
            && o.job.failedProcess == Some(ProcPreStart) && o.job.exitStatus == status
            && exists r :: o.job.outbox == j.outbox + [Finishes(true), Emits(StoppingEvent, r)])
  {
    OtherDied(c, env, j, ProcPreStart, status);
    ScriptHome(c, j, ProcPreStart);
    var k := Marked(Gone(j, ProcPreStart), Some(ProcPreStart), status).(goal := GoalStop);
    assert Next(c, env, j, Died(ProcPreStart, status)) == Fine(Stopped(k));
    if !j.failed {
      assert Stopped(k).outbox == j.outbox + [Finishes(true), Emits(StoppingEvent, Reason(k))];
    }
  }

  /** A post-stop script that does not succeed fails the job even if it was to start
      again: its instance goes. */
  lemma PostStopFails(c: Class, env: Env, j: Job, status: int)
    requires Sound(c, j) && j.Alive(ProcPostStop) && !j.freed && status != 0
    ensures
      var o := Next(c, env, j, Died(ProcPostStop, status));
      && o.Fine? && o.job.goal == GoalStop && o.job.state == Waiting && o.job.failed && o.job.freed
      && (!j.failed ==>
            && o.job.failedProcess == Some(ProcPostStop) && o.job.exitStatus == status
            && exists r :: o.job.outbox
                 == j.outbox + [Finishes(true), Emits(StoppedEvent, r), Finishes(false), Frees])
  {
    OtherDied(c, env, j, ProcPostStop, status);
    ScriptHome(c, j, ProcPostStop);
    var k := Marked(Gone(j, ProcPostStop), Some(ProcPostStop), status).(goal := GoalStop);
    assert Next(c, env, j, Died(ProcPostStop, status)) == Fine(Over(k));
    if !j.failed {
      assert Over(k).outbox
          == j.outbox + [Finishes(true), Emits(StoppedEvent, Reason(k)), Finishes(false), Frees];
    }
  }

  /** A script, or a security process, that ends well or whose end does not matter
      neither fails the job nor changes whether it is to be up. */
  lemma ScriptPasses(c: Class, env: Env, j: Job, p: Process, status: int)
    requires Sound(c, j) && j.Alive(p) && !j.freed && p != ProcMain
    requires p == ProcPreStart || p == ProcPostStop ==> status == 0
    ensures
      var o := Next(c, env, j, Died(p, status));
      && o.Fine? && o.job.state != j.state && (o.job.failed ==> j.failed)
      && (o.job.goal == GoalStop <==> j.goal == GoalStop)
  {
    OtherDied(c, env, j, p, status);
    AtHome(c, j, p);
    assert Next(c, env, j, Died(p, status)) == Fine(MovedOn(c, env, Gone(j, p)));
    LeavesHome(c, env, Gone(j, p), p);
  }

  lemma UpwardsRests(c: Class, env: Env, j: Job, done: nat)
    ensures
      var k := Upwards(c, env, j, done);
      && k.goal == j.goal && k.failed == j.failed
      && (k.state == Running || (k.state == Security && done < 1) || (k.state == PreStart && done < 2)
          || (k.state == Spawned && done < 3) || (k.state == PostStart && done < 4))
      && (k.state == Running ==>
            k.outbox == j.outbox + [Emits(StartedEvent, NoResult)] + if c.task then [] else [Finishes(false)])
  {
  }

  lemma LeavesHome(c: Class, env: Env, j: Job, p: Process)
    requires HomeOf(p, j.state) && p != ProcMain
    ensures
      var k := MovedOn(c, env, j);
      k.state != j.state && (k.failed ==> j.failed) && (k.goal == GoalStop <==> j.goal == GoalStop)
  {
    match p
    case ProcSecurity => UpwardsRests(c, env, j, 1);
    case ProcPreStart => UpwardsRests(c, env, j, 2);
    case ProcPostStart => UpwardsRests(c, env, j, 4);
    case _ =>
  }

  /** A main process that ends although it was to stay up, and that the class does not
      respawn, fails the job with its status and stops it. */
  lemma MainFails(c: Class, env: Env, j: Job, status: int)
    requires Sound(c, j) && j.Alive(ProcMain) && !j.freed && !j.failed
    requires j.goal == GoalStart && !j.state.Stopping? && !j.state.Killed?
    requires status !in c.normalExit && status != 0 && !c.respawn
    ensures
      var o := Next(c, env, j, Died(ProcMain, status));
      && o.Fine? && o.job.goal == GoalStop && o.job.failed && !o.job.Alive(ProcMain)
      && o.job.failedProcess == Some(ProcMain) && o.job.exitStatus == status
      && j.outbox + [Finishes(true)] <= o.job.outbox
      && o.job.state == if j.state == PostStart || j.state == PreStop then j.state else Stopping
  {
    MainDied(c, env, j, status);
    MainStates(c, j);
  }

  /** One that ends as it may, or that was not to stay up, stops the job without failure. */
  lemma MainEnds(c: Class, env: Env, j: Job, status: int)
    requires Sound(c, j) && j.Alive(ProcMain) && !j.freed
    requires !j.state.Stopping? && !j.state.Killed?
    requires j.goal != GoalStart || status in c.normalExit || (status == 0 && (c.task || !c.respawn))
    ensures
      var o := Next(c, env, j, Died(ProcMain, status));
      && o.Fine? && o.job.goal == GoalStop && o.job.failed == j.failed && !o.job.Alive(ProcMain)
      && o.job.state == if j.state == PostStart || j.state == PreStop then j.state else Stopping
  {
    MainDied(c, env, j, status);
    MainStates(c, j);
  }

  /** One that the class respawns leaves the job on its way round to another start,
      remembered in the goal while a script runs; respawning too often fails the job
      without naming a process. */
  lemma MainRespawns(c: Class, env: Env, j: Job, status: int)
    requires Sound(c, j) && j.Alive(ProcMain) && !j.freed && !j.failed
    requires j.goal == GoalStart && !j.state.Stopping? && !j.state.Killed?
    requires status !in c.normalExit && (status != 0 || !c.task) && c.respawn && !c.respawnDisabled
    ensures
      var o := Next(c, env, j, Died(ProcMain, status));
      && o.Fine?
      && if RunsAway(c, env.now, j) then
           o.job.goal == GoalStop && o.job.failed && o.job.failedProcess == None
         else
           && !o.job.failed
           && (o.job.goal == if j.state == PostStart || j.state == PreStop then GoalRespawn else GoalStart)
           && (j.state == Running ==> o.job.state == Stopping)
  {
    MainDied(c, env, j, status);
    MainStates(c, j);
  }

  lemma MainStates(c: Class, j: Job)
    requires AtRest(c, j) && j.Alive(ProcMain)
    ensures j.state == Spawned || j.state == PostStart || j.state == Running || j.state == PreStop
         || j.state == Stopping || j.state == Killed
  {
  }

  lemma ScriptHome(c: Class, j: Job, p: Process)
    requires AtRest(c, j) && j.Alive(p) && (p == ProcPreStart || p == ProcPostStop)
    ensures j.state == (if p == ProcPreStart then PreStart else PostStop) && !j.Alive(ProcMain)
  {
  }

  /** How a job in state `s` tells that it has come to RUNNING: a task's requests are
      answered when it stops and not then; those of any other job then, and any job's on
      coming back from a pre-stop script. */
  ghost predicate Tells(c: Class, s: State, k: Job) {
    k.state == Running && s != Running ==>
      && k.outbox != []
      && k.outbox[|k.outbox| - 1]
         == if c.task && s != PreStop then Emits(StartedEvent, NoResult) else Finishes(false)
  }

  lemma MovedOnTells(c: Class, env: Env, j: Job)
    ensures Tells(c, j.state, MovedOn(c, env, j))
  {
    match j.state
    case Starting => UpwardsTells(c, env, j, 0);
    case Security => UpwardsTells(c, env, j, 1);
    case PreStart => UpwardsTells(c, env, j, 2);
    case Spawned => UpwardsTells(c, env, j, 3);
    case PostStart => UpwardsTells(c, env, j, 4);
    case _ =>
  }

  lemma UpwardsTells(c: Class, env: Env, j: Job, done: nat)
    requires j.state != PreStop
    ensures Tells(c, j.state, Upwards(c, env, j, done))
  {
    UpwardsRests(c, env, j, done);
  }

  lemma EndedTells(c: Class, env: Env, j: Job)
    ensures Tells(c, j.state, Ended(c, env, j))
  {
    MovedOnTells(c, env, j.(goal := GoalStop));
  }

  lemma MainDeathTells(c: Class, env: Env, j: Job, status: int)
    ensures Tells(c, j.state, MainGoneFrom(c, env, j, status))
  {
    if j.state != Stopping && j.state != Killed {
      if !Abnormal(c, j, status) {
        EndedTells(c, env, j);
      } else if !c.respawn || c.respawnDisabled {
        EndedTells(c, env, Marked(j, Some(ProcMain), status));
      } else if RunsAway(c, env.now, j) {
        EndedTells(c, env, Marked(Counted(c, env.now, j), None, 0));
      } else {
        MovedOnTells(c, env, Counted(c, env.now, j));
      }
    }
  }

  lemma DeathTells(c: Class, env: Env, j: Job, p: Process, status: int)
    ensures Tells(c, j.state, GoneFrom(c, env, j, p, status))
  {
    MainDeathTells(c, env, j, status);
    MovedOnTells(c, env, j);
    MovedOnTells(c, env, Marked(j, Some(p), status).(goal := GoalStop));
  }

  lemma FailureTells(c: Class, env: Env, j: Job, p: Process)
    ensures Tells(c, j.state, FailedSetup(c, env, j, p))
  {
    MovedOnTells(c, env, j);
    MovedOnTells(c, env, Marked(j, Some(p), -1).(goal := GoalStop));
  }

  lemma ForkTells(c: Class, env: Env, j: Job, p: Process)
    ensures Tells(c, j.state, Followed(c, env, j, p))
  {
    MovedOnTells(c, env, j.(traceForks := j.traceForks + 1, traceState := TraceNone));
  }

  /** Whatever step brings a job to RUNNING. */
  lemma RunningTells(c: Class, env: Env, j: Job, s: Step)
    requires Safe(c) && Sound(c, j) && Enabled(j, s)
    ensures Next(c, env, j, s).Fine? && Tells(c, j.state, Next(c, env, j, s).job)
  {
    NextMeans(c, env, j, s);
    match s
    case BlockerFinished => MovedOnTells(c, env, j.(blocked := false));
    case SetupDone(p) => MovedOnTells(c, env, SettledSetup(j, p));
    case SetupFailed(p) => FailureTells(c, env, Without(SettledSetup(j, p), p), p);
    case Died(p, status) => DeathTells(c, env, Gone(j, p), p, status);
    case SigStopped(p) => MovedOnTells(c, env, j);
    case Trap(p, _) => ForkTells(c, env, j, p);
    case Forked(p) => if env.child.Some? { ForkTells(c, env, Adopted(j, p, env.child.value), p); }
    case Execed(p) => ExecTells(c, env, j, p);
    case _ =>
  }

  lemma ExecTells(c: Class, env: Env, j: Job, p: Process)
    ensures Tells(c, j.state, Sequel(c, env, j, Execed(p)))
  {
    MovedOnTells(c, env, j.(procs := j.procs.Set(p, j.procs.Get(p).(undecided := false)), traceState := TraceNone));
  }

  /** After a restart the job is to be up again, by way of STOPPING. */
  lemma RestartWants(c: Class, env: Env, j: Job)
    requires AtRest(c, j) && !j.freed && j.goal != GoalStop
    ensures
      var o := Next(c, env, j, RestartCommand);
      && o.Fine? && o.job.goal == GoalStart && j.outbox + [Finishes(false)] <= o.job.outbox
      && (j.state == Running ==> o.job.state == PreStop || o.job.state == Stopping)
      && (j.state != Running ==> o.job == j.(goal := GoalStart, outbox := j.outbox + [Finishes(false)]))
  {
    CommandMeans(c, env, j, RestartCommand);
  }

  // ----- and where it does not -----

  /** What the assertions of the loop ask of the goal and of the state left, for each state
      entered. */
  ghost predicate Permitted(goal: Goal, from: State, target: State) {
    match target
    case Starting => goal == GoalStart && (from == Waiting || from == PostStop)
    case SecuritySpawning => goal == GoalStart && from == Starting
    case Security => goal == GoalStart && from == SecuritySpawning
    case PreStarting => goal == GoalStart && from == Security
    case PreStart => goal == GoalStart && from == PreStarting
    case Spawning => goal == GoalStart && from == PreStart
    case Spawned => goal == GoalStart && from == Spawning
    case PostStarting => goal == GoalStart && from == Spawned
    case PostStart => goal == GoalStart && from == PostStarting
    case Running => goal == GoalStart && (from == PostStart || from == PreStop)
    case PreStopping => goal == GoalStop && from == Running
    case PreStop => goal == GoalStop && from == PreStopping
    case Stopping =>
      from == Starting || from == PreStarting || from == PreStart || from == Security || from == Spawned
      || from == PostStart || from == Running || from == PreStop
    case Killed => from == Stopping
    case PostStopping => from == Killed
    case PostStop => from == PostStopping
    case Waiting => goal == GoalStop && (from == PostStop || from == Starting)
  }

  /** Any other change of state fails an assertion, unless the job waits for an event. */
  lemma ForbiddenCrashes(c: Class, env: Env, j: Job, target: State)
    requires !j.blocked && j.state != target && !Permitted(j.goal, j.state, target)
    ensures ChangeState(c, env, j, target) == Crash
  {
  }

  /** The states in which each process may end. */
  ghost predicate MayEnd(p: Process, s: State) {
    match p
    case ProcMain =>
      s == Running || s == Spawned || s == Killed || s == Stopping || s == PostStart || s == PreStop
    case ProcSecurity => s == Security
    case ProcPreStart => s == PreStart
    case ProcPostStart => s == PostStart || s == Running
    case ProcPreStop => s == PreStop
    case ProcPostStop => s == PostStop
  }

  /** A process that ends in any other state of rest fails an assertion. */
  lemma MisplacedDeathCrashes(c: Class, env: Env, j: Job, p: Process, status: int)
    requires !SpawningState(j.state) && !MayEnd(p, j.state)
    ensures Terminated(c, env, j, p, status, false) == Crash
  {
  }
}
