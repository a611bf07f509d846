/** The loop of job_change_state: from every transition it may be asked to make
    it comes to rest, with each process alive only where it belongs, and none of
    its assertions fails. */
module JobSafety {
  import opened Options
  import opened JobMachine

  predicate Awaited(proc: Proc) {
    proc.data.Data? && proc.data.valid
  }

  /** The state in which the job waits for that process. */
  predicate HomeOf(p: Process, s: State) {
    match p
    case ProcMain => s.Spawned?
    case ProcPreStart => s.PreStart?
    case ProcPostStart => s.PostStart?
    case ProcPreStop => s.PreStop?
    case ProcPostStop => s.PostStop?
    case ProcSecurity => s.Security?
  }

  /** The states in which each process may be alive. */
  predicate AliveIn(p: Process, s: State) {
    HomeOf(p, s) ||
    (p.ProcMain? && (s.PostStart? || s.Running? || s.PreStop? || s.Stopping? || s.Killed?))
  }

  /** A main process that stops itself when it is ready moves the job on even if it was
      stopped before its setup was complete, so that the setup may still fail later. */
  predicate MayReportLate(c: Class, p: Process) {
    p.ProcMain? && c.expects.ExpectStop?
  }

  /** What holds of process `p` of a job at rest in state `s`. */
  predicate ProcessOk(c: Class, proc: Proc, s: State, p: Process) {
    && (proc.pid > 0 ==> AliveIn(p, s) && Wanted(c, p))
    && (HomeOf(p, s) && !p.ProcSecurity? ==> proc.pid > 0)
    && (proc.undecided ==> proc.pid > 0 && Awaited(proc) && (HomeOf(p, s) || MayReportLate(c, p)))
  }

  predicate ProcessesOk(c: Class, procs: Slots<Proc>, s: State) {
    && ProcessOk(c, procs.main, s, ProcMain) && ProcessOk(c, procs.preStart, s, ProcPreStart)
    && ProcessOk(c, procs.postStart, s, ProcPostStart) && ProcessOk(c, procs.preStop, s, ProcPreStop)
    && ProcessOk(c, procs.postStop, s, ProcPostStop) && ProcessOk(c, procs.security, s, ProcSecurity)
  }

  predicate Wanted(c: Class, p: Process) {
    p in c.has && (p.ProcSecurity? ==> c.apparmor)
  }

  /** What holds of a job whenever init is back in its main loop. */
  predicate AtRest(c: Class, j: Job) {
    && !SpawningState(j.state)
    && (j.freed ==> j.state.Waiting?)
    && (j.blocked <==> j.state.Starting? || j.state.Stopping?)
    && (j.goal.GoalRespawn? ==> j.state.PostStart? || j.state.PreStop?)
    && (j.state.Running? ==> j.goal.GoalStart?)
    && (j.state.Waiting? ==> j.goal.GoalStop?)
    && (j.state.Security? ==> c.RunsSecurity())
    && ProcessesOk(c, j.procs, j.state)
    && (j.state.Killed? ==> j.Alive(ProcMain))
    && (j.timer ==> j.state.Killed? || j.freed)
    && j.killProcess == (if j.timer then Some(ProcMain) else None)
    && TraceOk(j)
  }

  /** The child of a traced main process is followed only once the setup is complete. */
  predicate TraceOk(j: Job) {
    j.traceState.TraceNewChild? ==> !j.procs.main.undecided
  }

  /** A kill timer of no time at all is the one configuration that trips an
      assertion, and only a job with a main process is ever killed. */
  predicate CanSetTimer(c: Class) {
    c.killTimeout != 0 || ProcMain !in c.has
  }

  /** A late report of a failed setup ends main, but no other process and no timer. */
  predicate LateReportTrips(c: Class) {
    ProcMain in c.has && c.expects.ExpectStop?
    && (ProcPostStart in c.has || ProcPreStop in c.has || ProcPostStop in c.has)
  }

  /** The classes for which no assertion fails; see JobKill. */
  predicate Safe(c: Class) {
    CanSetTimer(c) && !LateReportTrips(c)
  }

  // ----- the loop of job_change_state -----

  /** Process `p` while the loop is about to enter `target`: only main survives
      from one state to the next, and another one only into the state it was
      spawned for. */
  predicate TransitOk(c: Class, proc: Proc, target: State, p: Process) {
    && (proc.pid > 0 ==> Wanted(c, p) && (HomeOf(p, target) || (p.ProcMain? && MainMaySurvive(target))))
    && (HomeOf(p, target) && Wanted(c, p) ==> proc.pid > 0)
    && (proc.undecided ==> proc.pid > 0 && Awaited(proc) && (HomeOf(p, target) || MayReportLate(c, p)))
  }

  predicate TransitsOk(c: Class, procs: Slots<Proc>, target: State) {
    && TransitOk(c, procs.main, target, ProcMain) && TransitOk(c, procs.preStart, target, ProcPreStart)
    && TransitOk(c, procs.postStart, target, ProcPostStart) && TransitOk(c, procs.preStop, target, ProcPreStop)
    && TransitOk(c, procs.postStop, target, ProcPostStop) && TransitOk(c, procs.security, target, ProcSecurity)
  }

  predicate MainMaySurvive(target: State) {
    target.PostStarting? || target.PostStart? || target.Running? || target.PreStopping? ||
    target.PreStop? || target.Stopping? || target.Killed?
  }

  predicate Legal(j: Job, target: State) {
    match target
    case Starting => j.goal.GoalStart? && (j.state.Waiting? || j.state.PostStop?)
    case SecuritySpawning => j.goal.GoalStart? && j.state.Starting?
    case Security => j.goal.GoalStart? && j.state.SecuritySpawning?
    case PreStarting => j.goal.GoalStart? && j.state.Security?
    case PreStart => j.goal.GoalStart? && j.state.PreStarting?
    case Spawning => j.goal.GoalStart? && j.state.PreStart?
    case Spawned => j.goal.GoalStart? && j.state.Spawning?
    case PostStarting => j.goal.GoalStart? && j.state.Spawned?
    case PostStart => j.goal.GoalStart? && j.state.PostStarting?
    case Running => j.goal.GoalStart? && (j.state.PostStart? || j.state.PreStop?)
    case PreStopping => j.goal.GoalStop? && j.state.Running?
    case PreStop => j.goal.GoalStop? && j.state.PreStopping?
    case Stopping =>
      j.state.Starting? || j.state.PreStart? || j.state.Security? || j.state.Spawned?
      || j.state.PostStart? || j.state.Running? || j.state.PreStop?
    case Killed => j.state.Stopping?
    case PostStopping => j.state.Killed?
    case PostStop => j.state.PostStopping?
    case Waiting => j.goal.GoalStop? && j.state.PostStop?
  }

  /** The transitions that a kill timer may be left pending over, until the instance and
      the timer with it are freed: main was to be killed when its setup failed. */
  predicate Leftover(j: Job, target: State) {
    j.goal.GoalStop? && (target.PostStopping? || target.PostStop? || target.Waiting?)
  }

  /** The transitions the loop may be asked to make. */
  predicate Ready(c: Class, j: Job, target: State) {
    && !j.blocked && !j.freed && !j.goal.GoalRespawn? && TraceOk(j)
    && j.killProcess == (if j.timer then Some(ProcMain) else None)
    && (j.timer ==> Leftover(j, target) && ProcPostStop !in c.has)
    && Legal(j, target)
    && TransitsOk(c, j.procs, target)
  }

  ghost predicate KeepsReady(c: Class, env: Env, j: Job, target: State) {
    var r := Enter(c, env, j.state, j.(state := target));
    r.Chosen? && if r.next == target then AtRest(c, r.job) else Ready(c, r.job, r.next)
  }

  lemma EnterSecuritySpawning(c: Class, env: Env, j: Job)
    requires Ready(c, j, SecuritySpawning)
    ensures KeepsReady(c, env, j, SecuritySpawning)
  {
  }

  lemma EnterPreStarting(c: Class, env: Env, j: Job)
    requires Ready(c, j, PreStarting)
    ensures KeepsReady(c, env, j, PreStarting)
  {
  }

  lemma EnterSpawning(c: Class, env: Env, j: Job)
    requires Ready(c, j, Spawning)
    ensures KeepsReady(c, env, j, Spawning)
  {
  }

  lemma EnterPostStarting(c: Class, env: Env, j: Job)
    requires Ready(c, j, PostStarting)
    ensures KeepsReady(c, env, j, PostStarting)
  {
  }

  lemma EnterRestingUp(c: Class, env: Env, j: Job, target: State)
    requires Ready(c, j, target)
    requires target.Security? || target.PreStart? || target.Spawned? || target.PostStart?
    ensures KeepsReady(c, env, j, target)
  {
  }

  lemma EnterPreStopping(c: Class, env: Env, j: Job)
    requires Ready(c, j, PreStopping)
    ensures KeepsReady(c, env, j, PreStopping)
  {
  }

  lemma EnterPostStopping(c: Class, env: Env, j: Job)
    requires Ready(c, j, PostStopping)
    ensures KeepsReady(c, env, j, PostStopping)
  {
  }

  lemma EnterPreStop(c: Class, env: Env, j: Job)
    requires Ready(c, j, PreStop)
    ensures KeepsReady(c, env, j, PreStop)
  {
  }

  lemma EnterPostStop(c: Class, env: Env, j: Job)
    requires Ready(c, j, PostStop)
    ensures KeepsReady(c, env, j, PostStop)
  {
  }

  lemma EnterKilled(c: Class, env: Env, j: Job)
    requires Ready(c, j, Killed) && CanSetTimer(c)
    ensures KeepsReady(c, env, j, Killed)
  {
  }

  lemma EnterEvent(c: Class, env: Env, j: Job, target: State)
    requires Ready(c, j, target) && (target.Starting? || target.Stopping?)
    ensures KeepsReady(c, env, j, target)
  {
  }

  lemma EnterRunning(c: Class, env: Env, j: Job)
    requires Ready(c, j, Running)
    ensures KeepsReady(c, env, j, Running)
  {
  }

  lemma EnterWaiting(c: Class, env: Env, j: Job)
    requires Ready(c, j, Waiting)
    ensures KeepsReady(c, env, j, Waiting)
  {
  }

  /** One round of the loop: it either leaves the job at rest or ready for the next. */
  lemma EnterKeepsReady(c: Class, env: Env, j: Job, target: State)
    requires Ready(c, j, target) && CanSetTimer(c)
    ensures KeepsReady(c, env, j, target)
  {
    match target
    case SecuritySpawning => EnterSecuritySpawning(c, env, j);
    case PreStarting => EnterPreStarting(c, env, j);
    case Spawning => EnterSpawning(c, env, j);
    case PostStarting => EnterPostStarting(c, env, j);
    case Security => EnterRestingUp(c, env, j, target);
    case PreStart => EnterRestingUp(c, env, j, target);
    case Spawned => EnterRestingUp(c, env, j, target);
    case PostStart => EnterRestingUp(c, env, j, target);
    case PreStopping => EnterPreStopping(c, env, j);
    case PostStopping => EnterPostStopping(c, env, j);
    case PreStop => EnterPreStop(c, env, j);
    case PostStop => EnterPostStop(c, env, j);
    case Killed => EnterKilled(c, env, j);
    case Running => EnterRunning(c, env, j);
    case Waiting => EnterWaiting(c, env, j);
    case _ => EnterEvent(c, env, j, target);
  }

  lemma {:induction false} ChangeStateSafe(c: Class, env: Env, j: Job, target: State)
    requires Ready(c, j, target) && CanSetTimer(c)
    ensures ChangeState(c, env, j, target).Fine?
    ensures AtRest(c, ChangeState(c, env, j, target).job)
    decreases Rank(target)
  {
    EnterKeepsReady(c, env, j, target);
    var r := Enter(c, env, j.state, j.(state := target));
    if r.next != target {
      ChangeStateSafe(c, env, r.job, r.next);
    }
  }
}
