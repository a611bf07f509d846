/** The job state machine of init/job.c together with the process handlers of
    init/job_process.c, as functions on values.

    A function that models a C function returns `Crash` where an assertion of
    the C function fails.  What the C code does to the rest of the daemon (emit
    an event, release the events the job blocks, start or signal a process,
    free the instance) is appended to the job's `outbox`, in order; module
    Engine gives those effects their meaning.  Outcomes of system calls are read
    from an `Env`. */
module JobMachine {
  import opened Options

  datatype Goal = GoalStop | GoalStart | GoalRespawn

  datatype State =
    | Waiting | Starting | SecuritySpawning | Security | PreStarting | PreStart
    | Spawning | Spawned | PostStarting | PostStart | Running | PreStopping
    | PreStop | Stopping | Killed | PostStopping | PostStop

  datatype Process =
    | ProcMain | ProcPreStart | ProcPostStart | ProcPreStop | ProcPostStop | ProcSecurity

  /** One value per process of a job: the arrays of PROCESS_LAST entries. */
  datatype Slots<T> = Slots(main: T, preStart: T, postStart: T, preStop: T, postStop: T, security: T) {
    function Get(p: Process): T {
      match p
      case ProcMain => main
      case ProcPreStart => preStart
      case ProcPostStart => postStart
      case ProcPreStop => preStop
      case ProcPostStop => postStop
      case ProcSecurity => security
    }

    function Set(p: Process, v: T): Slots<T> {
      match p
      case ProcMain => this.(main := v)
      case ProcPreStart => this.(preStart := v)
      case ProcPostStart => this.(postStart := v)
      case ProcPreStop => this.(preStop := v)
      case ProcPostStop => this.(postStop := v)
      case ProcSecurity => this.(security := v)
    }
  }

  datatype Expect = ExpectNone | ExpectStop | ExpectDaemon | ExpectFork

  datatype TraceState = TraceNone | TraceNew | TraceNewChild | TraceNormal

  /** The parts of a JobClass the state machine reads; `respawnDisabled` is whether the
      whole daemon has respawning disabled. */
  datatype Class = Class(
    has: set<Process>, apparmor: bool, expects: Expect, task: bool,
    respawn: bool, respawnDisabled: bool, respawnLimit: nat, respawnInterval: nat,
    normalExit: set<int>, killTimeout: nat)
  {
    predicate RunsSecurity() { ProcSecurity in has && apparmor }
  }

  /** job->process_data[p]: absent, or with the status kept for a second call and
      whether a report about the child's setup is still awaited. */
  datatype ProcessData = NoData | Data(status: int, valid: bool)

  datatype StopResult =
    | NoResult
    | ResultOk
    | ResultExit(process: Process, status: int)
    | ResultSignal(process: Process, signal: int)
    | ResultSpawn(process: Process)
    | ResultRespawn

  datatype EventName = StartingEvent | StartedEvent | StoppingEvent | StoppedEvent

  datatype Effect =
    | Emits(name: EventName, result: StopResult)
    | Finishes(failed: bool)
    | Spawns(process: Process)
    | Signals(process: Process, forced: bool)
    | Frees

  /** A process of a job: its pid (zero for none), its process data, and whether
      its child setup may still fail, which no function reads: it is there for the
      environment to consult. */
  datatype Proc = Proc(pid: nat, data: ProcessData, undecided: bool)

  const NO_PROC := Proc(0, NoData, false)

  /** The Job structure, with two fields of the model's own: `freed` once the
      instance is gone, and `outbox`. */
  datatype Job = Job(
    goal: Goal, state: State, blocked: bool,
    procs: Slots<Proc>,
    timer: bool, killProcess: Option<Process>,
    failed: bool, failedProcess: Option<Process>, exitStatus: int,
    respawnTime: int, respawnCount: nat,
    traceForks: nat, traceState: TraceState,
    freed: bool, outbox: seq<Effect>)
  {
    predicate Alive(p: Process) { procs.Get(p).pid > 0 }

    function WithProc(p: Process, proc: Proc): Job { this.(procs := procs.Set(p, proc)) }

    function WithPid(p: Process, pid: nat): Job { WithProc(p, procs.Get(p).(pid := pid)) }

    function WithData(p: Process, data: ProcessData): Job { WithProc(p, procs.Get(p).(data := data)) }

    function Sends(e: Effect): Job { this.(outbox := outbox + [e]) }
  }

  type Pid = n: nat | n > 0 witness 1

  /** The system's answers during one step. */
  datatype Env = Env(
    pid: Process -> Pid,      // the pid fork() returns for each process
    killOk: bool,             // whether the kill signal could be sent
    now: int,                 // the monotonic clock
    child: Option<Pid>,       // PTRACE_GETEVENTMSG: the forked child's pid, if obtained
    attached: bool,           // whether that child already waits to be traced
    optionsOk: bool)          // whether PTRACE_SETOPTIONS succeeds

  datatype Outcome = Crash | Fine(job: Job) {
    predicate IsFailure() { Crash? }
    function PropagateFailure(): Outcome requires Crash? { Crash }
    function Extract(): Job requires Fine? { job }
  }

  datatype Chosen = NoChoice | Chosen(job: Job, next: State)

  function NewJob(): Job {
    Job(GoalStop, Waiting, false, Slots(NO_PROC, NO_PROC, NO_PROC, NO_PROC, NO_PROC, NO_PROC),
        false, None, false, None, 0, 0, 0, 0, TraceNone, false, [])
  }

  // ----- job.c -----

  function Finished(j: Job, failed: bool): Job {
    j.Sends(Finishes(failed))
  }

  function Failed(j: Job, p: Option<Process>, status: int): Job {
    if j.failed then j
    else Finished(j.(failed := true, failedProcess := p, exitStatus := status), true)
  }

  /** The RESULT, PROCESS and EXIT variables of a stopping or stopped event. */
  function StopEnvironment(j: Job): StopResult {
    if !j.failed then ResultOk
    else match j.failedProcess
      case None => ResultRespawn
      case Some(p) =>
        if j.exitStatus == -1 then ResultSpawn(p)
        else if 0 <= j.exitStatus < 0x100 then ResultExit(p, j.exitStatus)
        else ResultSignal(p, j.exitStatus / 0x100)
  }

  function EmitEvent(j: Job): Outcome {
    match j.state
    case Starting => Fine(j.Sends(Emits(StartingEvent, NoResult)))
    case Running => Fine(j.Sends(Emits(StartedEvent, NoResult)))
    case Stopping => Fine(j.Sends(Emits(StoppingEvent, StopEnvironment(j))))
    case Waiting => Fine(j.Sends(Emits(StoppedEvent, StopEnvironment(j))))
    case _ => Crash
  }

  /** job_next_state: the next state, and the goal it rewrites for a respawn. */
  function NextState(c: Class, j: Job): Chosen {
    match j.state
    case Waiting => if j.goal.GoalStart? then Chosen(j, Starting) else NoChoice
    case Starting => Towards(j, SecuritySpawning)
    case SecuritySpawning => Towards(j, Security)
    case Security => Towards(j, PreStarting)
    case PreStarting => Towards(j, PreStart)
    case PreStart => Towards(j, Spawning)
    case Spawning => Towards(j, Spawned)
    case Spawned => Towards(j, PostStarting)
    case PostStarting => Towards(j, PostStart)
    case PostStart => Respawning(j, Running)
    case Running =>
      (match j.goal
       case GoalStop => Chosen(j, if ProcMain in c.has && j.Alive(ProcMain) then PreStopping else Stopping)
       case GoalStart => Chosen(j, Stopping)
       case GoalRespawn => NoChoice)
    case PreStopping => Regardless(j, PreStop)
    case PreStop => Respawning(j, Running)
    case Stopping => Regardless(j, Killed)
    case Killed => Regardless(j, PostStopping)
    case PostStopping => Regardless(j, PostStop)
    case PostStop =>
      (match j.goal
       case GoalStop => Chosen(j, Waiting)
       case GoalStart => Chosen(j, Starting)
       case GoalRespawn => NoChoice)
  }

  function Towards(j: Job, forward: State): Chosen {
    match j.goal
    case GoalStop => Chosen(j, Stopping)
    case GoalStart => Chosen(j, forward)
    case GoalRespawn => NoChoice
  }

  function Respawning(j: Job, forward: State): Chosen {
    match j.goal
    case GoalStop => Chosen(j, Stopping)
    case GoalStart => Chosen(j, forward)
    case GoalRespawn => Chosen(j.(goal := GoalStart), Stopping)
  }

  function Regardless(j: Job, next: State): Chosen {
    if j.goal.GoalRespawn? then NoChoice else Chosen(j, next)
  }

  /** How many states the loop of job_change_state can still enter once it has
      been told to enter `s`; entering a state of rank one ends it. */
  function Rank(s: State): nat {
    match s
    case Waiting => 1 case Starting => 1 case Running => 1 case Stopping => 1
    case PostStart => 2 case PreStop => 2 case PostStop => 2
    case PostStarting => 3 case PreStopping => 3 case PostStopping => 3
    case Spawned => 4 case Killed => 4
    case Spawning => 5
    case PreStart => 6
    case PreStarting => 7
    case Security => 8
    case SecuritySpawning => 9
  }

  /** The body of the loop of job_change_state for a job that has just been put
      in its new state, coming from `from`; `next` is the state asked for next. */
  function Enter(c: Class, env: Env, from: State, j: Job): (r: Chosen)
    ensures r.Chosen? ==> r.next == j.state || Rank(r.next) < Rank(j.state)
  {
    match j.state
    case Starting =>
      if !(j.goal.GoalStart? && (from.Waiting? || from.PostStop?)) then NoChoice
      else
        var cleared := j.(failed := false, failedProcess := None, exitStatus := 0);
        Chosen(cleared.(blocked := true).Sends(Emits(StartingEvent, NoResult)), Starting)
    case SecuritySpawning => Spawn(c, env, j, from, Starting, ProcSecurity, c.RunsSecurity())
    case Security => Arrive(c, j, from, SecuritySpawning, c.RunsSecurity())
    case PreStarting => Spawn(c, env, j, from, Security, ProcPreStart, ProcPreStart in c.has)
    case PreStart => Arrive(c, j, from, PreStarting, ProcPreStart in c.has)
    case Spawning => Spawn(c, env, j, from, PreStart, ProcMain, ProcMain in c.has)
    case Spawned => Arrive(c, j, from, Spawning, ProcMain in c.has)
    case PostStarting => Spawn(c, env, j, from, Spawned, ProcPostStart, ProcPostStart in c.has)
    case PostStart => Arrive(c, j, from, PostStarting, ProcPostStart in c.has)
    case Running =>
      if !(j.goal.GoalStart? && (from.PostStart? || from.PreStop?)) then NoChoice
      else if from.PreStop? then Chosen(Finished(j, false), Running)
      else
        var emitted := j.Sends(Emits(StartedEvent, NoResult));
        Chosen(if c.task then emitted else Finished(emitted, false), Running)
    case PreStopping =>
      if !(j.goal.GoalStop? && from.Running?) then NoChoice
      else NextState(c, if ProcPreStop in c.has then Started(c, env, j, ProcPreStop) else j)
    case PreStop =>
      if !(j.goal.GoalStop? && from.PreStopping?) then NoChoice
      else if ProcPreStop in c.has then Chosen(j, PreStop) else NextState(c, j)
    case Stopping =>
      if !(from.Starting? || from.PreStarting? || from.PreStart? || from.Security? || from.Spawned?
           || from.PostStart? || from.Running? || from.PreStop?) then NoChoice
      else Chosen(j.(blocked := true).Sends(Emits(StoppingEvent, StopEnvironment(j))), Stopping)
    case Killed =>
      if !from.Stopping? then NoChoice
      else if ProcMain in c.has && j.Alive(ProcMain) then
        (match Kill(c, env, j, ProcMain)
         case Crash => NoChoice
         case Fine(j') => Chosen(j', Killed))
      else NextState(c, j)
    case PostStopping =>
      if !from.Killed? then NoChoice
      else NextState(c, if ProcPostStop in c.has then Started(c, env, j, ProcPostStop) else j)
    case PostStop =>
      if !from.PostStopping? then NoChoice
      else if ProcPostStop in c.has then Chosen(j, PostStop) else NextState(c, j)
    case Waiting =>
      if !(j.goal.GoalStop? && (from.PostStop? || from.Starting?)) then NoChoice
      else
        var emitted := j.Sends(Emits(StoppedEvent, StopEnvironment(j)));
        Chosen(Finished(emitted, false).(freed := true).Sends(Frees), Waiting)
  }

  /** A "...ing" state on the way to running: start the process and move on. */
  function Spawn(c: Class, env: Env, j: Job, from: State, expected: State, p: Process, wanted: bool): Chosen {
    if !(j.goal.GoalStart? && from == expected) then NoChoice
    else NextState(c, if wanted then Started(c, env, j, p) else j)
  }

  /** The state in which that process runs: rest there, or move on without one. */
  function Arrive(c: Class, j: Job, from: State, expected: State, wanted: bool): Chosen {
    if !(j.goal.GoalStart? && from == expected) then NoChoice
    else if wanted then Chosen(j, j.state)
    else NextState(c, j)
  }

  function ChangeState(c: Class, env: Env, j: Job, target: State): Outcome
    decreases Rank(target)
  {
    if j.state == target || j.blocked then Fine(j)
    else
      match Enter(c, env, j.state, j.(state := target))
      case NoChoice => Crash
      case Chosen(j', next) =>
        if next == target then Fine(j') else ChangeState(c, env, j', next)
  }

  /** job_change_state (job, job_next_state (job)). */
  function Advance(c: Class, env: Env, j: Job): Outcome {
    match NextState(c, j)
    case NoChoice => Crash
    case Chosen(j', next) => ChangeState(c, env, j', next)
  }

  function ChangeGoal(c: Class, env: Env, j: Job, goal: Goal): Outcome {
    if j.goal == goal then Fine(j)
    else
      var j' := j.(goal := goal);
      if (goal.GoalStart? && j.state.Waiting?) || (goal.GoalStop? && j.state.Running?)
      then Advance(c, env, j') else Fine(j')
  }

  function ChildErrorHandler(c: Class, env: Env, j: Job, p: Process): Outcome {
    var j := j.WithPid(p, 0);
    match p
    case ProcSecurity => ChangeGoal(c, env, Failed(j, Some(p), -1), GoalStop)
    case ProcPostStart => Advance(c, env, j)
    case ProcPreStop => Advance(c, env, j)
    case _ => StopAndGo(c, env, Failed(j, Some(p), -1))
  }

  function StopAndGo(c: Class, env: Env, j: Job): Outcome {
    var j :- ChangeGoal(c, env, j, GoalStop);
    Advance(c, env, j)
  }

  // ----- job_process.c -----

  /** job_process_start for a process the class defines. */
  function Started(c: Class, env: Env, j: Job, p: Process): Job {
    var traced := p.ProcMain? && (c.expects.ExpectDaemon? || c.expects.ExpectFork?);
    j.(procs := j.procs.Set(p, Proc(env.pid(p), Data(0, true), true)),
       traceForks := 0, traceState := if traced then TraceNew else TraceNone).Sends(Spawns(p))
  }

  function Kill(c: Class, env: Env, j: Job, p: Process): Outcome {
    if !j.Alive(p) || j.timer || j.killProcess.Some? then Crash
    else
      var j := j.Sends(Signals(p, false));
      if env.killOk then SetKillTimer(c, j, p) else Fine(j)
  }

  function SetKillTimer(c: Class, j: Job, p: Process): Outcome {
    if c.killTimeout == 0 || j.timer then Crash
    else Fine(j.(killProcess := Some(p), timer := true))
  }

  function KillTimer(j: Job): Outcome {
    match j.killProcess
    case None => Crash
    case Some(p) =>
      if !j.timer || !j.Alive(p) then Crash
      else Fine(j.(timer := false, killProcess := None).Sends(Signals(p, true)))
  }

  /** job_process_catch_runaway: whether the job respawns too fast, and the job
      with its respawn window updated. */
  function CatchRunaway(c: Class, now: int, j: Job): (Job, bool) {
    if c.respawnLimit == 0 || c.respawnInterval == 0 then (j, false)
    else if now - j.respawnTime < c.respawnInterval then
      (j.(respawnCount := j.respawnCount + 1), j.respawnCount + 1 > c.respawnLimit)
    else (j.(respawnTime := now, respawnCount := 1), false)
  }

  predicate SpawningState(s: State) {
    s.SecuritySpawning? || s.PreStarting? || s.Spawning? || s.PostStarting? || s.PreStopping? || s.PostStopping?
  }

  /** What the switch of job_process_terminated decides: whether the process
      counts as failed, whether the job is to stop, whether to advance. */
  datatype Verdict = NoVerdict | Verdict(job: Job, failed: bool, stop: bool, advance: bool)

  function MainVerdict(c: Class, env: Env, j: Job, status: int): Verdict {
    if !(j.state.Running? || j.state.Spawned? || j.state.Killed? || j.state.Stopping?
         || j.state.PostStart? || j.state.PreStop?) then NoVerdict
    else
      var advance :=
        !(j.state.PostStart? && ProcPostStart in c.has && j.Alive(ProcPostStart)) &&
        !(j.state.PreStop? && ProcPreStop in c.has && j.Alive(ProcPreStop));
      if j.state.Killed? then Verdict(j, false, false, advance)
      else if j.state.Stopping? then Verdict(j, false, false, false)
      else if (status != 0 || (c.respawn && !c.task)) && j.goal.GoalStart? then
        var failed := status !in c.normalExit;
        if failed && c.respawn && !c.respawnDisabled then
          var (j', runaway) := CatchRunaway(c, env.now, j);
          if runaway then Verdict(Failed(j', None, 0), false, true, advance)
          else Verdict(if advance then j' else j'.(goal := GoalRespawn), false, false, advance)
        else Verdict(j, failed, true, advance)
      else Verdict(j, false, true, advance)
  }

  function TerminatedVerdict(c: Class, env: Env, j: Job, p: Process, status: int): Verdict {
    match p
    case ProcMain => MainVerdict(c, env, j, status)
    case ProcSecurity => if j.state.Security? then Verdict(j, false, false, true) else NoVerdict
    case ProcPreStart =>
      if j.state.PreStart? then Verdict(j, status != 0, status != 0, true) else NoVerdict
    case ProcPostStart =>
      if j.state.PostStart? || j.state.Running? then Verdict(j, false, false, true) else NoVerdict
    case ProcPreStop => if j.state.PreStop? then Verdict(j, false, false, true) else NoVerdict
    case ProcPostStop =>
      if j.state.PostStop? then Verdict(j, status != 0, status != 0, true) else NoVerdict
  }

  function Terminated(c: Class, env: Env, j: Job, p: Process, status: int, stateOnly: bool): Outcome {
    if SpawningState(j.state) then
      match (j.procs.Get(p).data, NextState(c, j))
      case (Data(_, valid), Chosen(j', next)) =>
        Fine(j'.WithData(p, Data(status, valid)).(state := next))
      case _ => Crash
    else
      match TerminatedVerdict(c, env, j, p, status)
      case NoVerdict => Crash
      case Verdict(j, failed, stop, advance) =>
        if stateOnly && stop && failed then Crash
        else
          var j := Reaped(j, p, stateOnly);
          Concluded(c, env, if failed then Failed(j, Some(p), status) else j, stop && !stateOnly, advance)
  }

  /** The kill timer cancelled and the pid cleared. */
  function Reaped(j: Job, p: Process, stateOnly: bool): Job {
    var j := if j.timer then j.(timer := false, killProcess := None) else j;
    if stateOnly then j else j.WithPid(p, 0)
  }

  function Concluded(c: Class, env: Env, j: Job, stop: bool, advance: bool): Outcome {
    var advance := advance && !(stop && j.state.Running?);
    var j :- if stop then ChangeGoal(c, env, j, GoalStop) else Fine(j);
    if advance then Advance(c, env, j) else Fine(j)
  }

  /** job_process_stopped, for a process stopped by SIGSTOP. */
  function ProcessStopped(c: Class, env: Env, j: Job, p: Process): Outcome {
    if !p.ProcMain? || !(j.state.Spawning? || j.state.Spawned?) || !c.expects.ExpectStop? then Fine(j)
    else Advance(c, env, j)
  }

  /** Whether a trace notice about process `p` is of interest at all. */
  predicate Traced(j: Job, p: Process) {
    p.ProcMain? && (j.state.Spawning? || j.state.Spawned?)
  }

  function TraceNewProcess(env: Env, j: Job, p: Process): Outcome {
    if !(j.traceState.TraceNew? || j.traceState.TraceNewChild?) then Crash
    else if Traced(j, p) && env.optionsOk then Fine(j.(traceState := TraceNormal))
    else Fine(j)
  }

  function TraceChild(c: Class, env: Env, j: Job, p: Process): Outcome {
    if LastFork(c, j, p) then Advance(c, env, Detached(j)) else TraceOn(env, j, p)
  }

  /** The child of a traced main process that there will be no other fork after. */
  predicate LastFork(c: Class, j: Job, p: Process) {
    j.traceState.TraceNewChild? && Traced(j, p) && (j.traceForks > 0 || c.expects.ExpectFork?)
  }

  function Detached(j: Job): Job {
    j.(traceForks := j.traceForks + 1, traceState := TraceNone)
  }

  function TraceOn(env: Env, j: Job, p: Process): Outcome {
    if !j.traceState.TraceNewChild? then Crash
    else if !Traced(j, p) then Fine(j)
    else TraceNewProcess(env, j.(traceForks := j.traceForks + 1), p)
  }

  function TraceFork(c: Class, env: Env, j: Job, p: Process): Outcome {
    if !Traced(j, p) || !j.traceState.TraceNormal? || env.child.None? then Fine(j)
    else
      var j := j.WithPid(p, env.child.value).(traceState := TraceNewChild);
      if env.attached then TraceChild(c, env, j, p) else Fine(j)
  }

  function TraceExec(c: Class, env: Env, j: Job, p: Process): Outcome {
    if !Traced(j, p) || !j.traceState.TraceNormal? then Fine(j)
    else if j.traceForks > 0 then Advance(c, env, j.(traceState := TraceNone))
    else Fine(j)
  }

  datatype Trap = TrapSignal | StopSignal | OtherSignal

  /** The NIH_CHILD_TRAPPED case of job_process_handler. */
  function Trapped(c: Class, env: Env, j: Job, p: Process, signal: Trap): Outcome {
    if j.traceState.TraceNew? && signal.TrapSignal? then TraceNewProcess(env, j, p)
    else if j.traceState.TraceNewChild? && signal.StopSignal? then TraceChild(c, env, j, p)
    else Fine(j)
  }

  /** job_process_close_handler: the child's setup succeeded. */
  function CloseHandler(c: Class, env: Env, j: Job, p: Process): Outcome {
    match j.procs.Get(p).data
    case NoData => Fine(j)
    case Data(status, valid) =>
      if !valid then Fine(j)
      else SetupComplete(c, env, j.WithData(p, Data(status, false)), p, status)
  }

  function SetupComplete(c: Class, env: Env, j: Job, p: Process, status: int): Outcome {
    var j :- if j.state.Spawned? && c.expects.ExpectNone? && p.ProcMain? then Advance(c, env, j) else Fine(j);
    if SpawningState(j.state) then Terminated(c, env, j, p, status, true) else Fine(j)
  }

  /** job_process_child_reader on a permanent error: the child's setup failed.
      The process data is the reporting child's own, so it is invalidated even if
      the handler were to start the process anew. */
  function ChildReader(c: Class, env: Env, j: Job, p: Process): Outcome {
    match j.procs.Get(p).data
    case NoData => Fine(j)
    case Data(status, valid) =>
      if !valid then Fine(j) else ChildErrorHandler(c, env, j.WithData(p, Data(status, false)), p)
  }
}
