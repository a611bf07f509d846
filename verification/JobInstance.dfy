/** A job instance as init/job.h:136-173 lays it out, changed in place by the
    functions of init/job.c and init/job_process.c.  Every method does to the
    fields what the function of the same name in module JobMachine says; where
    that function is not a crash, none of the C function's assertions fails. */
module JobInstance {
  import opened Options
  import opened JobMachine

  function Index(p: Process): (i: nat)
    ensures i < 6
  {
    match p
    case ProcMain => 0 case ProcPreStart => 1 case ProcPostStart => 2
    case ProcPreStop => 3 case ProcPostStop => 4 case ProcSecurity => 5
  }

  /** One round of the loop of job_change_state. */
  lemma ChangeStateUnfolds(c: Class, env: Env, j: Job, target: State)
    requires j.state != target && !j.blocked && ChangeState(c, env, j, target).Fine?
    ensures
      var r := Enter(c, env, j.state, j.(state := target));
      r.Chosen? && r.job.state == target && ChangeState(c, env, j, target) == ChangeState(c, env, r.job, r.next)
  {
    EnterKeepsState(c, env, j.state, j.(state := target));
  }

  lemma ChangeStateStays(c: Class, env: Env, j: Job, target: State)
    requires j.state == target || j.blocked
    ensures ChangeState(c, env, j, target) == Fine(j)
  {
  }

  lemma EnterKeepsState(c: Class, env: Env, from: State, j: Job)
    requires Enter(c, env, from, j).Chosen?
    ensures Enter(c, env, from, j).job.state == j.state
  {
    if Rank(j.state) >= 5 { EnterUpKeepsState(c, env, from, j); }
  }

  lemma EnterUpKeepsState(c: Class, env: Env, from: State, j: Job)
    requires Enter(c, env, from, j).Chosen? && Rank(j.state) >= 5
    ensures Enter(c, env, from, j).job.state == j.state
  {
  }

  class Instance {
    const cls: Class
    var goal: Goal
    var state: State
    var blocker: bool               // whether an emitted event is waited for
    const pid: array<nat>
    const data: array<ProcessData>
    var killTimer: bool             // whether the kill timer is set
    var killProcess: Option<Process>
    var failed: bool
    var failedProcess: Option<Process>
    var exitStatus: int
    var respawnTime: int
    var respawnCount: nat
    var traceForks: nat
    var traceState: TraceState
    var freed: bool
    var outbox: seq<Effect>
    ghost var undecided: Slots<bool>

    predicate Valid() {
      pid.Length == 6 && data.Length == 6
    }

    ghost function ProcAt(p: Process): Proc
      requires Valid()
      reads this, pid, data
    {
      Proc(pid[Index(p)], data[Index(p)], undecided.Get(p))
    }

    ghost function View(): Job
      requires Valid()
      reads this, pid, data
    {
      Job(goal, state, blocker,
          Slots(ProcAt(ProcMain), ProcAt(ProcPreStart), ProcAt(ProcPostStart),
                ProcAt(ProcPreStop), ProcAt(ProcPostStop), ProcAt(ProcSecurity)),
          killTimer, killProcess, failed, failedProcess, exitStatus, respawnTime, respawnCount,
          traceForks, traceState, freed, outbox)
    }

    constructor (cls: Class)
      ensures this.cls == cls && Valid() && View() == NewJob()
      ensures fresh(pid) && fresh(data)
    {
      this.cls := cls;
      goal, state := GoalStop, Waiting;
      blocker := false;
      killTimer, killProcess := false, None;
      failed, failedProcess, exitStatus := false, None, 0;
      respawnTime, respawnCount := 0, 0;
      traceForks, traceState := 0, TraceNone;
      freed, outbox := false, [];
      undecided := Slots(false, false, false, false, false, false);
      pid := new nat[6](i => 0);
      data := new ProcessData[6](i => NoData);
    }

    // ----- job.c -----

    method Send(e: Effect)
      requires Valid()
      modifies `outbox
      ensures View() == old(View()).Sends(e)
    {
      outbox := outbox + [e];
    }

    /** job_finished. */
    method JobFinished(failed: bool)
      requires Valid()
      modifies `outbox
      ensures View() == Finished(old(View()), failed)
    {
      Send(Finishes(failed));
    }

    /** job_failed. */
    method JobFailed(p: Option<Process>, status: int)
      requires Valid()
      modifies `failed, `failedProcess, `exitStatus, `outbox
      ensures View() == Failed(old(View()), p, status)
    {
      if failed {
        return;
      }
      failed := true;
      failedProcess := p;
      exitStatus := status;
      JobFinished(true);
    }

    /** job_emit_event. */
    method JobEmitEvent()
      requires Valid() && EmitEvent(View()).Fine?
      modifies `outbox
      ensures EmitEvent(old(View())) == Fine(View())
    {
      var name, stop := StartingEvent, false;
      match state {
        case Starting =>
        case Running => name := StartedEvent;
        case Stopping => name, stop := StoppingEvent, true;
        case Waiting => name, stop := StoppedEvent, true;
        case _ => assert false;
      }
      var result := NoResult;
      if stop && failed {
        if failedProcess.Some? && exitStatus != -1 {
          if exitStatus < 0 || exitStatus > 0xff {
            result := ResultSignal(failedProcess.value, exitStatus / 0x100);
          } else {
            result := ResultExit(failedProcess.value, exitStatus);
          }
        } else if failedProcess.Some? {
          result := ResultSpawn(failedProcess.value);
        } else {
          result := ResultRespawn;
        }
      } else if stop {
        result := ResultOk;
      }
      Send(Emits(name, result));
    }

    /** job_next_state. */
    method JobNextState() returns (next: State)
      requires Valid() && NextState(cls, View()).Chosen?
      modifies `goal
      ensures NextState(cls, old(View())) == Chosen(View(), next)
    {
      match state {
        case Waiting =>
          assert goal == GoalStart;
          return Starting;
        case Starting => return if goal == GoalStop then Stopping else SecuritySpawning;
        case SecuritySpawning => return if goal == GoalStop then Stopping else Security;
        case Security => return if goal == GoalStop then Stopping else PreStarting;
        case PreStarting => return if goal == GoalStop then Stopping else PreStart;
        case PreStart => return if goal == GoalStop then Stopping else Spawning;
        case Spawning => return if goal == GoalStop then Stopping else Spawned;
        case Spawned => return if goal == GoalStop then Stopping else PostStarting;
        case PostStarting => return if goal == GoalStop then Stopping else PostStart;
        case PostStart =>
          match goal {
            case GoalStop => return Stopping;
            case GoalStart => return Running;
            case GoalRespawn =>
              // job_change_goal does no more than this outside WAITING
              goal := GoalStart;
              return Stopping;
          }
        case Running =>
          if goal == GoalStop && ProcMain in cls.has && pid[Index(ProcMain)] > 0 {
            return PreStopping;
          }
          assert goal != GoalRespawn;
          return Stopping;
        case PreStopping => return PreStop;
        case PreStop =>
          match goal {
            case GoalStop => return Stopping;
            case GoalStart => return Running;
            case GoalRespawn =>
              goal := GoalStart;
              return Stopping;
          }
        case Stopping => return Killed;
        case Killed => return PostStopping;
        case PostStopping => return PostStop;
        case PostStop =>
          assert goal != GoalRespawn;
          return if goal == GoalStop then Waiting else Starting;
      }
    }

    /** job_process_start: the child is forked, and its setup awaited. */
    method ProcessStart(env: Env, p: Process)
      requires Valid() && p in cls.has
      modifies this, pid, data
      ensures View() == Started(cls, env, old(View()), p)
    {
      var trace := p == ProcMain && (cls.expects == ExpectDaemon || cls.expects == ExpectFork);
      SetSlot(p, env.pid(p), Data(0, true), true);
      traceForks := 0;
      traceState := if trace then TraceNew else TraceNone;
      Send(Spawns(p));
    }

    /** Overwrite the entry of `p` in the arrays. */
    method SetSlot(p: Process, newPid: nat, newData: ProcessData, ghost newUndecided: bool)
      requires Valid()
      modifies pid, data, `undecided
      ensures View() == old(View()).WithProc(p, Proc(newPid, newData, newUndecided))
    {
      pid[Index(p)] := newPid;
      data[Index(p)] := newData;
      undecided := undecided.Set(p, newUndecided);
    }

    /** job_process_kill. */
    method ProcessKill(env: Env, p: Process)
      requires Valid() && Kill(cls, env, View(), p).Fine?
      modifies this
      ensures Kill(cls, env, old(View()), p) == Fine(View())
    {
      assert pid[Index(p)] > 0 by { assert View().procs.Get(p) == ProcAt(p); }
      assert !killTimer;
      assert killProcess == None;
      Send(Signals(p, false));
      if !env.killOk {
        return;
      }
      // job_process_set_kill_timer
      assert cls.killTimeout != 0;
      assert !killTimer;
      killProcess := Some(p);
      killTimer := true;
    }

    /** job_process_kill_timer. */
    method KillTimerExpires()
      requires Valid() && KillTimer(View()).Fine?
      modifies this
      ensures KillTimer(old(View())) == Fine(View())
    {
      assert killTimer;
      assert killProcess.Some?;
      var p := killProcess.value;
      assert pid[Index(p)] > 0 by { assert View().procs.Get(p) == ProcAt(p); }
      killTimer := false;
      killProcess := None;
      Send(Signals(p, true));
    }

    /** job_change_state. */
    method JobChangeState(env: Env, target: State)
      requires Valid() && ChangeState(cls, env, View(), target).Fine?
      modifies this, pid, data
      ensures ChangeState(cls, env, old(View()), target) == Fine(View())
    {
      var next := target;
      ghost var o := ChangeState(cls, env, View(), target);
      while state != next
        invariant ChangeState(cls, env, View(), next) == o
        decreases if state == next then 0 else Rank(next)
      {
        if blocker {
          ChangeStateStays(cls, env, View(), next);
          return;
        }
        next := ChangeOnce(env, next);
      }
      ChangeStateStays(cls, env, View(), next);
    }

    /** One round of the loop. */
    method ChangeOnce(env: Env, target: State) returns (next: State)
      requires Valid() && state != target && !blocker && ChangeState(cls, env, View(), target).Fine?
      modifies this, pid, data
      ensures ChangeState(cls, env, View(), next) == old(ChangeState(cls, env, View(), target))
      ensures next == state || Rank(next) < Rank(target)
    {
      ChangeStateUnfolds(cls, env, View(), target);
      next := EnterState(env, target);
    }

    /** A state on the way up that starts a process, if wanted, and moves on. */
    method StartThenMove(env: Env, from: State, expected: State, p: Process, wanted: bool) returns (next: State)
      requires Valid() && Spawn(cls, env, View(), from, expected, p, wanted).Chosen? && (wanted ==> p in cls.has)
      modifies this, pid, data
      ensures Spawn(cls, env, old(View()), from, expected, p, wanted) == Chosen(View(), next)
    {
      assert goal == GoalStart;
      assert from == expected;
      if wanted { ProcessStart(env, p); }
      next := JobNextState();
    }

    /** A state on the way up that waits for a process, if wanted, or moves on. */
    method WaitOrMove(from: State, expected: State, wanted: bool) returns (next: State)
      requires Valid() && Arrive(cls, View(), from, expected, wanted).Chosen?
      modifies `goal
      ensures Arrive(cls, old(View()), from, expected, wanted) == Chosen(View(), next)
    {
      assert goal == GoalStart;
      assert from == expected;
      next := state;
      if !wanted { next := JobNextState(); }
    }

    /** The body of the loop: put the job in state `s` and act on it. */
    method EnterState(env: Env, s: State) returns (next: State)
      requires Valid() && Enter(cls, env, state, View().(state := s)).Chosen?
      modifies this, pid, data
      ensures Enter(cls, env, old(state), old(View()).(state := s)) == Chosen(View(), next)
    {
      var from := state;
      state := s;
      assert View() == old(View()).(state := s);
      match s {
        case Starting => next := EnterStarting(env, from);
        case SecuritySpawning =>
          next := StartThenMove(env, from, Starting, ProcSecurity, cls.RunsSecurity());
        case Security => next := WaitOrMove(from, SecuritySpawning, cls.RunsSecurity());
        case PreStarting =>
          next := StartThenMove(env, from, Security, ProcPreStart, ProcPreStart in cls.has);
        case PreStart => next := WaitOrMove(from, PreStarting, ProcPreStart in cls.has);
        case Spawning => next := StartThenMove(env, from, PreStart, ProcMain, ProcMain in cls.has);
        case Spawned => next := WaitOrMove(from, Spawning, ProcMain in cls.has);
        case PostStarting =>
          next := StartThenMove(env, from, Spawned, ProcPostStart, ProcPostStart in cls.has);
        case PostStart => next := WaitOrMove(from, PostStarting, ProcPostStart in cls.has);
        case Running => next := EnterRunning(env, from);
        case Stopping => next := EnterStopping(env, from);
        case Waiting => next := EnterWaiting(env, from);
        case _ => next := EnterFalling(env, from);
      }
    }

    method EnterStarting(env: Env, from: State) returns (next: State)
      requires Valid() && state == Starting && Enter(cls, env, from, View()).Chosen?
      modifies this
      ensures Enter(cls, env, from, old(View())) == Chosen(View(), next)
    {
      assert goal == GoalStart;
      assert from == Waiting || from == PostStop;
      ClearFailure();
      AwaitEvent();
      return Starting;
    }

    /** A new start: what failed before does not count any more. */
    method ClearFailure()
      requires Valid()
      modifies `failed, `failedProcess, `exitStatus
      ensures Valid() && View() == old(View()).(failed := false, failedProcess := None, exitStatus := 0)
    {
      failed, failedProcess, exitStatus := false, None, 0;
    }

    /** job->blocker = job_emit_event (job). */
    method AwaitEvent()
      requires Valid() && EmitEvent(View()).Fine?
      modifies `outbox, `blocker
      ensures Valid() && Fine(View()) == EmitEvent(old(View()).(blocked := true))
    {
      ghost var was := View();
      JobEmitEvent();
      ghost var emitted := View();
      blocker := true;
      assert View() == emitted.(blocked := true);
    }

    method EnterRunning(env: Env, from: State) returns (next: State)
      requires Valid() && state == Running && Enter(cls, env, from, View()).Chosen?
      modifies this
      ensures Enter(cls, env, from, old(View())) == Chosen(View(), next)
    {
      assert goal == GoalStart;
      assert from == PostStart || from == PreStop;
      if from == PreStop {
        JobFinished(false);
      } else {
        JobEmitEvent();
        if !cls.task { JobFinished(false); }
      }
      return Running;
    }

    method EnterStopping(env: Env, from: State) returns (next: State)
      requires Valid() && state == Stopping && Enter(cls, env, from, View()).Chosen?
      modifies this
      ensures Enter(cls, env, from, old(View())) == Chosen(View(), next)
    {
      assert from == Starting || from == PreStarting || from == PreStart || from == Security || from == Spawned
          || from == PostStart || from == Running || from == PreStop;
      AwaitEvent();
      return Stopping;
    }

    method EnterFalling(env: Env, from: State) returns (next: State)
      requires Valid() && Enter(cls, env, from, View()).Chosen?
      requires state in {PreStopping, PreStop, Killed, PostStopping, PostStop}
      modifies this, pid, data
      ensures Enter(cls, env, from, old(View())) == Chosen(View(), next)
    {
      next := state;
      match state {
        case PreStopping =>
          assert goal == GoalStop && from == Running;
          if ProcPreStop in cls.has { ProcessStart(env, ProcPreStop); }
          next := JobNextState();
        case PreStop =>
          assert goal == GoalStop && from == PreStopping;
          if ProcPreStop !in cls.has { next := JobNextState(); }
        case Killed =>
          assert from == Stopping;
          if ProcMain in cls.has && pid[Index(ProcMain)] > 0 {
            ProcessKill(env, ProcMain);
          } else {
            next := JobNextState();
          }
        case PostStopping =>
          assert from == Killed;
          if ProcPostStop in cls.has { ProcessStart(env, ProcPostStop); }
          next := JobNextState();
        case PostStop =>
          assert from == PostStopping;
          if ProcPostStop !in cls.has { next := JobNextState(); }
      }
    }

    method EnterWaiting(env: Env, from: State) returns (next: State)
      requires Valid() && state == Waiting && Enter(cls, env, from, View()).Chosen?
      modifies this
      ensures Enter(cls, env, from, old(View())) == Chosen(View(), next)
    {
      assert goal == GoalStop;
      assert from == PostStop || from == Starting;
      JobEmitEvent();
      JobFinished(false);
      freed := true;
      Send(Frees);
      return Waiting;
    }

    /** job_change_state (job, job_next_state (job)). */
    method JobAdvance(env: Env)
      requires Valid() && Advance(cls, env, View()).Fine?
      modifies this, pid, data
      ensures Advance(cls, env, old(View())) == Fine(View())
    {
      var next := JobNextState();
      JobChangeState(env, next);
    }

    /** job_change_goal. */
    method JobChangeGoal(env: Env, newGoal: Goal)
      requires Valid() && ChangeGoal(cls, env, View(), newGoal).Fine?
      modifies this, pid, data
      ensures ChangeGoal(cls, env, old(View()), newGoal) == Fine(View())
    {
      if goal == newGoal {
        return;
      }
      goal := newGoal;
      match newGoal {
        case GoalStart => if state == Waiting { JobAdvance(env); }
        case GoalStop => if state == Running { JobAdvance(env); }
        case GoalRespawn =>
      }
    }

    /** job_child_error_handler. */
    method JobChildErrorHandler(env: Env, p: Process)
      requires Valid() && ChildErrorHandler(cls, env, View(), p).Fine?
      modifies this, pid, data
      ensures ChildErrorHandler(cls, env, old(View()), p) == Fine(View())
    {
      SetSlot(p, 0, data[Index(p)], undecided.Get(p));
      assert View() == old(View()).WithPid(p, 0);
      if p == ProcPostStart || p == ProcPreStop {
        JobAdvance(env);
      } else {
        JobFailed(Some(p), -1);
        JobChangeGoal(env, GoalStop);
        if p != ProcSecurity { JobAdvance(env); }
      }
    }

    // ----- job_process.c -----

    /** job_process_catch_runaway. */
    method CatchesRunaway(now: int) returns (tooFast: bool)
      requires Valid()
      modifies `respawnTime, `respawnCount
      ensures CatchRunaway(cls, now, old(View())) == (View(), tooFast)
    {
      if cls.respawnLimit != 0 && cls.respawnInterval != 0 {
        var interval := now - respawnTime;
        if interval < cls.respawnInterval {
          respawnCount := respawnCount + 1;
          if respawnCount > cls.respawnLimit {
            return true;
          }
        } else {
          respawnTime := now;
          respawnCount := 1;
        }
      }
      return false;
    }

    /** The PROCESS_MAIN case of job_process_terminated. */
    method MainTerminated(env: Env, status: int) returns (isFailure: bool, stop: bool, advance: bool)
      requires Valid() && MainVerdict(cls, env, View(), status).Verdict?
      modifies this
      ensures MainVerdict(cls, env, old(View()), status) == Verdict(View(), isFailure, stop, advance)
    {
      isFailure, stop, advance := false, false, true;
      assert state == Running || state == Spawned || state == Killed || state == Stopping
          || state == PostStart || state == PreStop;
      if state == PostStart && ProcPostStart in cls.has && pid[Index(ProcPostStart)] > 0 {
        advance := false;
      } else if state == PreStop && ProcPreStop in cls.has && pid[Index(ProcPreStop)] > 0 {
        advance := false;
      }
      if state == Killed {
        return;
      }
      if state == Stopping {
        advance := false;
        return;
      }
      if (status != 0 || (cls.respawn && !cls.task)) && goal == GoalStart {
        isFailure := status !in cls.normalExit;
        if isFailure && cls.respawn && !cls.respawnDisabled {
          isFailure := false;
          var tooFast := CatchesRunaway(env.now);
          if tooFast {
            JobFailed(None, 0);
          } else {
            if !advance { goal := GoalRespawn; }
            return;
          }
        }
      }
      stop := true;
    }

    /** job_process_terminated. */
    method JobProcessTerminated(env: Env, p: Process, status: int, stateOnly: bool)
      requires Valid() && Terminated(cls, env, View(), p, status, stateOnly).Fine?
      modifies this, pid, data
      ensures Terminated(cls, env, old(View()), p, status, stateOnly) == Fine(View())
    {
      assert View().procs.Get(p) == ProcAt(p);
      if SpawningState(state) {
        assert data[Index(p)].Data?;
        var d := data[Index(p)];
        var next := JobNextState();
        SetSlot(p, pid[Index(p)], Data(status, d.valid), undecided.Get(p));
        state := next;
        return;
      }
      var isFailure, stop, advance := false, false, true;
      match p {
        case ProcMain => isFailure, stop, advance := MainTerminated(env, status);
        case ProcSecurity => assert state == Security;
        case ProcPreStart =>
          assert state == PreStart;
          isFailure, stop := status != 0, status != 0;
        case ProcPostStart => assert state == PostStart || state == Running;
        case ProcPreStop => assert state == PreStop;
        case ProcPostStop =>
          assert state == PostStop;
          isFailure, stop := status != 0, status != 0;
      }
      Finish(env, p, status, stateOnly, isFailure, stop, advance);
    }

    /** The end of job_process_terminated, which acts on the verdict. */
    method Finish(env: Env, p: Process, status: int, stateOnly: bool, isFailure: bool, stop: bool, advance: bool)
      requires Valid() && !(stateOnly && stop && isFailure)
      requires
        var j := Reaped(View(), p, stateOnly);
        Concluded(cls, env, if isFailure then Failed(j, Some(p), status) else j, stop && !stateOnly, advance).Fine?
      modifies this, pid, data
      ensures
        var j := Reaped(old(View()), p, stateOnly);
        Concluded(cls, env, if isFailure then Failed(j, Some(p), status) else j,
                  stop && !stateOnly, advance) == Fine(View())
    {
      Reap(p, stateOnly);
      if isFailure {
        JobFailed(Some(p), status);
      }
      var stopping, advancing := stop, advance;
      if stateOnly && stopping {
        stopping := false;
        assert !isFailure;
      }
      if stopping {
        if state == Running { advancing := false; }
        JobChangeGoal(env, GoalStop);
      }
      if advancing {
        JobAdvance(env);
      }
    }

    /** Cancel the kill timer and clear the pid. */
    method Reap(p: Process, stateOnly: bool)
      requires Valid()
      modifies this, pid, data
      ensures View() == Reaped(old(View()), p, stateOnly)
    {
      if killTimer {
        killTimer := false;
        killProcess := None;
      }
      if !stateOnly {
        SetSlot(p, 0, data[Index(p)], undecided.Get(p));
      }
    }

    /** job_process_stopped. */
    method JobProcessStopped(env: Env, p: Process)
      requires Valid() && ProcessStopped(cls, env, View(), p).Fine?
      modifies this, pid, data
      ensures ProcessStopped(cls, env, old(View()), p) == Fine(View())
    {
      if p != ProcMain || (state != Spawning && state != Spawned) {
        return;
      }
      if cls.expects == ExpectStop {
        JobAdvance(env);
      }
    }

    /** job_process_trace_new. */
    method JobTraceNew(env: Env, p: Process)
      requires Valid() && TraceNewProcess(env, View(), p).Fine?
      modifies `traceState
      ensures TraceNewProcess(env, old(View()), p) == Fine(View())
    {
      assert traceState == TraceNew || traceState == TraceNewChild;
      if p != ProcMain || (state != Spawning && state != Spawned) {
        return;
      }
      if !env.optionsOk {
        return;
      }
      traceState := TraceNormal;
    }

    /** job_process_trace_new_child. */
    method JobTraceNewChild(env: Env, p: Process)
      requires Valid() && TraceChild(cls, env, View(), p).Fine?
      modifies this, pid, data
      ensures TraceChild(cls, env, old(View()), p) == Fine(View())
    {
      assert traceState == TraceNewChild;
      if p != ProcMain || (state != Spawning && state != Spawned) {
        return;
      }
      ghost var j := View();
      traceForks := traceForks + 1;
      assert View() == j.(traceForks := j.traceForks + 1);
      if traceForks > 1 || cls.expects == ExpectFork {
        assert LastFork(cls, j, p);
        LastTraced(env, j, Detached(j));
        return;
      }
      assert !LastFork(cls, j, p);
      JobTraceNew(env, p);
    }

    /** No further fork is to come: the job advances untraced. */
    method LastTraced(env: Env, ghost j: Job, ghost detached: Job)
      requires Valid() && View() == j.(traceForks := j.traceForks + 1)
      requires detached == Detached(j) && Advance(cls, env, detached).Fine?
      modifies this, pid, data
      ensures Advance(cls, env, detached) == Fine(View())
    {
      traceState := TraceNone;
      assert View() == detached;
      JobAdvance(env);
    }

    /** job_process_trace_fork. */
    method JobTraceFork(env: Env, p: Process)
      requires Valid() && TraceFork(cls, env, View(), p).Fine?
      modifies this, pid, data
      ensures TraceFork(cls, env, old(View()), p) == Fine(View())
    {
      if p != ProcMain || (state != Spawning && state != Spawned) || traceState != TraceNormal {
        return;
      }
      if env.child == None {
        return;
      }
      SetSlot(p, env.child.value, data[Index(p)], undecided.Get(p));
      traceState := TraceNewChild;
      assert View() == old(View()).WithPid(p, env.child.value).(traceState := TraceNewChild);
      if !env.attached {
        return;
      }
      JobTraceNewChild(env, p);
    }

    /** The NIH_CHILD_TRAPPED case of job_process_handler. */
    method ChildTrapped(env: Env, p: Process, signal: Trap)
      requires Valid() && Trapped(cls, env, View(), p, signal).Fine?
      modifies this, pid, data
      ensures Trapped(cls, env, old(View()), p, signal) == Fine(View())
    {
      if traceState == TraceNew && signal == TrapSignal {
        JobTraceNew(env, p);
      } else if traceState == TraceNewChild && signal == StopSignal {
        JobTraceNewChild(env, p);
      }
    }

    /** job_process_trace_exec. */
    method JobTraceExec(env: Env, p: Process)
      requires Valid() && TraceExec(cls, env, View(), p).Fine?
      modifies this, pid, data
      ensures TraceExec(cls, env, old(View()), p) == Fine(View())
    {
      if p != ProcMain || (state != Spawning && state != Spawned) || traceState != TraceNormal {
        return;
      }
      if traceForks != 0 {
        traceState := TraceNone;
        JobAdvance(env);
      }
    }

    /** job_process_close_handler. */
    method JobCloseHandler(env: Env, p: Process)
      requires Valid() && CloseHandler(cls, env, View(), p).Fine?
      modifies this, pid, data
      ensures CloseHandler(cls, env, old(View()), p) == Fine(View())
    {
      assert View().procs.Get(p) == ProcAt(p);
      if data[Index(p)] == NoData || !data[Index(p)].valid {
        return;
      }
      var status := data[Index(p)].status;
      SetSlot(p, pid[Index(p)], Data(status, false), undecided.Get(p));
      assert View() == old(View()).WithData(p, Data(status, false));
      CompleteSetup(env, p, status);
    }

    method CompleteSetup(env: Env, p: Process, status: int)
      requires Valid() && SetupComplete(cls, env, View(), p, status).Fine?
      modifies this, pid, data
      ensures SetupComplete(cls, env, old(View()), p, status) == Fine(View())
    {
      if state == Spawned {
        if cls.expects == ExpectNone {
          if p == ProcMain { JobAdvance(env); }
        }
      }
      if SpawningState(state) {
        JobProcessTerminated(env, p, status, true);
      }
    }

    /** job_process_child_reader, on a permanent error. */
    method JobChildReader(env: Env, p: Process)
      requires Valid() && ChildReader(cls, env, View(), p).Fine?
      modifies this, pid, data
      ensures ChildReader(cls, env, old(View()), p) == Fine(View())
    {
      assert View().procs.Get(p) == ProcAt(p);
      if data[Index(p)] == NoData || !data[Index(p)].valid {
        return;
      }
      SetSlot(p, pid[Index(p)], Data(data[Index(p)].status, false), undecided.Get(p));
      JobChildErrorHandler(env, p);
    }
  }
}
