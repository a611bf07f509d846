/** The limit on respawning: job_process_catch_runaway of init/job_process.c, over a
    whole run of an instance. */
module Respawn {
  import opened Options
  import opened JobMachine
  import opened JobRuns

  // ----- one window after another -----

  /** The window respawns are counted in: when it began, and how many were asked for. */
  datatype Window = Window(start: int, count: nat)

  /** A respawn asked for at `now`: the window after it, and whether it is allowed. */
  function Ask(limit: nat, interval: nat, now: int, w: Window): (Window, bool) {
    if now - w.start < interval then (Window(w.start, w.count + 1), w.count + 1 <= limit)
    else (Window(now, 1), true)
  }

  /** The times, of those asked for, at which a respawn was allowed. */
  function Allowed(limit: nat, interval: nat, w: Window, asked: seq<int>): seq<int>
    decreases asked
  {
    if asked == [] then []
    else
      var (w', ok) := Ask(limit, interval, asked[0], w);
      var rest := Allowed(limit, interval, w', asked[1..]);
      if ok then [asked[0]] + rest else rest
  }

  /** How many of `times` lie from `from` on and before `to`. */
  function Within(times: seq<int>, from: int, to: int): nat {
    if times == [] then 0 else (if from <= times[0] < to then 1 else 0) + Within(times[1..], from, to)
  }

  /** Times of a clock that never goes back, read from `now` on. */
  predicate Monotonic(now: int, times: seq<int>)
    decreases times
  {
    times != [] ==> now <= times[0] && Monotonic(times[0], times[1..])
  }

  function Left(limit: nat, w: Window): nat {
    if w.count >= limit then 0 else limit - w.count
  }

  lemma {:induction false} NoneBefore(limit: nat, interval: nat, w: Window, now: int,
                       asked: seq<int>, from: int, to: int)
    requires Monotonic(now, asked) && to <= now
    ensures Within(Allowed(limit, interval, w, asked), from, to) == 0
    decreases asked
  {
    if asked != [] {
      var (w', ok) := Ask(limit, interval, asked[0], w);
      NoneBefore(limit, interval, w', asked[0], asked[1..], from, to);
      AllowedFirst(limit, interval, w, asked, from, to);
    }
  }

  lemma AllowedFirst(limit: nat, interval: nat, w: Window, asked: seq<int>, from: int, to: int)
    requires asked != []
    ensures
      var (w', ok) := Ask(limit, interval, asked[0], w);
      Within(Allowed(limit, interval, w, asked), from, to)
      == (if ok && from <= asked[0] < to then 1 else 0) + Within(Allowed(limit, interval, w', asked[1..]), from, to)
  {
    var (w', ok) := Ask(limit, interval, asked[0], w);
    var rest := Allowed(limit, interval, w', asked[1..]);
    assert ([asked[0]] + rest)[1..] == rest;
  }

  /** A window allows no more than the limit, less what it has counted. */
  lemma {:induction false} WindowBound(limit: nat, interval: nat, w: Window, now: int,
                       asked: seq<int>, from: int, to: int)
    requires Monotonic(now, asked) && to <= w.start + interval
    ensures Within(Allowed(limit, interval, w, asked), from, to) <= Left(limit, w)
    decreases asked
  {
    if asked != [] {
      AllowedFirst(limit, interval, w, asked, from, to);
      var (w', ok) := Ask(limit, interval, asked[0], w);
      if asked[0] < w.start + interval {
        WindowBound(limit, interval, w', asked[0], asked[1..], from, to);
      } else {
        NoneBefore(limit, interval, w', asked[0], asked[1..], from, to);
      }
    }
  }

  /** Up to the end of the interval after the window, what the window has left and one
      more limit. */
  lemma {:induction false} TwoWindowsBound(limit: nat, interval: nat, w: Window, now: int,
                       asked: seq<int>, from: int, to: int)
    requires limit > 0 && Monotonic(now, asked) && to <= w.start + 2 * interval
    ensures Within(Allowed(limit, interval, w, asked), from, to) <= Left(limit, w) + limit
    decreases asked
  {
    if asked != [] {
      AllowedFirst(limit, interval, w, asked, from, to);
      var (w', ok) := Ask(limit, interval, asked[0], w);
      if asked[0] < w.start + interval {
        TwoWindowsBound(limit, interval, w', asked[0], asked[1..], from, to);
      } else {
        WindowBound(limit, interval, w', asked[0], asked[1..], from, to);
      }
    }
  }

  /** In any interval of the configured length, at most twice the limit. */
  lemma {:induction false} IntervalBound(limit: nat, interval: nat, w: Window, now: int, asked: seq<int>, from: int)
    requires limit > 0 && Monotonic(now, asked) && w.start <= now
    ensures Within(Allowed(limit, interval, w, asked), from, from + interval) <= 2 * limit
    decreases asked
  {
    if asked != [] {
      var to := from + interval;
      AllowedFirst(limit, interval, w, asked, from, to);
      var (w', ok) := Ask(limit, interval, asked[0], w);
      if asked[0] < from {
        IntervalBound(limit, interval, w', asked[0], asked[1..], from);
      } else if asked[0] < w.start + interval {
        TwoWindowsBound(limit, interval, w, now, asked, from, to);
      } else {
        WindowBound(limit, interval, w', asked[0], asked[1..], from, to);
      }
    }
  }

  /** The bound of one window is reached: as many respawns as the limit, all at once. */
  function Repeat(n: nat, t: int): seq<int> {
    if n == 0 then [] else [t] + Repeat(n - 1, t)
  }

  lemma {:induction false} WindowFills(limit: nat, interval: nat, w: Window, n: nat, t: int)
    requires w.start <= t < w.start + interval && n >= Left(limit, w)
    ensures Within(Allowed(limit, interval, w, Repeat(n, t)), t, t + 1) == Left(limit, w)
    decreases n
  {
    if n > 0 {
      var asked := Repeat(n, t);
      AllowedFirst(limit, interval, w, asked, t, t + 1);
      assert asked[1..] == Repeat(n - 1, t);
      WindowFills(limit, interval, Window(w.start, w.count + 1), n - 1, t);
    }
  }

  // ----- over a run of an instance -----

  function WindowOf(j: Job): Window {
    Window(j.respawnTime, j.respawnCount)
  }

  /** Whether a step is the death of a main process for which a respawn is asked. */
  predicate Asks(c: Class, j: Job, s: Step) {
    && s.Died? && s.p.ProcMain?
    && (j.state.Running? || j.state.Spawned? || j.state.PostStart? || j.state.PreStop?)
    && j.goal.GoalStart? && (s.status != 0 || !c.task) && s.status !in c.normalExit
    && c.respawn && !c.respawnDisabled && c.respawnLimit > 0 && c.respawnInterval > 0
  }

  /** Changing state leaves the respawn window alone, and a job told to stop stopping. */
  predicate Keeps(j: Job, j': Job) {
    WindowOf(j') == WindowOf(j) && (j.goal.GoalStop? ==> j'.goal.GoalStop?)
  }

  lemma NextStateKeeps(c: Class, j: Job)
    ensures var r := NextState(c, j); r.Chosen? ==> Keeps(j, r.job)
  {
  }

  lemma SpawnKeeps(c: Class, env: Env, j: Job, from: State, expected: State, p: Process, wanted: bool)
    ensures var r := Spawn(c, env, j, from, expected, p, wanted); r.Chosen? ==> Keeps(j, r.job)
    ensures var r := Arrive(c, j, from, expected, wanted); r.Chosen? ==> Keeps(j, r.job)
  {
    NextStateKeeps(c, j);
    NextStateKeeps(c, Started(c, env, j, p));
  }

  lemma EnterKeeps(c: Class, env: Env, from: State, j: Job)
    ensures var r := Enter(c, env, from, j); r.Chosen? ==> Keeps(j, r.job)
  {
    NextStateKeeps(c, j);
    match j.state {
      case SecuritySpawning => SpawnKeeps(c, env, j, from, Starting, ProcSecurity, c.RunsSecurity());
      case Security => SpawnKeeps(c, env, j, from, SecuritySpawning, ProcSecurity, c.RunsSecurity());
      case PreStarting => SpawnKeeps(c, env, j, from, Security, ProcPreStart, ProcPreStart in c.has);
      case PreStart => SpawnKeeps(c, env, j, from, PreStarting, ProcPreStart, ProcPreStart in c.has);
      case Spawning => SpawnKeeps(c, env, j, from, PreStart, ProcMain, ProcMain in c.has);
      case Spawned => SpawnKeeps(c, env, j, from, Spawning, ProcMain, ProcMain in c.has);
      case PostStarting => SpawnKeeps(c, env, j, from, Spawned, ProcPostStart, ProcPostStart in c.has);
      case PostStart => SpawnKeeps(c, env, j, from, PostStarting, ProcPostStart, ProcPostStart in c.has);
      case _ => EnterDownKeeps(c, env, from, j);
    }
  }

  lemma EnterDownKeeps(c: Class, env: Env, from: State, j: Job)
    requires Rank(j.state) <= 4 && !j.state.PostStart? && !j.state.PostStarting? && !j.state.Spawned?
    ensures var r := Enter(c, env, from, j); r.Chosen? ==> Keeps(j, r.job)
  {
    if j.state.PreStopping? || j.state.PostStopping? {
      EnterStoppingKeeps(c, env, from, j);
    } else if j.state.Killed? {
      EnterKilledKeeps(c, env, from, j);
    } else if j.state.PreStop? || j.state.PostStop? {
      EnterStopKeeps(c, env, from, j);
    }
  }

  lemma EnterStopKeeps(c: Class, env: Env, from: State, j: Job)
    requires j.state.PreStop? || j.state.PostStop?
    ensures var r := Enter(c, env, from, j); r.Chosen? ==> Keeps(j, r.job)
  {
    NextStateKeeps(c, j);
  }

  lemma EnterKilledKeeps(c: Class, env: Env, from: State, j: Job)
    requires j.state.Killed?
    ensures var r := Enter(c, env, from, j); r.Chosen? ==> Keeps(j, r.job)
  {
    NextStateKeeps(c, j);
    KillKeeps(c, env, j, ProcMain);
  }

  lemma EnterStoppingKeeps(c: Class, env: Env, from: State, j: Job)
    requires j.state.PreStopping? || j.state.PostStopping?
    ensures var r := Enter(c, env, from, j); r.Chosen? ==> Keeps(j, r.job)
  {
    NextStateKeeps(c, j);
    NextStateKeeps(c, Started(c, env, j, if j.state.PreStopping? then ProcPreStop else ProcPostStop));
  }

  lemma KillKeeps(c: Class, env: Env, j: Job, p: Process)
    ensures var o := Kill(c, env, j, p); o.Fine? ==> Keeps(j, o.job)
  {
  }

  lemma {:induction false} ChangeStateKeeps(c: Class, env: Env, j: Job, target: State)
    ensures var o := ChangeState(c, env, j, target); o.Fine? ==> Keeps(j, o.job)
    decreases Rank(target)
  {
    if j.state != target && !j.blocked {
      var entered := j.(state := target);
      EnterKeeps(c, env, j.state, entered);
      var r := Enter(c, env, j.state, entered);
      if r.Chosen? && r.next != target { ChangeStateKeeps(c, env, r.job, r.next); }
    }
  }

  lemma AdvanceKeeps(c: Class, env: Env, j: Job)
    ensures var o := Advance(c, env, j); o.Fine? ==> Keeps(j, o.job)
  {
    var n := NextState(c, j);
    NextStateKeeps(c, j);
    if n.Chosen? { ChangeStateKeeps(c, env, n.job, n.next); }
  }

  lemma ChangeGoalKeeps(c: Class, env: Env, j: Job, goal: Goal)
    ensures var o := ChangeGoal(c, env, j, goal);
      o.Fine? ==> WindowOf(o.job) == WindowOf(j) && (goal.GoalStop? ==> o.job.goal.GoalStop?)
  {
    AdvanceKeeps(c, env, j.(goal := goal));
  }

  lemma ConcludedKeeps(c: Class, env: Env, j: Job, stop: bool, advance: bool)
    ensures var o := Concluded(c, env, j, stop, advance);
      o.Fine? ==> WindowOf(o.job) == WindowOf(j) && (stop ==> o.job.goal.GoalStop?)
  {
    ChangeGoalKeeps(c, env, j, GoalStop);
    var o := if stop then ChangeGoal(c, env, j, GoalStop) else Fine(j);
    if o.Fine? { AdvanceKeeps(c, env, o.job); }
  }

  lemma ChildErrorKeeps(c: Class, env: Env, j: Job, p: Process)
    ensures var o := ChildErrorHandler(c, env, j, p); o.Fine? ==> WindowOf(o.job) == WindowOf(j)
  {
    var j1 := j.WithPid(p, 0);
    AdvanceKeeps(c, env, j1);
    var o := ChangeGoal(c, env, Failed(j1, Some(p), -1), GoalStop);
    ChangeGoalKeeps(c, env, Failed(j1, Some(p), -1), GoalStop);
    if o.Fine? { AdvanceKeeps(c, env, o.job); }
  }

  lemma SetupCompleteKeeps(c: Class, env: Env, j: Job, p: Process, status: int)
    ensures var o := SetupComplete(c, env, j, p, status); o.Fine? ==> WindowOf(o.job) == WindowOf(j)
  {
    AdvanceKeeps(c, env, j);
    var o := if j.state.Spawned? && c.expects.ExpectNone? && p.ProcMain? then Advance(c, env, j) else Fine(j);
    if o.Fine? && SpawningState(o.job.state) { SpawningTerminatedKeeps(c, env, o.job, p, status); }
  }

  lemma SpawningTerminatedKeeps(c: Class, env: Env, j: Job, p: Process, status: int)
    requires SpawningState(j.state)
    ensures forall stateOnly :: var o := Terminated(c, env, j, p, status, stateOnly);
      o.Fine? ==> WindowOf(o.job) == WindowOf(j)
  {
  }

  lemma TraceChildKeeps(c: Class, env: Env, j: Job, p: Process)
    ensures var o := TraceChild(c, env, j, p); o.Fine? ==> WindowOf(o.job) == WindowOf(j)
  {
    if LastFork(c, j, p) { AdvanceKeeps(c, env, Detached(j)); }
  }

  lemma MainVerdictWindow(c: Class, env: Env, j: Job, status: int)
    ensures
      var v, s := MainVerdict(c, env, j, status), Died(ProcMain, status);
      v.Verdict? ==>
        if Asks(c, j, s) then
          var (w, ok) := Ask(c.respawnLimit, c.respawnInterval, env.now, WindowOf(j));
          WindowOf(v.job) == w && v.stop == !ok
        else WindowOf(v.job) == WindowOf(j)
  {
    var (asked, runaway) := CatchRunaway(c, env.now, j);
    if Asks(c, j, Died(ProcMain, status)) {
      assert MainVerdict(c, env, j, status).stop == runaway;
    }
  }

  /** What a step must do to the window. */
  ghost predicate Steps(c: Class, env: Env, j: Job, s: Step, o: Outcome) {
    o.Fine? ==>
      if Asks(c, j, s) then
        var (w, ok) := Ask(c.respawnLimit, c.respawnInterval, env.now, WindowOf(j));
        WindowOf(o.job) == w && (!ok ==> o.job.goal.GoalStop?)
      else WindowOf(o.job) == WindowOf(j)
  }

  lemma VerdictWindow(c: Class, env: Env, j: Job, p: Process, status: int)
    ensures
      var v, s := TerminatedVerdict(c, env, j, p, status), Died(p, status);
      v.Verdict? ==>
        if Asks(c, j, s) then
          var (w, ok) := Ask(c.respawnLimit, c.respawnInterval, env.now, WindowOf(j));
          WindowOf(v.job) == w && v.stop == !ok
        else WindowOf(v.job) == WindowOf(j)
  {
    MainVerdictWindow(c, env, j, status);
  }

  lemma TerminatedWindow(c: Class, env: Env, j: Job, p: Process, status: int, o: Outcome)
    requires !SpawningState(j.state) && o == Terminated(c, env, j, p, status, false)
    ensures Steps(c, env, j, Died(p, status), o)
  {
    VerdictWindow(c, env, j, p, status);
    var v := TerminatedVerdict(c, env, j, p, status);
    if v.Verdict? {
      var r := Reaped(v.job, p, false);
      var k := if v.failed then Failed(r, Some(p), status) else r;
      ConcludedKeeps(c, env, k, v.stop, v.advance);
    }
  }

  lemma DiedWindow(c: Class, env: Env, j: Job, p: Process, status: int)
    ensures Steps(c, env, j, Died(p, status), Next(c, env, j, Died(p, status)))
  {
    var d := Decide(j, p);
    var o := Terminated(c, env, d, p, status, false);
    if SpawningState(j.state) {
      SpawningTerminatedKeeps(c, env, d, p, status);
    } else {
      TerminatedWindow(c, env, d, p, status, o);
    }
    assert Steps(c, env, d, Died(p, status), o);
  }

  /** The window changes when a respawn is asked for and at no other time; a job that
      asks too often is told to stop. */
  lemma NextWindow(c: Class, env: Env, j: Job, s: Step)
    ensures Steps(c, env, j, s, Next(c, env, j, s))
  {
    match s
    case StartCommand => CommandWindow(c, env, j, GoalStart);
    case StopCommand => CommandWindow(c, env, j, GoalStop);
    case RestartCommand => RestartWindow(c, env, j);
    case BlockerFinished => AdvanceKeeps(c, env, j.(blocked := false));
    case SetupDone(p) => SetupWindow(c, env, j, p);
    case SetupFailed(p) => SetupFailedWindow(c, env, j, p);
    case Died(p, status) => DiedWindow(c, env, j, p, status);
    case SigStopped(p) => StoppedWindow(c, env, j, p);
    case Trap(p, signal) => TrapWindow(c, env, j, p, signal);
    case Forked(p) => ForkWindow(c, env, j, p);
    case Execed(p) => ExecWindow(c, env, j, p);
    case KillTimerFires =>
  }

  predicate SameWindow(j: Job, o: Outcome) {
    o.Fine? ==> WindowOf(o.job) == WindowOf(j)
  }

  lemma CommandWindow(c: Class, env: Env, j: Job, goal: Goal)
    ensures SameWindow(j, Command(c, env, j, goal))
  {
    ChangeGoalKeeps(c, env, Finished(j, false), goal);
  }

  lemma RestartWindow(c: Class, env: Env, j: Job)
    ensures SameWindow(j, Restart(c, env, j))
  {
    var o := ChangeGoal(c, env, Finished(j, false), GoalStop);
    ChangeGoalKeeps(c, env, Finished(j, false), GoalStop);
    if o.Fine? { ChangeGoalKeeps(c, env, o.job, GoalStart); }
  }

  lemma SetupWindow(c: Class, env: Env, j: Job, p: Process)
    ensures SameWindow(j, CloseHandler(c, env, Decide(j, p), p))
  {
    var d := j.procs.Get(p).data;
    if d.Data? { SetupCompleteKeeps(c, env, Decide(j, p).WithData(p, Data(d.status, false)), p, d.status); }
  }

  lemma SetupFailedWindow(c: Class, env: Env, j: Job, p: Process)
    ensures SameWindow(j, ChildReader(c, env, Decide(j, p), p))
  {
    var d := j.procs.Get(p).data;
    if d.Data? { ChildErrorKeeps(c, env, Decide(j, p).WithData(p, Data(d.status, false)), p); }
  }

  lemma StoppedWindow(c: Class, env: Env, j: Job, p: Process)
    ensures SameWindow(j, ProcessStopped(c, env, j, p))
  {
    AdvanceKeeps(c, env, j);
  }

  lemma TrapWindow(c: Class, env: Env, j: Job, p: Process, signal: Trap)
    ensures SameWindow(j, Trapped(c, env, j, p, signal))
  {
    TraceChildKeeps(c, env, j, p);
  }

  lemma ExecWindow(c: Class, env: Env, j: Job, p: Process)
    ensures SameWindow(j, TraceExec(c, env, Decide(j, p), p))
  {
    AdvanceKeeps(c, env, Decide(j, p).(traceState := TraceNone));
  }

  lemma ForkWindow(c: Class, env: Env, j: Job, p: Process)
    ensures SameWindow(j, TraceFork(c, env, Decide(j, p), p))
  {
    if env.child.Some? {
      TraceChildKeeps(c, env, Decide(j, p).WithPid(p, env.child.value).(traceState := TraceNewChild), p);
    }
  }

  /** The times at which a run asks for a respawn, and those at which it is allowed. */
  ghost function AskedIn(c: Class, j: Job, run: seq<(Env, Step)>): seq<int>
    decreases run
  {
    if run == [] then []
    else
      var (env, s) := run[0];
      var o := Next(c, env, j, s);
      var rest := if o.Crash? then [] else AskedIn(c, o.job, run[1..]);
      if Asks(c, j, s) then [env.now] + rest else rest
  }

  ghost function AllowedIn(c: Class, j: Job, run: seq<(Env, Step)>): seq<int>
    decreases run
  {
    if run == [] then []
    else
      var (env, s) := run[0];
      var o := Next(c, env, j, s);
      var rest := if o.Crash? then [] else AllowedIn(c, o.job, run[1..]);
      if Asks(c, j, s) && !CatchRunaway(c, env.now, j).1 then [env.now] + rest else rest
  }

  /** The clock of a run never goes back. */
  ghost predicate ClockForward(now: int, run: seq<(Env, Step)>)
    decreases run
  {
    run != [] ==> now <= run[0].0.now && ClockForward(run[0].0.now, run[1..])
  }

  lemma MonotonicEarlier(now: int, later: int, times: seq<int>)
    requires now <= later && Monotonic(later, times)
    ensures Monotonic(now, times)
  {
  }

  lemma {:induction false} AskedMonotonic(c: Class, j: Job, run: seq<(Env, Step)>, now: int)
    requires ClockForward(now, run)
    ensures Monotonic(now, AskedIn(c, j, run))
    decreases run
  {
    if run != [] {
      var (env, s) := run[0];
      var o := Next(c, env, j, s);
      if o.Fine? {
        var rest := AskedIn(c, o.job, run[1..]);
        AskedMonotonic(c, o.job, run[1..], env.now);
        MonotonicEarlier(now, env.now, rest);
        assert ([env.now] + rest)[1..] == rest;
      } else {
        assert [env.now] + [] == [env.now] && [env.now][1..] == [];
      }
    }
  }

  lemma {:induction false} AllowedOfAsked(c: Class, j: Job, run: seq<(Env, Step)>)
    requires c.respawnLimit > 0 && c.respawnInterval > 0
    ensures AllowedIn(c, j, run) == Allowed(c.respawnLimit, c.respawnInterval, WindowOf(j), AskedIn(c, j, run))
    decreases run
  {
    if run != [] {
      var (env, s) := run[0];
      var o := Next(c, env, j, s);
      NextWindow(c, env, j, s);
      var rest: seq<int> := [];
      if o.Fine? {
        rest := AskedIn(c, o.job, run[1..]);
        AllowedOfAsked(c, o.job, run[1..]);
      }
      assert ([env.now] + rest)[1..] == rest;
    }
  }

  /** On every run of a new instance, whatever else happens, at most twice the limit of
      respawns are allowed within any interval of the configured length. */
  lemma RespawnBound(c: Class, run: seq<(Env, Step)>, from: int)
    requires c.respawnLimit > 0 && c.respawnInterval > 0 && ClockForward(0, run)
    ensures Within(AllowedIn(c, NewJob(), run), from, from + c.respawnInterval) <= 2 * c.respawnLimit
  {
    AllowedOfAsked(c, NewJob(), run);
    AskedMonotonic(c, NewJob(), run, 0);
    IntervalBound(c.respawnLimit, c.respawnInterval, WindowOf(NewJob()), 0, AskedIn(c, NewJob(), run), from);
  }
}
