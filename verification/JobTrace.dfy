/** The order in which one instance emits its events, starts and signals its
    processes and is freed, over every run: starting, at most one started,
    stopping, and then either starting again or stopped and freed. */
module JobTrace {
  import opened Options
  import opened JobMachine
  import opened JobSafety

  datatype Phase =
    | Idle              // nothing emitted yet
    | Up                // starting emitted
    | Live              // started emitted
    | Down              // stopping emitted
    | Killing           // and the kill signal sent to main
    | Forced            // and SIGKILL after it
    | Over              // stopped emitted
    | Gone              // instance freed

  predicate Falling(ph: Phase) {
    ph.Down? || ph.Killing? || ph.Forced?
  }

  /** The protocol, as an automaton over effects. */
  function Follow(ph: Phase, e: Effect): Option<Phase> {
    match e
    case Emits(StartingEvent, _) => if ph.Idle? || Falling(ph) then Some(Up) else None
    case Emits(StartedEvent, _) => if ph.Up? then Some(Live) else None
    case Emits(StoppingEvent, _) => if ph.Up? || ph.Live? then Some(Down) else None
    case Emits(StoppedEvent, _) => if Falling(ph) then Some(Over) else None
    case Spawns(p) =>
      var ok := match p
        case ProcPreStop => ph.Live?
        case ProcPostStop => Falling(ph)
        case _ => ph.Up?;
      if ok then Some(ph) else None
    case Signals(p, forced) =>
      if !p.ProcMain? then None
      else if forced then (if ph.Killing? then Some(Forced) else None)
      else if ph.Down? then Some(Killing) else None
    case Finishes(_) => if ph.Gone? then None else Some(ph)
    case Frees => if ph.Over? then Some(Gone) else None
  }

  function Track(outbox: seq<Effect>): Option<Phase> {
    if outbox == [] then Some(Idle)
    else
      match Track(outbox[..|outbox| - 1])
      case None => None
      case Some(ph) => Follow(ph, outbox[|outbox| - 1])
  }

  /** Which phases a job may be in, by its state. */
  predicate PhaseFits(s: State, timer: bool, freed: bool, ph: Phase) {
    match s
    case Waiting => if freed then ph.Gone? else ph.Idle?
    case Running => ph.Live? case PreStopping => ph.Live? case PreStop => ph.Live?
    case Stopping => ph.Down?
    case Killed => if timer then ph.Killing? else Falling(ph)
    case PostStopping => Falling(ph) case PostStop => Falling(ph)
    case _ => ph.Up?
  }

  predicate Fits(outbox: seq<Effect>, s: State, timer: bool, freed: bool) {
    Track(outbox).Some? && PhaseFits(s, timer, freed, Track(outbox).value)
  }

  predicate OnTrack(j: Job) {
    Fits(j.outbox, j.state, j.timer, j.freed)
  }

  lemma Sending(j: Job, e: Effect)
    ensures Track(j.Sends(e).outbox) ==
      match Track(j.outbox) { case None => None case Some(ph) => Follow(ph, e) }
  {
    assert (j.outbox + [e])[..|j.outbox|] == j.outbox;
  }

  ghost predicate EntersOnTrack(c: Class, env: Env, j: Job, target: State) {
    var r := Enter(c, env, j.state, j.(state := target));
    r.Chosen? ==> OnTrack(r.job.(state := target))
  }

  predicate CanEnter(j: Job, target: State) {
    Legal(j, target) && !j.freed && (j.timer ==> Leftover(j, target)) && OnTrack(j)
  }

  lemma EnterUpOnTrack(c: Class, env: Env, j: Job, target: State)
    requires CanEnter(j, target)
    requires target.SecuritySpawning? || target.PreStarting? || target.Spawning? || target.PostStarting?
    ensures EntersOnTrack(c, env, j, target)
  {
    var p := match target
      case SecuritySpawning => ProcSecurity
      case PreStarting => ProcPreStart
      case Spawning => ProcMain
      case _ => ProcPostStart;
    Sending(j.(state := target), Spawns(p));
  }

  lemma EnterPreStoppingOnTrack(c: Class, env: Env, j: Job)
    requires CanEnter(j, PreStopping)
    ensures EntersOnTrack(c, env, j, PreStopping)
  {
    Sending(j.(state := PreStopping), Spawns(ProcPreStop));
  }

  lemma EnterPostStoppingOnTrack(c: Class, env: Env, j: Job)
    requires CanEnter(j, PostStopping)
    ensures EntersOnTrack(c, env, j, PostStopping)
  {
    Sending(j.(state := PostStopping), Spawns(ProcPostStop));
  }

  lemma EnterKilledOnTrack(c: Class, env: Env, j: Job)
    requires CanEnter(j, Killed)
    ensures EntersOnTrack(c, env, j, Killed)
  {
    Sending(j.(state := Killed), Signals(ProcMain, false));
  }

  lemma EnterRestOnTrack(c: Class, env: Env, j: Job, target: State)
    requires CanEnter(j, target)
    requires target.Security? || target.PreStart? || target.Spawned?
           || target.PostStart? || target.PreStop? || target.PostStop?
    ensures EntersOnTrack(c, env, j, target)
  {
  }

  lemma EnterStartingOnTrack(c: Class, env: Env, j: Job)
    requires CanEnter(j, Starting)
    ensures EntersOnTrack(c, env, j, Starting)
  {
    Sending(j.(state := Starting), Emits(StartingEvent, NoResult));
  }

  lemma EnterStoppingOnTrack(c: Class, env: Env, j: Job)
    requires CanEnter(j, Stopping)
    ensures EntersOnTrack(c, env, j, Stopping)
  {
    AnnouncesStop(j, StopEnvironment(j.(state := Stopping)));
  }

  lemma AnnouncesStop(j: Job, r: StopResult)
    requires CanEnter(j, Stopping)
    ensures OnTrack(j.(state := Stopping, blocked := true).Sends(Emits(StoppingEvent, r)))
  {
    Sending(j.(state := Stopping, blocked := true), Emits(StoppingEvent, r));
  }

  lemma EnterRunningOnTrack(c: Class, env: Env, j: Job)
    requires CanEnter(j, Running)
    ensures EntersOnTrack(c, env, j, Running)
  {
    var k := j.(state := Running);
    if j.state.PreStop? {
      Sending(k, Finishes(false));
    } else {
      Sending(k, Emits(StartedEvent, NoResult));
      Sending(k.Sends(Emits(StartedEvent, NoResult)), Finishes(false));
    }
  }

  lemma EnterWaitingOnTrack(c: Class, env: Env, j: Job)
    requires CanEnter(j, Waiting)
    ensures EntersOnTrack(c, env, j, Waiting)
  {
    var k := j.(state := Waiting);
    var emitted := k.Sends(Emits(StoppedEvent, StopEnvironment(k)));
    Sending(k, Emits(StoppedEvent, StopEnvironment(k)));
    Sending(emitted, Finishes(false));
    Sending(Finished(emitted, false).(freed := true), Frees);
  }

  lemma EnterOnTrack(c: Class, env: Env, j: Job, target: State)
    requires CanEnter(j, target)
    ensures EntersOnTrack(c, env, j, target)
  {
    match target
    case Waiting => EnterWaitingOnTrack(c, env, j);
    case Starting => EnterStartingOnTrack(c, env, j);
    case Running => EnterRunningOnTrack(c, env, j);
    case Stopping => EnterStoppingOnTrack(c, env, j);
    case SecuritySpawning => EnterUpOnTrack(c, env, j, target);
    case PreStarting => EnterUpOnTrack(c, env, j, target);
    case Spawning => EnterUpOnTrack(c, env, j, target);
    case PostStarting => EnterUpOnTrack(c, env, j, target);
    case PreStopping => EnterPreStoppingOnTrack(c, env, j);
    case PostStopping => EnterPostStoppingOnTrack(c, env, j);
    case Killed => EnterKilledOnTrack(c, env, j);
    case _ => EnterRestOnTrack(c, env, j, target);
  }

  /** The state the loop goes on to is again one the protocol lets it enter. */
  lemma NextIsLegal(c: Class, env: Env, j: Job, target: State)
    requires MayEnter(j, target)
    ensures
      var r := Enter(c, env, j.state, j.(state := target));
      r.Chosen? && r.next != target ==> r.job.state == target && MayEnter(r.job, r.next)
  {
    if Rank(target) >= 5 {
      NextUpIsLegal(c, env, j, target);
    } else if target.Spawned? || target.PostStarting? || target.PostStart? {
      NextNearIsLegal(c, env, j, target);
    } else {
      NextDownIsLegal(c, env, j, target);
    }
  }

  /** What the entry assertions of a state, and the loop, ask of a job. */
  predicate MayEnter(j: Job, target: State) {
    Legal(j, target) && !j.freed && (j.timer ==> Leftover(j, target)) && !j.goal.GoalRespawn?
  }

  lemma NextUpIsLegal(c: Class, env: Env, j: Job, target: State)
    requires MayEnter(j, target) && Rank(target) >= 5
    ensures
      var r := Enter(c, env, j.state, j.(state := target));
      r.Chosen? && r.next != target ==> r.job.state == target && MayEnter(r.job, r.next)
  {
  }

  lemma NextNearIsLegal(c: Class, env: Env, j: Job, target: State)
    requires MayEnter(j, target) && (target.Spawned? || target.PostStarting? || target.PostStart?)
    ensures
      var r := Enter(c, env, j.state, j.(state := target));
      r.Chosen? && r.next != target ==> r.job.state == target && MayEnter(r.job, r.next)
  {
  }

  lemma NextDownIsLegal(c: Class, env: Env, j: Job, target: State)
    requires MayEnter(j, target) && Rank(target) < 5
    requires !target.Spawned? && !target.PostStarting? && !target.PostStart?
    ensures
      var r := Enter(c, env, j.state, j.(state := target));
      r.Chosen? && r.next != target ==> r.job.state == target && MayEnter(r.job, r.next)
  {
  }

  lemma {:induction false} ChangeStateOnTrack(c: Class, env: Env, j: Job, target: State)
    requires CanEnter(j, target) && !j.goal.GoalRespawn? && !j.blocked && j.state != target
    requires ChangeState(c, env, j, target).Fine?
    ensures OnTrack(ChangeState(c, env, j, target).job)
    decreases Rank(target)
  {
    EnterOnTrack(c, env, j, target);
    NextIsLegal(c, env, j, target);
    var r := Enter(c, env, j.state, j.(state := target));
    if r.next != target && !r.job.blocked {
      ChangeStateOnTrack(c, env, r.job, r.next);
    }
  }

  // ----- what the protocol bounds -----

  function Count(outbox: seq<Effect>, what: Effect -> bool): nat {
    if outbox == [] then 0
    else Count(outbox[..|outbox| - 1], what) + if what(outbox[|outbox| - 1]) then 1 else 0
  }

  predicate IsStopping(e: Effect) { e.Emits? && e.name.StoppingEvent? }
  predicate IsStarting(e: Effect) { e.Emits? && e.name.StartingEvent? }
  predicate IsStarted(e: Effect) { e.Emits? && e.name.StartedEvent? }
  predicate IsKill(e: Effect) { e.Signals? && !e.forced }
  predicate IsForcedKill(e: Effect) { e.Signals? && e.forced }
  predicate IsFree(e: Effect) { e.Frees? }

  /** Along the protocol, each stop sends at most one kill signal and each of those is
      followed by at most one SIGKILL; each start is announced at most once as done; and
      the instance is freed at most once. */
  lemma {:induction false} ProtocolCounts(outbox: seq<Effect>)
    requires Track(outbox).Some?
    ensures Count(outbox, IsForcedKill) <= Count(outbox, IsKill) <= Count(outbox, IsStopping)
    ensures Count(outbox, IsStarted) <= Count(outbox, IsStarting)
    ensures Count(outbox, IsFree) <= 1
    ensures
      var ph := Track(outbox).value;
      && (ph.Down? ==> Count(outbox, IsKill) < Count(outbox, IsStopping))
      && (ph.Killing? ==> Count(outbox, IsForcedKill) < Count(outbox, IsKill))
      && (ph.Up? ==> Count(outbox, IsStarted) < Count(outbox, IsStarting))
      && Count(outbox, IsFree) == (if ph.Gone? then 1 else 0)
  {
    if outbox != [] { ProtocolCounts(outbox[..|outbox| - 1]); }
  }
}
