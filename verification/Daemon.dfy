/** Everything that can happen to the daemon, in any order: commands, process events,
    polling, and classes coming, being replaced and going. */
module Daemon {
  import opened Options
  import opened EngineState
  import opened Engine
  import O = Operators
  import M = JobMachine
  import R = JobRuns
  import S = JobSafety
  import F = JobEffects

  /** What the outside world may do next. */
  datatype Action =
    | DoEmit(name: string, session: Option<nat>, message: Option<nat>)
    | DoStartClass(cls: nat, name: string, env: M.Env, message: Option<nat>)
    | DoRequest(job: nat, env: M.Env, goal: M.Goal, message: Option<nat>)
    | DoRestart(job: nat, env: M.Env, message: Option<nat>)
    | DoProcess(job: nat, env: M.Env, step: R.Step)
    | DoPoll(oracle: Oracle, fuel: nat)
    | DoAddClass(added: JobClass)
    | DoReplace(was: nat, now: nat, m: O.Matcher<nat>)
    | DoFreeClass(cls: nat)

  /** Whether that can happen: commands name jobs and classes that are there, processes do
      only what module JobRuns says they can, and only classes without instances go. */
  predicate CanHappen(engine: Engine, a: Action)
    reads engine
  {
    match a
    case DoEmit(_, _, _) => true
    case DoStartClass(c, _, _, _) => c < |engine.classes| && !engine.classes[c].freed
    case DoRequest(j, _, goal, _) => j < |engine.jobs| && !engine.jobs[j].gone && !goal.GoalRespawn?
    case DoRestart(j, _, _) => j < |engine.jobs| && !engine.jobs[j].gone
    case DoProcess(j, _, step) =>
      j < |engine.jobs| && !engine.jobs[j].gone && R.Enabled(engine.jobs[j].job, step) && F.ProcessStep(step)
    case DoPoll(_, _) => true
    case DoAddClass(k) =>
      && S.Safe(k.machine) && !k.freed
      && (k.startOn.Some? ==> O.Reset(k.startOn.value) == k.startOn.value)
      && (k.stopOn.Some? ==> O.Reset(k.stopOn.value) == k.stopOn.value)
    case DoReplace(was, now, _) => was < |engine.classes| && now < |engine.classes|
    case DoFreeClass(c) =>
      && c < |engine.classes| && !engine.classes[c].freed
      && forall j :: 0 <= j < |engine.jobs| && engine.jobs[j].cls == c ==> engine.jobs[j].gone
  }

  /** The caller that waits, if one does. */
  function Caller(message: Option<nat>): multiset<nat> {
    if message.Some? then multiset{message.value} else multiset{}
  }

  /** Who may come to wait by an action. */
  function Callers(a: Action): multiset<nat> {
    match a
    case DoEmit(_, _, message) => Caller(message)
    case DoStartClass(_, _, _, message) => Caller(message)
    case DoRequest(_, _, _, message) => Caller(message)
    case DoRestart(_, _, message) => Caller(message)
    case _ => multiset{}
  }

  /** Whether the action is carried out rather than refused. */
  predicate Granted(jobs: seq<Instance>, a: Action) {
    match a
    case DoEmit(name, _, _) => name != ""
    case DoStartClass(c, name, _, _) =>
      var j := InstanceFrom(jobs, c, name, 0);
      j < |jobs| ==> !jobs[j].job.goal.GoalStart?
    case DoRequest(j, _, goal, _) => j < |jobs| && jobs[j].job.goal != goal
    case DoRestart(j, _, _) => j < |jobs| && !jobs[j].job.goal.GoalStop?
    case _ => true
  }

  /** Who asked and was not refused. */
  function AskedBy(jobs: seq<Instance>, a: Action): multiset<nat> {
    if Granted(jobs, a) then Callers(a) else multiset{}
  }

  method RequestJob(engine: Engine, j: nat, env: M.Env, goal: M.Goal, message: Option<nat>)
    requires engine.Valid() && engine.FinishedFree()
    requires j < |engine.jobs| && !engine.jobs[j].gone && !goal.GoalRespawn?
    modifies engine
    ensures engine.Valid() && engine.FinishedFree()
    ensures EventsAged(old(engine.events), engine.events) && old(engine.replies) <= engine.replies
    ensures engine.asked ==
      old(engine.asked) + if old(engine.jobs)[j].job.goal != goal then Caller(message) else multiset{}
  {
    ghost var before := engine.events;
    var ok := engine.Request(j, env, goal, message);
    Kept(before, engine.events);
  }

  method RestartJob(engine: Engine, j: nat, env: M.Env, message: Option<nat>)
    requires engine.Valid() && engine.FinishedFree() && j < |engine.jobs| && !engine.jobs[j].gone
    modifies engine
    ensures engine.Valid() && engine.FinishedFree()
    ensures EventsAged(old(engine.events), engine.events) && old(engine.replies) <= engine.replies
    ensures engine.asked ==
      old(engine.asked) + if !old(engine.jobs)[j].job.goal.GoalStop? then Caller(message) else multiset{}
  {
    ghost var before := engine.events;
    var ok := engine.Restart(j, env, message);
    Kept(before, engine.events);
  }

  /** job_class_start: the instance of that name, found or new, is asked to start. */
  method StartClass(engine: Engine, c: nat, name: string, env: M.Env, message: Option<nat>)
    requires engine.Valid() && engine.FinishedFree() && c < |engine.classes| && !engine.classes[c].freed
    modifies engine
    ensures engine.Valid() && engine.FinishedFree()
    ensures EventsAged(old(engine.events), engine.events) && old(engine.replies) <= engine.replies
    ensures engine.asked == old(engine.asked) + AskedBy(old(engine.jobs), DoStartClass(c, name, env, message))
  {
    var j := engine.FindInstance(c, name);
    if j == |engine.jobs| { j := engine.NewInstance(c, name); }
    RequestJob(engine, j, env, M.GoalStart, message);
  }

  method EmitEvent(engine: Engine, name: string, session: Option<nat>, message: Option<nat>)
    requires engine.Valid() && engine.FinishedFree()
    modifies engine
    ensures engine.Valid() && engine.FinishedFree()
    ensures EventsAged(old(engine.events), engine.events) && old(engine.replies) <= engine.replies
    ensures engine.asked == old(engine.asked) + if name != "" then Caller(message) else multiset{}
  {
    var ok := engine.Emit(name, session, message);
  }

  /** What asks for nothing: a process event, polling, and classes that come and go. */
  method Others(engine: Engine, a: Action)
    requires engine.Valid() && engine.FinishedFree() && CanHappen(engine, a)
    requires a.DoProcess? || a.DoPoll? || a.DoAddClass? || a.DoReplace? || a.DoFreeClass?
    modifies engine
    ensures engine.Valid() && engine.FinishedFree()
    ensures EventsAged(old(engine.events), engine.events) && old(engine.replies) <= engine.replies
    ensures engine.asked == old(engine.asked)
  {
    ghost var before := engine.events;
    match a {
      case DoProcess(j, env, step) =>
        engine.ProcessEvent(j, env, step);
        Kept(before, engine.events);
      case DoPoll(oracle, fuel) =>
        var quiet := engine.Poll(oracle, fuel);
      case DoAddClass(k) => engine.AddClass(k);
      case DoReplace(was, now, m) =>
        engine.EventBlock(was, now, m);
        SameFinishedFree(before, engine.events);
      case DoFreeClass(c) =>
        engine.FreeClass(c);
        SameFinishedFree(before, engine.events);
    }
  }

  /** One thing happens: nothing that follows from it fails an assertion, everything is in
      step again, answers given stay given, and no event goes back. */
  method Happen(engine: Engine, a: Action)
    requires engine.Valid() && engine.FinishedFree() && CanHappen(engine, a)
    modifies engine
    ensures engine.Valid() && engine.FinishedFree()
    ensures EventsAged(old(engine.events), engine.events) && old(engine.replies) <= engine.replies
    ensures engine.asked == old(engine.asked) + AskedBy(old(engine.jobs), a)
  {
    assert engine.asked + multiset{} == engine.asked;
    match a {
      case DoEmit(name, session, message) => EmitEvent(engine, name, session, message);
      case DoStartClass(c, name, env, message) => StartClass(engine, c, name, env, message);
      case DoRequest(j, env, goal, message) => RequestJob(engine, j, env, goal, message);
      case DoRestart(j, env, message) => RestartJob(engine, j, env, message);
      case _ => Others(engine, a);
    }
  }

  lemma Kept(a: seq<Event>, b: seq<Event>)
    requires EventsKept(a, b) && forall e :: 0 <= e < |a| && !a[e].freed ==> !a[e].progress.Finished?
    ensures EventsAged(a, b) && forall e :: 0 <= e < |b| && !b[e].freed ==> !b[e].progress.Finished?
  {
    KeptStays(a, b);
    StaysFinishedFree(a, b);
  }

  lemma StaysFinishedFree(a: seq<Event>, b: seq<Event>)
    requires EventsStay(a, b) && forall e :: 0 <= e < |a| && !a[e].freed ==> !a[e].progress.Finished?
    ensures EventsAged(a, b) && forall e :: 0 <= e < |b| && !b[e].freed ==> !b[e].progress.Finished?
  {
    StayAged(a, b);
    forall e | 0 <= e < |b| && !b[e].freed ensures !b[e].progress.Finished? {
      if e < |a| { assert EventKept(a[e], b[e]); }
    }
  }

  lemma SameFinishedFree(a: seq<Event>, b: seq<Event>)
    requires SameButBlockers(a, b) && forall e :: 0 <= e < |a| && !a[e].freed ==> !a[e].progress.Finished?
    ensures EventsAged(a, b) && forall e :: 0 <= e < |b| && !b[e].freed ==> !b[e].progress.Finished?
  {
    SameStays(a, b);
    StaysFinishedFree(a, b);
  }

  // ----- any run -----

  function AllCallers(actions: seq<Action>): multiset<nat> {
    if actions == [] then multiset{}
    else AllCallers(actions[..|actions| - 1]) + Callers(actions[|actions| - 1])
  }

  /** Any actions, one after the other; those that cannot happen in their turn do not. */
  method Play(engine: Engine, actions: seq<Action>)
    requires engine.Valid() && engine.FinishedFree()
    modifies engine
    ensures engine.Valid() && engine.FinishedFree()
    ensures EventsAged(old(engine.events), engine.events) && old(engine.replies) <= engine.replies
    ensures old(engine.asked) <= engine.asked <= old(engine.asked) + AllCallers(actions)
  {
    for i := 0 to |actions|
      invariant engine.Valid() && engine.FinishedFree()
      invariant EventsAged(old(engine.events), engine.events) && old(engine.replies) <= engine.replies
      invariant old(engine.asked) <= engine.asked <= old(engine.asked) + AllCallers(actions[..i])
    {
      assert actions[..i + 1][..i] == actions[..i];
      if CanHappen(engine, actions[i]) {
        ghost var before := engine.events;
        Happen(engine, actions[i]);
        AgedThen(old(engine.events), before, engine.events);
      }
    }
    assert actions[..|actions|] == actions;
  }

  /** A caller that asks once on a run of the daemon from its start has one answer at the
      end or waits in one place, and never both; one that does not ask has none. */
  method Run(actions: seq<Action>) returns (engine: Engine)
    ensures engine.Valid() && engine.FinishedFree()
    ensures forall m :: Answers(engine.replies, m) <= engine.asked[m] <= AllCallers(actions)[m]
    ensures forall m :: engine.asked[m] == 1 ==>
      (Answers(engine.replies, m) == 1 <==> InEvents(engine.events, m) + InLists(engine.jobs, m) == 0)
  {
    engine := new Engine();
    Play(engine, actions);
    assert multiset{} + AllCallers(actions) == AllCallers(actions);
    forall m ensures Answers(engine.replies, m) <= engine.asked[m]
      && (engine.asked[m] == 1 ==>
            (Answers(engine.replies, m) == 1 <==> InEvents(engine.events, m) + InLists(engine.jobs, m) == 0))
    {
      assert Answered(engine.events, engine.jobs, engine.replies, engine.asked, m);
    }
  }
}
