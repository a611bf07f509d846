/** The event engine of init/event.c with the parts of init/job.c, init/job_class.c and
    init/control.c that block events and release them. */
module Engine {
  import opened Options
  import opened EngineState
  import O = Operators
  import M = JobMachine
  import R = JobRuns
  import S = JobSafety
  import F = JobEffects
  import W = Respawn

  /** Where a job takes a step while events are polled: an event stops it, or starts an
      instance of a class, or has finished and lets it go on.  Each comes at most once. */
  datatype Turn = StopTurn(event: nat, job: nat) | StartTurn(event: nat, cls: nat) | GoTurn(event: nat, job: nat)

  /** The answers from outside while events are polled: which events match the conditions
      of each job and of the classes, what the name of the instance expands to that an
      event starts of a class, if it does, and what the system answers at each turn. */
  datatype Oracle = Oracle(
    stops: nat -> O.Matcher<nat>, starts: O.Matcher<nat>, names: (nat, nat) -> Option<string>, env: Turn -> M.Env)

  /** A condition after an event: reset if the event made it TRUE. */
  function TreeAfter(t: Option<O.Tree<nat>>, e: nat, m: O.Matcher<nat>): Option<O.Tree<nat>> {
    if t.None? then None
    else
      var h := O.Handle(t.value, e, m);
      Some(if Fires(t, e, m) then O.Reset(h) else h)
  }

  /** The events collected from a condition that has been given an event. */
  ghost function CollectedBy(t: O.Tree<nat>, e: nat, m: O.Matcher<nat>): seq<nat> {
    var h := O.Handle(t, e, m);
    if O.Linked(h) then O.Collected(h) else []
  }

  lemma CollectedByMeans(t: O.Tree<nat>, e: nat, m: O.Matcher<nat>)
    requires O.Linked(t)
    ensures O.Linked(O.Handle(t, e, m)) && CollectedBy(t, e, m) == O.Collected(O.Handle(t, e, m))
  {
    O.HandleConsistent(t, e, m);
  }

  predicate Fires(t: Option<O.Tree<nat>>, e: nat, m: O.Matcher<nat>) {
    t.Some? && O.Hits(t.value, e, m) > 0 && O.Handle(t.value, e, m).value
  }

  /** An instance before and after an event that its stop condition may match. */
  ghost predicate StopSeen(was: Instance, now: Instance, e: nat, m: O.Matcher<nat>) {
    && now.cls == was.cls && !now.gone && now.stopOn == TreeAfter(was.stopOn, e, m)
    && (Fires(was.stopOn, e, m) ==> now.job.goal.GoalStop?)
  }

  ghost predicate StopKept(was: Instance, now: Instance) {
    now.cls == was.cls && (was.gone ==> now.gone) && (!now.gone ==> now.stopOn == was.stopOn)
  }

  ghost predicate AllStopKept(were: seq<Instance>, now: seq<Instance>) {
    |were| <= |now| && forall j :: 0 <= j < |were| ==> StopKept(were[j], now[j])
  }

  /** Any instance before and after: whether its condition has seen the event. */
  ghost predicate JobSeen(was: Instance, now: Instance, seen: bool, e: nat, m: O.Matcher<nat>) {
    && now.cls == was.cls && (was.gone ==> now.gone)
    && (!now.gone ==> now.stopOn == if seen then TreeAfter(was.stopOn, e, m) else was.stopOn)
  }

  /** An event of a session is for that session's classes only. */
  predicate Concerns(session: Option<nat>, k: JobClass) {
    !k.freed && (session.Some? ==> k.session == session)
  }

  /** A class among the first `handled` that the event concerns. */
  predicate Reached(classes: seq<JobClass>, session: Option<nat>, c: nat, handled: nat) {
    c < handled && c < |classes| && Concerns(session, classes[c])
  }

  /** What answers a list of holds when it is released. */
  function RepliesTo(b: seq<Hold>, failed: bool): seq<Reply> {
    if b == [] then []
    else (if b[0].HoldMethod? then [Reply(b[0].message, failed)] else []) + RepliesTo(b[1..], failed)
  }

  /** Just the callers among the holds are answered, each as the holds are released. */
  lemma {:induction false} RepliesMeans(b: seq<Hold>, failed: bool, r: Reply)
    ensures r in RepliesTo(b, failed) <==> r.failed == failed && HoldMethod(r.message) in b
  {
    if b != [] { RepliesMeans(b[1..], failed, r); }
  }

  /** An event once a job's holds `b` on it have been released. */
  ghost function ReleasedEvent(v: Event, e: nat, b: seq<Hold>, failed: bool): Event {
    var n := InBlocking(b, e);
    v.(blockers := if v.blockers >= n then v.blockers - n else 0, failed := v.failed || (failed && n > 0))
  }

  ghost predicate ReleasedEvents(before: seq<Event>, b: seq<Hold>, failed: bool, after: seq<Event>) {
    |after| == |before| && forall e :: 0 <= e < |after| ==> after[e] == ReleasedEvent(before[e], e, b, failed)
  }

  lemma ReleaseOneMore(v: Event, e: nat, b: seq<Hold>, failed: bool)
    requires b != []
    ensures ReleasedEvent(ReleasedEvent(v, e, b[..1], failed), e, b[1..], failed) == ReleasedEvent(v, e, b, failed)
  {
    assert b[..1] == [b[0]];
    BlockingOne(b[0], e);
  }

  // ----- what the effects of a job's step come to -----

  /** The effects that a step added to a job's outbox. */
  function Since(was: M.Job, next: M.Job): seq<M.Effect> {
    if |was.outbox| <= |next.outbox| then next.outbox[|was.outbox|..] else []
  }

  /** The events that effects of job `j` announce, in order. */
  function Announced(s: seq<M.Effect>, j: nat, session: Option<nat>): seq<Event> {
    if s == [] then []
    else Announced(s[..|s| - 1], j, session) + match s[|s| - 1] {
      case Emits(name, _) => [NewEvent(EventText(name), session, if Awaited(name) then [WaitingJob(j)] else [])]
      case _ => []
    }
  }

  /** What a job holds after a request that made it hold `b`: that, unless the change
      of goal has released it already. */
  function HeldAfter(was: M.Job, now: M.Job, b: seq<Hold>): seq<Hold> {
    if Release(Since(M.Finished(was, false), now)).Some? then [] else b
  }

  /** How the job's holds are released, if they are: the first release leaves none. */
  function Release(s: seq<M.Effect>): Option<bool> {
    if s == [] then None
    else
      var r := Release(s[..|s| - 1]);
      if r.None? && s[|s| - 1].Finishes? then Some(s[|s| - 1].failed) else r
  }

  /** The answers given to the callers among the holds `b`. */
  function Replied(s: seq<M.Effect>, b: seq<Hold>): seq<Reply> {
    var r := Release(s);
    if r.Some? then RepliesTo(b, r.value) else []
  }

  /** Before and after effects `s` of job `j`, which held `b`: an event has failed only if
      the job held it and failed it, those announced come at the end, and, the counts of
      blocks apart, that is all. */
  ghost predicate Told(before: seq<Event>, now: seq<Event>, s: seq<M.Effect>, b: seq<Hold>,
                       j: nat, session: Option<nat>) {
    var more := Announced(s, j, session);
    && |now| == |before| + |more|
    && (forall e :: 0 <= e < |before| ==>
          now[e].(blockers := 0) ==
            before[e].(blockers := 0, failed := before[e].failed || (Release(s) == Some(true) && InBlocking(b, e) > 0)))
    && (forall e :: |before| <= e < |now| ==> now[e].(blockers := 0) == more[e - |before|])
  }

  lemma OneEffect(effect: M.Effect, j: nat, session: Option<nat>)
    ensures Release([effect]) == if effect.Finishes? then Some(effect.failed) else None
    ensures Announced([effect], j, session) == match effect {
      case Emits(name, _) => [NewEvent(EventText(name), session, if Awaited(name) then [WaitingJob(j)] else [])]
      case _ => [] }
  {
    assert [effect][..0] == [];
    assert Announced([], j, session) == [] && Release([]).None?;
  }

  lemma {:induction false} EffectsAppend(a: seq<M.Effect>, b: seq<M.Effect>, j: nat, session: Option<nat>)
    ensures Announced(a + b, j, session) == Announced(a, j, session) + Announced(b, j, session)
    ensures Release(a + b) == if Release(a).Some? then Release(a) else Release(b)
  {
    if b == [] {
      assert a + b == a && Announced(b, j, session) == [];
    } else {
      var front := b[..|b| - 1];
      assert (a + b)[..|a + b| - 1] == a + front;
      EffectsAppend(a, front, j, session);
    }
  }

  lemma ToldThen(before: seq<Event>, mid: seq<Event>, now: seq<Event>, s: seq<M.Effect>, more: seq<M.Effect>,
                 b: seq<Hold>, j: nat, session: Option<nat>)
    requires Told(before, mid, s, b, j, session)
    requires Told(mid, now, more, if Release(s).Some? then [] else b, j, session)
    requires forall e :: e >= |before| ==> InBlocking(b, e) == 0
    ensures Told(before, now, s + more, b, j, session)
  {
    EffectsAppend(s, more, j, session);
    forall e | 0 <= e < |before|
      ensures now[e].(blockers := 0) ==
        before[e].(blockers := 0,
                   failed := before[e].failed || (Release(s + more) == Some(true) && InBlocking(b, e) > 0))
    {
      assert mid[e].(blockers := 0).failed == mid[e].failed;
    }
    forall e | |before| <= e < |now|
      ensures now[e].(blockers := 0) == Announced(s + more, j, session)[e - |before|]
    {
      if e < |mid| { assert mid[e].(blockers := 0).failed == mid[e].failed; }
    }
  }

  /** Events, a job's holds and the answers given, before and after effects of the job. */
  ghost predicate Effected(s: seq<M.Effect>, j: nat, session: Option<nat>,
                           before: (seq<Event>, seq<Hold>, seq<Reply>), now: (seq<Event>, seq<Hold>, seq<Reply>)) {
    && Told(before.0, now.0, s, before.1, j, session)
    && now.1 == (if Release(s).Some? then [] else before.1)
    && now.2 == before.2 + Replied(s, before.1)
  }

  lemma EmitEffected(name: M.EventName, result: M.StopResult, j: nat, session: Option<nat>,
                     before: (seq<Event>, seq<Hold>, seq<Reply>), events: seq<Event>)
    requires events == before.0 + [NewEvent(EventText(name), session, if Awaited(name) then [WaitingJob(j)] else [])]
    ensures Effected([M.Emits(name, result)], j, session, before, (events, before.1, before.2))
  {
    OneEffect(M.Emits(name, result), j, session);
    assert before.2 + [] == before.2;
  }

  lemma ReleaseEffected(failed: bool, j: nat, session: Option<nat>,
                        before: (seq<Event>, seq<Hold>, seq<Reply>), events: seq<Event>)
    requires ReleasedEvents(before.0, before.1, failed, events)
    ensures Effected([M.Finishes(failed)], j, session, before, (events, [], before.2 + RepliesTo(before.1, failed)))
  {
    OneEffect(M.Finishes(failed), j, session);
    forall e | 0 <= e < |events|
      ensures events[e].(blockers := 0) ==
        before.0[e].(blockers := 0, failed := before.0[e].failed || (failed && InBlocking(before.1, e) > 0))
    {
      assert events[e] == ReleasedEvent(before.0[e], e, before.1, failed);
    }
  }

  lemma QuietEffected(effect: M.Effect, j: nat, session: Option<nat>,
                      before: (seq<Event>, seq<Hold>, seq<Reply>), events: seq<Event>)
    requires !effect.Emits? && !effect.Finishes? && SameButBlockers(before.0, events)
    ensures Effected([effect], j, session, before, (events, before.1, before.2))
  {
    OneEffect(effect, j, session);
    assert before.2 + [] == before.2;
    forall e | 0 <= e < |events|
      ensures events[e].(blockers := 0) == before.0[e].(blockers := 0, failed := before.0[e].failed)
    {
      assert before.0[e].(blockers := 0) == events[e].(blockers := 0);
    }
  }

  lemma NotMarked(s: seq<M.Effect>, j: nat, session: Option<nat>, before: (seq<Event>, seq<Hold>, seq<Reply>),
                  now: (seq<Event>, seq<Hold>, seq<Reply>), e: nat)
    requires Effected(s, j, session, before, now) && e < |before.0|
    ensures before.2 <= now.2 && e < |now.0|
    ensures InBlocking(before.1, e) == 0 ==> now.0[e].failed == before.0[e].failed
  {
    assert now.0[e].(blockers := 0).failed == now.0[e].failed;
  }

  lemma NoEffects(j: nat, session: Option<nat>, before: (seq<Event>, seq<Hold>, seq<Reply>))
    ensures Effected([], j, session, before, before)
  {
    assert before.2 + [] == before.2;
  }

  lemma EffectedThen(s: seq<M.Effect>, more: seq<M.Effect>, j: nat, session: Option<nat>,
                     before: (seq<Event>, seq<Hold>, seq<Reply>), mid: (seq<Event>, seq<Hold>, seq<Reply>),
                     now: (seq<Event>, seq<Hold>, seq<Reply>))
    requires Effected(s, j, session, before, mid) && Effected(more, j, session, mid, now)
    requires forall e :: e >= |before.0| ==> InBlocking(before.1, e) == 0
    ensures Effected(s + more, j, session, before, now)
  {
    EffectsAppend(s, more, j, session);
    ToldThen(before.0, mid.0, now.0, s, more, before.1, j, session);
    assert before.2 + [] == before.2 && mid.2 + [] == mid.2;
  }

  lemma OneMoreEffected(s: seq<M.Effect>, i: nat, j: nat, session: Option<nat>,
                        before: (seq<Event>, seq<Hold>, seq<Reply>), mid: (seq<Event>, seq<Hold>, seq<Reply>),
                        now: (seq<Event>, seq<Hold>, seq<Reply>))
    requires i < |s| && Effected(s[..i], j, session, before, mid) && Effected([s[i]], j, session, mid, now)
    requires forall e :: e >= |before.0| ==> InBlocking(before.1, e) == 0
    ensures Effected(s[..i + 1], j, session, before, now)
  {
    assert s[..i + 1] == s[..i] + [s[i]];
    EffectedThen(s[..i], [s[i]], j, session, before, mid, now);
  }

  lemma SinceThen(a: M.Job, b: M.Job, c: M.Job)
    requires a.outbox <= b.outbox <= c.outbox
    ensures Since(a, b) + Since(b, c) == Since(a, c)
  {
  }

  class Engine {
    var events: seq<Event>
    var classes: seq<JobClass>
    var jobs: seq<Instance>
    var replies: seq<Reply>
    ghost var asked: multiset<nat>

    ghost predicate Core()
      reads this
    {
      InStep(events, classes, jobs, replies, asked)
    }

    /** In step, and every job is as its state machine says. */
    ghost predicate Valid()
      reads this
    {
      Core() && forall j :: 0 <= j < |jobs| ==> MachineOk(classes, jobs[j])
    }

    constructor ()
      ensures Valid() && events == [] && classes == [] && jobs == [] && replies == [] && asked == multiset{}
    {
      events, classes, jobs, replies, asked := [], [], [], [], multiset{};
    }

    // ----- releasing -----

    /** One entry of the loop of job_finished. */
    method ReleaseFirst(j: nat, failed: bool)
      requires Core() && j < |jobs| && jobs[j].blocking != []
      modifies this`events, this`jobs, this`replies
      ensures Core()
      ensures jobs == old(jobs)[j := old(jobs)[j].(blocking := old(jobs)[j].blocking[1..])]
      ensures replies == old(replies) + RepliesTo(old(jobs)[j].blocking[..1], failed)
      ensures ReleasedEvents(old(events), old(jobs)[j].blocking[..1], failed, events)
    {
      var b := jobs[j].blocking[0];
      assert jobs[j].blocking[..1] == [b] && [b][1..] == [];
      forall e ensures InBlocking([b], e) == (if b == HoldEvent(e) then 1 else 0) { BlockingOne(b, e); }
      match b {
        case HoldEvent(e) =>
          ReleaseEventKeeps(events, classes, jobs, replies, asked, j, failed);
          events := events[e := events[e].(failed := events[e].failed || failed, blockers := events[e].blockers - 1)];
        case HoldMethod(message) =>
          ReleaseMethodKeeps(events, classes, jobs, replies, asked, j, failed);
          replies := replies + [Reply(message, failed)];
      }
      jobs := jobs[j := jobs[j].(blocking := jobs[j].blocking[1..])];
    }

    /** job_finished: every hold of the job is released; the events it held are failed if
        it has, and every method call it held has its answer. */
    method JobFinished(j: nat, failed: bool)
      requires Core() && j < |jobs|
      modifies this`events, this`jobs, this`replies
      ensures Core()
      ensures jobs == old(jobs)[j := old(jobs)[j].(blocking := [])]
      ensures replies == old(replies) + RepliesTo(old(jobs)[j].blocking, failed)
      ensures ReleasedEvents(old(events), old(jobs)[j].blocking, failed, events)
    {
      ghost var all := jobs[j].blocking;
      ghost var events0, replies0 := events, replies;
      assert ReleasedEvents(events0, [], failed, events);
      while jobs[j].blocking != []
        invariant Core() && |jobs| == |old(jobs)| && |events| == |events0|
        invariant jobs == old(jobs)[j := old(jobs)[j].(blocking := jobs[j].blocking)]
        invariant replies + RepliesTo(jobs[j].blocking, failed) == replies0 + RepliesTo(all, failed)
        invariant forall e :: 0 <= e < |events| ==>
          ReleasedEvent(events[e], e, jobs[j].blocking, failed) == ReleasedEvent(events0[e], e, all, failed)
        decreases |jobs[j].blocking|
      {
        ghost var b, was := jobs[j].blocking, events;
        ReleaseFirst(j, failed);
        assert RepliesTo(b, failed) == RepliesTo(b[..1], failed) + RepliesTo(b[1..], failed) by {
          assert b[..1] == [b[0]] && [b[0]][1..] == [];
        }
        forall e | 0 <= e < |events|
          ensures ReleasedEvent(events[e], e, b[1..], failed) == ReleasedEvent(events0[e], e, all, failed)
        {
          ReleaseOneMore(was[e], e, b, failed);
        }
      }
    }

    // ----- blocking -----

    /** event_block for one more entry of a job's list. */
    method HoldEventFor(j: nat, e: nat)
      requires Core() && j < |jobs| && !jobs[j].gone && e < |events| && !events[e].freed
      modifies this`events, this`jobs
      ensures Core()
      ensures jobs == old(jobs)[j := old(jobs)[j].(blocking := old(jobs)[j].blocking + [HoldEvent(e)])]
      ensures SameButBlockers(old(events), events)
    {
      HoldEventKeeps(events, classes, jobs, replies, asked, j, e);
      events := events[e := events[e].(blockers := events[e].blockers + 1)];
      jobs := jobs[j := jobs[j].(blocking := jobs[j].blocking + [HoldEvent(e)])];
    }

    /** A method call that waits for the job. */
    method HoldMethodFor(j: nat, message: nat)
      requires Core() && j < |jobs| && !jobs[j].gone
      modifies this`jobs, this`asked
      ensures Core() && asked == old(asked) + multiset{message}
      ensures jobs == old(jobs)[j := old(jobs)[j].(blocking := old(jobs)[j].blocking + [HoldMethod(message)])]
    {
      HoldMethodKeeps(events, classes, jobs, replies, asked, j, message);
      jobs := jobs[j := jobs[j].(blocking := jobs[j].blocking + [HoldMethod(message)])];
      asked := asked + multiset{message};
    }

    /** The events of a filtered walk over a tree are held for the job. */
    method HoldAll(j: nat, list: seq<nat>)
      requires Core() && j < |jobs| && !jobs[j].gone
      requires forall e :: e in list ==> e < |events| && !events[e].freed
      modifies this`events, this`jobs
      ensures Core()
      ensures jobs == old(jobs)[j := old(jobs)[j].(blocking := old(jobs)[j].blocking + Holds(list))]
      ensures SameButBlockers(old(events), events)
    {
      assert old(jobs)[j].blocking + Holds(list[..0]) == old(jobs)[j].blocking;
      for i := 0 to |list|
        invariant Core() && SameButBlockers(old(events), events)
        invariant jobs == old(jobs)[j := old(jobs)[j].(blocking := old(jobs)[j].blocking + Holds(list[..i]))]
      {
        SameKept(old(events), events);
        assert list[i] in list && list[..i + 1][..i] == list[..i];
        HoldEventFor(j, list[i]);
        assert old(jobs)[j].blocking + (Holds(list[..i]) + [HoldEvent(list[i])])
            == old(jobs)[j].blocking + Holds(list[..i]) + [HoldEvent(list[i])];
      }
      assert list[..|list|] == list;
    }

    // ----- trees -----

    /** The blocks a tree holds are released, one event_unblock for each. */
    method UnblockTree(t: O.Tree<nat>)
      requires forall e :: O.Refs(t)[e] <= Blockers(events, e)
      modifies this`events
      ensures SameButBlockers(old(events), events)
      ensures forall e :: Blockers(events, e) == Blockers(old(events), e) - O.Refs(t)[e]
      decreases t
    {
      match t {
        case Match(_, _, _, event) =>
          if event.Some? {
            var e := event.value;
            assert O.Refs(t)[e] == 1 && Blockers(events, e) >= 1;
            events := events[e := events[e].(blockers := events[e].blockers - 1)];
          }
        case Node(_, _, left, right) =>
          ghost var l, r := O.Refs(left), O.Refs(right);
          assert forall e :: O.Refs(t)[e] == l[e] + r[e];
          UnblockTree(left);
          UnblockTree(right);
      }
    }

    /** event_operator_handle on a tree, with one event_block for each newly matched leaf. */
    method HandleTree(t: O.Tree<nat>, e: nat, m: O.Matcher<nat>) returns (t': O.Tree<nat>, ret: bool)
      requires e < |events| && !events[e].freed
      modifies this`events
      ensures t' == O.Handle(t, e, m) && ret == (O.Hits(t, e, m) > 0)
      ensures SameButBlockers(old(events), events)
      ensures forall d :: Blockers(events, d) == Blockers(old(events), d) + if d == e then O.Hits(t, e, m) else 0
      decreases t
    {
      match t {
        case Match(name, args, value, event) =>
          t', ret := t, false;
          if !value && m(name, args, e) {
            t', ret := t.(value := true, event := Some(e)), true;
            events := events[e := events[e].(blockers := events[e].blockers + 1)];
          }
        case Node(op, _, left, right) =>
          var l, lr := HandleTree(left, e, m);
          SameKept(old(events), events);
          var r, rr := HandleTree(right, e, m);
          t', ret := O.Node(op, O.Combine(op, l.value, r.value), l, r), lr || rr;
      }
    }

    // ----- what a job's step does to the rest -----

    /** job_emit_event: an event of the job, which the job waits for if it is one of those
        that it announces a change with. */
    method JobEmitEvent(j: nat, name: M.EventName)
      requires Core() && j < |jobs| && !jobs[j].gone && jobs[j].cls < |classes|
      requires Awaited(name) ==> jobs[j].blocker.None?
      modifies this`events, this`jobs
      ensures Core()
      ensures
        var text := match name
          case StartingEvent => "starting"
          case StartedEvent => "started"
          case StoppingEvent => "stopping"
          case StoppedEvent => "stopped";
        var waits := name == M.StartingEvent || name == M.StoppingEvent;
        events == old(events) + [NewEvent(text, classes[old(jobs)[j].cls].session,
                                          if waits then [WaitingJob(j)] else [])]
      ensures jobs == if Awaited(name) then old(jobs)[j := old(jobs)[j].(blocker := Some(|old(events)|))] else old(jobs)
    {
      var session := classes[jobs[j].cls].session;
      if Awaited(name) {
        EmitBlockingKeeps(events, classes, jobs, replies, asked, EventText(name), session, j);
        jobs := jobs[j := jobs[j].(blocker := Some(|events|))];
        events := events + [NewEvent(EventText(name), session, [WaitingJob(j)])];
      } else {
        EmitKeeps(events, classes, jobs, replies, asked, EventText(name), session, None);
        assert asked + multiset{} == asked;
        events := events + [NewEvent(EventText(name), session, [])];
      }
    }

    /** The instance is freed, and with it its stop condition and the blocks that holds. */
    method FreeJob(j: nat)
      requires Core() && j < |jobs| && !jobs[j].gone && jobs[j].blocking == [] && jobs[j].blocker.None?
      modifies this`events, this`jobs
      ensures Core()
      ensures jobs == old(jobs)[j := old(jobs)[j].(stopOn := None, gone := true)]
      ensures SameButBlockers(old(events), events)
      ensures forall e :: Blockers(events, e) == Blockers(old(events), e) - InTree(old(jobs)[j].stopOn, e)
    {
      ghost var before := events;
      if jobs[j].stopOn.Some? {
        TreeCovered(j);
        UnblockTree(jobs[j].stopOn.value);
      }
      StopTreeKeeps(before, events, classes, jobs, replies, asked, j, jobs[j].(stopOn := None, gone := true));
      jobs := jobs[j := jobs[j].(stopOn := None, gone := true)];
    }

    /** A job holds only events that exist. */
    lemma HoldsExist(j: nat)
      requires Core() && j < |jobs|
      ensures forall e :: e >= |events| ==> InBlocking(jobs[j].blocking, e) == 0
    {
      forall e | e >= |events| ensures InBlocking(jobs[j].blocking, e) == 0 {
        JobPart(jobs, j, e);
        assert Counted(events, classes, jobs, e);
      }
    }

    /** The blocks of a stop condition are all counted. */
    lemma TreeCovered(j: nat)
      requires Core() && j < |jobs| && jobs[j].stopOn.Some?
      ensures forall e :: O.Refs(jobs[j].stopOn.value)[e] <= Blockers(events, e)
    {
      forall e ensures O.Refs(jobs[j].stopOn.value)[e] <= Blockers(events, e) {
        JobPart(jobs, j, e);
        assert Counted(events, classes, jobs, e);
      }
    }

    ghost function SessionOf(j: nat): Option<nat>
      requires j < |jobs| && jobs[j].cls < |classes|
      reads this
    {
      classes[jobs[j].cls].session
    }

    /** One effect of a job's step. */
    method Apply(j: nat, effect: M.Effect)
      requires Core() && j < |jobs| && !jobs[j].gone && jobs[j].cls < |classes|
      requires F.Blocking(effect) ==> jobs[j].blocker.None?
      requires effect.Frees? ==> jobs[j].blocking == [] && jobs[j].blocker.None?
      modifies this`events, this`jobs, this`replies
      ensures Core() && EventsKept(old(events), events) && Others(old(jobs), j)
      ensures jobs[j].gone == effect.Frees? && (!effect.Frees? ==> jobs[j].stopOn == old(jobs)[j].stopOn)
      ensures jobs[j].blocker.Some? == (old(jobs)[j].blocker.Some? || F.Blocking(effect))
      ensures effect.Finishes? ==> jobs[j].blocking == []
      ensures Effected([effect], j, SessionOf(j), old((events, jobs[j].blocking, replies)),
                       (events, jobs[j].blocking, replies))
    {
      ghost var before := (events, jobs[j].blocking, replies);
      SameEventsKept(events, events);
      match effect {
        case Emits(name, result) =>
          JobEmitEvent(j, name);
          EmitEffected(name, result, j, SessionOf(j), before, events);
        case Finishes(failed) =>
          JobFinished(j, failed);
          ReleaseEffected(failed, j, SessionOf(j), before, events);
        case Frees =>
          FreeJob(j);
          SameEventsKept(old(events), events);
          QuietEffected(effect, j, SessionOf(j), before, events);
        case Spawns(_) => QuietEffected(effect, j, SessionOf(j), before, events);
        case Signals(_, _) => QuietEffected(effect, j, SessionOf(j), before, events);
      }
    }

    /** Only job `j` has changed, and nothing that its machine or its class is. */
    ghost predicate Others(before: seq<Instance>, j: nat)
      reads this
    {
      && |jobs| == |before| && j < |jobs|
      && (forall k :: 0 <= k < |jobs| && k != j ==> jobs[k] == before[k])
      && jobs[j].cls == before[j].cls && jobs[j].name == before[j].name && jobs[j].job == before[j].job
    }

    /** The effects of a job's step, in order. */
    method Settle(j: nat, s: seq<M.Effect>, ghost frees: bool)
      requires Core() && j < |jobs| && !jobs[j].gone && jobs[j].cls < |classes|
      requires F.FreesLast(s, frees) && F.BlockCount(s) <= 1
      requires jobs[j].blocker.Some? || frees ==> F.BlockCount(s) == 0
      requires frees ==> jobs[j].blocker.None?
      modifies this`events, this`jobs, this`replies
      ensures Core() && EventsKept(old(events), events) && Others(old(jobs), j)
      ensures jobs[j].gone == frees && (!frees ==> jobs[j].stopOn == old(jobs)[j].stopOn)
      ensures jobs[j].blocker.Some? == (old(jobs)[j].blocker.Some? || F.BlockCount(s) == 1)
      ensures Effected(s, j, SessionOf(j), old((events, jobs[j].blocking, replies)),
                       (events, jobs[j].blocking, replies))
    {
      ghost var start, session := (events, jobs[j].blocking, replies), SessionOf(j);
      HoldsExist(j);
      NoEffects(j, session, start);
      SameEventsKept(events, events);
      for i := 0 to |s|
        invariant SettledTo(i, j, s, frees, old(jobs), start.0)
        invariant session == SessionOf(j) && Effected(s[..i], j, session, start, (events, jobs[j].blocking, replies))
      {
        ghost var before := (events, jobs[j].blocking, replies);
        ApplyNext(i, j, s, frees, old(jobs), start.0);
        OneMoreEffected(s, i, j, session, start, before, (events, jobs[j].blocking, replies));
      }
      assert s[..|s|] == s;
    }

    /** The first `i` effects of job `j` have been carried out. */
    ghost predicate SettledTo(i: nat, j: nat, s: seq<M.Effect>, frees: bool,
                              were: seq<Instance>, start: seq<Event>)
      requires i <= |s|
      reads this
    {
      && Core() && EventsKept(start, events) && Others(were, j) && jobs[j].cls < |classes|
      && jobs[j].gone == (frees && i == |s|) && (!jobs[j].gone ==> jobs[j].stopOn == were[j].stopOn)
      && jobs[j].blocker.Some? == (were[j].blocker.Some? || F.BlockCount(s[..i]) > 0)
      && (0 < i && s[i - 1].Finishes? ==> jobs[j].blocking == [])
    }

    method ApplyNext(i: nat, j: nat, s: seq<M.Effect>, ghost frees: bool,
                     ghost were: seq<Instance>, ghost start: seq<Event>)
      requires i < |s| && SettledTo(i, j, s, frees, were, start)
      requires F.FreesLast(s, frees) && F.BlockCount(s) <= 1
      requires were[j].blocker.Some? || frees ==> F.BlockCount(s) == 0
      requires frees ==> were[j].blocker.None?
      modifies this`events, this`jobs, this`replies
      ensures SettledTo(i + 1, j, s, frees, were, start)
      ensures Effected([s[i]], j, SessionOf(j), old((events, jobs[j].blocking, replies)),
                       (events, jobs[j].blocking, replies))
    {
      assert s[..i + 1][..i] == s[..i];
      CountPrefix(s, i + 1);
      ghost var before := events;
      Apply(j, s[i]);
      EventsKeptThen(start, before, events);
    }

    // ----- steps of a job -----

    /** Every job but `j` is as its state machine says, and `j` is as far as the engine
        can tell. */
    ghost predicate OthersOk(j: nat)
      reads this
    {
      && Core() && j < |jobs| && !jobs[j].gone && !jobs[j].job.freed
      && jobs[j].blocker.Some? == jobs[j].job.blocked
      && forall k :: 0 <= k < |jobs| && k != j ==> MachineOk(classes, jobs[k])
    }

    /** Only job `j` has changed, and its machine is now `job`. */
    ghost predicate Became(before: seq<Instance>, j: nat, job: M.Job)
      reads this
    {
      && |jobs| == |before| && j < |jobs|
      && (forall k :: 0 <= k < |jobs| && k != j ==> jobs[k] == before[k])
      && jobs[j].cls == before[j].cls && jobs[j].name == before[j].name && jobs[j].job == job
      && (!jobs[j].gone ==> jobs[j].stopOn == before[j].stopOn)
    }

    function MachineOf(j: nat): M.Class
      requires j < |jobs| && jobs[j].cls < |classes|
      reads this
    {
      classes[jobs[j].cls].machine
    }

    /** A job takes a step of its machine, with all that the step does. */
    method Become(j: nat, next: M.Job)
      requires OthersOk(j) && jobs[j].cls < |classes| && R.Sound(MachineOf(j), next)
      requires F.Tidy(jobs[j].job, M.Fine(next))
      modifies this`events, this`jobs, this`replies
      ensures Valid() && EventsKept(old(events), events) && Became(old(jobs), j, next)
      ensures Effected(Since(old(jobs)[j].job, next), j, SessionOf(j),
                       old((events, jobs[j].blocking, replies)), (events, jobs[j].blocking, replies))
    {
      ghost var s :| F.Did(jobs[j].job, s, next);
      var effects := Since(jobs[j].job, next);
      assert effects == s;
      RecordKeeps(events, classes, jobs, replies, asked, j, next);
      jobs := jobs[j := jobs[j].(job := next)];
      ghost var before := jobs;
      Settle(j, effects, next.freed);
      forall k | 0 <= k < |jobs| ensures MachineOk(classes, jobs[k]) {
        if k != j { assert jobs[k] == before[k]; }
      }
    }

    /** A process event, as in init/job_process.c. */
    method ProcessEvent(j: nat, env: M.Env, step: R.Step)
      requires Valid() && j < |jobs| && !jobs[j].gone && R.Enabled(jobs[j].job, step) && F.ProcessStep(step)
      modifies this`events, this`jobs, this`replies
      ensures Valid() && EventsKept(old(events), events)
      ensures
        var o := R.Next(old(MachineOf(j)), env, old(jobs)[j].job, step);
        o.Fine? && Became(old(jobs), j, o.job)
        && Effected(Since(old(jobs)[j].job, o.job), j, SessionOf(j),
                    old((events, jobs[j].blocking, replies)), (events, jobs[j].blocking, replies))
    {
      assert MachineOk(classes, jobs[j]);
      R.NextSafe(MachineOf(j), env, jobs[j].job, step);
      F.StepTidy(MachineOf(j), env, jobs[j].job, step);
      var o := R.Next(MachineOf(j), env, jobs[j].job, step);
      Become(j, o.job);
    }

    /** job_change_goal. */
    method ChangeGoal(j: nat, env: M.Env, goal: M.Goal)
      requires Valid() && j < |jobs| && !jobs[j].gone && !goal.GoalRespawn?
      modifies this`events, this`jobs, this`replies
      ensures Valid() && EventsKept(old(events), events)
      ensures
        var o := M.ChangeGoal(old(MachineOf(j)), env, old(jobs)[j].job, goal);
        o.Fine? && Became(old(jobs), j, o.job)
        && Effected(Since(old(jobs)[j].job, o.job), j, SessionOf(j),
                    old((events, jobs[j].blocking, replies)), (events, jobs[j].blocking, replies))
      ensures old(jobs)[j].job.outbox <= jobs[j].job.outbox && old(replies) <= replies
      ensures goal.GoalStop? ==> !jobs[j].gone
    {
      assert MachineOk(classes, jobs[j]);
      R.ChangeGoalSafe(MachineOf(j), env, jobs[j].job, goal);
      if goal.GoalStop? { R.StopKeepsInstance(MachineOf(j), env, jobs[j].job); }
      F.ChangeGoalTidy(MachineOf(j), env, jobs[j].job, goal);
      var o := M.ChangeGoal(MachineOf(j), env, jobs[j].job, goal);
      Become(j, o.job);
      assert MachineOk(classes, jobs[j]);
    }

    /** What a new request to a job does first: whoever waited for it need not any more. */
    method Supersede(j: nat)
      requires Valid() && j < |jobs| && !jobs[j].gone
      modifies this`events, this`jobs, this`replies
      ensures Valid() && EventsKept(old(events), events) && Became(old(jobs), j, M.Finished(old(jobs)[j].job, false))
      ensures !jobs[j].gone && jobs[j].blocking == []
      ensures replies == old(replies) + RepliesTo(old(jobs)[j].blocking, false)
    {
      assert MachineOk(classes, jobs[j]);
      R.FinishedSafe(MachineOf(j), jobs[j].job, false);
      JobFinished(j, false);
      ReleasedKept(old(events), old(jobs)[j].blocking, false, events);
      RecordKeeps(events, classes, jobs, replies, asked, j, M.Finished(jobs[j].job, false));
      jobs := jobs[j := jobs[j].(job := M.Finished(jobs[j].job, false))];
      forall k | 0 <= k < |jobs| ensures MachineOk(classes, jobs[k]) {
        if k != j { assert MachineOk(classes, old(jobs)[k]); }
      }
    }

    /** Only the list of job `j` has changed. */
    lemma StillMachines(before: seq<Instance>, j: nat)
      requires Core() && |before| == |jobs| && j < |jobs|
      requires forall k :: 0 <= k < |before| ==> before[k].cls < |classes| && MachineOk(classes, before[k])
      requires jobs == before[j := before[j].(blocking := jobs[j].blocking, stopOn := jobs[j].stopOn)]
      ensures Valid()
    {
      forall k | 0 <= k < |jobs| ensures MachineOk(classes, jobs[k]) {
        assert MachineOk(classes, before[k]);
      }
    }

    /** What a request does first, and the caller then waits for the job if it asked to. */
    method SupersedeFor(j: nat, message: Option<nat>)
      requires Valid() && j < |jobs| && !jobs[j].gone
      modifies this`events, this`jobs, this`replies, this`asked
      ensures Valid() && EventsKept(old(events), events) && Became(old(jobs), j, M.Finished(old(jobs)[j].job, false))
      ensures !jobs[j].gone
      ensures jobs[j].blocking == Waits(message)
      ensures replies == old(replies) + RepliesTo(old(jobs)[j].blocking, false)
      ensures asked == old(asked) + if message.Some? then multiset{message.value} else multiset{}
    {
      Supersede(j);
      ghost var before := jobs;
      if message.Some? {
        HoldMethodFor(j, message.value);
        StillMachines(before, j);
      } else {
        assert asked + multiset{} == asked;
      }
    }

    static function Waits(message: Option<nat>): seq<Hold> {
      if message.Some? then [HoldMethod(message.value)] else []
    }

    /** job_start and job_stop: a request for the goal the job already has is refused;
        otherwise the caller may wait for the job. */
    method Request(j: nat, env: M.Env, goal: M.Goal, message: Option<nat>) returns (ok: bool)
      requires Valid() && j < |jobs| && !jobs[j].gone && !goal.GoalRespawn?
      modifies this`events, this`jobs, this`replies, this`asked
      ensures Valid() && EventsKept(old(events), events)
      ensures ok == (old(jobs)[j].job.goal != goal)
      ensures
        var o := R.Command(old(MachineOf(j)), env, old(jobs)[j].job, goal);
        o.Fine? && Became(old(jobs), j, o.job)
      ensures ok ==>
        && jobs[j].blocking == HeldAfter(old(jobs)[j].job, jobs[j].job, Waits(message))
        && replies == old(replies) + RepliesTo(old(jobs)[j].blocking, false)
                    + Replied(Since(M.Finished(old(jobs)[j].job, false), jobs[j].job), Waits(message))
      ensures !ok ==> events == old(events) && jobs == old(jobs) && replies == old(replies)
      ensures asked == old(asked) + if ok && message.Some? then multiset{message.value} else multiset{}
    {
      ok := jobs[j].job.goal != goal;
      if !ok {
        assert asked + multiset{} == asked;
        return;
      }
      ghost var start := events;
      SupersedeFor(j, message);
      ghost var mid := events;
      ChangeGoal(j, env, goal);
      EventsKeptThen(start, mid, events);
    }

    /** job_restart. */
    method Restart(j: nat, env: M.Env, message: Option<nat>) returns (ok: bool)
      requires Valid() && j < |jobs| && !jobs[j].gone
      modifies this`events, this`jobs, this`replies, this`asked
      ensures Valid() && EventsKept(old(events), events)
      ensures ok == !old(jobs)[j].job.goal.GoalStop?
      ensures
        var o := R.Restart(old(MachineOf(j)), env, old(jobs)[j].job);
        o.Fine? && Became(old(jobs), j, o.job)
      ensures ok ==>
        && jobs[j].blocking == HeldAfter(old(jobs)[j].job, jobs[j].job, Waits(message))
        && replies == old(replies) + RepliesTo(old(jobs)[j].blocking, false)
                    + Replied(Since(M.Finished(old(jobs)[j].job, false), jobs[j].job), Waits(message))
      ensures !ok ==> events == old(events) && jobs == old(jobs) && replies == old(replies)
      ensures asked == old(asked) + if ok && message.Some? then multiset{message.value} else multiset{}
    {
      ok := !jobs[j].job.goal.GoalStop?;
      if !ok {
        assert asked + multiset{} == asked;
        return;
      }
      ghost var start := events;
      SupersedeFor(j, message);
      ghost var mid := events;
      StopAndStart(j, env);
      EventsKeptThen(start, mid, events);
    }

    method StopAndStart(j: nat, env: M.Env)
      requires Valid() && j < |jobs| && !jobs[j].gone
      modifies this`events, this`jobs, this`replies
      ensures Valid() && EventsKept(old(events), events)
      ensures
        var c := old(MachineOf(j));
        var o := M.ChangeGoal(c, env, old(jobs)[j].job, M.GoalStop);
        o.Fine? && var p := M.ChangeGoal(c, env, o.job, M.GoalStart);
        p.Fine? && Became(old(jobs), j, p.job)
      ensures Effected(Since(old(jobs)[j].job, jobs[j].job), j, SessionOf(j),
                       old((events, jobs[j].blocking, replies)), (events, jobs[j].blocking, replies))
    {
      ghost var start, first, session := (events, jobs[j].blocking, replies), jobs[j].job, SessionOf(j);
      HoldsExist(j);
      ChangeGoal(j, env, M.GoalStop);
      ghost var mid, second := (events, jobs[j].blocking, replies), jobs[j].job;
      ChangeGoal(j, env, M.GoalStart);
      EventsKeptThen(start.0, mid.0, events);
      SinceThen(first, second, jobs[j].job);
      EffectedThen(Since(first, second), Since(second, jobs[j].job), j, session,
                   start, mid, (events, jobs[j].blocking, replies));
    }

    /** control_emit_event_with_file: an event, unless its name is empty, and perhaps a
        caller that waits for it. */
    method Emit(name: string, session: Option<nat>, message: Option<nat>) returns (ok: bool)
      requires Valid()
      modifies this`events, this`asked
      ensures Valid() && ok == (name != "")
      ensures events == old(events) + if !ok then []
        else [NewEvent(name, session, if message.Some? then [WaitingEmit(message.value)] else [])]
      ensures asked == old(asked) + if ok && message.Some? then multiset{message.value} else multiset{}
    {
      ok := name != "";
      if !ok {
        assert asked + multiset{} == asked;
        return;
      }
      EmitKeeps(events, classes, jobs, replies, asked, name, session, message);
      events := events + [NewEvent(name, session, if message.Some? then [WaitingEmit(message.value)] else [])];
      asked := asked + if message.Some? then multiset{message.value} else multiset{};
    }

    // ----- a pending event -----

    /** event_operator_handle on a job's stop condition. */
    method HandleStopOn(j: nat, e: nat, m: O.Matcher<nat>) returns (ret: bool)
      requires Valid() && j < |jobs| && !jobs[j].gone && jobs[j].stopOn.Some? && e < |events| && !events[e].freed
      modifies this`events, this`jobs
      ensures Valid() && SameButBlockers(old(events), events)
      ensures var t := old(jobs)[j].stopOn.value;
        && jobs == old(jobs)[j := old(jobs)[j].(stopOn := Some(O.Handle(t, e, m)))]
        && ret == (O.Hits(t, e, m) > 0)
    {
      ghost var before, instances := events, jobs;
      var t := jobs[j].stopOn.value;
      O.HandleConsistent(t, e, m);
      O.HandleRefs(t, e, m);
      var t';
      t', ret := HandleTree(t, e, m);
      StopTreeKeeps(before, events, classes, jobs, replies, asked, j, jobs[j].(stopOn := Some(t')));
      jobs := jobs[j := jobs[j].(stopOn := Some(t'))];
      StillMachines(instances, j);
    }

    /** event_operator_reset on a job's stop condition. */
    method ResetStopOn(j: nat)
      requires Valid() && j < |jobs| && !jobs[j].gone && jobs[j].stopOn.Some?
      modifies this`events, this`jobs
      ensures Valid() && SameButBlockers(old(events), events)
      ensures forall e :: Blockers(events, e) == Blockers(old(events), e) - InTree(old(jobs)[j].stopOn, e)
      ensures jobs == old(jobs)[j := old(jobs)[j].(stopOn := Some(O.Reset(old(jobs)[j].stopOn.value)))]
    {
      ghost var before, instances := events, jobs;
      var t := jobs[j].stopOn.value;
      TreeCovered(j);
      UnblockTree(t);
      O.ResetRefs(t);
      ResetLinked(t);
      StopTreeKeeps(before, events, classes, jobs, replies, asked, j, jobs[j].(stopOn := Some(O.Reset(t))));
      jobs := jobs[j := jobs[j].(stopOn := Some(O.Reset(t)))];
      StillMachines(instances, j);
    }

    /** A job changes its goal for the events of `list`, which it then holds. */
    method Turn(j: nat, env: M.Env, goal: M.Goal, list: seq<nat>)
      requires Valid() && j < |jobs| && !jobs[j].gone && !goal.GoalRespawn? && jobs[j].job.goal != goal
      requires forall e :: e in list ==> Blockers(events, e) > InBlocking(jobs[j].blocking, e)
      modifies this`events, this`jobs, this`replies
      ensures Valid() && EventsStay(old(events), events)
      ensures old(replies) <= replies
      ensures
        var o := R.Command(old(MachineOf(j)), env, old(jobs)[j].job, goal);
        o.Fine? && Became(old(jobs), j, o.job)
      ensures jobs[j].blocking == HeldAfter(old(jobs)[j].job, jobs[j].job, Holds(list))
      ensures goal.GoalStop? ==> !jobs[j].gone
    {
      ghost var start := events;
      SupersedeBy(j, list);
      ghost var mid := events;
      ChangeGoal(j, env, goal);
      KeptStays(mid, events);
      StaysThen(start, mid, events);
    }

    /** Whoever waited for the job need not any more; it holds the events of `list` now. */
    method SupersedeBy(j: nat, list: seq<nat>)
      requires Valid() && j < |jobs| && !jobs[j].gone
      requires forall e :: e in list ==> Blockers(events, e) > InBlocking(jobs[j].blocking, e)
      modifies this`events, this`jobs, this`replies
      ensures Valid() && EventsStay(old(events), events) && Became(old(jobs), j, M.Finished(old(jobs)[j].job, false))
      ensures !jobs[j].gone && jobs[j].blocking == Holds(list) && old(replies) <= replies
    {
      ghost var start := events;
      Supersede(j);
      ghost var before, mid := jobs, events;
      KeptStays(start, mid);
      forall e | e in list ensures e < |events| && !events[e].freed {
        assert EventKept(start[e], events[e]);
      }
      HoldAll(j, list);
      StillMachines(before, j);
      SameStays(mid, events);
      StaysThen(start, mid, events);
    }

    /** What a tree holds is held besides what a job's list holds. */
    lemma StopTreeCounted(j: nat)
      requires Core() && j < |jobs| && jobs[j].stopOn.Some?
      requires O.Linked(jobs[j].stopOn.value) && O.Consistent(jobs[j].stopOn.value)
      ensures forall e :: e in O.Collected(jobs[j].stopOn.value) ==>
        Blockers(events, e) > InBlocking(jobs[j].blocking, e)
    {
      var t := jobs[j].stopOn.value;
      O.CollectedWitness(t);
      forall e | e in O.Collected(t) ensures Blockers(events, e) > InBlocking(jobs[j].blocking, e) {
        assert e in multiset(O.Collected(t)) && O.Refs(t)[e] > 0;
        JobPart(jobs, j, e);
        assert Counted(events, classes, jobs, e);
      }
    }

    /** A pending event and one instance: a stop condition that it makes TRUE stops the
        job, which then holds the events collected, and is reset. */
    method HandleStop(j: nat, e: nat, m: O.Matcher<nat>, env: M.Env)
      requires Valid() && j < |jobs| && !jobs[j].gone && e < |events| && !events[e].freed
      modifies this`events, this`jobs, this`replies
      ensures Valid() && EventsStay(old(events), events) && |jobs| == |old(jobs)| && !jobs[j].gone
      ensures old(replies) <= replies
      ensures forall k :: 0 <= k < |jobs| && k != j ==> jobs[k] == old(jobs)[k]
      ensures StopSeen(old(jobs)[j], jobs[j], e, m)
      ensures
        var was := old(jobs)[j];
        var fires := was.stopOn.Some? && O.Hits(was.stopOn.value, e, m) > 0 && O.Handle(was.stopOn.value, e, m).value;
        && (was.stopOn.Some? ==>
              var t := O.Handle(was.stopOn.value, e, m);
              jobs[j].stopOn == Some(if fires then O.Reset(t) else t))
        && if fires && !was.job.goal.GoalStop?
        then
          && M.Fine(jobs[j].job) == R.Command(old(MachineOf(j)), env, was.job, M.GoalStop)
          && jobs[j].blocking ==
               HeldAfter(was.job, jobs[j].job, Holds(CollectedBy(was.stopOn.value, e, m)))
        else jobs[j] == was.(stopOn := jobs[j].stopOn)
    {
      ghost var start := events;
      SameStays(events, events);
      if jobs[j].stopOn.None? { return; }
      O.HandleConsistent(jobs[j].stopOn.value, e, m);
      var ret := HandleStopOn(j, e, m);
      SameStays(start, events);
      if !ret || !jobs[j].stopOn.value.value { return; }
      var t := jobs[j].stopOn.value;
      ghost var mid := events;
      if !jobs[j].job.goal.GoalStop? {
        StopTreeCounted(j);
        W.ChangeGoalKeeps(MachineOf(j), env, M.Finished(jobs[j].job, false), M.GoalStop);
        Turn(j, env, M.GoalStop, O.Collected(t));
        StaysThen(start, mid, events);
      }
      mid := events;
      ResetStopOn(j);
      SameStays(mid, events);
      StaysThen(start, mid, events);
    }

    /** event_operator_handle on a class's start condition. */
    method HandleStartOn(c: nat, e: nat, m: O.Matcher<nat>) returns (ret: bool)
      requires Valid() && c < |classes| && classes[c].startOn.Some? && e < |events| && !events[e].freed
      modifies this`events, this`classes
      ensures Valid() && SameButBlockers(old(events), events)
      ensures var t := old(classes)[c].startOn.value;
        && classes == old(classes)[c := old(classes)[c].(startOn := Some(O.Handle(t, e, m)))]
        && ret == (O.Hits(t, e, m) > 0)
    {
      ghost var before, were := events, classes;
      var t := classes[c].startOn.value;
      O.HandleConsistent(t, e, m);
      O.HandleRefs(t, e, m);
      var t';
      t', ret := HandleTree(t, e, m);
      StartTreeKeeps(before, events, classes, jobs, replies, asked, c, classes[c].(startOn := Some(t')));
      classes := classes[c := classes[c].(startOn := Some(t'))];
      SameMachines(were);
    }

    /** event_operator_reset on a class's start condition. */
    method ResetStartOn(c: nat)
      requires Valid() && c < |classes| && classes[c].startOn.Some?
      modifies this`events, this`classes
      ensures Valid() && SameButBlockers(old(events), events)
      ensures forall e :: Blockers(events, e) == Blockers(old(events), e) - InTree(old(classes)[c].startOn, e)
      ensures classes == old(classes)[c := old(classes)[c].(startOn := Some(O.Reset(old(classes)[c].startOn.value)))]
    {
      ghost var before, were := events, classes;
      var t := classes[c].startOn.value;
      StartTreeCovered(c);
      UnblockTree(t);
      O.ResetRefs(t);
      ResetLinked(t);
      StartTreeKeeps(before, events, classes, jobs, replies, asked, c, classes[c].(startOn := Some(O.Reset(t))));
      classes := classes[c := classes[c].(startOn := Some(O.Reset(t)))];
      SameMachines(were);
    }

    lemma StartTreeCovered(c: nat)
      requires Core() && c < |classes| && classes[c].startOn.Some?
      ensures forall e :: O.Refs(classes[c].startOn.value)[e] <= Blockers(events, e)
    {
      forall e ensures O.Refs(classes[c].startOn.value)[e] <= Blockers(events, e) {
        ClassPart(classes, c, e);
        assert Counted(events, classes, jobs, e);
      }
    }

    lemma StartTreeCounted(c: nat, j: nat)
      requires Core() && c < |classes| && j < |jobs| && classes[c].startOn.Some?
      requires O.Linked(classes[c].startOn.value) && O.Consistent(classes[c].startOn.value)
      ensures forall e :: e in O.Collected(classes[c].startOn.value) ==>
        Blockers(events, e) > InBlocking(jobs[j].blocking, e)
    {
      var t := classes[c].startOn.value;
      O.CollectedWitness(t);
      forall e | e in O.Collected(t) ensures Blockers(events, e) > InBlocking(jobs[j].blocking, e) {
        assert e in multiset(O.Collected(t)) && O.Refs(t)[e] > 0;
        JobPart(jobs, j, e);
        ClassPart(classes, c, e);
        assert Counted(events, classes, jobs, e);
      }
    }

    /** Classes whose machines are the same leave the jobs' machines in order. */
    lemma SameMachines(were: seq<JobClass>)
      requires Core() && |were| == |classes|
      requires forall c :: 0 <= c < |classes| ==> classes[c].machine == were[c].machine
      requires forall j :: 0 <= j < |jobs| ==> jobs[j].cls < |were| && MachineOk(were, jobs[j])
      ensures Valid()
    {
    }

    /** The instance of a class with a given name, or the number of jobs. */
    method FindInstance(c: nat, name: string) returns (j: nat)
      ensures j == InstanceFrom(jobs, c, name, 0)
    {
      j := 0;
      while j < |jobs|
        invariant j <= |jobs| && InstanceFrom(jobs, c, name, j) == InstanceFrom(jobs, c, name, 0)
      {
        if IsInstance(jobs[j], c, name) { return; }
        j := j + 1;
      }
    }

    /** job_new: an instance at rest, with its own copy of the class's stop condition. */
    method NewInstance(c: nat, name: string) returns (j: nat)
      requires Valid() && c < |classes| && !classes[c].freed
      modifies this`jobs
      ensures Valid() && j == |old(jobs)|
      ensures jobs == old(jobs) + [Instance(c, name, M.NewJob(), classes[c].stopOn, [], None, false)]
    {
      j := |jobs|;
      var i := Instance(c, name, M.NewJob(), classes[c].stopOn, [], None, false);
      assert ClassOk(classes[c]);
      R.NewbornSound(classes[c].machine, M.NewJob());
      NewInstanceKeeps(events, classes, jobs, replies, asked, i);
      ghost var before := jobs;
      jobs := jobs + [i];
      forall k | 0 <= k < |jobs| ensures MachineOk(classes, jobs[k]) {
        if k < |before| { assert MachineOk(classes, before[k]); }
      }
    }

    /** job_class_induct_job, for a start condition that is TRUE: the instance of that
        name is started for the events collected, unless it is starting or running. */
    method Induct(c: nat, name: string, env: M.Env) returns (j: nat)
      requires Valid() && c < |classes| && classes[c].startOn.Some? && O.Consistent(classes[c].startOn.value)
      modifies this`events, this`jobs, this`replies
      ensures Valid() && EventsStay(old(events), events)
      ensures old(replies) <= replies
      ensures j < |jobs| && |old(jobs)| <= |jobs| <= |old(jobs)| + 1 && jobs[j].cls == c && jobs[j].name == name
      ensures forall k :: 0 <= k < |old(jobs)| && k != j ==> jobs[k] == old(jobs)[k]
      ensures j < |old(jobs)| ==>
        && !old(jobs)[j].gone && jobs[j].cls == old(jobs)[j].cls
        && (!jobs[j].gone ==> jobs[j].stopOn == old(jobs)[j].stopOn)
      ensures j < |old(jobs)| && old(jobs)[j].job.goal.GoalStart? ==> jobs[j] == old(jobs)[j]
      ensures
        var was := if j < |old(jobs)| then old(jobs)[j].job else M.NewJob();
        && M.Fine(jobs[j].job) == R.Command(classes[c].machine, env, was, M.GoalStart)
        && (!was.goal.GoalStart? ==>
              jobs[j].blocking == HeldAfter(was, jobs[j].job, Holds(O.Collected(classes[c].startOn.value))))
    {
      assert ClassOk(classes[c]);
      j := FindInstance(c, name);
      if j == |jobs| { j := NewInstance(c, name); }
      StartFor(c, j, env);
    }

    /** The instance is asked to start for the events collected, unless it has been. */
    method StartFor(c: nat, j: nat, env: M.Env)
      requires Valid() && c < |classes| && classes[c].startOn.Some? && O.Consistent(classes[c].startOn.value)
      requires j < |jobs| && !jobs[j].gone && jobs[j].cls == c && O.Linked(classes[c].startOn.value)
      modifies this`events, this`jobs, this`replies
      ensures Valid() && EventsStay(old(events), events) && old(replies) <= replies
      ensures |jobs| == |old(jobs)| && Became(old(jobs), j, jobs[j].job)
      ensures old(jobs)[j].job.goal.GoalStart? ==> jobs == old(jobs)
      ensures M.Fine(jobs[j].job) == R.Command(classes[c].machine, env, old(jobs)[j].job, M.GoalStart)
      ensures !old(jobs)[j].job.goal.GoalStart? ==>
        jobs[j].blocking == HeldAfter(old(jobs)[j].job, jobs[j].job, Holds(O.Collected(classes[c].startOn.value)))
    {
      SameStays(events, events);
      if !jobs[j].job.goal.GoalStart? {
        StartTreeCounted(c, j);
        Turn(j, env, M.GoalStart, O.Collected(classes[c].startOn.value));
      }
    }

    /** A pending event and one class: a start condition that it makes TRUE starts an
        instance, if the name of that can be told, and is reset either way. */
    method HandleStart(c: nat, e: nat, m: O.Matcher<nat>, name: Option<string>, env: M.Env) returns (ok: bool)
      requires Valid() && c < |classes| && classes[c].startOn.Some? && e < |events| && !events[e].freed
      modifies this`events, this`classes, this`jobs, this`replies
      ensures Valid() && EventsStay(old(events), events)
      ensures old(replies) <= replies
      ensures
        var t := O.Handle(old(classes)[c].startOn.value, e, m);
        var starts := O.Hits(old(classes)[c].startOn.value, e, m) > 0 && t.value;
        && classes == old(classes)[c := old(classes)[c].(startOn := Some(if starts then O.Reset(t) else t))]
        && ok == !(starts && name.None?) && AllStopKept(old(jobs), jobs)
        && (!starts || name.None? ==> jobs == old(jobs))
        && (starts && name.Some? ==>
              exists j :: 0 <= j < |jobs| && jobs[j].cls == c && jobs[j].name == name.value
                          && Started(old(jobs), j, classes[c].machine, env,
                                     CollectedBy(old(classes)[c].startOn.value, e, m)))
    {
      ghost var start := events;
      O.HandleConsistent(classes[c].startOn.value, e, m);
      var ret := HandleStartOn(c, e, m);
      SameStays(start, events);
      if !ret || !classes[c].startOn.value.value { return true; }
      ghost var mid := events;
      ok := InductAndReset(c, name, env);
      StaysThen(start, mid, events);
    }

    /** job_class_induct_job: the condition is reset even if the instance has no name. */
    method InductAndReset(c: nat, name: Option<string>, env: M.Env) returns (ok: bool)
      requires Valid() && c < |classes| && classes[c].startOn.Some? && O.Consistent(classes[c].startOn.value)
      modifies this`events, this`classes, this`jobs, this`replies
      ensures Valid() && EventsStay(old(events), events)
      ensures old(replies) <= replies
      ensures classes == old(classes)[c := old(classes)[c].(startOn := Some(O.Reset(old(classes)[c].startOn.value)))]
      ensures ok == name.Some? && (!ok ==> jobs == old(jobs)) && AllStopKept(old(jobs), jobs)
      ensures ok ==>
        exists j :: 0 <= j < |jobs| && jobs[j].cls == c && jobs[j].name == name.value
                    && Started(old(jobs), j, classes[c].machine, env, old(O.Collected(classes[c].startOn.value)))
    {
      ghost var start := events;
      SameStays(start, events);
      ok := name.Some?;
      if ok {
        var j := Induct(c, name.value, env);
        assert Started(old(jobs), j, classes[c].machine, env, old(O.Collected(classes[c].startOn.value)));
      }
      ghost var mid := events;
      ResetStartOn(c);
      SameStays(mid, events);
      StaysThen(start, mid, events);
    }

    /** Job `j`, new or not, has been asked to start, and no other job has changed. */
    ghost predicate Started(before: seq<Instance>, j: nat, machine: M.Class, env: M.Env, list: seq<nat>)
      reads this
    {
      && j < |jobs| && |before| <= |jobs| <= |before| + 1
      && (forall k :: 0 <= k < |before| && k != j ==> jobs[k] == before[k])
      && (j < |before| ==>
          && !before[j].gone && jobs[j].cls == before[j].cls
          && (!jobs[j].gone ==> jobs[j].stopOn == before[j].stopOn))
      && var was := if j < |before| then before[j].job else M.NewJob();
         && M.Fine(jobs[j].job) == R.Command(machine, env, was, M.GoalStart)
         && (!was.goal.GoalStart? ==> jobs[j].blocking == HeldAfter(was, jobs[j].job, Holds(list)))
    }

    /** A pending event and the instances of one class. */
    method HandleStops(c: nat, e: nat, o: Oracle)
      requires Valid() && c < |classes| && e < |events| && !events[e].freed
      modifies this`events, this`jobs, this`replies
      ensures Valid() && EventsStay(old(events), events) && |jobs| == |old(jobs)|
      ensures old(replies) <= replies
      ensures forall j :: 0 <= j < |jobs| ==>
        if old(jobs)[j].cls != c || old(jobs)[j].gone then jobs[j] == old(jobs)[j]
        else StopSeen(old(jobs)[j], jobs[j], e, o.stops(j))
    {
      SameStays(events, events);
      for j := 0 to |jobs|
        invariant Valid() && EventsStay(old(events), events) && |jobs| == |old(jobs)| && old(replies) <= replies
        invariant forall k :: j <= k < |jobs| ==> jobs[k] == old(jobs)[k]
        invariant forall k :: 0 <= k < j ==>
          if old(jobs)[k].cls != c || old(jobs)[k].gone then jobs[k] == old(jobs)[k]
          else StopSeen(old(jobs)[k], jobs[k], e, o.stops(k))
      {
        if jobs[j].cls == c && !jobs[j].gone {
          ghost var before := events;
          HandleStop(j, e, o.stops(j), o.env(StopTurn(e, j)));
          StaysThen(old(events), before, events);
        }
      }
    }

    /** A pending event and one class that it concerns: first stopping, then starting. */
    method ClassPending(c: nat, e: nat, o: Oracle) returns (ok: bool)
      requires Valid() && c < |classes| && e < |events| && !events[e].freed
      modifies this`events, this`classes, this`jobs, this`replies
      ensures Valid() && EventsStay(old(events), events) && |old(jobs)| <= |jobs|
      ensures old(replies) <= replies
      ensures classes == old(classes)[c := old(classes)[c].(startOn := TreeAfter(old(classes)[c].startOn, e, o.starts))]
      ensures ok == !(Fires(old(classes)[c].startOn, e, o.starts) && o.names(e, c).None?)
      ensures forall j :: 0 <= j < |old(jobs)| ==>
        JobSeen(old(jobs)[j], jobs[j], old(jobs)[j].cls == c, e, o.stops(j))
    {
      ghost var start := events;
      HandleStops(c, e, o);
      ok := true;
      ghost var mid, seen := events, jobs;
      if classes[c].startOn.Some? {
        assert EventKept(start[e], events[e]);
        ok := HandleStart(c, e, o.starts, o.names(e, c), o.env(StartTurn(e, c)));
        StaysThen(start, mid, events);
      }
      forall j | 0 <= j < |old(jobs)|
        ensures JobSeen(old(jobs)[j], jobs[j], old(jobs)[j].cls == c, e, o.stops(j))
      {
        assert StopKept(seen[j], jobs[j]);
      }
    }

    /** event_pending: the event is handled by every class it concerns, up to the first
        whose instance to start has no name. */
    method EventPending(e: nat, o: Oracle) returns (handled: nat)
      requires Valid() && e < |events| && !events[e].freed && events[e].progress.Pending?
      modifies this`events, this`classes, this`jobs, this`replies
      ensures Valid() && EventsStay(old(events)[e := old(events)[e].(progress := Handling)], events)
      ensures old(replies) <= replies
      ensures handled <= |classes| == |old(classes)|
      ensures forall c :: 0 <= c < |classes| ==>
        var session, k := old(events)[e].session, old(classes)[c];
        classes[c] == if c < handled && !k.freed && (session.None? || k.session == session)
                      then k.(startOn := TreeAfter(k.startOn, e, o.starts)) else k
      ensures handled < |classes| ==>
        && handled > 0 && Concerns(old(events)[e].session, old(classes)[handled - 1])
        && Fires(old(classes)[handled - 1].startOn, e, o.starts) && o.names(e, handled - 1).None?
      ensures |old(jobs)| <= |jobs|
      ensures forall j :: 0 <= j < |old(jobs)| ==>
        JobSeen(old(jobs)[j], jobs[j], Reached(old(classes), old(events)[e].session, old(jobs)[j].cls, handled),
                e, o.stops(j))
    {
      EventRecordKeeps(events, classes, jobs, replies, asked, e, events[e].(progress := Handling));
      events := events[e := events[e].(progress := Handling)];
      ghost var start, session := events, events[e].session;
      SameStays(start, events);
      handled := 0;
      while handled < |classes|
        invariant Valid() && SeenSoFar(handled, e, o, start, old(classes), old(jobs), session)
        invariant old(replies) <= replies
      {
        var ok := NextClass(handled, e, o, start, old(classes), old(jobs), session);
        handled := handled + 1;
        if !ok { return; }
      }
    }

    /** What has happened so far to classes and instances. */
    ghost predicate SeenSoFar(handled: nat, e: nat, o: Oracle, start: seq<Event>,
                              were: seq<JobClass>, was: seq<Instance>, session: Option<nat>)
      reads this
    {
      && EventsStay(start, events) && handled <= |classes| == |were| && |was| <= |jobs|
      && (forall c :: 0 <= c < |classes| ==>
            classes[c] == if Reached(were, session, c, handled)
                          then were[c].(startOn := TreeAfter(were[c].startOn, e, o.starts))
                          else were[c])
      && (forall j :: 0 <= j < |was| ==>
            JobSeen(was[j], jobs[j], Reached(were, session, was[j].cls, handled), e, o.stops(j)))
    }

    /** The turn of one class in the loop over all. */
    method NextClass(c: nat, e: nat, o: Oracle, ghost start: seq<Event>,
                     ghost were: seq<JobClass>, ghost was: seq<Instance>, ghost session: Option<nat>)
      returns (ok: bool)
      requires Valid() && e < |start| && !start[e].freed && start[e].session == session && c < |classes|
      requires SeenSoFar(c, e, o, start, were, was, session)
      modifies this`events, this`classes, this`jobs, this`replies
      ensures Valid() && SeenSoFar(c + 1, e, o, start, were, was, session)
      ensures old(replies) <= replies
      ensures ok == !(Concerns(session, were[c]) && Fires(were[c].startOn, e, o.starts) && o.names(e, c).None?)
    {
      assert EventKept(start[e], events[e]);
      ok := true;
      ghost var mid, seen := events, jobs;
      if Concerns(events[e].session, classes[c]) {
        ok := ClassPending(c, e, o);
        StaysThen(start, mid, events);
      }
      forall j | 0 <= j < |was|
        ensures JobSeen(was[j], jobs[j], Reached(were, session, was[j].cls, c + 1), e, o.stops(j))
      {
        assert JobSeen(was[j], seen[j], Reached(were, session, was[j].cls, c), e, o.stops(j));
      }
    }

    // ----- a finished event -----

    /** The first waiter, a job, goes on. */
    method LetGo(e: nat, env: M.Env)
      requires Valid() && e < |events| && events[e].blocking != [] && events[e].blocking[0].WaitingJob?
      modifies this`events, this`jobs, this`replies
      ensures Valid()
      ensures EventsKept(old(events)[e := old(events)[e].(blocking := old(events)[e].blocking[1..])], events)
      ensures
        var j := old(events)[e].blocking[0].job;
        && j < |old(jobs)| && old(jobs)[j].cls < |classes| && R.Enabled(old(jobs)[j].job, R.BlockerFinished)
        && var o := R.Next(classes[old(jobs)[j].cls].machine, env, old(jobs)[j].job, R.BlockerFinished);
        && o.Fine? && Became(old(jobs), j, o.job)
      ensures old(replies) <= replies
      ensures old(events)[e].blockers == 0 ==> events[e].failed == old(events)[e].failed
    {
      var j := events[e].blocking[0].job;
      if events[e].blockers == 0 { NotHeld(e); }
      ghost var waiting := if j < |jobs| then jobs[j].job else M.NewJob();
      Unlink(e);
      GoOn(j, env, e, waiting);
    }

    /** A job that does not wait any more takes its next state; an event it does not hold
        cannot fail by that. */
    method GoOn(j: nat, env: M.Env, ghost e: nat, ghost waiting: M.Job)
      requires OthersOk(j) && jobs[j].cls < |classes| && e < |events|
      requires R.Sound(MachineOf(j), waiting) && !waiting.freed && waiting.blocked
      requires jobs[j].job == waiting.(blocked := false)
      modifies this`events, this`jobs, this`replies
      ensures Valid() && EventsKept(old(events), events)
      ensures
        var o := R.Next(old(MachineOf(j)), env, waiting, R.BlockerFinished);
        o.Fine? && Became(old(jobs), j, o.job)
      ensures old(replies) <= replies
      ensures InBlocking(old(jobs)[j].blocking, e) == 0 ==> events[e].failed == old(events)[e].failed
    {
      var was := jobs[j].job;
      GoesOn(MachineOf(j), env, waiting);
      var o := M.Advance(MachineOf(j), env, was);
      ghost var before := (events, jobs[j].blocking, replies);
      Become(j, o.job);
      NotMarked(Since(was, o.job), j, SessionOf(j), before, (events, jobs[j].blocking, replies), e);
    }

    /** No job holds an event that counts no blocks. */
    lemma NotHeld(e: nat)
      requires Core() && Blockers(events, e) == 0
      ensures forall j :: 0 <= j < |jobs| ==> InBlocking(jobs[j].blocking, e) == 0
    {
      assert Counted(events, classes, jobs, e);
      forall j | 0 <= j < |jobs| ensures InBlocking(jobs[j].blocking, e) == 0 { JobPart(jobs, j, e); }
    }

    /** The first waiter, a job, does not wait any more. */
    method Unlink(e: nat)
      requires Valid() && e < |events| && events[e].blocking != [] && events[e].blocking[0].WaitingJob?
      modifies this`events, this`jobs
      ensures events == old(events)[e := old(events)[e].(blocking := old(events)[e].blocking[1..])]
      ensures
        var j := old(events)[e].blocking[0].job;
        && j < |old(jobs)| && old(jobs)[j].cls < |classes| && OthersOk(j)
        && R.Sound(classes[old(jobs)[j].cls].machine, old(jobs)[j].job)
        && !old(jobs)[j].job.freed && old(jobs)[j].job.blocked
        && jobs == old(jobs)[j := old(jobs)[j].(blocker := None, job := old(jobs)[j].job.(blocked := false))]
    {
      var j := events[e].blocking[0].job;
      UnlinkKeeps(events, classes, jobs, replies, asked, e, j);
      assert MachineOk(classes, jobs[j]) && InstanceOk(classes, jobs[j]);
      var was := jobs[j].job;
      ghost var before := jobs;
      events := events[e := events[e].(blocking := events[e].blocking[1..])];
      jobs := jobs[j := jobs[j].(blocker := None)];
      RecordKeeps(events, classes, jobs, replies, asked, j, was.(blocked := false));
      jobs := jobs[j := jobs[j].(job := was.(blocked := false))];
      forall k | 0 <= k < |jobs| && k != j ensures MachineOk(classes, jobs[k]) {
        assert MachineOk(classes, before[k]);
      }
    }

    /** The first waiter, an emitter, has its answer. */
    method Answer(e: nat)
      requires Valid() && e < |events| && events[e].blocking != [] && events[e].blocking[0].WaitingEmit?
      modifies this`events, this`replies
      ensures Valid()
      ensures events == old(events)[e := old(events)[e].(blocking := old(events)[e].blocking[1..])]
      ensures replies == old(replies) + [Reply(old(events)[e].blocking[0].message, old(events)[e].failed)]
    {
      var message := events[e].blocking[0].message;
      AnswerKeeps(events, classes, jobs, replies, asked, e, message, events[e].failed);
      replies := replies + [Reply(message, events[e].failed)];
      events := events[e := events[e].(blocking := events[e].blocking[1..])];
    }

    /** event_finished: whoever waited for the event goes on or has its answer, a failed
        event is followed by one more unless it is itself such a one, and it is freed. */
    method EventFinished(e: nat, o: Oracle) returns (chained: Option<nat>)
      requires Valid() && e < |events| && !events[e].freed && events[e].progress.Finished? && events[e].blockers == 0
      modifies this`events, this`jobs, this`replies
      ensures Valid() && |old(events)| <= |events|
      ensures events[e].freed && events[e].blocking == [] && events[e].blockers == 0
      ensures forall d :: 0 <= d < |old(events)| && d != e ==> EventKept(old(events)[d], events[d])
      ensures forall d :: |old(events)| <= d < |events| ==> events[d].progress.Pending? && !events[d].freed
      ensures old(replies) <= replies
      ensures forall i :: 0 <= i < |old(events)[e].blocking| ==>
        GivenAnswer(old(events)[e].blocking[i], old(events)[e].failed, replies[|old(replies)|..])
      ensures chained.Some? <==> events[e].failed && !exists base: string :: events[e].name == base + "/failed"
      ensures chained.Some? ==>
        && |old(events)| <= chained.value < |events|
        && events[chained.value] == NewEvent(events[e].name + "/failed", events[e].session, [])
      ensures events[e].name == old(events)[e].name && events[e].failed == old(events)[e].failed
      ensures events[e].progress.Finished?
    {
      ghost var start := events;
      while events[e].blocking != []
        invariant Valid() && StillFinished(start, e) && AnsweredSoFar(start, old(replies), e)
        decreases |events[e].blocking|
      {
        LetNextGo(e, o, start, old(replies));
      }
      chained := None;
      FailureChainEnds(events[e].name);
      if events[e].failed && !IsFailure(events[e].name) {
        chained := Some(|events|);
        EmitKeeps(events, classes, jobs, replies, asked, events[e].name + FAILED, events[e].session, None);
        assert asked + multiset{} == asked;
        events := events + [NewEvent(events[e].name + FAILED, events[e].session, [])];
      }
      EventRecordKeeps(events, classes, jobs, replies, asked, e, events[e].(freed := true));
      events := events[e := events[e].(freed := true)];
    }

    /** An emitter that waited has been told whether the event failed. */
    static ghost predicate GivenAnswer(w: Waiter, failed: bool, answers: seq<Reply>) {
      w.WaitingEmit? ==> Reply(w.message, failed) in answers
    }

    /** Of those that waited when the event was finished, the first have their answers. */
    ghost predicate AnsweredSoFar(start: seq<Event>, were: seq<Reply>, e: nat)
      requires e < |start| <= |events|
      reads this
    {
      var n := |start[e].blocking| - |events[e].blocking|;
      && events[e].failed == start[e].failed && were <= replies
      && n >= 0 && events[e].blocking == start[e].blocking[n..]
      && forall i :: 0 <= i < n ==> GivenAnswer(start[e].blocking[i], start[e].failed, replies[|were|..])
    }

    /** The first waiter goes on, or has its answer. */
    method LetNextGo(e: nat, o: Oracle, ghost start: seq<Event>, ghost were: seq<Reply>)
      requires Valid() && StillFinished(start, e) && AnsweredSoFar(start, were, e) && events[e].blocking != []
      modifies this`events, this`jobs, this`replies
      ensures Valid() && StillFinished(start, e) && AnsweredSoFar(start, were, e)
      ensures |events[e].blocking| < |old(events)[e].blocking|
    {
      ghost var mid, given := events, replies;
      TakeTurn(e, o);
      OneLess(start, mid, e);
      OneMoreAnswered(start[e].blocking, mid[e].blocking, start[e].failed, were, given, replies);
    }

    method TakeTurn(e: nat, o: Oracle)
      requires Valid() && e < |events| && events[e].blocking != [] && events[e].blockers == 0
      modifies this`events, this`jobs, this`replies
      ensures Valid() && old(replies) <= replies
      ensures EventsKept(old(events)[e := old(events)[e].(blocking := old(events)[e].blocking[1..])], events)
      ensures events[e].failed == old(events)[e].failed
      ensures GivenAnswer(old(events)[e].blocking[0], old(events)[e].failed, replies[|old(replies)|..])
    {
      match events[e].blocking[0] {
        case WaitingJob(j) => LetGo(e, o.env(GoTurn(e, j)));
        case WaitingEmit(_) => Answer(e);
      }
    }

    lemma OneMoreAnswered(all: seq<Waiter>, left: seq<Waiter>, failed: bool,
                          were: seq<Reply>, given: seq<Reply>, now: seq<Reply>)
      requires left != [] && |left| <= |all| && left == all[|all| - |left|..]
      requires were <= given <= now && GivenAnswer(left[0], failed, now[|given|..])
      requires forall i :: 0 <= i < |all| - |left| ==> GivenAnswer(all[i], failed, given[|were|..])
      ensures left[1..] == all[|all| - |left| + 1..]
      ensures forall i :: 0 <= i < |all| - |left| + 1 ==> GivenAnswer(all[i], failed, now[|were|..])
    {
      assert now[|were|..] == given[|were|..] + now[|given|..];
    }

    /** The event is still being finished, and everything else about events is kept. */
    ghost predicate StillFinished(start: seq<Event>, e: nat)
      reads this
    {
      && e < |start| <= |events|
      && !events[e].freed && events[e].progress.Finished? && events[e].blockers == 0
      && events[e].name == start[e].name && (start[e].failed ==> events[e].failed)
      && (forall d :: 0 <= d < |start| && d != e ==> EventKept(start[d], events[d]))
      && (forall d :: |start| <= d < |events| ==> events[d].progress.Pending? && !events[d].freed)
    }

    lemma OneLess(start: seq<Event>, mid: seq<Event>, e: nat)
      requires e < |start| <= |mid| && mid[e].blocking != []
      requires !mid[e].freed && mid[e].progress.Finished? && mid[e].blockers == 0
      requires mid[e].name == start[e].name && (start[e].failed ==> mid[e].failed)
      requires forall d :: 0 <= d < |start| && d != e ==> EventKept(start[d], mid[d])
      requires forall d :: |start| <= d < |mid| ==> mid[d].progress.Pending? && !mid[d].freed
      requires EventsKept(mid[e := mid[e].(blocking := mid[e].blocking[1..])], events)
      ensures StillFinished(start, e) && events[e].blocking == mid[e].blocking[1..]
    {
      var less := mid[e := mid[e].(blocking := mid[e].blocking[1..])];
      assert EventKept(less[e], events[e]) && Blockers(events, e) <= Blockers(less, e);
      forall d | 0 <= d < |start| && d != e ensures EventKept(start[d], events[d]) {
        assert EventKept(less[d], events[d]);
      }
      forall d | |start| <= d < |events| ensures events[d].progress.Pending? && !events[d].freed {
        if d < |mid| { assert EventKept(less[d], events[d]); }
      }
    }

    // ----- polling -----

    /** Handled, and held up by someone. */
    predicate Settled(e: nat)
      requires e < |events|
      reads this
    {
      events[e].freed || (events[e].progress.Handling? && events[e].blockers > 0)
    }

    method MarkFinished(e: nat)
      requires Valid() && e < |events| && !events[e].freed
      modifies this`events
      ensures Valid() && events == old(events)[e := old(events)[e].(progress := Finished)]
    {
      EventRecordKeeps(events, classes, jobs, replies, asked, e, events[e].(progress := Finished));
      events := events[e := events[e].(progress := Finished)];
    }

    /** The switch of event_poll for one event; it is finished only when nothing holds it. */
    method Visit(e: nat, o: Oracle) returns (busy: bool)
      requires Valid() && e < |events| && !events[e].freed
      requires events[e].progress.Finished? ==> events[e].blockers == 0
      modifies this`events, this`classes, this`jobs, this`replies
      ensures Valid() && |old(events)| <= |events|
      ensures old(replies) <= replies
      ensures !busy ==> events == old(events) && classes == old(classes) && jobs == old(jobs) && replies == old(replies)
      ensures Settled(e) && EventsAged(old(events), events)
      ensures forall d :: 0 <= d < |events| && d != e ==>
        if d < |old(events)| then EventKept(old(events)[d], events[d]) else events[d].progress.Pending?
    {
      busy := false;
      if events[e].progress.Pending? {
        ghost var start := events[e := events[e].(progress := Handling)];
        var handled := EventPending(e, o);
        assert EventKept(start[e], events[e]);
        busy := true;
        forall d | 0 <= d < |old(events)| && d != e ensures EventKept(old(events)[d], events[d]) {
          assert EventKept(start[d], events[d]);
        }
      }
      if events[e].progress.Handling? {
        if events[e].blockers > 0 { return; }
        MarkFinished(e);
      }
      ghost var mid := events;
      var chained := EventFinished(e, o);
      busy := true;
      forall d | 0 <= d < |old(events)| && d != e ensures EventKept(old(events)[d], events[d]) {
        assert EventKept(mid[d], events[d]);
      }
    }

    /** Only events that nothing holds are ever left being finished. */
    ghost predicate FinishedFree()
      reads this
    {
      forall e :: 0 <= e < |events| && !events[e].freed ==> !events[e].progress.Finished?
    }

    /** event_poll, for at most `fuel` visits: what starts and stops may go on for ever. */
    method Poll(o: Oracle, fuel: nat) returns (quiet: bool)
      requires Valid() && FinishedFree()
      modifies this`events, this`classes, this`jobs, this`replies
      ensures Valid() && FinishedFree() && EventsAged(old(events), events) && old(replies) <= replies
      ensures quiet ==> forall e :: 0 <= e < |events| ==> Settled(e)
    {
      var left := fuel;
      quiet := false;
      while !quiet && left > 0
        invariant Valid() && FinishedFree() && EventsAged(old(events), events) && old(replies) <= replies
        invariant quiet ==> forall e :: 0 <= e < |events| ==> Settled(e)
        decreases left, !quiet
      {
        var i, more, again := 0, events != [], false;
        ghost var before := left;
        while more && left > 0
          invariant Valid() && FinishedFree() && EventsAged(old(events), events) && old(replies) <= replies
          invariant i <= |events| && (more ==> i < |events|) && (!more && !again ==> i == |events|)
          invariant !again ==> forall e :: 0 <= e < i ==> Settled(e)
          invariant if i == 0 then left == before && !again && more == (events != []) else left < before
          decreases left
        {
          left := left - 1;
          more := i + 1 < |events|;
          if !events[i].freed {
            ghost var was := events;
            var busy := Visit(i, o);
            AgedThen(old(events), was, events);
            again := again || busy;
            forall d | 0 <= d < |events| && !events[d].freed ensures !events[d].progress.Finished? {
              assert d == i || d >= |was| || EventKept(was[d], events[d]);
            }
          }
          i := i + 1;
        }
        if !more { quiet := !again; }
      }
    }

    // ----- classes -----

    /** job_class_new and the parser: a class whose conditions have seen nothing. */
    method AddClass(k: JobClass)
      requires Valid() && S.Safe(k.machine) && !k.freed
      requires k.startOn.Some? ==> O.Reset(k.startOn.value) == k.startOn.value
      requires k.stopOn.Some? ==> O.Reset(k.stopOn.value) == k.stopOn.value
      modifies this`classes
      ensures Valid() && classes == old(classes) + [k]
    {
      if k.startOn.Some? { ResetLinked(k.startOn.value); O.ResetRefs(k.startOn.value); }
      if k.stopOn.Some? { ResetLinked(k.stopOn.value); O.ResetRefs(k.stopOn.value); }
      NewClassKeeps(events, classes, jobs, replies, asked, k);
      ghost var were := classes;
      classes := classes + [k];
      forall j | 0 <= j < |jobs| ensures MachineOk(classes, jobs[j]) { assert MachineOk(were, jobs[j]); }
    }

    /** A class without instances is freed, and with it the blocks of its start condition. */
    method FreeClass(c: nat)
      requires Valid() && c < |classes| && !classes[c].freed
      requires forall j :: 0 <= j < |jobs| && jobs[j].cls == c ==> jobs[j].gone
      modifies this`events, this`classes
      ensures Valid() && SameButBlockers(old(events), events)
      ensures classes == old(classes)[c := old(classes)[c].(startOn := None, freed := true)]
      ensures forall e :: Blockers(events, e) == Blockers(old(events), e) - InTree(old(classes)[c].startOn, e)
    {
      ghost var before, were := events, classes;
      if classes[c].startOn.Some? {
        StartTreeCovered(c);
        UnblockTree(classes[c].startOn.value);
      }
      StartTreeKeeps(before, events, classes, jobs, replies, asked, c, classes[c].(startOn := None, freed := true));
      classes := classes[c := classes[c].(startOn := None, freed := true)];
      SameMachines(were);
    }

    /** One event of job_class_event_block: the leaves of a tree handle it, and its
        operators do not. */
    method HandleLeaves(t: O.Tree<nat>, e: nat, m: O.Matcher<nat>) returns (t': O.Tree<nat>)
      requires e < |events| && !events[e].freed
      modifies this`events
      ensures t' == LeavesHandled(t, e, m) && SameButBlockers(old(events), events)
      ensures forall d :: Blockers(events, d) == Blockers(old(events), d) + if d == e then O.Hits(t, e, m) else 0
      decreases t
    {
      match t {
        case Match(_, _, _, _) =>
          var ret;
          t', ret := HandleTree(t, e, m);
        case Node(op, value, left, right) =>
          var l := HandleLeaves(left, e, m);
          SameKept(old(events), events);
          var r := HandleLeaves(right, e, m);
          t' := O.Node(op, value, l, r);
      }
    }

    /** job_class_event_block: what the start condition of a class that is replaced holds
        is offered to that of the class that replaces it, so that an event both wait for
        is not finished in between. */
    method EventBlock(was: nat, now: nat, m: O.Matcher<nat>)
      requires Valid() && was < |classes| && now < |classes|
      modifies this`events, this`classes
      ensures Valid() && SameButBlockers(old(events), events)
      ensures forall e :: Blockers(events, e) >= Blockers(old(events), e)
      ensures
        if old(classes)[was].startOn.None? || old(classes)[now].startOn.None?
           || (exists j :: 0 <= j < |jobs| && jobs[j].cls == was && !jobs[j].gone)
        then classes == old(classes)
        else
          var list := EventsOf(old(classes)[was].startOn.value);
          classes == old(classes)[now :=
            old(classes)[now].(startOn := Some(AllLeavesHandled(old(classes)[now].startOn.value, list, m)))]
    {
      var used := false;
      for j := 0 to |jobs|
        invariant used <==> exists k :: 0 <= k < j && jobs[k].cls == was && !jobs[k].gone
      {
        if jobs[j].cls == was && !jobs[j].gone { used := true; }
      }
      if classes[was].startOn.None? || classes[now].startOn.None? || used { return; }
      var list := EventsOf(classes[was].startOn.value);
      ghost var were := classes;
      for i := 0 to |list|
        invariant Valid() && SameButBlockers(old(events), events)
        invariant forall e :: Blockers(events, e) >= Blockers(old(events), e)
        invariant classes == were[now :=
          were[now].(startOn := Some(AllLeavesHandled(were[now].startOn.value, list[..i], m)))]
      {
        assert list[..i + 1][..i] == list[..i];
        EventsOfRefs(were[was].startOn.value, list[i]);
        assert Blockers(old(events), list[i]) > 0 by {
          ClassPart(were, was, list[i]);
          assert Counted(old(events), were, jobs, list[i]);
        }
        ghost var mid := events;
        Offer(now, list[i], m);
        SameButThen(old(events), mid, events);
      }
      assert list[..|list|] == list;
    }

    /** One event is offered to the leaves of a class's start condition. */
    method Offer(c: nat, e: nat, m: O.Matcher<nat>)
      requires Valid() && c < |classes| && classes[c].startOn.Some? && Blockers(events, e) > 0
      modifies this`events, this`classes
      ensures Valid() && SameButBlockers(old(events), events)
      ensures forall d :: Blockers(events, d) >= Blockers(old(events), d)
      ensures classes == old(classes)[c :=
        old(classes)[c].(startOn := Some(LeavesHandled(old(classes)[c].startOn.value, e, m)))]
    {
      ghost var before, were := events, classes;
      var t := classes[c].startOn.value;
      assert ClassOk(classes[c]);
      LeavesRefs(t, e, m);
      var t' := HandleLeaves(t, e, m);
      StartTreeKeeps(before, events, classes, jobs, replies, asked, c, classes[c].(startOn := Some(t')));
      classes := classes[c := classes[c].(startOn := Some(t'))];
      SameMachines(were);
    }

    // ----- what being in step means -----

    /** A job awaits an event exactly when it is starting or stopping; the event is there,
        and the job stands in its list, once, and in no other. */
    lemma BlockerLink(j: nat)
      requires Valid() && j < |jobs| && !jobs[j].gone
      ensures jobs[j].blocker.Some? <==> jobs[j].job.state.Starting? || jobs[j].job.state.Stopping?
      ensures jobs[j].blocker.Some? ==>
        var e := jobs[j].blocker.value;
        && e < |events| && !events[e].freed
        && exists i :: 0 <= i < |events[e].blocking| && events[e].blocking[i] == WaitingJob(j)
                       && OnlyThere(j, e, i)
    {
      assert MachineOk(classes, jobs[j]);
      if jobs[j].blocker.Some? {
        var e := jobs[j].blocker.value;
        var i :| 0 <= i < |events[e].blocking| && events[e].blocking[i] == WaitingJob(j);
        assert Listed(events, jobs, e, i);
        forall d, k | 0 <= d < |events| && 0 <= k < |events[d].blocking| && events[d].blocking[k] == WaitingJob(j)
          ensures d == e && k == i
        {
          assert Listed(events, jobs, d, k);
        }
        assert OnlyThere(j, e, i);
      }
    }

    ghost predicate OnlyThere(j: nat, e: nat, i: nat)
      reads this
    {
      forall d, k :: 0 <= d < |events| && 0 <= k < |events[d].blocking| && events[d].blocking[k] == WaitingJob(j) ==>
        d == e && k == i
    }

    /** No operator and no job refers to an event that has been freed, and an event that
        something holds is alive. */
    lemma NoDanglingHold(e: nat)
      requires Valid() && InJobs(jobs, e) + InClasses(classes, e) > 0
      ensures e < |events| && !events[e].freed && events[e].blockers == InJobs(jobs, e) + InClasses(classes, e)
    {
      assert Counted(events, classes, jobs, e);
    }
  }

  // ----- helpers -----

  lemma GoesOn(c: M.Class, env: M.Env, waiting: M.Job)
    requires S.CanSetTimer(c) && R.Sound(c, waiting) && !waiting.freed && waiting.blocked
    ensures
      var was := waiting.(blocked := false);
      var o := M.Advance(c, env, was);
      o.Fine? && R.Sound(c, o.job) && F.Tidy(was, o) && R.Next(c, env, waiting, R.BlockerFinished) == o
  {
    F.AdvanceTidy(c, env, waiting.(blocked := false));
    R.BlockerFinishedSafe(c, env, waiting);
  }

  predicate IsInstance(i: Instance, c: nat, name: string) {
    i.cls == c && i.name == name && !i.gone
  }

  /** The first instance of a class with a given name, from `j` on. */
  function InstanceFrom(jobs: seq<Instance>, c: nat, name: string, j: nat): (r: nat)
    requires j <= |jobs|
    ensures j <= r <= |jobs| && (r < |jobs| ==> IsInstance(jobs[r], c, name))
    ensures forall k :: j <= k < r ==> !IsInstance(jobs[k], c, name)
    decreases |jobs| - j
  {
    if j == |jobs| || IsInstance(jobs[j], c, name) then j else InstanceFrom(jobs, c, name, j + 1)
  }

  function LeavesHandled(t: O.Tree<nat>, e: nat, m: O.Matcher<nat>): O.Tree<nat> {
    match t
    case Match(_, _, _, _) => O.Handle(t, e, m)
    case Node(op, value, left, right) => O.Node(op, value, LeavesHandled(left, e, m), LeavesHandled(right, e, m))
  }

  /** Handling by leaves alone is all that handling does exactly if it leaves every
      operator in agreement with its children. */
  lemma {:induction false} LeavesConsistentIff(t: O.Tree<nat>, e: nat, m: O.Matcher<nat>)
    ensures O.Consistent(LeavesHandled(t, e, m)) <==> LeavesHandled(t, e, m) == O.Handle(t, e, m)
  {
    O.HandleConsistent(t, e, m);
    if t.Node? {
      LeavesConsistentIff(t.left, e, m);
      LeavesConsistentIff(t.right, e, m);
    }
  }

  /** The value a node has once its leaves have handled an event. */
  predicate ValueAfter(t: O.Tree<nat>, e: nat, m: O.Matcher<nat>) {
    t.value || (t.Match? && m(t.name, t.args, e))
  }

  /** No operator of the tree would become TRUE: none whose children newly matched leaves
      would make so. */
  predicate Undisturbed(t: O.Tree<nat>, e: nat, m: O.Matcher<nat>) {
    match t
    case Match(_, _, _, _) => true
    case Node(op, value, left, right) =>
      Undisturbed(left, e, m) && Undisturbed(right, e, m)
      && (op.And? && ValueAfter(left, e, m) && ValueAfter(right, e, m) ==> value)
      && (op.Or? && (ValueAfter(left, e, m) || ValueAfter(right, e, m)) ==> value)
  }

  /** A consistent tree stays consistent exactly if the event makes no operator TRUE. */
  lemma {:induction false} LeavesStayConsistentIff(t: O.Tree<nat>, e: nat, m: O.Matcher<nat>)
    requires O.Consistent(t)
    ensures O.Consistent(LeavesHandled(t, e, m)) <==> Undisturbed(t, e, m)
    ensures LeavesHandled(t, e, m).value == ValueAfter(t, e, m)
  {
    if t.Node? {
      LeavesStayConsistentIff(t.left, e, m);
      LeavesStayConsistentIff(t.right, e, m);
    }
  }

  /** One event that satisfies either of two is enough to leave an "or" behind. */
  lemma LeavesDisagree(e: nat)
    ensures
      var t := O.Node(O.Or, false, O.Match("a", [], false, None), O.Match("b", [], false, None));
      var m: O.Matcher<nat> := (name, args, d) => name == "a";
      O.Consistent(t) && !O.Consistent(LeavesHandled(t, e, m))
  {
  }

  function AllLeavesHandled(t: O.Tree<nat>, list: seq<nat>, m: O.Matcher<nat>): O.Tree<nat> {
    if list == [] then t
    else LeavesHandled(AllLeavesHandled(t, list[..|list| - 1], m), list[|list| - 1], m)
  }

  /** The events the leaves of a tree hold, in order. */
  function EventsOf(t: O.Tree<nat>): seq<nat> {
    match t
    case Match(_, _, _, event) => if event.Some? then [event.value] else []
    case Node(_, _, left, right) => EventsOf(left) + EventsOf(right)
  }

  lemma {:induction false} EventsOfRefs(t: O.Tree<nat>, e: nat)
    requires e in EventsOf(t)
    ensures O.Refs(t)[e] > 0
  {
    if t.Node? {
      if e in EventsOf(t.left) { EventsOfRefs(t.left, e); } else { EventsOfRefs(t.right, e); }
    }
  }

  lemma {:induction false} LeavesRefs(t: O.Tree<nat>, e: nat, m: O.Matcher<nat>)
    requires O.Linked(t)
    ensures O.Linked(LeavesHandled(t, e, m))
    ensures O.Refs(LeavesHandled(t, e, m)) == O.Refs(t) + O.Copies(e, O.Hits(t, e, m))
  {
    if t.Node? {
      LeavesRefs(t.left, e, m);
      LeavesRefs(t.right, e, m);
    }
  }

  lemma SameButThen(a: seq<Event>, b: seq<Event>, c: seq<Event>)
    requires SameButBlockers(a, b) && SameButBlockers(b, c)
    ensures SameButBlockers(a, c)
  {
  }

  const FAILED: string := "/failed"

  /** The last part of the name, from its last slash, is that of a failure event. */
  predicate IsFailure(name: string) {
    |name| >= |FAILED| && name[|name| - |FAILED|..] == FAILED
  }

  /** Just the names that end in "/failed" are those of failure events, so that a failed
      event of any other name is followed by one, and chains have one link. */
  lemma FailureChainEnds(name: string)
    ensures IsFailure(name) <==> exists base: string :: name == base + "/failed"
    ensures IsFailure(name + "/failed")
  {
    if IsFailure(name) {
      var base := name[..|name| - 7];
      assert name == base + "/failed";
    }
    forall base: string | name == base + "/failed" ensures IsFailure(name) {
      assert name[|base|..] == "/failed";
    }
    assert (name + "/failed")[|name|..] == "/failed";
  }

  lemma SameStays(a: seq<Event>, b: seq<Event>)
    requires SameButBlockers(a, b)
    ensures EventsStay(a, b)
  {
    forall e | 0 <= e < |a| ensures EventKept(a[e], b[e]) {
      assert a[e].(blockers := 0) == b[e].(blockers := 0);
    }
  }

  lemma KeptStays(a: seq<Event>, b: seq<Event>)
    requires EventsKept(a, b)
    ensures EventsStay(a, b)
  {
  }

  lemma StaysThen(a: seq<Event>, b: seq<Event>, c: seq<Event>)
    requires EventsStay(a, b) && EventsStay(b, c)
    ensures EventsStay(a, c)
  {
    forall e | 0 <= e < |a| ensures EventKept(a[e], c[e]) {
      assert EventKept(a[e], b[e]) && EventKept(b[e], c[e]);
    }
    forall e | |a| <= e < |c| ensures c[e].progress.Pending? && !c[e].freed {
      if e < |b| { assert EventKept(b[e], c[e]); }
    }
  }

  lemma ResetLinked(t: O.Tree<nat>)
    ensures O.Linked(O.Reset(t)) && O.Consistent(O.Reset(t))
  {
    if t.Node? { ResetLinked(t.left); ResetLinked(t.right); }
  }

  lemma ReleasedKept(a: seq<Event>, held: seq<Hold>, failed: bool, b: seq<Event>)
    requires ReleasedEvents(a, held, failed, b)
    ensures EventsKept(a, b)
  {
  }

  /** The events a job waits for. */
  predicate Awaited(name: M.EventName) {
    name.StartingEvent? || name.StoppingEvent?
  }

  function EventText(name: M.EventName): string {
    match name
    case StartingEvent => "starting"
    case StartedEvent => "started"
    case StoppingEvent => "stopping"
    case StoppedEvent => "stopped"
  }

  lemma SameEventsKept(a: seq<Event>, b: seq<Event>)
    requires SameButBlockers(a, b) && forall e :: Blockers(b, e) <= Blockers(a, e)
    ensures EventsKept(a, b)
  {
    forall e | 0 <= e < |a| ensures EventKept(a[e], b[e]) {
      assert a[e].(blockers := 0) == b[e].(blockers := 0);
    }
  }

  lemma EventsKeptThen(a: seq<Event>, b: seq<Event>, c: seq<Event>)
    requires EventsKept(a, b) && EventsKept(b, c)
    ensures EventsKept(a, c)
  {
    forall e | 0 <= e < |a| ensures EventKept(a[e], c[e]) {
      assert EventKept(a[e], b[e]) && EventKept(b[e], c[e]);
    }
    forall e | |a| <= e < |c| ensures c[e].progress.Pending? && !c[e].freed {
      if e < |b| { assert EventKept(b[e], c[e]); }
    }
  }

  lemma {:induction false} CountPrefix(s: seq<M.Effect>, n: nat)
    requires n <= |s|
    ensures F.BlockCount(s[..n]) <= F.BlockCount(s)
    decreases |s|
  {
    if n == |s| {
      assert s[..n] == s;
    } else {
      assert s[..|s| - 1][..n] == s[..n];
      CountPrefix(s[..|s| - 1], n);
    }
  }

  function Holds(list: seq<nat>): seq<Hold> {
    if list == [] then [] else Holds(list[..|list| - 1]) + [HoldEvent(list[|list| - 1])]
  }
}
