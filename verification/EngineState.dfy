/** The events, job classes and job instances of the daemon, and what keeps them in
    step: every block that an event counts is held by an operator tree or by an entry in
    a job's list, and every event awaited by a job knows that job. */
module EngineState {
  import opened Options
  import O = Operators
  import M = JobMachine
  import R = JobRuns
  import S = JobSafety

  datatype Progress = Pending | Handling | Finished

  /** What waits for an event: a job to go on, or the caller that emitted it. */
  datatype Waiter = WaitingJob(job: nat) | WaitingEmit(message: nat)

  datatype Event = Event(
    name: string, session: Option<nat>, progress: Progress, failed: bool,
    blockers: nat, blocking: seq<Waiter>, freed: bool)

  /** What a job holds up: an event, or the caller of a method. */
  datatype Hold = HoldEvent(event: nat) | HoldMethod(message: nat)

  datatype Instance = Instance(
    cls: nat, name: string, job: M.Job, stopOn: Option<O.Tree<nat>>,
    blocking: seq<Hold>, blocker: Option<nat>, gone: bool)

  datatype JobClass = JobClass(
    machine: M.Class, session: Option<nat>, startOn: Option<O.Tree<nat>>, stopOn: Option<O.Tree<nat>>,
    freed: bool)

  datatype Reply = Reply(message: nat, failed: bool)

  // ----- who holds an event -----

  ghost function InBlocking(b: seq<Hold>, e: nat): nat {
    if b == [] then 0 else (if b[0] == HoldEvent(e) then 1 else 0) + InBlocking(b[1..], e)
  }

  ghost function InTree(t: Option<O.Tree<nat>>, e: nat): nat {
    if t.None? then 0 else O.Refs(t.value)[e]
  }

  ghost function InJob(i: Instance, e: nat): nat {
    InBlocking(i.blocking, e) + InTree(i.stopOn, e)
  }

  ghost function InJobs(jobs: seq<Instance>, e: nat): nat {
    if jobs == [] then 0 else InJobs(jobs[..|jobs| - 1], e) + InJob(jobs[|jobs| - 1], e)
  }

  ghost function InClasses(classes: seq<JobClass>, e: nat): nat {
    if classes == [] then 0
    else InClasses(classes[..|classes| - 1], e) + InTree(classes[|classes| - 1].startOn, e)
  }

  /** The blocks an event counts; one that does not exist any more counts none. */
  function Blockers(events: seq<Event>, e: nat): nat {
    if e < |events| && !events[e].freed then events[e].blockers else 0
  }

  ghost predicate Counted(events: seq<Event>, classes: seq<JobClass>, jobs: seq<Instance>, e: nat) {
    InJobs(jobs, e) + InClasses(classes, e) == Blockers(events, e)
  }

  // ----- who waits for an answer -----

  ghost function EmitsOf(w: seq<Waiter>, m: nat): nat {
    if w == [] then 0 else (if w[0] == WaitingEmit(m) then 1 else 0) + EmitsOf(w[1..], m)
  }

  ghost function MethodsOf(b: seq<Hold>, m: nat): nat {
    if b == [] then 0 else (if b[0] == HoldMethod(m) then 1 else 0) + MethodsOf(b[1..], m)
  }

  ghost function InEvents(events: seq<Event>, m: nat): nat {
    if events == [] then 0 else InEvents(events[..|events| - 1], m) + EmitsOf(events[|events| - 1].blocking, m)
  }

  ghost function InLists(jobs: seq<Instance>, m: nat): nat {
    if jobs == [] then 0 else InLists(jobs[..|jobs| - 1], m) + MethodsOf(jobs[|jobs| - 1].blocking, m)
  }

  ghost function Answers(replies: seq<Reply>, m: nat): nat {
    if replies == [] then 0
    else
      var last := |replies| - 1;
      Answers(replies[..last], m) + if replies[last].message == m then 1 else 0
  }

  /** Every caller that asked either waits in one place or has been answered, once. */
  ghost predicate Answered(events: seq<Event>, jobs: seq<Instance>, replies: seq<Reply>, asked: multiset<nat>, m: nat) {
    InEvents(events, m) + InLists(jobs, m) + Answers(replies, m) == asked[m]
  }

  // ----- shape -----

  /** A job awaits an event exactly when that event, alive, lists it, once. */
  ghost predicate LinkedUp(events: seq<Event>, jobs: seq<Instance>) {
    && (forall j :: 0 <= j < |jobs| && jobs[j].blocker.Some? ==>
          var e := jobs[j].blocker.value; e < |events| && WaitingJob(j) in events[e].blocking)
    && (forall e, i :: 0 <= e < |events| && 0 <= i < |events[e].blocking| ==> Listed(events, jobs, e, i))
    && (forall e, i, k ::
          0 <= e < |events| && 0 <= i < k < |events[e].blocking| && events[e].blocking[i].WaitingJob? ==>
            events[e].blocking[i] != events[e].blocking[k])
  }

  ghost predicate Listed(events: seq<Event>, jobs: seq<Instance>, e: nat, i: nat)
    requires e < |events| && i < |events[e].blocking|
  {
    !events[e].freed &&
    match events[e].blocking[i]
    case WaitingJob(j) => j < |jobs| && jobs[j].blocker == Some(e)
    case WaitingEmit(_) => true
  }

  ghost predicate TreeOk(t: Option<O.Tree<nat>>) {
    t.Some? ==> O.Linked(t.value)
  }

  ghost predicate ClassOk(c: JobClass) {
    && TreeOk(c.startOn) && (c.freed ==> c.startOn.None?)
    && (c.stopOn.Some? ==> O.Linked(c.stopOn.value) && O.Refs(c.stopOn.value) == multiset{})
    && S.Safe(c.machine)
  }

  ghost predicate InstanceOk(classes: seq<JobClass>, i: Instance) {
    && i.cls < |classes| && TreeOk(i.stopOn)
    && (i.gone ==> i.blocking == [] && i.stopOn.None? && i.blocker.None?)
    && (!i.gone ==> !classes[i.cls].freed)
  }

  ghost predicate ShapeOk(classes: seq<JobClass>, jobs: seq<Instance>) {
    && (forall c :: 0 <= c < |classes| ==> ClassOk(classes[c]))
    && (forall j :: 0 <= j < |jobs| ==> InstanceOk(classes, jobs[j]))
  }

  /** Each instance is as its state machine has it, and that is sound. */
  ghost predicate MachineOk(classes: seq<JobClass>, i: Instance)
    requires i.cls < |classes|
  {
    && i.gone == i.job.freed && i.blocker.Some? == i.job.blocked
    && R.Sound(classes[i.cls].machine, i.job)
  }

  // ----- sums -----

  lemma {:induction false} JobsUpdate(jobs: seq<Instance>, j: nat, i: Instance, e: nat)
    requires j < |jobs|
    ensures InJobs(jobs[j := i], e) == InJobs(jobs, e) - InJob(jobs[j], e) + InJob(i, e)
    ensures InLists(jobs[j := i], e) == InLists(jobs, e) - MethodsOf(jobs[j].blocking, e) + MethodsOf(i.blocking, e)
  {
    var last := |jobs| - 1;
    if j == last {
      assert jobs[j := i][..last] == jobs[..last];
    } else {
      assert jobs[j := i][..last] == jobs[..last][j := i];
      JobsUpdate(jobs[..last], j, i, e);
    }
  }

  lemma {:induction false} ClassesUpdate(classes: seq<JobClass>, c: nat, k: JobClass, e: nat)
    requires c < |classes|
    ensures InClasses(classes[c := k], e) ==
      InClasses(classes, e) - InTree(classes[c].startOn, e) + InTree(k.startOn, e)
  {
    var last := |classes| - 1;
    if c == last {
      assert classes[c := k][..last] == classes[..last];
    } else {
      assert classes[c := k][..last] == classes[..last][c := k];
      ClassesUpdate(classes[..last], c, k, e);
    }
  }

  lemma {:induction false} EventsUpdate(events: seq<Event>, e: nat, v: Event, m: nat)
    requires e < |events|
    ensures InEvents(events[e := v], m) == InEvents(events, m) - EmitsOf(events[e].blocking, m) + EmitsOf(v.blocking, m)
  {
    var last := |events| - 1;
    if e == last {
      assert events[e := v][..last] == events[..last];
    } else {
      assert events[e := v][..last] == events[..last][e := v];
      EventsUpdate(events[..last], e, v, m);
    }
  }

  /** One job's part is part of the whole. */
  lemma {:induction false} JobPart(jobs: seq<Instance>, j: nat, e: nat)
    requires j < |jobs|
    ensures InJob(jobs[j], e) <= InJobs(jobs, e)
  {
    if j < |jobs| - 1 { JobPart(jobs[..|jobs| - 1], j, e); }
  }

  lemma {:induction false} ClassPart(classes: seq<JobClass>, c: nat, e: nat)
    requires c < |classes|
    ensures InTree(classes[c].startOn, e) <= InClasses(classes, e)
  {
    if c < |classes| - 1 { ClassPart(classes[..|classes| - 1], c, e); }
  }

  lemma {:induction false} BlockingAppend(a: seq<Hold>, b: seq<Hold>, e: nat)
    ensures InBlocking(a + b, e) == InBlocking(a, e) + InBlocking(b, e)
    ensures MethodsOf(a + b, e) == MethodsOf(a, e) + MethodsOf(b, e)
  {
    if a == [] {
      assert a + b == b;
    } else {
      assert (a + b)[1..] == a[1..] + b;
      BlockingAppend(a[1..], b, e);
    }
  }

  lemma BlockingOne(h: Hold, e: nat)
    ensures InBlocking([h], e) == (if h == HoldEvent(e) then 1 else 0)
    ensures MethodsOf([h], e) == (if h == HoldMethod(e) then 1 else 0)
  {
    assert [h][1..] == [] && InBlocking([], e) == 0 && MethodsOf([], e) == 0;
  }

  lemma {:induction false} WaitersAppend(a: seq<Waiter>, b: seq<Waiter>, m: nat)
    ensures EmitsOf(a + b, m) == EmitsOf(a, m) + EmitsOf(b, m)
  {
    if a == [] {
      assert a + b == b;
    } else {
      assert (a + b)[1..] == a[1..] + b;
      WaitersAppend(a[1..], b, m);
    }
  }

  /** Only the counts of blocks differ. */
  ghost predicate SameButBlockers(a: seq<Event>, b: seq<Event>) {
    |a| == |b| && forall e :: 0 <= e < |a| ==> a[e].(blockers := 0) == b[e].(blockers := 0)
  }

  lemma {:induction false} SameWaiting(a: seq<Event>, b: seq<Event>, m: nat)
    requires |a| == |b| && forall e :: 0 <= e < |a| ==> a[e].blocking == b[e].blocking
    ensures InEvents(a, m) == InEvents(b, m)
  {
    if a != [] { SameWaiting(a[..|a| - 1], b[..|b| - 1], m); }
  }

  // ----- the invariant as a whole -----

  /** Every block is held, every caller waits or has its answer, every link is two-way. */
  ghost predicate InStep(events: seq<Event>, classes: seq<JobClass>, jobs: seq<Instance>,
                         replies: seq<Reply>, asked: multiset<nat>) {
    && (forall e :: Counted(events, classes, jobs, e))
    && (forall m :: Answered(events, jobs, replies, asked, m))
    && LinkedUp(events, jobs) && ShapeOk(classes, jobs)
  }

  /** Links between jobs and the events they await do not depend on anything else. */
  lemma LinksSame(a: seq<Event>, b: seq<Event>, jobs: seq<Instance>, next: seq<Instance>)
    requires LinkedUp(a, jobs) && |a| == |b| && |jobs| <= |next|
    requires forall e :: 0 <= e < |a| ==> a[e].blocking == b[e].blocking && a[e].freed == b[e].freed
    requires forall j :: 0 <= j < |jobs| ==> next[j].blocker == jobs[j].blocker
    requires forall j :: |jobs| <= j < |next| ==> next[j].blocker.None?
    ensures LinkedUp(b, next)
  {
    forall e, i | 0 <= e < |b| && 0 <= i < |b[e].blocking| ensures Listed(b, next, e, i) {
      assert Listed(a, jobs, e, i);
    }
  }

  lemma AnswersOneMore(replies: seq<Reply>, r: Reply, m: nat)
    ensures Answers(replies + [r], m) == Answers(replies, m) + if r.message == m then 1 else 0
  {
    assert (replies + [r])[..|replies|] == replies;
  }

  /** The first hold of a job, on an event, is released. */
  lemma ReleaseEventKeeps(events: seq<Event>, classes: seq<JobClass>, jobs: seq<Instance>,
                          replies: seq<Reply>, asked: multiset<nat>, j: nat, failed: bool)
    requires InStep(events, classes, jobs, replies, asked)
    requires j < |jobs| && jobs[j].blocking != [] && jobs[j].blocking[0].HoldEvent?
    ensures
      var e, i := jobs[j].blocking[0].event, jobs[j].(blocking := jobs[j].blocking[1..]);
      e < |events| && !events[e].freed && events[e].blockers > 0
      && var v := events[e].(failed := events[e].failed || failed, blockers := events[e].blockers - 1);
      InStep(events[e := v], classes, jobs[j := i], replies, asked)
  {
    var e, i := jobs[j].blocking[0].event, jobs[j].(blocking := jobs[j].blocking[1..]);
    JobPart(jobs, j, e);
    assert Counted(events, classes, jobs, e);
    var v := events[e].(failed := events[e].failed || failed, blockers := events[e].blockers - 1);
    var after, next := events[e := v], jobs[j := i];
    forall d ensures Counted(after, classes, next, d) {
      JobsUpdate(jobs, j, i, d);
      assert Counted(events, classes, jobs, d);
    }
    forall m ensures Answered(after, next, replies, asked, m) {
      JobsUpdate(jobs, j, i, m);
      SameWaiting(events, after, m);
      assert Answered(events, jobs, replies, asked, m);
    }
    LinksSame(events, after, jobs, next);
  }

  /** The first hold of a job, for a method, is released with the answer. */
  lemma ReleaseMethodKeeps(events: seq<Event>, classes: seq<JobClass>, jobs: seq<Instance>,
                           replies: seq<Reply>, asked: multiset<nat>, j: nat, failed: bool)
    requires InStep(events, classes, jobs, replies, asked)
    requires j < |jobs| && jobs[j].blocking != [] && jobs[j].blocking[0].HoldMethod?
    ensures
      var r, i := Reply(jobs[j].blocking[0].message, failed), jobs[j].(blocking := jobs[j].blocking[1..]);
      InStep(events, classes, jobs[j := i], replies + [r], asked)
  {
    var r, i := Reply(jobs[j].blocking[0].message, failed), jobs[j].(blocking := jobs[j].blocking[1..]);
    var next, answered := jobs[j := i], replies + [r];
    forall d ensures Counted(events, classes, next, d) {
      JobsUpdate(jobs, j, i, d);
      assert Counted(events, classes, jobs, d);
    }
    forall m ensures Answered(events, next, answered, asked, m) {
      JobsUpdate(jobs, j, i, m);
      AnswersOneMore(replies, r, m);
      assert Answered(events, jobs, replies, asked, m);
    }
    LinksSame(events, events, jobs, next);
  }

  /** A hold is added to the end of a job's list: on an event, which counts it. */
  lemma HoldEventKeeps(events: seq<Event>, classes: seq<JobClass>, jobs: seq<Instance>,
                       replies: seq<Reply>, asked: multiset<nat>, j: nat, e: nat)
    requires InStep(events, classes, jobs, replies, asked)
    requires j < |jobs| && !jobs[j].gone && e < |events| && !events[e].freed
    ensures
      var v := events[e].(blockers := events[e].blockers + 1);
      var i := jobs[j].(blocking := jobs[j].blocking + [HoldEvent(e)]);
      InStep(events[e := v], classes, jobs[j := i], replies, asked)
  {
    var v, i := events[e].(blockers := events[e].blockers + 1), jobs[j].(blocking := jobs[j].blocking + [HoldEvent(e)]);
    var after, next := events[e := v], jobs[j := i];
    forall d ensures Counted(after, classes, next, d) {
      JobsUpdate(jobs, j, i, d);
      BlockingAppend(jobs[j].blocking, [HoldEvent(e)], d);
      BlockingOne(HoldEvent(e), d);
      assert Counted(events, classes, jobs, d);
    }
    forall m ensures Answered(after, next, replies, asked, m) {
      JobsUpdate(jobs, j, i, m);
      BlockingAppend(jobs[j].blocking, [HoldEvent(e)], m);
      BlockingOne(HoldEvent(e), m);
      SameWaiting(events, after, m);
      assert Answered(events, jobs, replies, asked, m);
    }
    LinksSame(events, after, jobs, next);
  }

  /** Or for a method call, which from then on waits for its answer. */
  lemma HoldMethodKeeps(events: seq<Event>, classes: seq<JobClass>, jobs: seq<Instance>,
                        replies: seq<Reply>, asked: multiset<nat>, j: nat, message: nat)
    requires InStep(events, classes, jobs, replies, asked)
    requires j < |jobs| && !jobs[j].gone
    ensures
      var i := jobs[j].(blocking := jobs[j].blocking + [HoldMethod(message)]);
      InStep(events, classes, jobs[j := i], replies, asked + multiset{message})
  {
    var i := jobs[j].(blocking := jobs[j].blocking + [HoldMethod(message)]);
    var next, more := jobs[j := i], asked + multiset{message};
    forall d ensures Counted(events, classes, next, d) {
      JobsUpdate(jobs, j, i, d);
      BlockingAppend(jobs[j].blocking, [HoldMethod(message)], d);
      BlockingOne(HoldMethod(message), d);
      assert Counted(events, classes, jobs, d);
    }
    forall m ensures Answered(events, next, replies, more, m) {
      JobsUpdate(jobs, j, i, m);
      BlockingAppend(jobs[j].blocking, [HoldMethod(message)], m);
      BlockingOne(HoldMethod(message), m);
      assert Answered(events, jobs, replies, asked, m);
    }
    LinksSame(events, events, jobs, next);
  }

  /** A job's stop condition changes, and the events count what it then holds. */
  lemma StopTreeKeeps(events: seq<Event>, after: seq<Event>, classes: seq<JobClass>, jobs: seq<Instance>,
                      replies: seq<Reply>, asked: multiset<nat>, j: nat, i: Instance)
    requires InStep(events, classes, jobs, replies, asked) && j < |jobs|
    requires i == jobs[j].(stopOn := i.stopOn, gone := i.gone) && InstanceOk(classes, i)
    requires SameButBlockers(events, after)
    requires forall e :: Blockers(after, e) + InTree(jobs[j].stopOn, e) == Blockers(events, e) + InTree(i.stopOn, e)
    ensures InStep(after, classes, jobs[j := i], replies, asked)
  {
    var next := jobs[j := i];
    SameKept(events, after);
    forall d ensures Counted(after, classes, next, d) {
      JobsUpdate(jobs, j, i, d);
      assert Counted(events, classes, jobs, d);
    }
    forall m ensures Answered(after, next, replies, asked, m) {
      JobsUpdate(jobs, j, i, m);
      SameWaiting(events, after, m);
      assert Answered(events, jobs, replies, asked, m);
    }
    LinksSame(events, after, jobs, next);
  }

  /** A class's start condition changes, likewise. */
  lemma StartTreeKeeps(events: seq<Event>, after: seq<Event>, classes: seq<JobClass>, jobs: seq<Instance>,
                       replies: seq<Reply>, asked: multiset<nat>, c: nat, k: JobClass)
    requires InStep(events, classes, jobs, replies, asked) && c < |classes|
    requires k == classes[c].(startOn := k.startOn, freed := k.freed) && ClassOk(k)
    requires k.freed ==> forall j :: 0 <= j < |jobs| && jobs[j].cls == c ==> jobs[j].gone
    requires SameButBlockers(events, after)
    requires forall e ::
      Blockers(after, e) + InTree(classes[c].startOn, e) == Blockers(events, e) + InTree(k.startOn, e)
    ensures InStep(after, classes[c := k], jobs, replies, asked)
  {
    var next := classes[c := k];
    SameKept(events, after);
    forall d ensures Counted(after, next, jobs, d) {
      ClassesUpdate(classes, c, k, d);
      assert Counted(events, classes, jobs, d);
    }
    forall m ensures Answered(after, jobs, replies, asked, m) {
      SameWaiting(events, after, m);
      assert Answered(events, jobs, replies, asked, m);
    }
    LinksSame(events, after, jobs, jobs);
    assert forall j :: 0 <= j < |jobs| ==> InstanceOk(classes, jobs[j]);
  }

  lemma SameKept(a: seq<Event>, b: seq<Event>)
    requires SameButBlockers(a, b)
    ensures forall e :: 0 <= e < |a| ==>
      && a[e].blocking == b[e].blocking && a[e].freed == b[e].freed && a[e].name == b[e].name
      && a[e].progress == b[e].progress && a[e].failed == b[e].failed
  {
    forall e | 0 <= e < |a|
      ensures a[e].blocking == b[e].blocking && a[e].freed == b[e].freed && a[e].name == b[e].name
      ensures a[e].progress == b[e].progress && a[e].failed == b[e].failed
    {
      assert a[e].(blockers := 0) == b[e].(blockers := 0);
    }
  }

  // ----- new events, and jobs -----

  /** What new events leave of the old ones: blocks may be released, and failure noted. */
  ghost predicate EventsKept(a: seq<Event>, b: seq<Event>) {
    && |a| <= |b|
    && (forall e :: 0 <= e < |a| ==> EventKept(a[e], b[e]) && Blockers(b, e) <= Blockers(a, e))
    && (forall e :: |a| <= e < |b| ==> b[e].progress.Pending? && !b[e].freed)
  }

  /** The same, where blocks may be taken as well. */
  ghost predicate EventsStay(a: seq<Event>, b: seq<Event>) {
    && |a| <= |b|
    && (forall e :: 0 <= e < |a| ==> EventKept(a[e], b[e]))
    && (forall e :: |a| <= e < |b| ==> b[e].progress.Pending? && !b[e].freed)
  }

  ghost predicate EventKept(a: Event, b: Event) {
    && b.name == a.name && b.session == a.session && b.progress == a.progress
    && b.blocking == a.blocking && b.freed == a.freed && (a.failed ==> b.failed)
  }

  function Stage(p: Progress): nat {
    match p case Pending => 0 case Handling => 1 case Finished => 2
  }

  /** What every event keeps for ever: it only moves on, fails once and is freed once. */
  ghost predicate EventAged(a: Event, b: Event) {
    && b.name == a.name && (a.failed ==> b.failed) && (a.freed ==> b.freed)
    && Stage(a.progress) <= Stage(b.progress)
  }

  ghost predicate EventsAged(a: seq<Event>, b: seq<Event>) {
    |a| <= |b| && forall e :: 0 <= e < |a| ==> EventAged(a[e], b[e])
  }

  lemma StayAged(a: seq<Event>, b: seq<Event>)
    requires EventsStay(a, b)
    ensures EventsAged(a, b)
  {
    forall e | 0 <= e < |a| ensures EventAged(a[e], b[e]) { assert EventKept(a[e], b[e]); }
  }

  lemma AgedThen(a: seq<Event>, b: seq<Event>, c: seq<Event>)
    requires EventsAged(a, b) && EventsAged(b, c)
    ensures EventsAged(a, c)
  {
    forall e | 0 <= e < |a| ensures EventAged(a[e], c[e]) {
      assert EventAged(a[e], b[e]) && EventAged(b[e], c[e]);
    }
  }

  function NewEvent(name: string, session: Option<nat>, blocking: seq<Waiter>): Event {
    Event(name, session, Pending, false, 0, blocking, false)
  }

  lemma EventsAppend(events: seq<Event>, v: Event, m: nat)
    ensures InEvents(events + [v], m) == InEvents(events, m) + EmitsOf(v.blocking, m)
  {
    assert (events + [v])[..|events|] == events;
  }

  lemma EmitsOne(w: Waiter, m: nat)
    ensures EmitsOf([w], m) == if w == WaitingEmit(m) then 1 else 0
  {
    assert [w][1..] == [] && EmitsOf([], m) == 0;
  }

  /** An event nobody waits for, or one that an emitter waits for. */
  lemma EmitKeeps(events: seq<Event>, classes: seq<JobClass>, jobs: seq<Instance>, replies: seq<Reply>,
                  asked: multiset<nat>, name: string, session: Option<nat>, message: Option<nat>)
    requires InStep(events, classes, jobs, replies, asked)
    ensures
      var w := if message.Some? then [WaitingEmit(message.value)] else [];
      InStep(events + [NewEvent(name, session, w)], classes, jobs, replies,
             asked + if message.Some? then multiset{message.value} else multiset{})
  {
    var w := if message.Some? then [WaitingEmit(message.value)] else [];
    var v := NewEvent(name, session, w);
    var after, more := events + [v], asked + if message.Some? then multiset{message.value} else multiset{};
    forall d ensures Counted(after, classes, jobs, d) { assert Counted(events, classes, jobs, d); }
    forall m ensures Answered(after, jobs, replies, more, m) {
      EventsAppend(events, v, m);
      if message.Some? { EmitsOne(w[0], m); }
      assert Answered(events, jobs, replies, asked, m);
    }
    forall e, i | 0 <= e < |after| && 0 <= i < |after[e].blocking| ensures Listed(after, jobs, e, i) {
      if e < |events| { assert Listed(events, jobs, e, i); }
    }
  }

  /** An event that a job waits for. */
  lemma EmitBlockingKeeps(events: seq<Event>, classes: seq<JobClass>, jobs: seq<Instance>, replies: seq<Reply>,
                          asked: multiset<nat>, name: string, session: Option<nat>, j: nat)
    requires InStep(events, classes, jobs, replies, asked)
    requires j < |jobs| && !jobs[j].gone && jobs[j].blocker.None?
    ensures InStep(events + [NewEvent(name, session, [WaitingJob(j)])], classes,
                   jobs[j := jobs[j].(blocker := Some(|events|))], replies, asked)
  {
    var v, i := NewEvent(name, session, [WaitingJob(j)]), jobs[j].(blocker := Some(|events|));
    var after, next := events + [v], jobs[j := i];
    forall d ensures Counted(after, classes, next, d) {
      JobsUpdate(jobs, j, i, d);
      assert Counted(events, classes, jobs, d);
    }
    forall m ensures Answered(after, next, replies, asked, m) {
      JobsUpdate(jobs, j, i, m);
      EventsAppend(events, v, m);
      EmitsOne(WaitingJob(j), m);
      assert Answered(events, jobs, replies, asked, m);
    }
    assert after[|events|] == v && v.blocking[0] == WaitingJob(j);
    forall e, k | 0 <= e < |after| && 0 <= k < |after[e].blocking| ensures Listed(after, next, e, k) {
      if e < |events| { assert Listed(events, jobs, e, k); }
    }
  }

  /** What a job's own record says is nobody else's business. */
  lemma RecordKeeps(events: seq<Event>, classes: seq<JobClass>, jobs: seq<Instance>, replies: seq<Reply>,
                    asked: multiset<nat>, j: nat, job: M.Job)
    requires InStep(events, classes, jobs, replies, asked) && j < |jobs|
    ensures InStep(events, classes, jobs[j := jobs[j].(job := job)], replies, asked)
  {
    var i := jobs[j].(job := job);
    var next := jobs[j := i];
    forall d ensures Counted(events, classes, next, d) {
      JobsUpdate(jobs, j, i, d);
      assert Counted(events, classes, jobs, d);
    }
    forall m ensures Answered(events, next, replies, asked, m) {
      JobsUpdate(jobs, j, i, m);
      assert Answered(events, jobs, replies, asked, m);
    }
    LinksSame(events, events, jobs, next);
  }

  /** The first waiter of an event, a job, is let go. */
  lemma UnlinkKeeps(events: seq<Event>, classes: seq<JobClass>, jobs: seq<Instance>, replies: seq<Reply>,
                    asked: multiset<nat>, e: nat, j: nat)
    requires InStep(events, classes, jobs, replies, asked)
    requires e < |events| && events[e].blocking != [] && events[e].blocking[0] == WaitingJob(j)
    ensures j < |jobs| && jobs[j].blocker == Some(e) && !events[e].freed
    ensures InStep(events[e := events[e].(blocking := events[e].blocking[1..])], classes,
                   jobs[j := jobs[j].(blocker := None)], replies, asked)
  {
    assert Listed(events, jobs, e, 0);
    var v, i := events[e].(blocking := events[e].blocking[1..]), jobs[j].(blocker := None);
    var after, next := events[e := v], jobs[j := i];
    forall d ensures Counted(after, classes, next, d) {
      JobsUpdate(jobs, j, i, d);
      assert Counted(events, classes, jobs, d);
    }
    forall m ensures Answered(after, next, replies, asked, m) {
      JobsUpdate(jobs, j, i, m);
      EventsUpdate(events, e, v, m);
      assert Answered(events, jobs, replies, asked, m);
    }
    UnlinkLinks(events, jobs, e, j);
  }

  lemma UnlinkLinks(events: seq<Event>, jobs: seq<Instance>, e: nat, j: nat)
    requires LinkedUp(events, jobs) && e < |events| && j < |jobs|
    requires events[e].blocking != [] && events[e].blocking[0] == WaitingJob(j) && jobs[j].blocker == Some(e)
    ensures LinkedUp(events[e := events[e].(blocking := events[e].blocking[1..])],
                     jobs[j := jobs[j].(blocker := None)])
  {
    var v, i := events[e].(blocking := events[e].blocking[1..]), jobs[j].(blocker := None);
    var after, next := events[e := v], jobs[j := i];
    forall d, k | 0 <= d < |after| && 0 <= k < |after[d].blocking| ensures Listed(after, next, d, k) {
      var at := if d == e then k + 1 else k;
      assert Listed(events, jobs, d, at);
      assert after[d].blocking[k] == events[d].blocking[at];
      if d == e { assert events[e].blocking[0] != events[e].blocking[k + 1]; }
    }
    forall k | 0 <= k < |next| && next[k].blocker.Some?
      ensures var d := next[k].blocker.value; d < |after| && WaitingJob(k) in after[d].blocking
    {
      var d := jobs[k].blocker.value;
      assert WaitingJob(k) in events[d].blocking;
      if d == e {
        var at :| 0 <= at < |events[e].blocking| && events[e].blocking[at] == WaitingJob(k);
        assert v.blocking[at - 1] == WaitingJob(k);
      }
    }
  }

  /** The first waiter of an event, an emitter, is answered. */
  lemma AnswerKeeps(events: seq<Event>, classes: seq<JobClass>, jobs: seq<Instance>, replies: seq<Reply>,
                    asked: multiset<nat>, e: nat, message: nat, failed: bool)
    requires InStep(events, classes, jobs, replies, asked)
    requires e < |events| && events[e].blocking != [] && events[e].blocking[0] == WaitingEmit(message)
    ensures InStep(events[e := events[e].(blocking := events[e].blocking[1..])], classes, jobs,
                   replies + [Reply(message, failed)], asked)
  {
    var v := events[e].(blocking := events[e].blocking[1..]);
    var after, answered := events[e := v], replies + [Reply(message, failed)];
    forall d ensures Counted(after, classes, jobs, d) { assert Counted(events, classes, jobs, d); }
    forall m ensures Answered(after, jobs, answered, asked, m) {
      EventsUpdate(events, e, v, m);
      AnswersOneMore(replies, Reply(message, failed), m);
      assert Answered(events, jobs, replies, asked, m);
    }
    forall d, k | 0 <= d < |after| && 0 <= k < |after[d].blocking| ensures Listed(after, jobs, d, k) {
      assert Listed(events, jobs, d, if d == e then k + 1 else k);
    }
    forall k | 0 <= k < |jobs| && jobs[k].blocker.Some?
      ensures var d := jobs[k].blocker.value; d < |after| && WaitingJob(k) in after[d].blocking
    {
      var d := jobs[k].blocker.value;
      if d == e {
        var at :| 0 <= at < |events[e].blocking| && events[e].blocking[at] == WaitingJob(k);
        assert v.blocking[at - 1] == WaitingJob(k);
      }
    }
  }

  /** An event that nothing holds and nobody waits for may be freed; and how far an event
      has come is nobody else's business. */
  lemma EventRecordKeeps(events: seq<Event>, classes: seq<JobClass>, jobs: seq<Instance>, replies: seq<Reply>,
                         asked: multiset<nat>, e: nat, v: Event)
    requires InStep(events, classes, jobs, replies, asked) && e < |events| && !events[e].freed
    requires v == events[e].(progress := v.progress, freed := v.freed)
    requires v.freed ==> v.blockers == 0 && v.blocking == []
    ensures InStep(events[e := v], classes, jobs, replies, asked)
  {
    var after := events[e := v];
    forall d ensures Counted(after, classes, jobs, d) { assert Counted(events, classes, jobs, d); }
    forall m ensures Answered(after, jobs, replies, asked, m) {
      SameWaiting(events, after, m);
      assert Answered(events, jobs, replies, asked, m);
    }
    forall d, k | 0 <= d < |after| && 0 <= k < |after[d].blocking| ensures Listed(after, jobs, d, k) {
      assert Listed(events, jobs, d, k);
    }
  }

  /** A new instance holds nothing and awaits nothing. */
  lemma NewInstanceKeeps(events: seq<Event>, classes: seq<JobClass>, jobs: seq<Instance>, replies: seq<Reply>,
                         asked: multiset<nat>, i: Instance)
    requires InStep(events, classes, jobs, replies, asked) && InstanceOk(classes, i)
    requires i.blocking == [] && i.blocker.None? && (i.stopOn.Some? ==> O.Refs(i.stopOn.value) == multiset{})
    ensures InStep(events, classes, jobs + [i], replies, asked)
  {
    var next := jobs + [i];
    assert next[..|jobs|] == jobs;
    forall d ensures Counted(events, classes, next, d) { assert Counted(events, classes, jobs, d); }
    forall m ensures Answered(events, next, replies, asked, m) { assert Answered(events, jobs, replies, asked, m); }
    LinksSame(events, events, jobs, next);
  }

  /** A new class holds nothing. */
  lemma NewClassKeeps(events: seq<Event>, classes: seq<JobClass>, jobs: seq<Instance>, replies: seq<Reply>,
                      asked: multiset<nat>, k: JobClass)
    requires InStep(events, classes, jobs, replies, asked) && ClassOk(k) && !k.freed
    requires k.startOn.Some? ==> O.Refs(k.startOn.value) == multiset{}
    ensures InStep(events, classes + [k], jobs, replies, asked)
  {
    var next := classes + [k];
    assert next[..|classes|] == classes;
    forall d ensures Counted(events, next, jobs, d) { assert Counted(events, classes, jobs, d); }
    assert forall j :: 0 <= j < |jobs| ==> InstanceOk(classes, jobs[j]);
  }
}
