/** With `expect stop` a SIGSTOP that arrives before main's setup is complete moves the job
    on (init/job_process.c:1981-1999), so that a failure of that setup is reported in a
    state where job_child_error_handler (init/job.c:2642-2685) abandons a script that
    still runs, or the pending kill timer. */
module JobLate {
  import opened Options
  import opened JobMachine
  import opened JobSafety
  import opened JobTrace
  import opened JobRuns
  import opened JobReach

  ghost predicate CrashesOn(c: Class, run: seq<(Env, Step)>) {
    Crashing(c, NewJob(), run)
  }

  /** The script that runs in the state. */
  predicate ScriptRuns(c: Class, j: Job, p: Process) {
    && AtRest(c, j) && !j.freed
    && ((p.ProcPostStart? && j.state.PostStart?) || (p.ProcPreStop? && j.state.PreStop?))
  }

  /** The report ends main and stops the job, with the script still running; when that
      ends, job_process_terminated does not expect it (init/job_process.c:1795-1810). */
  lemma ScriptAbandoned(c: Class, j: Job, p: Process) returns (run: seq<(Env, Step)>)
    requires ScriptRuns(c, j, p) && j.procs.main.undecided
    ensures Crashing(c, j, run)
  {
    FailsBesideScript(c, j, p);
    var k := Abandoned(j);
    StopsBesideScript(c, k);
    assert k.Alive(p);
    var fail, l := OneStep(c, j, SetupFailed(ProcMain));
    var last := LastStep(c, l, Died(p, 0));
    RunThen(c, j, fail, l, last);
    run := fail + last;
  }

  /** The job once its failed main process is given up and it is told to stop. */
  function Abandoned(j: Job): Job {
    var d := Data(match j.procs.main.data { case NoData => 0 case Data(status, _) => status }, false);
    Failed(Decide(j, ProcMain).WithData(ProcMain, d).WithPid(ProcMain, 0), Some(ProcMain), -1).(goal := GoalStop)
  }

  lemma FailsBesideScript(c: Class, j: Job, p: Process)
    requires ScriptRuns(c, j, p) && j.procs.main.undecided
    ensures Next(c, ANSWERS, j, SetupFailed(ProcMain)) == Advance(c, ANSWERS, Abandoned(j))
  {
    var d := Data(j.procs.main.data.status, false);
    var k := Decide(j, ProcMain).WithData(ProcMain, d);
    assert Next(c, ANSWERS, j, SetupFailed(ProcMain)) == ChildErrorHandler(c, ANSWERS, k, ProcMain);
    RestStop(c, ANSWERS, Failed(k.WithPid(ProcMain, 0), Some(ProcMain), -1));
  }

  lemma StopsBesideScript(c: Class, j: Job)
    requires !j.freed && !j.blocked && j.goal.GoalStop? && (j.state.PostStart? || j.state.PreStop?)
    ensures var o := Advance(c, ANSWERS, j);
      o.Fine? && o.job.state.Stopping? && o.job.procs == j.procs && !o.job.freed
  {
    assert NextState(c, j) == Chosen(j, Stopping);
  }

  /** With a post-stop process, the instance outlives main with the kill timer pending. */
  lemma TimerAbandoned(c: Class, j: Job) returns (run: seq<(Env, Step)>)
    requires CanSetTimer(c) && ProcPostStop in c.has
    requires AtRest(c, j) && !j.freed && j.state.Stopping? && j.goal.GoalStop? && j.procs.main.undecided
    ensures Crashing(c, j, run)
  {
    KillsLate(c, j);
    var kill, k := OneStep(c, j, BlockerFinished);
    AbandonsTimer(c, k);
    var fail, l := OneStep(c, k, SetupFailed(ProcMain));
    RunThen(c, j, kill, k, fail);
    var last := LastStep(c, l, KillTimerFires);
    RunThen(c, j, kill + fail, l, last);
    run := kill + fail + last;
  }

  lemma KillsLate(c: Class, j: Job)
    requires CanSetTimer(c) && AtRest(c, j) && !j.freed && j.state.Stopping? && j.goal.GoalStop?
    requires j.procs.main.undecided
    ensures
      var o := Next(c, ANSWERS, j, BlockerFinished);
      && o.Fine? && AtRest(c, o.job) && !o.job.freed && o.job.state.Killed? && o.job.goal.GoalStop?
      && o.job.timer && o.job.procs.main == j.procs.main
  {
    var k := j.(blocked := false);
    assert Ready(c, k, Killed) && NextState(c, k) == Chosen(k, Killed);
    EnterKilled(c, ANSWERS, k);
    assert Enter(c, ANSWERS, Stopping, k.(state := Killed)).next.Killed?;
  }

  lemma AbandonsTimer(c: Class, j: Job)
    requires !j.freed && !j.blocked && j.state.Killed? && j.goal.GoalStop? && j.timer && j.killProcess == Some(ProcMain)
    requires Awaited(j.procs.main) && ProcPostStop in c.has
    ensures var o := Next(c, ANSWERS, j, SetupFailed(ProcMain));
      o.Fine? && o.job.timer && !o.job.freed && KillTimer(o.job).Crash?
  {
    var d := Data(j.procs.main.data.status, false);
    var k := Failed(Decide(j, ProcMain).WithData(ProcMain, d).WithPid(ProcMain, 0), Some(ProcMain), -1);
    assert NextState(c, k) == Chosen(k, PostStopping);
    var r := Enter(c, ANSWERS, Killed, k.(state := PostStopping));
    assert r == Chosen(Started(c, ANSWERS, k.(state := PostStopping), ProcPostStop), PostStop);
    assert ChangeState(c, ANSWERS, r.job, PostStop) == Fine(r.job.(state := PostStop));
  }

  /** `expect stop` with a script that may run beside main or after it has a run that
      ends in a failed assertion. */
  lemma LateReportCrashes(c: Class) returns (run: seq<(Env, Step)>)
    ensures CanSetTimer(c) && LateReportTrips(c) ==> CrashesOn(c, run)
  {
    run := [];
    if CanSetTimer(c) && LateReportTrips(c) {
      var reach, j1 := ReachFresh(c);
      var settle, s := Readied(c, j1);
      MovesOn(c, ANSWERS, s);
      RunThen(c, NewJob(), reach, j1, settle);
      var j2 := Advance(c, ANSWERS, s).job;
      var last;
      if ProcPostStart in c.has {
        last := ScriptAbandoned(c, j2, ProcPostStart);
      } else {
        last := StopAbandons(c, j2);
      }
      RunThen(c, NewJob(), reach + settle, j2, last);
      run := reach + settle + last;
    }
  }

  /** The same from RUNNING: the job is told to stop first. */
  lemma StopAbandons(c: Class, j: Job) returns (run: seq<(Env, Step)>)
    requires CanSetTimer(c) && (ProcPreStop in c.has || ProcPostStop in c.has)
    requires AtRest(c, j) && !j.freed && j.state.Running? && j.procs.main.undecided
    ensures Crashing(c, j, run)
  {
    StopsRunning(c, j);
    var stop, k := OneStep(c, j, StopCommand);
    var last;
    if ProcPreStop in c.has {
      last := ScriptAbandoned(c, k, ProcPreStop);
    } else {
      last := TimerAbandoned(c, k);
    }
    RunThen(c, j, stop, k, last);
    run := stop + last;
  }
}
