/** The two ways in which an assertion of init/job_process.c can fail, and that they are
    all.  `kill timeout 0`, which the parser accepts (init/parse_job.c:2018-2021), makes
    the kill timer of job_process_set_kill_timer one of no time at all
    (init/job_process.c:1384); for the other see JobLate. */
module JobKill {
  import opened Options
  import opened JobMachine
  import opened JobSafety
  import opened JobTrace
  import opened JobRuns
  import opened JobReach
  import opened JobLate

  // ----- no time to be killed in -----

  /** A job with a main process and no kill timeout has a run that ends in a
      failed assertion: start it, let it reach SPAWNED, stop it, and let the stopping
      event finish. */
  lemma ZeroTimeoutCrashes(c: Class) returns (run: seq<(Env, Step)>)
    requires !CanSetTimer(c)
    ensures CrashesOn(c, run)
  {
    var reach, j1 := ReachFresh(c);
    var stop, j2 := Then(c, NewJob(), reach, j1, StopCommand);
    assert j2 == Finished(j1, false).(goal := GoalStop);
    var settle, s := Readied(c, j2);
    MovesOn(c, ANSWERS, s);
    var j3 := Advance(c, ANSWERS, s).job;
    RunThen(c, NewJob(), stop, j2, settle);
    var last := KillCrashes(c, j3);
    RunThen(c, NewJob(), stop + settle, j3, last);
    run := stop + settle + last;
  }

  lemma KillCrashes(c: Class, j: Job) returns (run: seq<(Env, Step)>)
    requires !CanSetTimer(c) && AtRest(c, j) && !j.freed && j.state.Stopping? && j.Alive(ProcMain)
    ensures Crashing(c, j, run)
  {
    var j1 := j.(blocked := false);
    assert Enter(c, ANSWERS, Stopping, j1.(state := Killed)).NoChoice?;
    assert ChangeState(c, ANSWERS, j1, Killed).Crash?;
    run := LastStep(c, j, BlockerFinished);
  }

  // ----- no other way -----

  lemma NewJobNeverCrashes(c: Class, run: seq<(Env, Step)>)
    requires Safe(c)
    ensures !CrashesOn(c, run)
  {
    NewJobSound(c);
    RunCannotCrash(c, NewJob(), run);
  }

  lemma RunCannotCrash(c: Class, j: Job, run: seq<(Env, Step)>)
    requires Safe(c) && Sound(c, j)
    ensures Feasible(c, j, run) ==> After(c, j, run).Fine?
  {
    if Feasible(c, j, run) {
      RunSafe(c, j, run);
    }
  }

  lemma NewJobSound(c: Class)
    ensures Sound(c, NewJob())
  {
    NewbornSound(c, NewJob());
  }

  /** No assertion fails for exactly the classes with a kill timeout or without a main
      process, and with no post-start, pre-stop or post-stop process if main is expected
      to stop itself. */
  lemma AssertionsHoldIff(c: Class)
    ensures Safe(c) <==> forall run :: !CrashesOn(c, run)
  {
    if Safe(c) {
      forall run ensures !CrashesOn(c, run) {
        NewJobNeverCrashes(c, run);
      }
    } else if CanSetTimer(c) {
      var run := LateReportCrashes(c);
      assert CrashesOn(c, run);
    } else {
      var run := ZeroTimeoutCrashes(c);
      assert CrashesOn(c, run);
    }
  }
}
