# Upstart's job and event engine, in Dafny

This project models the engine of Upstart's init daemon and proves what its
assertions, its documentation and its tests take for granted:

- **Jobs** (`JobMachine`, `JobSafety`, `JobTrace`, `JobRuns`, `JobReach`, `JobKill`,
  `JobLate`, `JobMain`, `JobSequel`, `JobEffects`, `JobEvent`, `Respawn`, `JobInstance`):
  the seventeen-state machine of `init/job.c` with the process handlers of
  `init/job_process.c`, as functions in which a failed assertion is the outcome `Crash`;
  an imperative instance that refines them field by field; what each step comes to in
  one go; and what every run of commands, process deaths, child-setup reports, trace
  notices, timers and event completions keeps.
- **Events** (`EngineState`, `Engine`, `Daemon`): the event list, the blocking counts, the
  polling loop and what jobs and classes do when an event is handled or finished.
  A job's step is taken from `JobMachine`; the effects the step left in the job's
  outbox are carried out on events, jobs and waiting callers.
- **Operator trees** (`Operators`, `EventMatch`, `OperatorTree`): AND/OR trees that
  are updated in place, against the boolean formula over the history of events;
  and when an event satisfies a leaf.
- **Conditions as text** (`ParseOn`, `OnGrammar`, `Collapse`, `Serialise`): the stack
  parser of "start on" and "stop on" against its grammar, the stack printer, and the
  post-order serialiser with its stack rebuilder.
- **Variable expansion** (`Environ`, `ExpandBuffer`, `Template`, `ExpandForms`,
  `EnvTable`): the recursive in-place buffer rewriter against a functional expander, that
  against a template that is read without the environment and then evaluated, what each
  form of reference comes to, and environment tables as maps.
- **Job logs** (`LogWriter`): the byte stream kept through partial and failed writes.
- **The class registry** (`Registry`): the registered class follows the best
  configured one, with replacement put off while instances run.

How the pieces fit: a class such as `Engine`, `Instance`, `Buffer`, `Parser`, `Log`
or `Registry` has the fields and loops of the C code; its methods are proved against
functions or against the invariant; lemmas then say what those mean. Assertions of
the C code are Dafny assertions or preconditions of the operations they guard, such
as `event_unblock` never being called on a count of zero.

## What the environment is taken to do

- A child whose setup fails reports so before its death is seen; a report concerns
  the newest process in its slot; a process that was seen to fork, exec or die has
  completed its setup, but one that was seen to stop or trap need not have
  (`JobRuns.Enabled`).
- The monotonic clock does not go back (`Respawn.ClockForward`).
- The results of system calls (pids, whether a signal could be sent, whether a file
  opens, how much a write takes) are parameters and may be anything.
- A log's reader is always given the whole receive buffer.
- Which events match a condition, in `Engine`, is a parameter and may be anything;
  `EventMatch` says what `event_operator_match` makes of it.
- The traversal macros of libnih visit a tree in post-order (or, with a filter, in
  order without the children of filtered nodes) and a list from its head.

## Where code, comments and expectations differ

- `kill timeout 0` is accepted by the parser (init/parse_job.c:2018-2021) but trips
  `nih_assert (timeout)` (init/job_process.c:1384) once a live main process is to be
  killed.
- With `expect stop`, a SIGSTOP that is seen before main's setup is complete moves the
  job on (init/job_process.c:1981-1999). If the setup then fails,
  `job_child_error_handler` (init/job.c:2642-2685) clears main's pid and stops the job
  although a post-start or pre-stop script may be running, whose death then trips
  init/job_process.c:1795 or 1806, or although the kill timer is pending, which then
  trips init/job_process.c:1432 if a post-stop process keeps the instance alive.
- These two are all: no assertion fails on any run exactly for the classes of
  `JobSafety.Safe` (`JobKill.AssertionsHoldIff`). The run lemmas and the engine are about
  those classes.
- RUNNING does not mean that main is alive. Of the classes with a main process, it does
  exactly for those with neither a post-start nor a pre-stop process that do not respawn
  (`JobMain.RunningMeansMainIff`); for each other one there is a run to RUNNING without
  main.
- The comment on `environ_expand` says that `${KEY+alternate}` gives the alternate
  only if KEY is unset; the code (init/environ.c:702-715) gives it if KEY is set. The
  model follows the code (`ExpandForms.AlternateForm`).
- Printing a condition and parsing it again does not always give it back: only a value
  with whitespace after an equals sign is quoted (init/state.c:1184), so that names and
  arguments spelled `and` or `or`, empty ones, and ones with whitespace or a parenthesis
  outside such a value are lost or changed, though the parser can produce them from
  quoted words (init/parse_job.c:944). `Collapse.PrintParse` says exactly when the
  condition comes back.
- `job_class_event_block` updates leaves only (init/job_class.c:584-595), so operators may
  disagree with their children afterwards. They agree exactly if the event makes no
  operator TRUE (`Engine.LeavesStayConsistentIff`), and always again after the next
  handling (`Operators.HandleConsistent`).
- Adding a bare key with replacement takes out the first entry for the key only, so that
  the key is gone exactly if there was no second one (`EnvTable.RemovesKeyIff`).

## Model

| member | source | states |
|---|---|---|
| JobMachine.Enter | init/job.c:394-663 | each state the loop of job_change_state enters leads to one of strictly smaller rank or ends the loop, so the loop terminates |
| JobSafety.EnterKeepsReady | init/job.c:419-660 | one round of the loop, from any legal transition, trips no assertion and leaves the job at rest or ready for the next round |
| JobSafety.ChangeStateSafe | init/job.c:394-663 | from every transition it may be asked to make, job_change_state returns without a failed assertion, with the job at rest |
| JobTrace.EnterOnTrack | init/job.c:394-663 | entering a state emits, spawns and signals only what the protocol automaton allows next |
| JobTrace.NextIsLegal | init/job.c:684-856 | the state job_next_state chooses is one the entry assertions of that state allow, even where the function alone would not guarantee it |
| JobTrace.ChangeStateOnTrack | init/job.c:394-663 | a whole call of job_change_state stays within the protocol |
| JobTrace.ProtocolCounts | init/job_process.c:1286-1313 | along the protocol there are no more SIGKILLs than kill signals, no more kill signals than stopping events, no more started than starting events, and at most one end |
| JobRuns.AdvanceSafe | init/job.c:684-856 | a job that waits for nothing any more can take its next state and comes to rest, with no failed assertion |
| JobRuns.ChangeGoalSafe | init/job.c:326-372 | changing the goal of a job at rest trips no assertion and leaves it at rest |
| JobRuns.StopKeepsInstance | init/job.c:326-372 | telling a job at rest to stop never frees the instance within the call, so the caller may go on using it |
| JobRuns.RestartSafe | init/job.c:1515-1570 | both goal changes of a restart are safe |
| JobRuns.TerminatedSafe | init/job_process.c:1625-1926 | the death of any process that may be alive, in any state it may be alive in, trips no assertion and leaves the job sound |
| JobRuns.ChildReaderSafe | init/job_process.c:2448-2527 | a failed child setup, reported at any time it can be, is handled without a failed assertion |
| JobRuns.CloseHandlerSafe | init/job_process.c:2536-2600 | a completed child setup, likewise |
| JobRuns.TraceSafe | init/job_process.c:2068-2099 | a new child of a traced main process, likewise, whether or not it is the last fork waited for |
| JobRuns.ForkSafe | init/job_process.c:2147-2203 | a fork notice, likewise |
| JobRuns.KillTimerMeans | init/job_process.c:1421-1452 | a pending kill timer belongs to a job in KILLED with a live main process that has had its kill signal but no SIGKILL; firing it trips no assertion and cannot be repeated |
| JobRuns.NextSafe | init/job_process.c:1470-1607 | every step that can happen to a sound job of a safe class trips no assertion and leaves the job sound, whether or not main stopped itself before its setup was complete |
| JobRuns.RunSafe | init/job.c:394-663 | on every feasible run of any length, of a safe class, no assertion fails, the job comes to rest after every step, and all it has emitted and signalled follows the protocol |
| JobRuns.RunCounts | init/job_process.c:1421-1452 | the bounds of the protocol, over every run |
| JobRuns.BlockedHoldsState | init/job.c:404-407 | while a job waits for the event it emitted, nothing but that event finishing changes its state |
| JobKill.ZeroTimeoutCrashes | init/job_process.c:1379-1391 | for every class with a main process and a kill timeout of zero, a feasible run from a new instance that trips the assertion |
| JobLate.LateReportCrashes | init/job.c:2642-2685 | for every class with a kill timeout that expects main to stop itself and has a post-start, pre-stop or post-stop process, a feasible run that trips an assertion |
| JobKill.AssertionsHoldIff | init/job_process.c:1379-1391 | no feasible run trips an assertion if and only if the kill timeout is not zero or there is no main process, and main is not expected to stop itself beside a post-start, pre-stop or post-stop process |
| JobMain.RunningMeansMainIff | init/job_process.c:1739-1753 | on all feasible runs RUNNING means that main is alive if and only if the class has neither a post-start nor a pre-stop process and does not respawn |
| JobMain.RunWithoutMain | init/job_process.c:1924-1925 | for every other class with a main process, a run of a new instance to RUNNING without it |
| JobMain.NextKeepsMain | init/job_process.c:1625-1926 | in a class where only main decides, no step leaves RUNNING or SPAWNED without main, whatever else has gone wrong |
| JobSequel.AdvanceMeans | init/job.c:394-663 | going on, state by state, brings a job that waits for nothing to its next resting place in one: the first of its processes on the way up, RUNNING with its event and, for a service only, its requests answered, or the next on the way down with the events, results, kill signal and freeing that belong to it |
| JobSequel.MainDied | init/job_process.c:1667-1762 | what the end of main makes of a sound job, in full: nothing in STOPPING, the way on in KILLED, and otherwise a stop, with failure exactly if the end was abnormal and main is not respawned or respawns too often, or another start, remembered while a script runs |
| JobSequel.OtherDied | init/job_process.c:1763-1828 | what the end of any other process makes of it: a pre-start or post-stop script that does not succeed fails and stops the job, and no other end matters |
| JobSequel.NextMeans | init/job_process.c:1470-1607 | every step that can happen to a sound job of a safe class has just the sequel written down for it, state, goal, fields and effects in order |
| JobSequel.PreStartFails | init/job_process.c:1782-1793 | a pre-start script with a status other than zero is recorded as the failed process with that status, the holds are released as failed first of all, the goal is to stop, the job goes to STOPPING and main is not started |
| JobSequel.PostStopFails | init/job_process.c:1816-1828 | so does a post-stop script, even if the job was to start again: the instance goes |
| JobSequel.ScriptPasses | init/job_process.c:1763-1828 | a script that succeeds, and a security, post-start or pre-stop process whatever its status, moves the job on without failing it or changing whether it is to be up |
| JobSequel.MainFails | init/job_process.c:1714-1762 | a main process that ends abnormally and is not respawned is recorded with its status, fails the holds and stops the job, at once unless a script runs |
| JobSequel.MainEnds | init/job_process.c:1714-1762 | one that ends normally, or was not to stay up, stops it without failure |
| JobSequel.MainRespawns | init/job_process.c:1727-1757 | one that is respawned leaves the job without failure and with the goal to start, or to respawn while a script runs, unless it respawns too often: then the job fails, naming no process, and stops |
| JobSequel.RunningTells | init/job.c:536-560 | whatever step brings a job to RUNNING, a task's requests are not answered then and any other job's are, and any job's on coming back from a pre-stop script |
| JobSequel.RestartWants | init/job.c:1515-1570 | after a restart the job is to be up again, and a running one is on its way down |
| JobSequel.ForbiddenCrashes | init/job.c:419-660 | entering a state with any other goal or from any other state than the assertions of the loop allow fails one of them |
| JobSequel.MisplacedDeathCrashes | init/job_process.c:1667-1828 | so does the end of a process in a state it does not belong to |
| JobReach.Readied | init/job_process.c:1981-2248 | however the class is told that main is ready, it can be told so, and the job then moves on from SPAWNED |
| JobEffects.ChangeStateTidy | init/job.c:394-663 | one call announces at most one event to wait for, exactly if the job then waits, and frees the instance only as its very last act, right after releasing all blocks |
| JobEffects.StepTidy | init/job_process.c:1470-1607 | the same of every process event of a sound job |
| Respawn.IntervalBound | init/job_process.c:1940-1966 | for any times at which respawns are asked for, at most twice the limit are allowed in any half-open interval of the configured length |
| Respawn.WindowBound | init/job_process.c:1940-1966 | one counting window allows no more than the limit less what it has counted |
| Respawn.WindowFills | init/job_process.c:1940-1966 | that bound is reached |
| Respawn.NextWindow | init/job_process.c:1625-1926 | the window of a job changes when a failed main process asks for a respawn and in no other step, as the C code computes it; asking too often makes the goal stop |
| Respawn.RespawnBound | init/job_process.c:1940-1966 | on every run of a new instance, at most twice the limit of respawns are allowed in any interval of the configured length |
| JobInstance.Instance.JobChangeState | init/job.c:394-663 | the loop over the fields of an instance does what ChangeState says, with each C assertion asserted |
| JobInstance.Instance.EnterState | init/job.c:419-660 | the switch of the loop does what Enter says |
| JobInstance.Instance.JobNextState | init/job.c:684-856 | the state chosen and the goal rewritten are those of NextState |
| JobInstance.Instance.JobChangeGoal | init/job.c:326-372 | the instance becomes what ChangeGoal says |
| JobInstance.Instance.JobFailed | init/job.c:877-898 | a failure is recorded once, and the blocks are released as failed |
| JobInstance.Instance.JobEmitEvent | init/job.c:1029-1140 | which event is emitted in which state, with what result and process |
| JobEvent.EventEnvironment | init/job.c:1062-1128 | the variables of the event: the job and instance, how it came to stop, and the exported variables of the job |
| JobEvent.ExportedMeans | init/job.c:1121-1128 | an exported variable is the job's if the job has one, and never overrides what the event says of itself |
| JobEvent.EndTold | init/job.c:1071-1119 | the RESULT, PROCESS, EXIT_STATUS and EXIT_SIGNAL variables for each way a job can have ended, written out |
| JobEvent.DecimalMeans | init/job.c:1099-1107 | a status is told in decimal digits without leading zeros |
| JobInstance.Instance.JobChildErrorHandler | init/job.c:2642-2685 | the instance becomes what ChildErrorHandler says for each process |
| JobInstance.Instance.ProcessStart | init/job_process.c:187-362 | pid, process data and trace state of a newly started process |
| JobInstance.Instance.ProcessKill | init/job_process.c:1286-1313 | the kill signal and the timer, with the assertions on both |
| JobInstance.Instance.KillTimerExpires | init/job_process.c:1421-1452 | the timer is cleared and SIGKILL sent to the process still alive |
| JobInstance.Instance.JobProcessTerminated | init/job_process.c:1625-1926 | the instance becomes what Terminated says, in every state and for every process; JobSequel says what that is |
| JobInstance.Instance.CatchesRunaway | init/job_process.c:1940-1966 | respawn time and count and the answer are those of CatchRunaway |
| JobInstance.Instance.JobProcessStopped | init/job_process.c:1981-1999 | a stopped main process moves on a job that expects that |
| JobInstance.Instance.JobTraceNew | init/job_process.c:2014-2051 | the trace state of a newly traced process |
| JobInstance.Instance.JobTraceNewChild | init/job_process.c:2068-2099 | forks are counted and the last one waited for moves the job on |
| JobInstance.Instance.JobTraceFork | init/job_process.c:2147-2203 | the child takes the place of the main process |
| JobInstance.Instance.JobTraceExec | init/job_process.c:2218-2248 | an exec after a fork moves the job on |
| JobInstance.Instance.ChildTrapped | init/job_process.c:1572-1587 | which trace handler a trap reaches |
| JobInstance.Instance.JobCloseHandler | init/job_process.c:2536-2600 | a completed setup is acted on once |
| JobInstance.Instance.JobChildReader | init/job_process.c:2448-2527 | a failed setup is acted on once |
| EngineState.JobsUpdate | init/event.c:185-208 | the holds counted over all jobs change by exactly what one job's list and stop condition change by |
| EngineState.ReleaseEventKeeps | init/job.c:921-928 | a job's hold on an event is always backed by a block of a live event, and releasing both keeps everything in step |
| EngineState.HoldEventKeeps | init/event_operator.c:672-676 | a block and the entry that holds it are taken together |
| EngineState.StopTreeKeeps | init/event_operator.c:390-430 | a changed stop condition keeps everything in step if the events count the difference |
| EngineState.EmitBlockingKeeps | init/job.c:1132-1137 | a new event that a job waits for is linked both ways |
| EngineState.UnlinkKeeps | init/event.c:467-479 | the first waiter of a finished event, a job, awaits exactly that event |
| EngineState.AnswerKeeps | init/event.c:480-500 | an answered emitter does not wait any more, and has one answer |
| EngineState.NewInstanceKeeps | init/job.c:144-269 | a new instance holds nothing and is awaited by nothing |
| Engine.Engine.constructor | init/event.c:80-87 | an empty daemon is in step |
| Engine.Engine.JobFinished | init/job.c:913-1006 | every hold of the job is released: each event by exactly the number of holds on it, marked failed if the job failed, and each waiting method call answered in order; nothing else changes and no count underflows |
| Engine.RepliesMeans | init/job.c:930-1003 | just the callers among the holds released are answered, each with whether the job failed |
| Engine.Engine.HoldAll | init/event_operator.c:649-678 | the events collected are held by the job, in order, once for each leaf |
| Engine.Engine.UnblockTree | init/event_operator.c:690-715 | one event_unblock for each leaf that holds an event, none on a count of zero |
| Engine.Engine.HandleTree | init/event_operator.c:390-430 | the tree and the answer of event_operator_handle, with one block for each newly matched leaf; Operators says by AND and OR what that tree is |
| Engine.Engine.JobEmitEvent | init/job.c:1029-1140 | a pending event called starting, started, stopping or stopped at the end of the list, awaited by the job exactly if it is starting or stopping |
| Engine.Engine.FreeJob | init/event_operator.c:205-215 | an instance's end releases just the blocks of its stop condition |
| Engine.Engine.Settle | init/job.c:394-663 | the effects of a job's step, carried out in order, keep everything in step: just the events announced are added, in order, the holds go at the first release, with exactly the held events marked if it is a failure and exactly the waiting callers answered, and the job awaits an event afterwards exactly if it did before or the step announced one |
| Engine.Engine.Become | init/job.c:394-663 | a job takes a step of its machine and the daemon is in step again |
| Engine.Engine.ProcessEvent | init/job_process.c:1470-1607 | any process event of any job keeps everything in step, and the job becomes what its machine says; events, holds and answers change by just what its machine's effects say |
| Engine.Engine.ChangeGoal | init/job.c:326-372 | likewise a change of goal, which never fails an assertion |
| Engine.Engine.Request | init/job.c:1351-1414 | a start or stop request is refused for the goal the job has, and otherwise supersedes earlier ones, whose callers are answered without failure; the caller waits if it asked to, unless the change of goal already answered it |
| Engine.Engine.Restart | init/job.c:1515-1570 | refused for a job that is stopping, and otherwise supersedes earlier requests, whose callers are answered without failure; the caller waits if it asked to, unless the changes of goal already answered it |
| Engine.Engine.Emit | init/control.c:648-720 | an event with a name becomes pending, and its emitter waits if it asked to |
| Engine.Engine.HandleStop | init/event.c:335-373 | an event that newly matches an instance's stop condition and makes it TRUE gives the job the goal to stop, by its machine, makes it hold just the events collected, and resets the condition; any other changes the condition at most |
| Engine.Engine.Induct | init/job_class.c:2716-2786 | the instance of the name, found or new, is asked to start by its machine and holds just the events collected; one that is starting or running is not touched |
| Engine.Engine.HandleStart | init/event.c:411-420 | the start condition after the event, reset if it became TRUE; an instance started then, unless its name cannot be told |
| Engine.Engine.ClassPending | init/event.c:316-421 | stopping comes before starting, for all instances of a class |
| Engine.Engine.EventPending | init/event.c:285-447 | every class of the event's session, or of any session if it has none, and every instance of it, has seen the event once, up to the first class whose instance has no name; the rest has not changed |
| Engine.Engine.LetGo | init/event.c:467-479 | a finished event lets a waiting job take its next state, which is always possible |
| Engine.Engine.EventFinished | init/event.c:460-526 | only an event that nothing holds is finished; then nobody waits for it, every emitter that did is told whether it failed, which finishing cannot change, it is freed, and exactly one failure event follows if it failed and is not itself one |
| Engine.FailureChainEnds | init/event.c:504-521 | a name is that of a failure event if and only if it ends in /failed, so every failed event of another name is followed by one, and that by none |
| Engine.Engine.Visit | init/event.c:249-267 | an event visited is afterwards freed or handled and held; if nothing was done, nothing changed |
| Engine.Engine.Poll | init/event.c:228-270 | when event_poll returns, every event left is being handled and held by someone; answers given stay given, and no event goes back, is unfailed or comes to life again |
| Engine.Engine.EventBlock | init/job_class.c:544-597 | the events a replaced class holds are offered to the leaves of its successor, unless it has instances; no event loses a block |
| Engine.Engine.FreeClass | init/event_operator.c:205-215 | a freed class releases just the blocks of its start condition |
| Engine.LeavesRefs | init/job_class.c:584-595 | handling by leaves alone takes one block for each new match, and keeps leaves TRUE exactly when they hold an event |
| Engine.LeavesStayConsistentIff | init/job_class.c:584-595 | after that a consistent tree is still consistent if and only if the event makes no operator TRUE |
| Engine.LeavesConsistentIff | init/job_class.c:584-595 | which is so exactly if full handling would have done the same |
| Engine.LeavesDisagree | init/job_class.c:584-595 | an "or" of two events that one of them leaves FALSE |
| Engine.Engine.BlockerLink | init/job.c:1132-1137 | whenever the daemon is in step, a job awaits an event exactly when it is STARTING or STOPPING; that event is alive and lists the job once, and no other event does |
| Engine.Engine.NoDanglingHold | init/event.c:185-208 | whenever the daemon is in step, an event that an operator or a job refers to is alive and counts exactly those references |
| Daemon.Happen | init/event.c:228-270 | whatever can happen next - commands, process events, polling, classes coming, replaced and going - fails no assertion and leaves the daemon in step; answers stay given, no event goes back, and exactly the callers that asked and were not refused are to be answered |
| Daemon.Play | init/event.c:228-270 | the same over any sequence of such actions |
| Daemon.Run | init/job.c:913-1006 | over any run of the daemon from its start no caller has more answers than it asked times, and one that asked once has its one answer or waits in one place, never both |
| Operators.HandleHistory | init/event_operator.c:390-430 | from a reset tree, after any events, each leaf is TRUE exactly when some event matched it and holds the first that did, an AND exactly when both its children are and an OR exactly when one is |
| Operators.TwoLeaves | init/event_operator.c:228-249 | an "and" of two events is TRUE exactly once each was matched, an "or" once one was |
| Operators.HandleConsistent | init/event_operator.c:228-249 | handling or resetting makes every operator agree with its children, whatever they said before |
| Operators.HandleRefs | init/event_operator.c:413-421 | handling takes exactly one block for each newly matched leaf |
| Operators.ResetRefs | init/event_operator.c:690-715 | a reset tree holds nothing |
| Operators.CollectedWitness | init/event_operator.c:649-678 | the events collected are those of leaves reached through TRUE nodes only, and those leaves alone make the tree TRUE whenever it is |
| Operators.CollectedEmpty | init/event_operator.c:444-450 | something is collected exactly from a TRUE tree |
| EventMatch.Match | init/event_operator.c:274-361 | the loop over arguments says TRUE exactly when the names agree and every argument is satisfied by its own entry of the event's environment |
| EventMatch.Hunt | init/event_operator.c:301-322 | which entry an argument is compared with, and whether it negates |
| EventMatch.Compare | init/event_operator.c:324-358 | TRUE exactly if the entry is there, the pattern expands, and it accepts the value or, negated, does not |
| EventMatch.PositionalInOrder | init/event_operator.c:291-322 | with positional arguments first, the k-th is compared with the k-th entry |
| EventMatch.MatchNamed | init/event_operator.c:301-358 | K=P accepts exactly the events of the name whose K has a value that the expanded P accepts |
| EventMatch.MatchNegated | init/event_operator.c:312-358 | K!=P exactly those whose K has a value that it does not accept |
| EventMatch.MatchPositional | init/event_operator.c:319-358 | a pattern alone exactly those whose first variable, whatever its name, has a value that it accepts |
| EventMatch.MatchesAll | init/event_operator.c:291-358 | a list of arguments accepts exactly the events of the name that meet every one, at its own entry |
| OperatorTree.OperatorNode.Update | init/event_operator.c:228-249 | an AND becomes TRUE exactly if both its children are, an OR exactly if one is |
| OperatorTree.OperatorNode.Handle | init/event_operator.c:390-430 | the linked nodes become the tree Operators.Handle gives, and the event counts one block more for each new match |
| OperatorTree.OperatorNode.Reset | init/event_operator.c:690-715 | the nodes become the reset tree; every event loses exactly the blocks the tree held, and none underflows |
| OperatorTree.OperatorNode.Copy | init/event_operator.c:139-190 | a fresh tree with the same values and events, each of which counts the copy's blocks as well |
| OperatorTree.OperatorNode.Events | init/event_operator.c:649-678 | the list of the filtered walk, with one block for each entry |
| ParseOn.Parser.CollectStack | init/parse_job.c:1032-1079 | the loop folds the stack as Collect says, or fails with its error |
| ParseOn.CollectKeepsMarkers | init/parse_job.c:1040-1046 | collecting stops at an open parenthesis and removes none |
| ParseOn.Parser.Paren | init/parse_job.c:837-910 | what a parenthesis does to stack, root and depth |
| ParseOn.Parser.Operator | init/parse_job.c:723-805 | what an operator or a word does |
| ParseOn.Parser.EventWord | init/parse_job.c:935-1010 | a name or an argument; an argument is refused exactly if a positional one would follow a named one |
| ParseOn.Parser.ParseLines | init/parse_job.c:558-658 | the loops over lines and tokens give the condition, or the error, and the lines taken that RunLines says; the depth counter always equals the parentheses on the stack |
| OnGrammar.DerivedIsParsed | init/parse_job.c:558-658 | everything the grammar derives is accepted, as its left-associative tree |
| OnGrammar.StepTrail | init/parse_job.c:723-1010 | between parentheses the stack has at most one waiting operator with at most one event above it, and records what was read, or the parse can no longer succeed |
| OnGrammar.ParsedIsDerived | init/parse_job.c:558-658 | everything accepted is derived by the grammar |
| OnGrammar.ParseIffDerived | init/parse_job.c:558-1079 | the parser accepts exactly E ::= T or E op T, T ::= word+ or ( E ), with no positional argument after a named one, and builds that derivation's tree |
| OnGrammar.OrderIff | init/parse_job.c:983-1005 | the order asked for is positional arguments first and then named ones |
| OnGrammar.Unbalanced | init/parse_job.c:885-897 | a parenthesis without its partner is the error for mismatched ones |
| OnGrammar.EventMissing | init/parse_job.c:1053-1077 | nothing, an operator or a closing parenthesis where a condition should begin is the error for a missing event |
| OnGrammar.OperatorMissing | init/parse_job.c:862-873 | a condition right after another is the error for a missing operator |
| OnGrammar.VariableMissing | init/parse_job.c:983-1005 | a positional argument after a named one is the error for a missing variable |
| OnGrammar.LinesTaken | init/parse_job.c:579-624 | a condition takes exactly the lines up to the first that ends with no parenthesis open, none of them empty |
| Collapse.CollapseEnv | init/state.c:1175-1217 | the loop over an event's arguments gives their text, values with whitespace quoted |
| Collapse.CollapseTree | init/event_operator.c:742-865 | the stack of partial expressions never runs empty and ends with the fully parenthesised text of the condition |
| Collapse.VisitTree | init/event_operator.c:754-855 | a subtree leaves its own text on the stack, or nothing if it is an event |
| Collapse.ConditionPrinted | init/event_operator.c:742-865 | the text written out: operators by name between spaces, each with its operands in parentheses, words separated by a space |
| Collapse.ArgumentPrinted | init/state.c:1175-1217 | quotation marks go round a value that holds a space or a tab, and round nothing else |
| Collapse.ReadableMeans | init/parse_job.c:944-948 | the arguments that come back, without reference to what is quoted |
| Collapse.LexText | init/parse_job.c:745-761 | a text whose words hold no delimiter outside quotes is read as those words, operators and parentheses, empty words left out |
| Collapse.LexLetters | init/parse_job.c:944-948 | reading loses no letter outside quotes but delimiters, and adds none |
| Collapse.SeenMany | init/parse_job.c:765-772 | an empty word is one word too few in what is read, and a word spelled like an operator one operator too many |
| Collapse.PrintParse | init/event_operator.c:742-865 | the printed text is read as the condition again if and only if no word is spelled like an operator, no positional argument follows a named one, and no word is empty, holds a quotation mark, or holds whitespace or a parenthesis outside a quoted value |
| Collapse.KeywordNameLost | init/event_operator.c:768-784 | an event called "and" does not come back |
| Collapse.SpacedArgumentLost | init/state.c:1184 | nor does one with the argument "a b" |
| Collapse.ParenthesisLost | init/state.c:1184 | nor one with the argument "K=(x)" |
| Serialise.SerialiseAll | init/event_operator.c:974-1001 | the records of the tree in post-order, or a failure exactly if a leaf holds an event that is not in the list |
| Serialise.IndexUnique | init/event.c:807-858 | an event's index leads back to that event |
| Serialise.DeserialiseAll | init/event_operator.c:1088-1174 | the stack machine's outcome, assertions included |
| Serialise.DeserialiseIffRecords | init/event_operator.c:974-1174 | rebuilding gives a tree if and only if the list is that tree's own records |
| Serialise.DeserialiseIffPostOrdered | init/event_operator.c:1088-1174 | with valid indices, rebuilding never fails, and no assertion fails exactly for lists in post-order |
| Environ.Lookup | init/environ.c:348-361 | the first entry for the key |
| Environ.GetMeans | init/environ.c:397-416 | nothing is found exactly if no entry is for the key, and otherwise the value of the first that is |
| Environ.ExpandLeavesSuffix | init/environ.c:536-764 | what an expansion leaves unread is the end of the text exactly as it was |
| Environ.Reference | init/environ.c:568-665 | every reference takes at least its dollar sign, which is why expansion terminates |
| ExpandBuffer.Buffer.Substitute | init/environ.c:720-755 | the reference is replaced, and the text before and after it kept exactly, whether the buffer grows, shrinks or stays, and even if the value stands inside the reference |
| ExpandBuffer.Buffer.ExpandUntil | init/environ.c:536-764 | the in-place scan does to the unread text what the functional expander does and leaves what was read untouched; it fails exactly when that fails, with the same error, and then the buffer is gone; the unread length decreases through every nested call |
| ExpandBuffer.Buffer.ExpandReference | init/environ.c:568-665 | likewise one reference or lone dollar sign |
| ExpandBuffer.Buffer.BracedReference | init/environ.c:601-662 | likewise a braced reference with its nested name, operator and argument |
| ExpandBuffer.Buffer.Choose | init/environ.c:667-718 | the value, the argument where it stands in the buffer, or nothing, as the functional expander chooses; ExpandForms says which |
| ExpandBuffer.ExpandString | init/environ.c:484-506 | the whole string expanded, or the error |
| Template.ExpandMeans | init/environ.c:536-764 | expanding is reading the text once, without the environment, and evaluating the template: substituted text is never read again, and the first error met is the one raised |
| ExpandForms.ValueForm | init/environ.c:670-687 | ${K} is the value of K, and an error if K has none |
| ExpandForms.DefaultForm | init/environ.c:688-701 | ${K-A} is the value of K if it has one, even an empty one, and A otherwise |
| ExpandForms.NonEmptyDefaultForm | init/environ.c:688-701 | ${K:-A} is the value of K if it has one that is not empty, and A otherwise |
| ExpandForms.AlternateForm | init/environ.c:702-715 | ${K+A} is A if K has a value, even an empty one, and nothing otherwise |
| ExpandForms.NonEmptyAlternateForm | init/environ.c:702-715 | ${K:+A} is A if K has a value that is not empty, and nothing otherwise |
| ExpandForms.NameForm | init/environ.c:572-587 | $K is the value of K, as long a run of letters, digits and underscores as there is that begins with no digit |
| ExpandForms.DollarForm | init/environ.c:588-599 | ${} and a dollar sign before anything else are a dollar sign |
| ExpandForms.BrokenForms | init/environ.c:634-660 | an unclosed brace and a colon without an operator are the errors for those |
| ExpandForms.InText | init/environ.c:536-764 | the text before a reference is copied, the reference replaced, and the text after it expanded |
| ExpandForms.DefaultInText | init/environ.c:536-764 | the default form within a text, as a whole |
| Template.ReadPrint | init/environ.c:536-764 | reading a template loses nothing of the text |
| Template.QuoteExpands | init/environ.c:588-599 | a string with each dollar sign written as ${} expands to itself in every environment |
| EnvTable.Environment.Add | init/environ.c:81-155 | the table as a map: a value is set, kept if not to be replaced, or removed if to be replaced by nothing; on a table with repeated keys the first entry is what changes; keys that are distinct stay so |
| EnvTable.GivenMeans | init/environ.c:105-133 | the value added is the one written after the first equals sign, or that of init's own environment |
| EnvTable.Environment.Append | init/environ.c:256-271 | likewise for a whole table, in order |
| EnvTable.RemovesKeyIff | init/environ.c:134-138 | removal takes the key out of the map if and only if no second entry has it |
| EnvTable.GetReads | init/environ.c:397-416 | looking up reads the map |
| EnvTable.AppendOverlays | init/environ.c:256-271 | appending with replacement lays the new table over the old one, and without it under |
| LogWriter.Log.FileOpen | init/log.c:403-463 | open afterwards exactly if it was open on a file that still has a name, or opens anew |
| LogWriter.Log.FileWrite | init/log.c:519-610 | the file gets just what the writes take, what waits before what is new; what it does not take waits in order; new data is lost exactly if a full disk refuses it |
| LogWriter.Log.IoReader | init/log.c:315-355 | likewise with a file that may not open; a disk that is full when it refuses discards the new data, and any other refusal keeps it |
| LogWriter.Log.ReadWatch | init/log.c:624-713 | all that is read is handled, in order |
| LogWriter.FinalBytesAdd | init/log.c:640-700 | what is read adds up over interrupted reads, and nothing is read after the end |
| LogWriter.Log.Flush | init/log.c:213-278 | what waits is tried once more, and more is read only if all of that was written |
| LogWriter.SubsequencePrefix | init/log.c:548-559 | dropping the newest bytes leaves an order-preserving part |
| LogWriter.Play | init/log.c:213-713 | after any sequence of output, failures and flushes, the file, what waits and what is unhandled are together just the bytes that arrived and those that final reads got, in order, less only what a full disk discarded; a file that opens and takes all that is new at once has them all |
| Registry.Registry.SelectJob | init/conf.c:1311-1338 | the job of the first file that has one for the name and session |
| Registry.SelectFinds | init/conf.c:1311-1338 | a job is selected exactly if some file has one |
| Registry.SelectIff | init/conf.c:1311-1338 | a class is the one selected if and only if some file has it as its job for the key and no file searched before has a job for it |
| Registry.Registry.GetRegistered | init/job_class.c:421-436 | the registered class of the name and session |
| Registry.Registry.Remove | init/job_class.c:662-685 | a class is deregistered exactly if it has no instances, and no other is |
| Registry.Registry.Consider | init/job_class.c:449-480 | afterwards the best class is registered unless the registered one still has instances; the answer is TRUE exactly if the class asked about is best and registered |
| Registry.Registry.Reconsider | init/job_class.c:496-523 | TRUE exactly if the class is not registered any more; a class without instances that is not the best has given way |
| Registry.Registry.DestroyJob | init/conf.c:1263-1297 | a destroyed file's class is freed if it has no instances and is due to be deleted otherwise; no other class changes |
| Registry.Registry.FileDelete | init/conf.c:961-1008 | a deleted file keeps the registry in step |
| Registry.Registry.ReloadPath | init/conf.c:1068-1246 | a file read anew, unreadable, unparsable or giving a job, keeps the registry in step, and only its old class goes or is marked |
| Registry.Registry.ReloadOverride | init/conf.c:1068-1246 | an override that parses keeps the registry in step |
| Registry.Registry.InstanceStart | init/job.c:144-269 | a new instance of a registered class keeps the registry in step |
| Registry.Registry.InstanceEnd | init/job.c:617-660 | the end of an instance keeps the registry in step; a class due to be deleted is freed with its last instance and never before |
| Registry.FindWithout | init/job_class.c:662-685 | with at most one class per name and session, deregistering one leaves none for its key and every other key alone |
| Registry.TakenOff | init/conf.c:1097-1130 | taking a file off its list changes what is selected for its job's key at most |

## Left out

- fork, exec, ptrace, pty, signal, utmp and limit setup of child processes: foreign calls; only their outcomes are steps.
- D-Bus, JSON encoding, sessions as processes, control methods other than emit, start, stop and restart, and log messages: plumbing.
- libnih (allocation, lists, hashes, trees, tokeniser, inotify): not part of this model; sequences, maps and tokens stand for them. Conditions are read back from one line without comments or escapes (`Collapse.Ordinary`), whose tokens are words, quoted stretches and parentheses.
- Failure of memory allocation, everywhere.
- start_env, stop_env, file descriptors handed to jobs and the environment of events in the engine: they decide nothing about states or blocks.
- cgroups and AppArmor, but for whether a security process is to run.
- quiesce and the user-session end of event_pending_handle_jobs.
- environ_remove: it compares by the length of each entry's own key and skips an entry after a removal, so it keeps no map.
- A parse failure of an override file: it takes the job off its file while the class stays registered.
- Sources of plain configuration files in the registry: they carry no jobs.
- The list of detached logs and log serialisation.
- Respawn rate over several instances of a class: the C code counts per instance.
- Progress of jobs: a failed security process changes the goal only, and events may follow each other for ever.
- Engine.Engine.Poll: visits at most a given number of events, because a polling loop need not end; what it states is about a loop that does.
- Daemon.Happen: the registry's choice of class is not coupled to it; classes come, are replaced and go as separate steps.
- JobRuns.RunSafe: after an instance is freed its process data are not followed; the C code may still hold them.
- ParseOn.Parser.ParseLines: operator nodes on the stack are values, so sharing and freeing of nodes is not captured.
- Engine.Engine.HandleTree: trees of the engine are values, updated in one recursion; OperatorTree has the nodes that are changed in place.
