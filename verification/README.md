# The wait engine, verified

A Dafny model of the engine behind the `kubewait_condition` action, and proofs
about it. The engine validates a wait configuration, lists and watches
Kubernetes objects, judges each snapshot of them, and ends with a success or
failure once that verdict has held for the settle window, or with a time-out,
a fatal error or a cancellation.

`dafny verify dfyconfig.toml` checks the whole project.

## How it is laid out

| module | what it holds |
|---|---|
| `Settle` | the settle clock: the `Tracker` object, its value `Clock`, and `HeldFor`, which says the same of a whole observation history |
| `Objects`, `Sorting` | objects, references, cache keys, and the order the evaluator sorts by |
| `WaitSpec`, `Evaluator`, `Verdicts`, `Meaning` | the parsed configuration; the evaluator's loops against the outcome as a function; what follows of the outcome; the outcome in the words of the configuration |
| `Validation`, `Parser`, `Knowledge`, `Acceptance` | the findings of validation, rule by rule; the walk that reports them; what learning values changes; the rules as a set, and what an accepted configuration comes to |
| `FieldPaths`, `PathGrammar`, `Decimals`, `Durations` | field paths parsed and printed, the language of field paths, decimal numerals, durations printed and read back |
| `Protocol` | the run loop as a timed state machine: `Job.Step` takes one moment of the world, `Job.Run` a whole sequence of them |
| `Turns`, `Blocking` | what every step has in common; every timer is ahead of now and within the deadline |
| `Soundness`, `Timing`, `Endings`, `Cycles`, `Liveness`, `Relists`, `Reporting`, `Errors`, `Mirror` | theorems over every run |
| `Witnesses` | runs, moment by moment, in which what is documented of every wait does not hold |
| `Runner` | the run loop as the provider writes it: a class whose methods update its fields in place, each proved to do what the machine does |

The world enters only through a sequence of `Moment`s, one for each point where
the loop waits for it: what a resolve, list or watch-open answers and how long
it took, whether a blocked wait ends by its timer (and how late), by an event,
by the watch closing or by cancellation. Every theorem is about every such
sequence, so the API server, the clock and the choice among ready channels are
arbitrary. `Runner.Wait` runs the object against such a sequence, and
its result is the machine's.

A resolve or a list that would take more than a minute comes back after one, as
an error; opening a watch has no such limit. Time passes only inside API calls
and while blocked; the computation between them is instantaneous. A moment that
cannot happen, such as an event without a watch, reads as the timer firing on
time. A sequence of moments is finite, so a run may be `Unfinished`; no run of
the machine ends that way by itself.

## Where code and documentation differ

The model follows the code. Each of these is the subject of a theorem below.

- The documentation says that API errors reset settle (README.md:329). The ones
  that are retried with backoff do, and no other:
  `Soundness.WhichErrorsRestartSettle` says so of every error at every point of
  every run. A first 401, and a watch that opens or ends as gone or expired,
  record no observation (internal/watcher/runner.go:139-141, 215-217, 247-249).
  `Witnesses.SuccessAcrossAnError` is a wait that succeeds at the end of its
  window although the server answered 401 inside it.
- The documentation says that the expiry of `timeout` is a failure
  (README.md:326). A wait can still succeed after it: `Witnesses.SuccessAfterTheDeadline`
  does so, seven seconds late. It happens exactly when the last thing the server
  said came at the deadline or later (`Endings.LateSettlement`), and
  `Timing.EndsInTime` bounds how late.
- A wait need not end. Nothing spaces the re-list after an expired watch, nor
  the events of a watch, so a world that answers in no time keeps the loop in one
  instant for ever (`Witnesses.RelistsForever`, `Witnesses.BookmarksForever`).
  A run goes on for ever exactly when it stalls for ever, that is when resolves
  or events take no time again and again (`Timing.ForeverIffStalls`).
- The documentation has the wait re-list every `poll_interval` (README.md:327).
  Without errors, lists are that far apart at most where it is a second or more,
  or no watch closes (`Relists.ListsKeepComing`); below a second, a watch that
  closes puts them a second apart, whatever the interval
  (`Witnesses.ListsASecondApart`).
- Rounding to whole seconds is not half up within the last half second
  that int64 holds (`Durations.RoundingIsHalfUp` gives the exact condition).
- A printed path does not always parse back (`FieldPaths.PathRoundTripIff` gives
  the exact condition), and two references may share a cache key when a half
  contains a slash (`Objects.KeyCollision`, `Mirror.ListMirrorsWhenKeysDiffer`).

## Model

| member | source | states |
|---|---|---|
| Settle.ClockReadsStretch | internal/wait/settle.go:21-27 | after any history, `since` is the time of the first observation of the longest constant stretch that ends it |
| Settle.SettledIffHeld | internal/wait/settle.go:21-52 | the online clock says settled exactly when the history ends in one success or failure held for the window, which is exactly when a deadline exists and has been reached |
| Settle.Tracker.constructor | internal/wait/settle.go:16 | a new tracker has seen nothing |
| Settle.Tracker.Observe | internal/wait/settle.go:21-27 | the tracker moves on as the clock over the longer history; `settled` holds exactly when that history has held, `changed` exactly when the observation starts a stretch |
| Settle.Tracker.Settled | internal/wait/settle.go:30-32 | for an ordered history, holds exactly when the history has held a success or failure for the window |
| Settle.Tracker.Held | internal/wait/settle.go:38-43 | the age of the stretch that ends the history; zero before any observation |
| Settle.Tracker.Deadline | internal/wait/settle.go:47-52 | the end of the window opened by the stretch that ends the history; none for a pending stretch or no history |
| Objects.KeyInjective | internal/wait/evaluate.go:15-20 | where no namespace or name holds a slash, two references have one key exactly when they are equal |
| Objects.RefIsRead | internal/wait/evaluate.go:23-28 | a reference is the namespace and the name in the metadata; what is missing, or no text, reads as empty |
| Objects.LessIsPrecedes | internal/wait/evaluate.go:118-124 | one text comes before another exactly when it stops, or is the smaller, at the first place where they differ |
| Objects.RefLessIsRefPrecedes | internal/wait/evaluate.go:118-124 | references are ordered by namespace, and by name within one |
| WaitSpec.HoldsIff | internal/wait/conditions.go:5-38 | a condition holds exactly when the first entry of its type in status.conditions carries its status, and its reason if it names one |
| Objects.SortByRefSorts | internal/wait/evaluate.go:117-124 | the sort permutes its input and orders it by namespace, then name; strictly, when references differ |
| Objects.SortIgnoresOrder | internal/wait/evaluate.go:117-124 | any two listings of the same distinctly named objects sort to the same sequence |
| Evaluator.Judge | internal/wait/evaluate.go:55-111 | an object's standing: whether it fails, whether it passes, and the error that leaves it unclassified if no failure is proven; `Meaning` says what these are |
| Evaluator.EvaluateSingle | internal/wait/evaluate.go:131-162 | the loop computes the single-object outcome, whose meaning is `Verdicts.SingleVerdict` |
| Evaluator.Sift | internal/wait/evaluate.go:178-199 | the objects the filter keeps, each judged, in order, and every evaluation error met on the way |
| Evaluator.Tally | internal/wait/evaluate.go:201-212 | who fails, passes, and merely does not pass, counted by what each object is |
| Evaluator.EvaluateSet | internal/wait/evaluate.go:178-265 | the loops compute the set-mode outcome, whose meaning is `Verdicts.SetVerdict` |
| Evaluator.Evaluate | internal/wait/evaluate.go:116-129 | the outcome of a snapshot in either mode, over the sorted copy |
| Verdicts.OutcomeIgnoresOrder | internal/wait/evaluate.go:116-129 | permuting distinctly named objects leaves verdict, counts, objects and errors as they are |
| Verdicts.AnyListing | internal/watcher/runner.go:326-332 | however the cache is walked, the outcome is that of the set of its objects |
| Verdicts.SetVerdict | internal/wait/evaluate.go:178-265 | failure exactly when a kept object fails; success exactly when none does, nothing erred, the count lies in range, require_all means all kept objects pass, and set_expression holds |
| Verdicts.PassingAndNotPassingPartition | internal/wait/evaluate.go:201-212 | past the failure and error gates, passing and not passing partition the kept objects |
| Verdicts.SingleVerdict | internal/wait/evaluate.go:116-162 | the verdict is that of the named object wherever it stands in the snapshot; of several of the name, the first by namespace, and of equal references the one listed first; `absent` when there is none |
| Verdicts.ErrorsAreUnknown | internal/wait/evaluate.go:55-265 | a success or failure reached despite erring predicates stays the same however the errors would have come out, in both modes |
| Verdicts.DrainSuccess | internal/wait/evaluate.go:178-265 | a drain succeeds only if the filter said no without error to every object, or there was none and no filter; without set_expression the converse too |
| Meaning.SetFailureIff | internal/wait/evaluate.go:55-221 | in set mode, failure exactly when on some selected object a failure condition holds or failure_expression is true |
| Meaning.SetSuccessIff | internal/wait/evaluate.go:178-265 | success exactly when no selected object has failed so, no filter or expression erred, the number of selected objects on which every success condition holds and expression is true lies in range, all of them do if that is asked for, and set_expression is true of them |
| Meaning.SuccessHasAWitness | internal/wait/evaluate.go:178-265 | a success with min_matching above zero has a selected object that passes and has not failed |
| Meaning.SetObjects | internal/wait/evaluate.go:116-212 | the outcome lists the selected objects, each as often as the snapshot has it, by namespace and then name, and counts them and those that pass |
| Meaning.SetErrors | internal/wait/evaluate.go:182-252 | its evaluation errors are the texts of the objects whose filter or judgement erred, under their references, and of set_expression |
| Meaning.SingleMeans | internal/wait/evaluate.go:131-162 | in single mode, the same of the first object of the name, said of conditions and expressions alone; `absent` and nothing else without one |
| FieldPaths.ParseFieldPath | internal/wait/progress.go:27-83 | the parse loop ends, never indexes an empty path in its complaint, and computes the parse that `PathGrammar` characterises, error by error |
| FieldPaths.PathString | internal/wait/spec.go:180-194 | the printing loop computes the text of which the round trips speak |
| FieldPaths.PathRoundTrip | internal/wait/progress.go:27-83 | parsing the printed form of a non-empty path of plain keys and indices gives the path back |
| FieldPaths.PathRoundTripIff | internal/wait/progress.go:27-83 | and of no other path: it comes back exactly when it is non-empty, its keys are non-empty and free of "." and "[", and its indices are within int64 |
| FieldPaths.UnplainPathsDoNotReturn | internal/wait/spec.go:180-194 | a dotted key prints like two keys, and the empty path like no path |
| PathGrammar.ParsesExactlyPaths | internal/wait/progress.go:21-83 | the parser accepts exactly the texts made of keys, dots and brackets in their places, and reads off them what they spell: quoted keys without their quotes, and indices |
| PathGrammar.SaysWhatIsWrong | internal/wait/progress.go:27-83 | of any other text it says what is wrong at the first place where something is, each error exactly where it applies |
| PathGrammar.EveryPathRoundTrips | internal/wait/progress.go:21-83 | every non-empty path whose indices int64 holds comes back when keys that are not plain are quoted and bracketed |
| Decimals.AtoiPrint | internal/wait/progress.go:52 | reading a printed index gives the index, up to the width of int64 |
| Durations.FormatDuration | internal/wait/progress.go:205-222 | the text reads back as the rounded duration in seconds, to a reader that takes hours, minutes and seconds in that order only and none of them zero but for 0s; minutes and seconds are below 60; zero and negative durations print 0s |
| Durations.RoundingIsHalfUp | internal/wait/progress.go:209 | rounding is half up, off by at most half a second, exactly for durations short of the last half second of int64 |
| Durations.ReadLayout | internal/wait/progress.go:210-221 | every layout of hours, minutes and seconds reads back as their sum |
| Parser.Report.Known | internal/wait/spec.go:225-230 | an unknown value marks the configuration incomplete, a known one does not |
| Parser.Report.Add | internal/wait/spec.go:209-215 | appends a finding and keeps the others |
| Parser.AnyError | internal/wait/spec.go:200-207 | holds exactly when some finding is an error |
| Parser.ParseSelection | internal/wait/spec.go:235-286 | reports the findings on kind, name, namespace and selectors, and rule 1 (name with a selector) |
| Parser.ParseConds | internal/wait/spec.go:447-482 | reports every empty type or status, and returns the conditions all of whose parts are known and usable, in order |
| Parser.ParseCondition | internal/wait/spec.go:455-479 | one condition: its findings, whether it is wholly known, whether it is usable |
| Parser.ParsePart | internal/wait/spec.go:461-475 | one part of a condition: an unknown one is incomplete, an empty required one a finding, a null one neither |
| Parser.Compile | internal/wait/spec.go:293-303 | a program exactly when the text is known, set and compiles; a finding exactly when it is set and does not |
| Parser.ParsePredicates | internal/wait/spec.go:288-307 | the findings and values of all conditions and CEL texts |
| Parser.Count | internal/wait/spec.go:484-495 | accepts exactly the finite whole numbers from zero to the int64 maximum |
| Parser.ParseCounts | internal/wait/spec.go:309-351 | the counts with their defaults, rule 2 (min above max) and rule 5 (a drain with success predicates), each only where what it reads is known and valid |
| Parser.ParseFlags | internal/wait/spec.go:353-370 | require_all, watch and absent with their defaults, and the finding on absent; `Acceptance.AbsentMeans` says what absent is for |
| Parser.Duration | internal/wait/spec.go:497-512 | a duration exactly when the text parses and its sign is acceptable; one finding otherwise |
| Parser.ParseTimes | internal/wait/spec.go:372-399 | the four durations with their defaults, and rule 3 (settle below timeout) where both are known and valid |
| Parser.ParseFields | internal/wait/spec.go:401-414 | the progress fields that are known and parse, in order, and a finding for each that does not |
| Parser.WarnIgnored | internal/wait/spec.go:416-439 | a warning for each attribute given that the mode makes no use of |
| Parser.Parse | internal/wait/spec.go:222-445 | all findings in order; a spec exactly when nothing is unknown at any depth and no finding is an error, and then the one the configuration stands for |
| Knowledge.LearningKeepsFindings | internal/wait/spec.go:219-445 | replacing unknown values, at any depth, by known or null ones never removes an error or a warning |
| Knowledge.RejectionIsFinal | internal/wait/spec.go:219-445 | so a configuration rejected with unknowns is rejected whatever they turn out to be |
| Knowledge.AcceptedSpec | internal/wait/spec.go:309-399 | an accepted spec has positive timeout and intervals, settle in [0, timeout), min at most a given max, and max_matching = 0 only as a drain with min_matching = 0 |
| Knowledge.AcceptedDrain | internal/wait/spec.go:326-351 | drain soundness from configuration to verdict: an accepted max_matching = 0 succeeds only when the filter ruled out every object without error, and, without set_expression, always then |
| Acceptance.FindingsAreBrokenRules | internal/wait/spec.go:219-445 | validation finds exactly the rules that are broken, each at its place: of kind, name, selectors, conditions, CEL, counts, drain, absent, durations and progress fields, and the attributes the mode makes no use of |
| Acceptance.CompleteIff | internal/wait/spec.go:219-230 | a configuration counts as complete exactly when there is nothing left to learn of it, at any depth |
| Acceptance.AcceptedIff | internal/wait/spec.go:441-445 | a spec is given exactly for a complete configuration that breaks no rule but those that warn |
| Acceptance.AcceptedSelection | internal/wait/spec.go:235-286 | of an accepted configuration: kind, name, namespace and selectors as given, none with a name |
| Acceptance.AcceptedPredicates | internal/wait/spec.go:288-307 | its conditions as given, in order and in full, and its CEL as compiled |
| Acceptance.AcceptedNumbers | internal/wait/spec.go:309-399 | its counts, flags and durations as given, or one, no limit, false, true, nothing, ten seconds and sixty |
| Acceptance.AcceptedProgressFields | internal/wait/spec.go:401-414 | its progress fields as given, in order, and as parsed |
| Acceptance.AbsentMeans | internal/wait/spec.go:359-370 | from configuration to verdict: without the named object, success or failure exactly when `absent` says so, pending when it says that or nothing |
| Turns.BeginFrame | internal/watcher/runner.go:90-268 | until a step is finished, clock, observations, last outcome and reports are untouched; the log gains what the server said; and the step observes exactly when the server listed, changed or failed in a retried way |
| Turns.QuietTurn | internal/watcher/runner.go:139-249 | a step that observes nothing leaves cache, note and backoff alone; only a first 401 marks the run |
| Blocking.StepBlocksAhead | internal/watcher/runner.go:166-190 | for a valid spec, from any state, every timer set has a positive duration and fires when the first of deadline, resync, settle deadline and heartbeat falls due, and for nothing else; nothing is settled while blocked |
| Blocking.EveryBlockAhead | internal/watcher/runner.go:270-282 | so at every block of every run |
| Soundness.SettleSoundness | internal/watcher/runner.go:90-358 | every run that ends in success, or in a failure that is no time-out, fatal error or cancellation, ends with observations that all carry that verdict, span at least settle up to the end, with no retried API error answered after the first of them |
| Soundness.ClockIsTheTrace | internal/watcher/runner.go:336-345 | at every point of every run the loop's clock says settled exactly when its whole observation trace has held |
| Soundness.ErrorsOnTheClock | internal/watcher/runner.go:139-258 | in one step, a retried error adds exactly a pending observation at the instant of the answer; any other error leaves clock and trace as they were |
| Soundness.WhichErrorsRestartSettle | internal/watcher/runner.go:139-258 | at every point of every run, an API error restarts settle exactly when it is one of those retried with backoff |
| Soundness.ErrorsRecordedNext | internal/watcher/runner.go:254-257 | an observation completes the record of the error it stands for and keeps the records of all earlier ones |
| Soundness.DoneIsEnded | internal/watcher/runner.go:90-156 | a run is over exactly when it has an ending of its own |
| Timing.EveryRunEnds | internal/watcher/runner.go:90-293 | in any world, a run is over after six moments per tick of timeout, six per step that stalls, and two |
| Timing.ForeverIffStalls | internal/watcher/runner.go:90-293 | against an unending world a run never ends exactly when there is no bound on how often it stalls |
| Timing.StepDescends | internal/watcher/runner.go:160-234 | each step that does not stall spends time left, or moves on within the cycle |
| Timing.InstantWorldNeverEnds | internal/watcher/runner.go:137-141 | the expired-watch re-list, answered in no time, keeps a run in one instant for any number of cycles |
| Timing.InstantEventsNeverEnd | internal/watcher/runner.go:199-212 | so do events delivered in no time, for any number of them |
| Timing.EndsInTime | internal/watcher/runner.go:90-305 | no run ends later than the deadline plus one resolve, list and watch-open in flight (or one late timer), the first two of a minute at most; no time-out comes before the deadline; no settled verdict later than the deadline plus resolve and list |
| Endings.SettlesLateIff | internal/watcher/runner.go:160-234 | a step settles at the deadline or later exactly when it is told of a list or a change at the deadline or later |
| Endings.LateSettlement | internal/watcher/runner.go:90-234 | a run settles at the deadline or later exactly when the last thing it was told came at the deadline or later |
| Endings.PollingSettlesOnAList | internal/watcher/runner.go:172-176 | without watching, every settled ending comes with a list answered at that very instant |
| Endings.StepCancelled | internal/watcher/runner.go:92-94 | a step ends the wait as cancelled exactly when the world cancels it before a cycle or while blocked, at that instant, and with no further observation, call or report |
| Endings.CancelledIff | internal/watcher/runner.go:194-197 | the same at every point of every run |
| Endings.RunCancelled | internal/watcher/runner.go:90-293 | a run ends as cancelled exactly when it is cancelled at one of its moments |
| Endings.InvalidScopeIff | internal/watcher/runner.go:314-324 | a step ends over the scope exactly when a served kind is namespaced and one object is wanted without a namespace, or is not and a namespace is given |
| Endings.RequestTimesOut | internal/watcher/runner.go:295-305 | a resolve or list of more than a minute is a retried error after exactly one; any other takes its time and brings its answer |
| Cycles.WhyListAgain | internal/watcher/runner.go:166-219 | a wait phase keeps its resync, and is left for a list only then, for a fresh look when a poll has settled, after a closed watch and a second of its cycle, or when the watch expired or was unauthorized |
| Cycles.BlocksBegin | internal/watcher/runner.go:161-190 | a wait phase begins with the answer to a call, watching exactly when a watch was opened, and is to last one poll interval; a sleep, with a retried error, for the delay in force |
| Cycles.SleepsOut | internal/watcher/runner.go:270-292 | a sleep goes on to its end, and then the loop lists again |
| Witnesses.SuccessAfterTheDeadline | internal/watcher/runner.go:108-129 | a list that takes longer than the whole time-out, and then a success seven seconds after the deadline |
| Witnesses.SuccessAcrossAnError | internal/watcher/runner.go:246-250 | a 401 in the third second of a window of five, and a success at its end |
| Witnesses.RelistsForever | internal/watcher/runner.go:137-141 | a whole run that re-lists any number of times in the instant it began |
| Witnesses.ListsASecondApart | internal/watcher/runner.go:201-207 | for every poll interval below a second, two successive lists a second apart |
| Witnesses.BookmarksForever | internal/watcher/runner.go:210-212 | a whole run that is told any number of bookmarks in the instant it began |
| Reporting.ProgressIsCurrent | internal/watcher/runner.go:336-415 | at every block the last report is the present state; every change of verdict was reported when seen; every run that ends uncancelled has reported its final state at its final instant |
| Reporting.HeartbeatHolds | internal/watcher/runner.go:401-428 | where calls take no time and timers are punctual, from the first report on no silence is longer than progress_interval |
| Reporting.ReportsAreDue | internal/watcher/runner.go:336-421 | two successive reports differ in what they say, or lie a progress interval apart, or the later closes a wait that is over; none repeats the one before at the same instant |
| Reporting.FirstAndLastReport | internal/watcher/runner.go:368-421 | until a wait is over it has reported exactly if it has observed; a refusal or a wrong scope reports a failure without a note |
| Errors.SecondUnauthorizedEnds | internal/watcher/runner.go:241-253 | a run has ended not authenticated exactly when two 401s have come since the last successful list, whatever lay between, and denied exactly when a 403 has come |
| Errors.BackoffIsClosedForm | internal/watcher/runner.go:258-265 | after k retried errors since the last successful list the delay is min(2^(k-1) s, poll_interval) |
| Errors.RetriesAreBounded | internal/watcher/runner.go:254-267 | a streak of retried errors spans the sum of its delays, so beyond the doublings there is at most one retry per poll interval of the time it has lasted |
| Errors.WarningMeansNotServed | internal/watcher/runner.go:346-354 | a success is warned about exactly when the deciding cycle found the kind not served; an error note stands only beside a pending outcome |
| Liveness.SettlesExactlyOnTime | internal/watcher/runner.go:166-207 | with instantaneous calls, no error and no close, every run ends by the stretch of verdicts that ends its trace: with that verdict exactly one settle window after the stretch began, if it is no pending one and that is before the deadline, and otherwise in a time-out exactly at the deadline, polling or watching |
| Liveness.SettlesWithinACycle | internal/watcher/runner.go:201-207 | watches that close, however often, delay that by at most one second, and turn it into a time-out only in the last second |
| Liveness.SteadyFromTheStart | internal/watcher/runner.go:90-207 | a run whose every observation is one success or failure ends with it exactly one settle window after it began |
| Liveness.EventPutsOnCourse | internal/watcher/runner.go:220-231 | an event that brings a verdict starts its window at the event |
| Relists.ListsKeepComing | internal/watcher/runner.go:161-209 | in the same world, successive lists, and the last one and now, are at most a poll interval apart; where watches close, at most that or one second |
| Mirror.CacheReachesVersion | internal/watcher/runner.go:116-231 | against a server that passes through versions, each list telling one of them in any order and each event leading from the version told last to the next, the cache is exactly the version reached, and the last outcome what any full list of it would give |
| Mirror.CacheRefinesServer | internal/watcher/runner.go:116-231 | where no name contains a slash, at every point of every run the cache is exactly what the server has told of its selected set, and the last outcome what any full re-list of it would give |
| Mirror.ListMirrorsWhenKeysDiffer | internal/watcher/runner.go:117-123 | of any list, the cache is a mirror exactly when different references have different keys |
| Mirror.KeyedRefsDiffer | internal/watcher/runner.go:437 | a cache that stores each object under its own key holds no two of one name, in whatever order it is walked |
| Runner.Run.constructor | internal/watcher/runner.go:84-88 | a new run is the machine's initial state |
| Runner.Run.Loop | internal/watcher/runner.go:90-156 | from any state, the loop in place ends in the machine's state with the machine's ending |
| Runner.Run.Resolve | internal/watcher/runner.go:295-299 | the resolve call consumes its moment, is cut short after a minute, and goes on as the machine does |
| Runner.Run.Resolved | internal/watcher/runner.go:102-130 | error, unserved kind, scope error or list, as the machine has it |
| Runner.Run.ScopeError | internal/watcher/runner.go:314-324 | the scope rule, as an ordered choice, is the machine's, of which `Endings.InvalidScopeIff` speaks |
| Runner.Run.List | internal/watcher/runner.go:301-305 | the list call consumes its moment, is cut short after a minute, and goes on as the machine does |
| Runner.Run.Listed | internal/watcher/runner.go:110-153 | error policy, or refresh and then watch or poll, as the machine has it |
| Runner.Run.Restock | internal/watcher/runner.go:116-126 | the loop over the list rebuilds the cache, the later of two objects under one key winning |
| Runner.Run.Refresh | internal/watcher/runner.go:116-129 | a successful list is evaluated and observed as the machine has it |
| Runner.Run.OpenWatch | internal/watcher/runner.go:131-147 | the watch-open call consumes its moment and goes on as the machine does |
| Runner.Run.Opened | internal/watcher/runner.go:138-154 | expired means re-list without an observation, other errors the error policy, success the wait phase |
| Runner.Run.WaitPhase | internal/watcher/runner.go:160-234 | the whole wait phase, over every sequence of timers, events, closes and cancellations, does what the machine does |
| Runner.Run.WaitOnce | internal/watcher/runner.go:166-209 | one turn and the block after it, over every timer, event, close and cancellation, does what the machine does |
| Runner.Run.WaitTurn | internal/watcher/runner.go:166-190 | one turn up to the block: time-out before settling, heartbeat, settling fresh when polling and on the last outcome when watching, resync, next timer |
| Runner.Run.NextWake | internal/watcher/runner.go:186-189 | the earliest of resync, deadline and heartbeat, and of the settle deadline if it is ahead |
| Runner.Run.Woken | internal/watcher/runner.go:194-209 | what ends a block, and what it does to time and state |
| Runner.Run.WatchClosed | internal/watcher/runner.go:201-208 | a closed watch re-lists no sooner than a second after its cycle began |
| Runner.Run.HandleEvent | internal/watcher/runner.go:210-231 | bookmarks keep waiting, gone or expired leaves quietly, other errors follow the policy, the rest is applied and observed |
| Runner.Run.Apply | internal/watcher/runner.go:220-228 | the cache after an event, and the event in the log |
| Runner.Run.Change | internal/watcher/runner.go:220-231 | apply, evaluate, observe, as the machine has it |
| Runner.Run.ApiError | internal/watcher/runner.go:241-267 | the error policy in place is the machine's |
| Runner.Run.Retry | internal/watcher/runner.go:254-267 | a retried error is observed, the delay raised and slept, as the machine has it |
| Runner.Run.Pend | internal/watcher/runner.go:254-265 | a retried error leaves a pending observation and the next delay |
| Runner.Run.NextBackoff | internal/watcher/runner.go:258-265 | the delay doubles from one second and stops at the poll interval |
| Runner.Run.Sleep | internal/watcher/runner.go:269-293 | the sleep loop honours deadline, heartbeats and cancellation as the machine does |
| Runner.Run.SleepOnce | internal/watcher/runner.go:272-291 | one turn of it and the block after it |
| Runner.Run.SleepTurn | internal/watcher/runner.go:272-282 | one turn of it up to the block |
| Runner.Run.SleepWoken | internal/watcher/runner.go:286-291 | what ends a sleep, and what it does to time |
| Runner.Run.Walk | internal/watcher/runner.go:326-330 | whatever order the map is walked in, each cached object is listed once |
| Runner.Run.EvaluateCache | internal/watcher/runner.go:326-332 | the outcome of the walk is the outcome of the set of cached objects |
| Runner.Run.Observe | internal/watcher/runner.go:336-358 | an observation in place: tracker, last outcome, report on change, ending when settled |
| Runner.Run.TimeOut | internal/watcher/runner.go:360-366 | a time-out reports the final state and keeps it |
| Runner.Run.Fatal | internal/watcher/runner.go:368-373 | a fatal error replaces outcome and note and reports them |
| Runner.Run.Emit | internal/watcher/runner.go:401-406 | a report records key and time and is sent |
| Runner.Run.EmitFinal | internal/watcher/runner.go:410-415 | the final report is sent unless the last one said the same at the same instant |
| Runner.Run.Heartbeat | internal/watcher/runner.go:417-421 | a report is repeated once the interval has passed, and only after a first one |
| Runner.Wait | internal/watcher/runner.go:84-88 | a whole wait ends as the machine does; a settled ending has held its verdict for the window; with moments enough for its stalls it does end; and it ends as cancelled exactly when the world cancels it |

## Left out

- CEL compilation and evaluation (internal/wait/cel.go): a program is any total function from an object, or a list of objects, to true, false or an error.
- Discovery, the dynamic client and the watch channel (internal/watcher/source.go): the moments of the world stand for what they answer. That a watch continues from the listed resource version is the assumption of Mirror.CacheReachesVersion, not a field of the machine.
- The provider layer (internal/provider) and its schema, connections and credentials; only that a value is never both set and unknown is used.
- Library parsers in validation (group and version, selectors, `time.ParseDuration` with the trimming of space, CEL compilation): any functions that accept or refuse a text.
- `strconv.Unquote` in bracketed keys: any partial function; the converse half of the path round trip uses that it drops at least the two quotes, and the round trip of every path that some way of quoting, with brackets escaped, is read back.
- Text: reasons, summaries, details, progress lines, `Lookup` and the rendering of values. A problem carries its attribute and position as a value rather than as a path of strings.
- Characters: strings are sequences of Dafny characters, and Go's byte order of UTF-8 strings is their order by code point.
- The width of time in the run loop: instants and durations are unbounded there. It is modelled in rounding durations, in counts and in path indices.
- Cancelling a call at its time-out: an answer that takes longer than a minute is an error after exactly one, and one that takes exactly a minute is an answer.
- Stopping the watch between cycles, timers being stopped, and sending progress on a channel: they carry no verdict.
- The in-place stable sort of the library: a stable insertion sort on values stands for it, proved a sorted permutation that is unique where references differ.
- Liveness.SettlesExactlyOnTime: takes events to arrive strictly before the deadline; at that very instant the deadline and the event are both ready and the choice is arbitrary. Takes each event to come at least a tick after the loop blocked, as does SettlesWithinACycle of each close; otherwise a run need not end.
- Reporting.HeartbeatHolds: stated for instantaneous calls and punctual timers, as a slow call is itself a silence.
