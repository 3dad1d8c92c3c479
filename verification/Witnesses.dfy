/** Runs, moment by moment, in which what the documentation says of every wait
    does not hold. The condition that is exact for all of them is named with each. */
module Witnesses {
  import opened Common
  import opened Durations
  import opened Objects
  import opened WaitSpec
  import opened Evaluator
  import opened Settle
  import opened Protocol
  import opened Turns
  import opened Blocking
  import opened Timing

  /** Pods of one namespace, at least `min` of them; ten seconds of time-out. */
  function Pods(min: nat, settle: nat, poll: nat, watch: bool): Spec {
    Spec("", "v1", "Pod", "default", "", "", "", None, None, None, None, [], [],
         min, -1, false, Pending, 10 * SECOND, settle, poll, MINUTE, watch, [])
  }

  /** With none around, none asked for is a success, and one asked for is pending. */
  lemma NoPods(j: Job, min: nat, settle: nat, poll: nat, watch: bool)
    requires j.s == Pods(min, settle, poll, watch)
    ensures CacheOf([]) == map[]
    ensures j.Evaluated(map[]).verdict == if min == 0 then Success else Pending
    ensures !j.ScopeError(Resolution(true, true))
  {
    var none: map<string, Obj> := map[];
    assert none.Values == {};
    assert SortByRef([]) == [];
    assert Matched(j.s, []) == [];
  }

  /** A resolve or a list that takes `took`, or a timer on time; no watch. */
  function Answers(took: nat): Moment {
    Moment(false, took, Ok(Resolution(true, true)), Ok([]), None, Timer(0))
  }

  function Refuses(e: ApiError): Moment {
    Moment(false, 0, Err(e), Err(e), Some(e), Timer(0))
  }

  /** A cycle up to the answer of its list. */
  function CycleTaking(took: nat): seq<Moment> {
    [Answers(0), Answers(0), Answers(took)]
  }

  function Cycle(): seq<Moment> {
    CycleTaking(0)
  }

  /** From the top to the answer of the list, in no time but the list's own. */
  lemma {:induction false} OneCycle(j: Job, st: State, took: nat, rest: seq<Moment>)
    requires st.now < j.Deadline() && !j.ScopeError(Resolution(true, true)) && took <= REQUEST_TIMEOUT
    ensures j.RunFrom(Cfg(st, Top), CycleTaking(took) + rest) ==
            j.RunFrom(j.Finish(j.OnRefresh(st.At(st.now + took), true, [], j.AfterListing(st.now))), rest)
  {
    var m := Answers(0);
    assert j.Step(Cfg(st, Top), m) == Cfg(st, Resolving(st.now));
    assert j.Step(Cfg(st, Resolving(st.now)), m) == Cfg(st.At(st.now), Listing(st.now));
    assert st.At(st.now) == st;
    ListStep(j, st, took);
    ThreeSteps(j, Cfg(st, Top), m, m, Answers(took), rest);
  }

  lemma {:induction false} OneCycleOnly(j: Job, st: State, took: nat)
    requires st.now < j.Deadline() && !j.ScopeError(Resolution(true, true)) && took <= REQUEST_TIMEOUT
    ensures j.RunFrom(Cfg(st, Top), CycleTaking(took)) ==
            j.Finish(j.OnRefresh(st.At(st.now + took), true, [], j.AfterListing(st.now)))
  {
    OneCycle(j, st, took, []);
    assert CycleTaking(took) + [] == CycleTaking(took);
  }

  /** What a cycle that takes no time comes to. */
  ghost function AfterCycle(j: Job, st: State): Cfg {
    j.Finish(j.OnRefresh(st, true, [], j.AfterListing(st.now)))
  }

  lemma {:induction false} InstantCycleRuns(j: Job, st: State, rest: seq<Moment>)
    requires st.now < j.Deadline() && !j.ScopeError(Resolution(true, true))
    ensures j.RunFrom(Cfg(st, Top), Cycle() + rest) == j.RunFrom(AfterCycle(j, st), rest)
  {
    assert st.At(st.now + 0) == st;
    OneCycle(j, st, 0, rest);
  }

  lemma {:induction false} InstantCycleOnly(j: Job, st: State)
    requires st.now < j.Deadline() && !j.ScopeError(Resolution(true, true))
    ensures j.RunFrom(Cfg(st, Top), Cycle()) == AfterCycle(j, st)
  {
    assert st.At(st.now + 0) == st;
    OneCycleOnly(j, st, 0);
  }

  lemma ListStep(j: Job, st: State, took: nat)
    requires took <= REQUEST_TIMEOUT
    ensures j.Step(Cfg(st, Listing(st.now)), Answers(took)) ==
            j.Finish(j.OnRefresh(st.At(st.now + took), true, [], j.AfterListing(st.now)))
  {
    assert j.Begin(Cfg(st, Listing(st.now)), Answers(took)) ==
           j.OnRefresh(st.At(st.now + took), true, [], j.AfterListing(st.now));
  }

  lemma {:induction false} OneStep(j: Job, c: Cfg, m: Moment, rest: seq<Moment>)
    ensures j.RunFrom(c, [m] + rest) == j.RunFrom(j.Step(c, m), rest)
  {
    assert ([m] + rest)[1..] == rest;
  }

  lemma {:induction false} ThreeSteps(j: Job, c: Cfg, a: Moment, b: Moment, d: Moment, rest: seq<Moment>)
    ensures j.RunFrom(c, [a, b, d] + rest) == j.RunFrom(j.Step(j.Step(j.Step(c, a), b), d), rest)
  {
    assert [a, b, d] + rest == [a] + ([b] + ([d] + rest));
    OneStep(j, c, a, [b] + ([d] + rest));
    OneStep(j, j.Step(c, a), b, [d] + rest);
    OneStep(j, j.Step(j.Step(c, a), b), d, rest);
  }

  // ---- Settled after the deadline ----

  /** A list that takes seven seconds more than the ten of the time-out, and then
      finds what was waited for: the wait succeeds, seven seconds late. When that
      happens is `Endings.LateSettlement`. */
  lemma {:induction false} SuccessAfterTheDeadline(start: int)
    ensures var j := Job(Pods(0, 0, SECOND, false), start);
            var c := j.Run(CycleTaking(17 * SECOND));
            j.s.Runnable() && c.pc == Done(Succeeded(false)) && c.st.now == j.Deadline() + 7 * SECOND
  {
    var j := Job(Pods(0, 0, SECOND, false), start);
    NoPods(j, 0, 0, SECOND, false);
    OneCycleOnly(j, j.Init().st, 17 * SECOND);
  }

  // ---- Settled across an API error ----

  const WINDOW := 5 * SECOND
  const POLL := 3 * SECOND

  /** Success has held since `start`, or is about to be seen then. */
  ghost predicate Settling(j: Job, st: State) {
    && j.s == Pods(0, WINDOW, POLL, false)
    && j.start <= st.now < j.start + 8 * SECOND
    && (if st.now == j.start then st == j.Init().st
        else st.clock == Clock(WINDOW, true, Success, j.start) && st.last.verdict == Success)
    && (st.emitted ==> j.start <= st.lastEmit <= st.now)
  }

  /** The same once the list has been seen. */
  ghost predicate Holding(j: Job, st: State) {
    && j.s == Pods(0, WINDOW, POLL, false)
    && j.start <= st.now <= j.start + WINDOW
    && st.clock == Clock(WINDOW, true, Success, j.start) && st.last.verdict == Success
    && (st.emitted ==> j.start <= st.lastEmit <= st.now)
  }

  lemma SeesSuccess(j: Job, st: State, out: Outcome)
    requires j.s == Pods(0, WINDOW, POLL, false) && j.start <= st.now < j.start + WINDOW && out.verdict == Success
    requires st.clock == (if st.now == j.start then Fresh(WINDOW) else Clock(WINDOW, true, Success, j.start))
    requires st.emitted ==> j.start <= st.lastEmit <= st.now
    ensures j.Observed(st, out).1.None? && Holding(j, j.Observed(st, out).0)
  {
  }

  lemma WaitsOn(j: Job, st: State)
    requires Holding(j, st) && st.now < j.start + WINDOW
    ensures j.WaitHead(st, false, st.now, st.now + POLL) ==
            Cfg(st, Waiting(false, st.now, st.now + POLL, Min(st.now + POLL, j.start + WINDOW)))
  {
  }

  lemma TimerReturns(j: Job, st: State, cs: int)
    requires Holding(j, st) && st.now < j.start + WINDOW && cs == st.now
    ensures var wake := Min(st.now + POLL, j.start + WINDOW);
            j.Step(Cfg(st, Waiting(false, cs, st.now + POLL, wake)), Answers(0)) == Cfg(st.At(wake), Top)
  {
  }

  /** A list inside the window. */
  lemma ListHolds(j: Job, st: State) returns (after: State)
    requires Settling(j, st) && st.now < j.start + WINDOW
    ensures AfterCycle(j, st) ==
            Cfg(after, Waiting(false, st.now, st.now + POLL, Min(st.now + POLL, j.start + WINDOW)))
    ensures Holding(j, after) && after.now == st.now && !after.unauthRetried
    ensures after.log == st.log + [Entry(st.now, Refreshed(true, []))]
  {
    NoPods(j, 0, WINDOW, POLL, false);
    var turn := j.OnRefresh(st, true, [], StartWait(false, st.now));
    SeesSuccess(j, turn.st, turn.out);
    ObservedKept(j, turn.st, turn.out);
    after := j.Observed(turn.st, turn.out).0;
    WaitsOn(j, after);
  }

  lemma {:induction false} TimerThen(j: Job, st: State, rest: seq<Moment>)
    requires Holding(j, st) && st.now < j.start + WINDOW
    ensures var wake := Min(st.now + POLL, j.start + WINDOW);
            j.RunFrom(Cfg(st, Waiting(false, st.now, st.now + POLL, wake)), [Answers(0)] + rest) ==
            j.RunFrom(Cfg(st.At(wake), Top), rest)
  {
    TimerReturns(j, st, st.now);
    OneStep(j, Cfg(st, Waiting(false, st.now, st.now + POLL, Min(st.now + POLL, j.start + WINDOW))), Answers(0), rest);
  }

  /** A list inside the window, and the timer it is followed by. */
  lemma {:induction false} ListAndWait(j: Job, st: State, rest: seq<Moment>) returns (after: State)
    requires Settling(j, st) && st.now < j.start + WINDOW
    ensures j.RunFrom(Cfg(st, Top), Cycle() + ([Answers(0)] + rest)) == j.RunFrom(Cfg(after, Top), rest)
    ensures Settling(j, after) && after.now == Min(st.now + POLL, j.start + WINDOW)
    ensures after.log == st.log + [Entry(st.now, Refreshed(true, []))] && !after.unauthRetried
  {
    var listed := ListHolds(j, st);
    NoPods(j, 0, WINDOW, POLL, false);
    InstantCycleRuns(j, st, [Answers(0)] + rest);
    TimerThen(j, listed, rest);
    after := listed.At(Min(st.now + POLL, j.start + WINDOW));
  }

  /** A 401 in answer to the resolve, the first since the last list. */
  lemma {:induction false} Unauthenticated(j: Job, st: State, rest: seq<Moment>) returns (after: State)
    requires Settling(j, st) && !st.unauthRetried
    ensures j.RunFrom(Cfg(st, Top), [Answers(0)] + ([Refuses(Unauthorized)] + rest)) == j.RunFrom(Cfg(after, Top), rest)
    ensures after == st.(log := st.log + [Entry(st.now, Rejected(Unauthorized))], unauthRetried := true)
  {
    var c := Cfg(st, Resolving(st.now));
    assert j.Step(Cfg(st, Top), Answers(0)) == c;
    OneStep(j, Cfg(st, Top), Answers(0), [Refuses(Unauthorized)] + rest);
    OneStep(j, c, Refuses(Unauthorized), rest);
    assert st.At(st.now + 0) == st;
    after := st.(log := st.log + [Entry(st.now, Rejected(Unauthorized))], unauthRetried := true);
    assert j.Step(c, Refuses(Unauthorized)) == Cfg(after, Top);
  }

  lemma {:induction false} LastList(j: Job, st: State)
    requires Settling(j, st) && st.now == j.start + WINDOW
    ensures var c := j.RunFrom(Cfg(st, Top), Cycle());
            && c.pc == Done(Succeeded(false)) && c.st.now == st.now
            && c.st.log == st.log + [Entry(st.now, Refreshed(true, []))]
  {
    NoPods(j, 0, WINDOW, POLL, false);
    InstantCycleOnly(j, st);
  }

  /** Up to the 401, and back at the top. */
  function ErrorThen(rest: seq<Moment>): seq<Moment> {
    Cycle() + ([Answers(0)] + ([Answers(0)] + ([Refuses(Unauthorized)] + rest)))
  }

  lemma {:induction false} UpToTheError(j: Job, rest: seq<Moment>) returns (after: State)
    requires j.s == Pods(0, WINDOW, POLL, false)
    ensures j.RunFrom(j.Init(), ErrorThen(rest)) == j.RunFrom(Cfg(after, Top), rest)
    ensures Settling(j, after) && after.now == j.start + POLL
    ensures |after.log| == 2 && after.log[1] == Entry(j.start + POLL, Rejected(Unauthorized))
  {
    var st := ListAndWait(j, j.Init().st, [Answers(0)] + ([Refuses(Unauthorized)] + rest));
    after := Unauthenticated(j, st, rest);
  }

  lemma {:induction false} FromTheError(j: Job, st: State)
    requires Settling(j, st) && st.now == j.start + POLL
    ensures var c := j.RunFrom(Cfg(st, Top), Cycle() + ([Answers(0)] + Cycle()));
            && c.pc == Done(Succeeded(false)) && c.st.now == j.start + WINDOW && st.log <= c.st.log
  {
    var after := ListAndWait(j, st, Cycle());
    LastList(j, after);
  }

  /** A wait with a window of five seconds, answered 401 in the third of them: it
      still succeeds at the end of the fifth. Which errors restart settle is
      `Soundness.WhichErrorsRestartSettle`. */
  lemma {:induction false} SuccessAcrossAnError(start: int)
    ensures var j := Job(Pods(0, WINDOW, POLL, false), start);
            var c := j.Run(ErrorThen(Cycle() + ([Answers(0)] + Cycle())));
            && j.s.Runnable() && c.pc == Done(Succeeded(false)) && c.st.now == start + WINDOW
            && Entry(start + POLL, Rejected(Unauthorized)) in c.st.log
  {
    var j := Job(Pods(0, WINDOW, POLL, false), start);
    var rest := Cycle() + ([Answers(0)] + Cycle());
    var st := UpToTheError(j, rest);
    FromTheError(j, st);
    assert st.log[1] in j.RunFrom(Cfg(st, Top), rest).st.log;
  }

  // ---- Never over ----

  /** A watch refused as expired at once, whenever it is opened: after any number
      of cycles the wait stands where it began. What goes on for ever is said by
      `Timing.ForeverIffStalls`. */
  lemma {:induction false} RelistsForever(start: int, n: nat)
    ensures var j := Job(Pods(1, 0, SECOND, true), start);
            j.s.Runnable() && j.Run(InstantCycles(n)).pc == Top && j.Run(InstantCycles(n)).st.now == start
  {
    var j := Job(Pods(1, 0, SECOND, true), start);
    NoPods(j, 1, 0, SECOND, true);
    InstantWorldNeverEnds(j, j.Init().st, n);
  }

  lemma OpensAWatch(j: Job, st: State, poll: nat)
    requires j.s == Pods(1, 0, poll, true) && st == j.Init().st
    ensures var c := AfterCycle(j, st);
            && c.pc == Opening(j.start) && c.st.now == j.start && c.st.clock == Clock(0, true, Pending, j.start)
            && c.st.lastEmit == j.start && c.st.log == [Entry(j.start, Refreshed(true, []))]
  {
    NoPods(j, 1, 0, poll, true);
  }

  lemma StartsToWait(j: Job, st: State, poll: nat)
    requires j.s == Pods(1, 0, poll, true) && poll > 0 && st.now == j.start == st.lastEmit
    requires st.clock == Clock(0, true, Pending, j.start)
    ensures var c := j.Step(Cfg(st, Opening(j.start)), Answers(0));
            c.st == st && c.pc.Waiting? && c.pc.watching && c.pc.cycleStart == j.start
  {
    assert st.At(st.now + 0) == st;
  }

  lemma {:induction false} UpToTheWatch(j: Job, poll: nat, rest: seq<Moment>) returns (c: Cfg)
    requires j.s == Pods(1, 0, poll, true) && poll > 0
    ensures j.RunFrom(j.Init(), Cycle() + ([Answers(0)] + rest)) == j.RunFrom(c, rest)
    ensures c.pc.Waiting? && c.pc.watching && c.pc.cycleStart == c.st.now == c.st.lastEmit == j.start
    ensures c.st.clock == Clock(0, true, Pending, j.start) && BlocksAhead(j, c)
    ensures c.st.log == [Entry(j.start, Refreshed(true, []))]
  {
    var st := j.Init().st;
    NoPods(j, 1, 0, poll, true);
    InstantCycleRuns(j, st, [Answers(0)] + rest);
    OpensAWatch(j, st, poll);
    var listed := AfterCycle(j, st);
    OneStep(j, listed, Answers(0), rest);
    StartsToWait(j, listed.st, poll);
    StepBlocksAhead(j, listed, Answers(0));
    c := j.Step(listed, Answers(0));
  }

  /** A watch that opens, and then delivers bookmarks in no time. */
  lemma {:induction false} BookmarksForever(start: int, n: nat)
    ensures var j := Job(Pods(1, 0, SECOND, true), start);
            var c := j.Run(Cycle() + ([Answers(0)] + InstantEvents(n)));
            j.s.Runnable() && c.pc.Waiting? && c.st.now == start
  {
    var j := Job(Pods(1, 0, SECOND, true), start);
    var c := UpToTheWatch(j, SECOND, InstantEvents(n));
    InstantEventsNeverEnd(j, c, n);
  }

  // ---- Lists further apart than the poll interval ----

  /** The watch closes as soon as it is opened. */
  function Closes(): Moment {
    Answers(0).(wake := Closed(0))
  }

  lemma ClosedSleeps(j: Job, c: Cfg, poll: nat)
    requires j.s == Pods(1, 0, poll, true) && c.pc.Waiting? && c.pc.watching
    requires c.pc.cycleStart == c.st.now == c.st.lastEmit == j.start
    ensures j.Step(c, Closes()) == Cfg(c.st, Sleeping(j.start + MIN_CYCLE, j.start + MIN_CYCLE))
  {
    assert c.st.At(c.st.now + 0) == c.st;
  }

  lemma SleepsOut(j: Job, st: State, poll: nat)
    requires j.s == Pods(1, 0, poll, true) && st.now == st.lastEmit == j.start
    ensures var until := j.start + MIN_CYCLE;
            j.Step(Cfg(st, Sleeping(until, until)), Answers(0)) == Cfg(st.At(until), Top)
  {
  }

  lemma ListLogs(j: Job, st: State, poll: nat)
    requires j.s == Pods(1, 0, poll, true)
    ensures AfterCycle(j, st).st.log == st.log + [Entry(st.now, Refreshed(true, []))]
  {
    var turn := j.OnRefresh(st, true, [], OpenWatch(st.now));
    LookKept(j, turn.st, turn.out, turn.next);
  }

  lemma {:induction false} ListsAgain(j: Job, st: State, poll: nat)
    requires j.s == Pods(1, 0, poll, true) && st.now < j.Deadline()
    ensures j.RunFrom(Cfg(st, Top), Cycle()).st.log == st.log + [Entry(st.now, Refreshed(true, []))]
  {
    NoPods(j, 1, 0, poll, true);
    InstantCycleOnly(j, st);
    ListLogs(j, st, poll);
  }

  /** From the closed watch to the next list. */
  lemma {:induction false} FromTheClose(j: Job, c: Cfg, poll: nat)
    requires j.s == Pods(1, 0, poll, true) && c.pc.Waiting? && c.pc.watching
    requires c.pc.cycleStart == c.st.now == c.st.lastEmit == j.start
    ensures j.RunFrom(c, [Closes()] + ([Answers(0)] + Cycle())).st.log ==
            c.st.log + [Entry(j.start + SECOND, Refreshed(true, []))]
  {
    var slept := Cfg(c.st, Sleeping(j.start + MIN_CYCLE, j.start + MIN_CYCLE));
    OneStep(j, c, Closes(), [Answers(0)] + Cycle());
    ClosedSleeps(j, c, poll);
    OneStep(j, slept, Answers(0), Cycle());
    SleepsOut(j, c.st, poll);
    ListsAgain(j, c.st.At(j.start + MIN_CYCLE), poll);
  }

  /** Under every poll interval below a second, two lists that are a second apart
      with nothing but a closed watch between them. How far apart lists are at most
      is `Relists.ListsKeepComing`. */
  lemma {:induction false} ListsASecondApart(start: int, poll: nat)
    requires 0 < poll < SECOND
    ensures var j := Job(Pods(1, 0, poll, true), start);
            var c := j.Run(Cycle() + ([Answers(0)] + ([Closes()] + ([Answers(0)] + Cycle()))));
            j.s.Runnable() &&
            c.st.log == [Entry(start, Refreshed(true, [])), Entry(start + SECOND, Refreshed(true, []))]
  {
    var j := Job(Pods(1, 0, poll, true), start);
    var c := UpToTheWatch(j, poll, [Closes()] + ([Answers(0)] + Cycle()));
    FromTheClose(j, c, poll);
  }
}
