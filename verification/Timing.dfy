/** Every run ends, and when. */
module Timing {
  import opened Common
  import opened Evaluator
  import opened Protocol
  import opened Turns
  import opened Blocking

  // ---- Where a step can lead ----

  /** Going on takes no time, leads where it says, blocks only before the
      deadline, and ends in a time-out only from the deadline on. */
  predicate WentOn(j: Job, now: int, next: Next, c: Cfg) {
    && c.st.now == now
    && LedTo(next, c.pc)
    && (c.pc.Waiting? || c.pc.Sleeping? ==> now < j.Deadline())
    && (c.pc.Done? ==> (c.pc.ending == TimedOut <==> now >= j.Deadline()))
  }

  lemma WaitHeadGoesOn(j: Job, st: State, watching: bool, cs: int, resyncAt: int)
    ensures WentOn(j, st.now, KeepWaiting(watching, cs, resyncAt), j.WaitHead(st, watching, cs, resyncAt))
  {
  }

  lemma SleepHeadGoesOn(j: Job, st: State, until: int)
    ensures WentOn(j, st.now, Nap(until), j.SleepHead(st, until))
  {
  }

  lemma ContinueGoesOn(j: Job, st: State, next: Next)
    ensures WentOn(j, st.now, next, j.Continue(st, next))
  {
    match next {
      case OpenWatch(_) =>
      case StartWait(watching, cs) => WaitHeadGoesOn(j, st, watching, cs, st.now + j.s.pollInterval);
      case KeepWaiting(watching, cs, resyncAt) => WaitHeadGoesOn(j, st, watching, cs, resyncAt);
      case Nap(until) => SleepHeadGoesOn(j, st, until);
      case BackOff =>
        var st1 := st.(backoff := j.NextBackoff(st.backoff));
        SleepHeadGoesOn(j, st1, st1.now + st1.backoff);
    }
  }

  predicate Finished(j: Job, t: Turn, c: Cfg) {
    && c.st.now == t.st.now
    && match t
       case Move(_, pc) => c.pc == pc
       case Quit(_, e) => c.pc == Done(e)
       case Proceed(_, next) => WentOn(j, t.st.now, next, c)
       case Look(_, _, next) =>
         WentOn(j, t.st.now, next, c) || (c.pc.Done? && (c.pc.ending.Succeeded? || c.pc.ending == Failed))
  }

  lemma FinishPc(j: Job, t: Turn)
    ensures Finished(j, t, j.Finish(t))
  {
    match t {
      case Move(_, _) =>
      case Quit(_, _) =>
      case Proceed(st, next) => ContinueGoesOn(j, st, next);
      case Look(st, out, next) => LookGoesOn(j, st, out, next);
    }
  }

  lemma LookGoesOn(j: Job, st: State, out: Outcome, next: Next)
    ensures Finished(j, Look(st, out, next), j.Finish(Look(st, out, next)))
  {
    ContinueGoesOn(j, j.Observed(st, out).0, next);
  }

  predicate LedTo(next: Next, pc: Pc) {
    || pc.Done?
    || match next
       case OpenWatch(_) => pc.Opening?
       case StartWait(_, _) => pc.Waiting? || pc.Top?
       case KeepWaiting(_, _, _) => pc.Waiting? || pc.Top?
       case Nap(_) => pc.Sleeping? || pc.Top?
       case BackOff => pc.Sleeping? || pc.Top?
  }

  /** The places one step can go from each place. */
  predicate Follows(a: Pc, b: Pc) {
    || b.Done?
    || match a
       case Top => b.Resolving?
       case Resolving(_) => !b.Resolving? && !b.Opening?
       case Listing(_) => !b.Resolving? && !b.Listing?
       case Opening(_) => !b.Resolving? && !b.Listing? && !b.Opening?
       case Waiting(_, _, _, _) => b.Waiting? || b.Sleeping? || b.Top?
       case Sleeping(_, _) => b.Sleeping? || b.Top?
       case Done(_) => false
  }

  lemma StepFollows(j: Job, c: Cfg, m: Moment)
    ensures Follows(c.pc, j.Step(c, m).pc)
    ensures j.Step(c, m).st.now == Until(c, m)
  {
    BeginFrame(j, c, m);
    FinishPc(j, j.Begin(c, m));
    BeginLeads(j, c, m);
  }

  lemma BeginLeads(j: Job, c: Cfg, m: Moment)
    ensures var t := j.Begin(c, m);
            match t
            case Move(_, pc) => Follows(c.pc, pc)
            case Quit(_, _) => true
            case Proceed(_, next) => forall pc :: LedTo(next, pc) ==> Follows(c.pc, pc)
            case Look(_, _, next) => forall pc :: LedTo(next, pc) ==> Follows(c.pc, pc)
  {
    match c.pc {
      case Resolving(_) =>
      case Listing(_) =>
      case Opening(_) =>
      case Waiting(_, _, _, _) =>
      case _ =>
    }
  }

  /** A cycle is only begun before the deadline. */
  predicate BegunInTime(j: Job, c: Cfg) {
    c.pc.Resolving? ==> c.st.now < j.Deadline()
  }

  lemma StepBegunInTime(j: Job, c: Cfg, m: Moment)
    ensures BegunInTime(j, j.Step(c, m))
  {
    StepFollows(j, c, m);
    if j.Step(c, m).pc.Resolving? {
      assert c.pc.Top?;
    }
  }

  // ---- Termination ----

  /** A step that takes its time: resolving the kind, or an event of the watch,
      that lets at least one tick pass. Nothing else need. */
  predicate Ticks(c: Cfg, m: Moment) {
    && (c.pc.Resolving? ==> m.took >= 1)
    && (c.pc.Waiting? && m.wake.Delivered? ==> m.wake.after >= 1)
  }

  /** How many steps of a run take none. */
  ghost function Stalls(j: Job, c: Cfg, moments: seq<Moment>): nat
    decreases |moments|
  {
    if moments == [] then 0
    else (if Ticks(c, moments[0]) then 0 else 1) + Stalls(j, j.Step(c, moments[0]), moments[1..])
  }

  function Rank(pc: Pc): nat {
    match pc
    case Listing(_) => 5
    case Opening(_) => 4
    case Waiting(_, _, _, _) => 3
    case Sleeping(_, _) => 2
    case Top => 1
    case _ => 0
  }

  /** The time left, with the place in the cycle to break ties. */
  function Potential(j: Job, c: Cfg): nat {
    6 * Max(0, j.Deadline() - c.st.now) + Rank(c.pc)
  }

  lemma StepDescends(j: Job, c: Cfg, m: Moment)
    requires BlocksAhead(j, c) && BegunInTime(j, c) && Ticks(c, m) && !c.pc.Done?
    ensures j.Step(c, m).pc.Done? || Potential(j, j.Step(c, m)) < Potential(j, c)
  {
    StepFollows(j, c, m);
    if c.pc.Waiting? && c.pc.watching && m.wake.Closed? {
      ClosedDoesNotWait(j, c, m);
    }
  }

  /** A watch that closes does not go back to waiting in the same cycle. */
  lemma ClosedDoesNotWait(j: Job, c: Cfg, m: Moment)
    requires c.pc.Waiting? && c.pc.watching && m.wake.Closed?
    ensures !j.Step(c, m).pc.Waiting?
  {
    FinishPc(j, j.Begin(c, m));
  }

  /** A step that stalls costs the time left nothing, and the place in the cycle
      five at most. */
  lemma StepRises(j: Job, c: Cfg, m: Moment)
    requires BlocksAhead(j, c) && BegunInTime(j, c) && !c.pc.Done?
    ensures j.Step(c, m).pc.Done? || Potential(j, j.Step(c, m)) <= Potential(j, c) + 5
  {
    StepFollows(j, c, m);
  }

  /** No run takes more steps than six per unit of time-out and six per stall. */
  lemma {:induction false} RunEnds(j: Job, c: Cfg, moments: seq<Moment>)
    requires j.s.Runnable() && BlocksAhead(j, c) && BegunInTime(j, c)
    requires |moments| > Potential(j, c) + 6 * Stalls(j, c, moments)
    ensures j.RunFrom(c, moments).pc.Done?
    decreases |moments|
  {
    if c.pc.Done? {
      DoneStays(j, c, moments);
    } else {
      var d := j.Step(c, moments[0]);
      if Ticks(c, moments[0]) {
        StepDescends(j, c, moments[0]);
      } else {
        StepRises(j, c, moments[0]);
      }
      StepBlocksAhead(j, c, moments[0]);
      StepBegunInTime(j, c, moments[0]);
      if d.pc.Done? {
        DoneStays(j, d, moments[1..]);
      } else {
        RunEnds(j, d, moments[1..]);
      }
    }
  }

  lemma {:induction false} DoneStays(j: Job, c: Cfg, moments: seq<Moment>)
    requires c.pc.Done?
    ensures j.RunFrom(c, moments) == c
    decreases |moments|
  {
    if moments == [] {
    } else {
      DoneStays(j, c, moments[1..]);
    }
  }

  /** Termination, in any world: a run of a valid spec is over by the time its
      moments outnumber six per unit of time-out and six per stall. */
  lemma {:induction false} EveryRunEnds(j: Job, moments: seq<Moment>)
    requires j.s.Runnable()
    requires |moments| >= 6 * j.s.timeout + 2 + 6 * Stalls(j, j.Init(), moments)
    ensures j.Run(moments).pc.Done?
  {
    RunEnds(j, j.Init(), moments);
  }

  lemma {:induction false} StallsAppend(j: Job, c: Cfg, a: seq<Moment>, b: seq<Moment>)
    ensures Stalls(j, c, a + b) == Stalls(j, c, a) + Stalls(j, j.RunFrom(c, a), b)
    decreases |a|
  {
    if a == [] {
      assert a + b == b;
    } else {
      assert (a + b)[1..] == a[1..] + b;
      StallsAppend(j, j.Step(c, a[0]), a[1..], b);
    }
  }

  lemma {:induction false} DoneDoesNotStall(j: Job, c: Cfg, moments: seq<Moment>)
    requires c.pc.Done?
    ensures Stalls(j, c, moments) == 0
    decreases |moments|
  {
    if moments == [] {
    } else {
      DoneDoesNotStall(j, c, moments[1..]);
    }
  }

  /** The first n moments of a world that never stops. */
  function First(world: nat -> Moment, n: nat): seq<Moment> {
    seq(n, (i: nat) => world(i))
  }

  ghost predicate RunsForever(j: Job, world: nat -> Moment) {
    forall n: nat :: !j.Run(First(world, n)).pc.Done?
  }

  ghost predicate StallsForever(j: Job, world: nat -> Moment) {
    forall k: nat :: StallsOften(j, world, k)
  }

  ghost predicate StallsOften(j: Job, world: nat -> Moment, k: nat) {
    exists n: nat :: Stalls(j, j.Init(), First(world, n)) >= k
  }

  lemma {:induction false} ForeverStalls(j: Job, world: nat -> Moment, k: nat)
    requires j.s.Runnable() && RunsForever(j, world)
    ensures StallsOften(j, world, k)
  {
    var n := 6 * j.s.timeout + 2 + 6 * k;
    if Stalls(j, j.Init(), First(world, n)) < k {
      EveryRunEnds(j, First(world, n));
    }
  }

  lemma {:induction false} DoneStallsNoMore(j: Job, world: nat -> Moment, n: nat, more: nat)
    requires j.Run(First(world, n)).pc.Done?
    ensures Stalls(j, j.Init(), First(world, more)) <= Stalls(j, j.Init(), First(world, n))
  {
    var a, b := First(world, n), First(world, more);
    if more <= n {
      assert a == b + a[more..];
      StallsAppend(j, j.Init(), b, a[more..]);
    } else {
      assert b == a + b[n..];
      StallsAppend(j, j.Init(), a, b[n..]);
      DoneDoesNotStall(j, j.Run(a), b[n..]);
    }
  }

  /** A run never ends exactly when it never stops stalling. */
  lemma {:induction false} ForeverIffStalls(j: Job, world: nat -> Moment)
    requires j.s.Runnable()
    ensures RunsForever(j, world) <==> StallsForever(j, world)
  {
    if RunsForever(j, world) {
      forall k: nat ensures StallsOften(j, world, k) {
        ForeverStalls(j, world, k);
      }
    } else {
      var n: nat :| j.Run(First(world, n)).pc.Done?;
      var k := Stalls(j, j.Init(), First(world, n)) + 1;
      forall more: nat ensures Stalls(j, j.Init(), First(world, more)) < k {
        DoneStallsNoMore(j, world, n, more);
      }
      assert !StallsOften(j, world, k);
    }
  }

  // ---- Without ticks ----

  /** One cycle in no time at all: resolved, listed empty, and the watch refused
      as expired. */
  function InstantCycle(): seq<Moment> {
    var m := Moment(false, 0, Ok(Resolution(true, true)), Ok([]), Some(Expired), Timer(0));
    [m, m, m, m]
  }

  function InstantCycles(n: nat): seq<Moment> {
    if n == 0 then [] else InstantCycle() + InstantCycles(n - 1)
  }

  lemma {:induction false} InstantCycleReturns(j: Job, st: State)
    requires j.s.watch && !j.ScopeError(Resolution(true, true))
    requires j.Evaluated(map[]).verdict == Pending && st.now < j.Deadline()
    ensures var c := j.RunFrom(Cfg(st, Top), InstantCycle()); c.pc == Top && c.st.now == st.now
  {
    var m := InstantCycle()[0];
    var c1 := j.Step(Cfg(st, Top), m);
    var c2 := j.Step(c1, m);
    var c3 := j.Step(c2, m);
    var c4 := j.Step(c3, m);
    assert c1 == Cfg(st, Resolving(st.now));
    assert c2.pc.Listing? && c2.st.now == st.now;
    assert CacheOf([]) == map[];
    assert c3.pc.Opening? && c3.st.now == st.now;
    assert c4.pc == Top && c4.st.now == st.now;
    FourSteps(j, Cfg(st, Top), m);
  }

  lemma {:induction false} FourSteps(j: Job, c: Cfg, m: Moment)
    ensures j.RunFrom(c, [m, m, m, m]) == j.Step(j.Step(j.Step(j.Step(c, m), m), m), m)
  {
    var c1 := j.Step(c, m);
    var c2 := j.Step(c1, m);
    var c3 := j.Step(c2, m);
    assert [m, m, m, m][1..] == [m, m, m] && [m, m, m][1..] == [m, m] && [m, m][1..] == [m] && [m][1..] == [];
    assert j.RunFrom(c3, [m]) == j.RunFrom(j.Step(c3, m), []);
    assert j.RunFrom(c2, [m, m]) == j.RunFrom(c3, [m]);
    assert j.RunFrom(c1, [m, m, m]) == j.RunFrom(c2, [m, m]);
  }

  lemma {:induction false} RunAppend(j: Job, c: Cfg, a: seq<Moment>, b: seq<Moment>)
    ensures j.RunFrom(c, a + b) == j.RunFrom(j.RunFrom(c, a), b)
    decreases |a|
  {
    if a == [] {
      assert a + b == b;
    } else {
      assert (a + b)[1..] == a[1..] + b;
      RunAppend(j, j.Step(c, a[0]), a[1..], b);
    }
  }

  /** Stalls can go on: the re-list after an expired watch has no spacing of its
      own, so a world that takes no time keeps the loop in one instant for ever. */
  lemma {:induction false} InstantWorldNeverEnds(j: Job, st: State, n: nat)
    requires j.s.watch && !j.ScopeError(Resolution(true, true))
    requires j.Evaluated(map[]).verdict == Pending && st.now < j.Deadline()
    ensures var c := j.RunFrom(Cfg(st, Top), InstantCycles(n)); c.pc == Top && c.st.now == st.now
    decreases n
  {
    if n == 0 {
    } else {
      InstantCycleReturns(j, st);
      RunAppend(j, Cfg(st, Top), InstantCycle(), InstantCycles(n - 1));
      InstantWorldNeverEnds(j, j.RunFrom(Cfg(st, Top), InstantCycle()).st, n - 1);
    }
  }

  /** A watch with a bookmark at once, again and again. */
  function InstantEvents(n: nat): seq<Moment> {
    if n == 0 then []
    else [Moment(false, 0, Err(OtherError), Err(OtherError), None, Delivered(0, Bookmark))] + InstantEvents(n - 1)
  }

  lemma BookmarkStays(j: Job, c: Cfg, m: Moment)
    requires j.s.Runnable() && BlocksAhead(j, c) && c.pc.Waiting? && c.pc.watching
    requires m.wake == Delivered(0, Bookmark)
    ensures var d := j.Step(c, m);
            d.st.now == c.st.now && d.pc.Waiting? && d.pc.watching && BlocksAhead(j, d)
  {
    StepBlocksAhead(j, c, m);
    StepFollows(j, c, m);
  }

  /** So can events: a watch that delivers them in no time keeps the loop in one
      instant for ever, from wherever it watches. */
  lemma {:induction false} InstantEventsNeverEnd(j: Job, c: Cfg, n: nat)
    requires j.s.Runnable() && BlocksAhead(j, c) && c.pc.Waiting? && c.pc.watching
    ensures var d := j.RunFrom(c, InstantEvents(n)); d.st.now == c.st.now && d.pc.Waiting? && d.pc.watching
    decreases n
  {
    if n == 0 {
    } else {
      var moments := InstantEvents(n);
      BookmarkStays(j, c, moments[0]);
      assert moments[1..] == InstantEvents(n - 1);
      InstantEventsNeverEnd(j, j.Step(c, moments[0]), n - 1);
    }
  }

  // ---- The time bound ----

  /** How long the world may keep the loop: in each of the three calls, and past
      a due timer. The request time-out bounds the first two by itself, so that a
      bound of REQUEST_TIMEOUT there asks nothing of the world. */
  datatype Bounds = Bounds(resolve: nat, list: nat, open: nat, late: nat) {
    function Calls(): nat {
      resolve + list + open
    }
  }

  predicate Prompt(c: Cfg, m: Moment, b: Bounds) {
    match c.pc
    case Resolving(_) => Spent(m.took) <= b.resolve
    case Listing(_) => Spent(m.took) <= b.list
    case Opening(_) => m.took <= b.open
    case Waiting(_, _, _, wake) => Until(c, m) <= wake + b.late
    case Sleeping(_, wake) => Until(c, m) <= wake + b.late
    case _ => true
  }

  ghost predicate AllPrompt(j: Job, c: Cfg, moments: seq<Moment>, b: Bounds)
    decreases |moments|
  {
    moments == [] || (Prompt(c, moments[0], b) && AllPrompt(j, j.Step(c, moments[0]), moments[1..], b))
  }

  function Latest(j: Job, b: Bounds): int {
    j.Deadline() + Max(b.late, b.Calls())
  }

  predicate InTime(j: Job, c: Cfg, b: Bounds) {
    match c.pc
    case Resolving(_) => c.st.now < j.Deadline()
    case Listing(_) => c.st.now < j.Deadline() + b.resolve
    case Opening(_) => c.st.now < j.Deadline() + b.resolve + b.list
    case Waiting(_, _, _, _) => c.st.now < j.Deadline()
    case Sleeping(_, _) => c.st.now < j.Deadline()
    case Top => c.st.now <= Latest(j, b)
    case Done(e) =>
      && c.st.now <= Latest(j, b)
      && (e == TimedOut ==> c.st.now >= j.Deadline())
      && ((e.Succeeded? || e == Failed) ==> c.st.now <= j.Deadline() + Max(b.late, b.resolve + b.list))
  }

  lemma StepInTime(j: Job, c: Cfg, m: Moment, b: Bounds)
    requires InTime(j, c, b) && BlocksAhead(j, c) && Prompt(c, m, b) && !c.pc.Done?
    ensures InTime(j, j.Step(c, m), b)
  {
    var t := j.Begin(c, m);
    StepFollows(j, c, m);
    EndingIs(j, c, m);
    BeginFrame(j, c, m);
    if c.pc.Top? {
      FinishPc(j, t);
    } else if c.pc.Waiting? || c.pc.Sleeping? {
      BlockedInTime(j, c, m, b);
    } else {
      CallInTime(j, c, m, b);
    }
  }

  lemma BlockedInTime(j: Job, c: Cfg, m: Moment, b: Bounds)
    requires InTime(j, c, b) && BlocksAhead(j, c) && Prompt(c, m, b) && (c.pc.Waiting? || c.pc.Sleeping?)
    requires Follows(c.pc, j.Step(c, m).pc) && j.Step(c, m).st.now == Until(c, m)
    requires TurnFramed(j, c, m)
    ensures InTime(j, j.Step(c, m), b)
  {
    FinishPc(j, j.Begin(c, m));
    EndingIs(j, c, m);
  }

  lemma CallInTime(j: Job, c: Cfg, m: Moment, b: Bounds)
    requires InTime(j, c, b) && Prompt(c, m, b) && (c.pc.Resolving? || c.pc.Listing? || c.pc.Opening?)
    requires Follows(c.pc, j.Step(c, m).pc) && j.Step(c, m).st.now == Until(c, m)
    requires TurnFramed(j, c, m)
    ensures InTime(j, j.Step(c, m), b)
  {
    var t := j.Begin(c, m);
    FinishPc(j, t);
    EndingIs(j, c, m);
    if c.pc.Opening? && t.Look? {
      LookIs(j, c, m);
      PendingDoesNotSettle(j, t.st, t.out);
    }
  }

  lemma PendingDoesNotSettle(j: Job, st: State, out: Outcome)
    requires out.verdict == Pending
    ensures j.Observed(st, out).1.None?
  {
  }

  /** A retried error is observed as pending, which never ends the wait, and then
      slept on. */
  lemma RetryIs(j: Job, st: State)
    ensures var (st1, ending) := j.Observed(st, NO_OUTCOME);
            var b := j.NextBackoff(st.backoff);
            && ending.None? && st1.backoff == st.backoff
            && j.Finish(Look(st, NO_OUTCOME, BackOff)) == j.SleepHead(st1.(backoff := b), st.now + b)
  {
    ObservedKept(j, st, NO_OUTCOME);
  }

  lemma {:induction false} RunInTime(j: Job, c: Cfg, moments: seq<Moment>, b: Bounds)
    requires j.s.Runnable() && InTime(j, c, b) && BlocksAhead(j, c) && AllPrompt(j, c, moments, b)
    ensures InTime(j, j.RunFrom(c, moments), b)
    decreases |moments|
  {
    if c.pc.Done? {
      DoneStays(j, c, moments);
    } else if moments != [] {
      StepInTime(j, c, moments[0], b);
      StepBlocksAhead(j, c, moments[0]);
      RunInTime(j, j.Step(c, moments[0]), moments[1..], b);
    }
  }

  /** The time bound: whatever the ending, it comes no later than the deadline
      plus one resolve, one list and one watch-open in flight (or the lateness of
      one timer); a time-out never comes before the deadline; and a settled
      verdict never after the deadline plus the resolve and the list. */
  lemma {:induction false} EndsInTime(j: Job, moments: seq<Moment>, b: Bounds)
    requires j.s.Runnable() && AllPrompt(j, j.Init(), moments, b)
    ensures var c := j.Run(moments);
            c.pc.Done? ==>
              && c.st.now <= j.Deadline() + Max(b.late, b.resolve + b.list + b.open)
              && (c.pc.ending == TimedOut ==> c.st.now >= j.Deadline())
              && (c.pc.ending.Succeeded? || c.pc.ending == Failed ==>
                    c.st.now <= j.Deadline() + Max(b.late, b.resolve + b.list))
  {
    RunInTime(j, j.Init(), moments, b);
  }
}
