/** Exact liveness: in a world without delays or errors, a verdict that stays is
    reported exactly when its settle window is over. */
module Liveness {
  import opened Common
  import opened Evaluator
  import opened Settle
  import opened Protocol
  import opened Turns
  import opened Blocking
  import opened Timing
  import opened Soundness

  // ---- The steady world ----

  /** No call takes time or fails, no timer is late, nobody cancels, and events
      come before the deadline. A watch may close only where `closes` allows it. */
  predicate Steady(j: Job, c: Cfg, m: Moment, closes: bool) {
    && Prompt(c, m, Bounds(0, 0, 0, 0))
    && match c.pc
       case Top => !m.cancelled
       case Resolving(_) => m.resolve.Ok? && (m.resolve.value.served ==> !j.ScopeError(m.resolve.value))
       case Listing(_) => m.list.Ok?
       case Opening(_) => m.open.None?
       case Waiting(_, _, _, wake) =>
         (match m.wake
          case Timer(_) => true
          case Delivered(_, ev) => !ev.ErrorEvent? && (c.pc.watching ==> Until(c, m) < j.Deadline())
          case Closed(_) => closes
          case CtxDone(_) => false)
       case Sleeping(_, _) => !m.wake.CtxDone?
       case Done(_) => true
  }

  ghost predicate AllSteady(j: Job, c: Cfg, moments: seq<Moment>, closes: bool)
    decreases |moments|
  {
    moments == [] || (Steady(j, c, moments[0], closes) && AllSteady(j, j.Step(c, moments[0]), moments[1..], closes))
  }

  /** From observation n on, every verdict is v. */
  ghost predicate AllVerdicts(obs: seq<Sample>, n: nat, v: Verdict) {
    forall i :: n <= i < |obs| ==> obs[i].verdict == v
  }

  // ---- On course ----

  function Slack(closes: bool): int {
    if closes then MIN_CYCLE else 0
  }

  function SettledAs(v: Verdict, e: Ending): bool {
    if v == Success then e.Succeeded? else e == Failed
  }

  /** About to observe v for the first time, at t; or v has held since t and the
      loop will be back in time to say so, at most `slack` late. */
  predicate OnCourse(j: Job, c: Cfg, v: Verdict, t: int, slack: int) {
    var end := t + j.s.settle;
    var started := c.st.clock.started && c.st.clock.state == v && c.st.clock.since == t && c.st.last.verdict == v;
    && c.st.clock.settle == j.s.settle
    && match c.pc
       case Done(e) =>
         || (SettledAs(v, e) && end <= c.st.now <= end + slack && c.st.now < j.Deadline())
         || (e == TimedOut && c.st.now == j.Deadline() <= end + slack)
       case Opening(cs) => started && cs <= c.st.now < Min(end, j.Deadline())
       case Waiting(_, cs, _, _) => started && cs <= c.st.now < Min(end, j.Deadline())
       case Sleeping(until, _) => started && until <= end + slack && c.st.now < j.Deadline()
       case Top => Due(j, c, v, t, slack, started) && c.st.now <= j.Deadline()
       case Resolving(cs) => Due(j, c, v, t, slack, started) && cs <= c.st.now < j.Deadline()
       case Listing(cs) => Due(j, c, v, t, slack, started) && cs <= c.st.now < j.Deadline()
  }

  predicate Due(j: Job, c: Cfg, v: Verdict, t: int, slack: int, started: bool) {
    || (started && c.st.now <= t + j.s.settle + slack)
    || ((!c.st.clock.started || c.st.clock.state != v) && c.st.now == t)
  }

  // ---- One step stays on course ----

  /** v has held since t, in the fields a turn leaves alone. */
  predicate Holding(j: Job, st: State, v: Verdict, t: int) {
    st.clock == Clock(j.s.settle, true, v, t) && st.last.verdict == v
  }

  lemma WaitHeadOnCourse(j: Job, st: State, watching: bool, cs: int, resyncAt: int, v: Verdict, t: int, slack: int)
    requires j.s.Runnable() && v != Pending && slack >= 0
    requires Holding(j, st, v, t) && cs <= st.now <= Min(t + j.s.settle, j.Deadline())
    ensures OnCourse(j, j.WaitHead(st, watching, cs, resyncAt), v, t, slack)
  {
    var st1 := j.Heartbeat(st);
    ObservedIs(j, st1, st1.last);
    ObservedEnds(j, st1, st1.last);
  }

  lemma ObservedEnds(j: Job, st: State, out: Outcome)
    ensures j.Observed(st, out).1.Some? ==>
              out.verdict != Pending && SettledAs(out.verdict, j.Observed(st, out).1.value)
  {
  }

  lemma SleepHeadOnCourse(j: Job, st: State, until: int, v: Verdict, t: int, slack: int)
    requires Holding(j, st, v, t) && until <= t + j.s.settle + slack
    requires st.now <= Min(until, j.Deadline())
    ensures OnCourse(j, j.SleepHead(st, until), v, t, slack)
  {
  }

  /** An observation of v, at the first or at a later instant of its stretch. */
  lemma LookOnCourse(j: Job, st: State, out: Outcome, next: Next, v: Verdict, t: int, slack: int)
    requires j.s.Runnable() && v != Pending && slack >= 0 && out.verdict == v
    requires || Holding(j, st, v, t)
             || ((!st.clock.started || st.clock.state != v) && st.now == t && st.clock.settle == j.s.settle)
    requires t <= st.now <= t + j.s.settle + slack && st.now < j.Deadline()
    requires match next
             case OpenWatch(cs) => cs <= st.now
             case StartWait(_, cs) => cs <= st.now
             case KeepWaiting(_, cs, _) => cs <= st.now
             case _ => false
    ensures OnCourse(j, j.Finish(Look(st, out, next)), v, t, slack)
  {
    var (st1, ending) := j.Observed(st, out);
    ObservedIs(j, st, out);
    ObservedKept(j, st, out);
    ObservedEnds(j, st, out);
    if ending.None? {
      assert Holding(j, st1, v, t) && st1.now < t + j.s.settle;
      match next {
        case OpenWatch(cs) =>
        case StartWait(watching, cs) =>
          WaitHeadOnCourse(j, st1, watching, cs, st1.now + j.s.pollInterval, v, t, slack);
        case KeepWaiting(watching, cs, resyncAt) =>
          WaitHeadOnCourse(j, st1, watching, cs, resyncAt, v, t, slack);
      }
    }
  }

  /** What the observation trace gains in a step. */
  lemma StepObserves(j: Job, c: Cfg, m: Moment)
    ensures c.st.obs <= j.Step(c, m).st.obs
    ensures j.Begin(c, m).Look? ==> c.st.obs + [Sample(Until(c, m), j.Begin(c, m).out.verdict)] <= j.Step(c, m).st.obs
  {
    var t := j.Begin(c, m);
    BeginFrame(j, c, m);
    match t {
      case Look(st, out, next) =>
        ObservedIs(j, st, out);
        ContinueObserves(j, j.Observed(st, out).0, next);
      case Proceed(st, next) => ContinueObserves(j, st, next);
      case _ =>
    }
  }

  lemma ContinueObserves(j: Job, st: State, next: Next)
    ensures st.obs <= j.Continue(st, next).st.obs
  {
    match next {
      case OpenWatch(_) =>
      case StartWait(watching, cs) => WaitHeadObserves(j, st, watching, cs, st.now + j.s.pollInterval);
      case KeepWaiting(watching, cs, resyncAt) => WaitHeadObserves(j, st, watching, cs, resyncAt);
      case Nap(_) =>
      case BackOff =>
    }
  }

  lemma WaitHeadObserves(j: Job, st: State, watching: bool, cs: int, resyncAt: int)
    ensures st.obs <= j.WaitHead(st, watching, cs, resyncAt).st.obs
  {
    ObservedIs(j, j.Heartbeat(st), st.last);
  }

  /** In the steady world a turn carries on from a cycle start that lies behind it. */
  lemma SteadyTurn(j: Job, c: Cfg, m: Moment, closes: bool)
    requires Steady(j, c, m, closes) && !c.pc.Done?
    ensures var t := j.Begin(c, m);
            && !(t.Quit? && c.pc != Top)
            && (t.Look? ==>
                  && (t.next == OpenWatch(c.pc.cycleStart) || t.next == StartWait(false, c.pc.cycleStart)
                      || (t.next.KeepWaiting? && c.pc.Waiting? && t.next.cycleStart == c.pc.cycleStart))
                  && (c.pc.Waiting? ==> c.pc.watching && m.wake.Delivered?))
            && (t.Proceed? ==>
                  || (c.pc.Opening? && t.next == StartWait(true, c.pc.cycleStart))
                  || (c.pc.Waiting? && t.next == KeepWaiting(c.pc.watching, c.pc.cycleStart, c.pc.resyncAt))
                  || (c.pc.Waiting? && closes && m.wake.Closed? && t.next == Nap(c.pc.cycleStart + MIN_CYCLE))
                  || (c.pc.Sleeping? && t.next == Nap(c.pc.until)))
            && (t.Move? ==>
                  || (c.pc == Top && t.pc == Resolving(c.st.now))
                  || (c.pc.Resolving? && t.pc == Listing(c.pc.cycleStart))
                  || (c.pc.Waiting? && m.wake.Closed? && t.pc == Top))
  {
    match c.pc {
      case Resolving(_) =>
      case Listing(_) =>
      case Opening(_) =>
      case Waiting(_, _, _, _) =>
      case _ =>
    }
  }

  /** Where a quiet turn has arrived, and with what still holding. */
  lemma ProceedsInTime(j: Job, c: Cfg, m: Moment, v: Verdict, t: int, closes: bool)
    requires j.s.Runnable() && v != Pending && !c.pc.Done?
    requires OnCourse(j, c, v, t, Slack(closes)) && BlocksAhead(j, c) && Steady(j, c, m, closes)
    requires t <= c.st.now && j.Begin(c, m).Proceed? && TurnFramed(j, c, m)
    ensures var st, next := j.Begin(c, m).st, j.Begin(c, m).next;
            && Holding(j, st, v, t) && st.now <= j.Deadline()
            && match next
               case StartWait(_, cs) => cs <= st.now <= t + j.s.settle
               case KeepWaiting(_, cs, _) => cs <= st.now <= t + j.s.settle
               case Nap(until) => st.now <= until <= t + j.s.settle + Slack(closes)
               case _ => false
  {
    SteadyTurn(j, c, m, closes);
  }

  lemma ProceedOnCourse(j: Job, c: Cfg, m: Moment, v: Verdict, t: int, closes: bool)
    requires j.s.Runnable() && v != Pending && !c.pc.Done?
    requires OnCourse(j, c, v, t, Slack(closes)) && BlocksAhead(j, c) && Steady(j, c, m, closes)
    requires t <= c.st.now && j.Begin(c, m).Proceed? && TurnFramed(j, c, m)
    ensures OnCourse(j, j.Step(c, m), v, t, Slack(closes))
  {
    var st, slack := j.Begin(c, m).st, Slack(closes);
    ProceedsInTime(j, c, m, v, t, closes);
    match j.Begin(c, m).next {
      case StartWait(watching, cs) =>
        WaitHeadOnCourse(j, st, watching, cs, st.now + j.s.pollInterval, v, t, slack);
      case KeepWaiting(watching, cs, resyncAt) =>
        WaitHeadOnCourse(j, st, watching, cs, resyncAt, v, t, slack);
      case Nap(until) =>
        SleepHeadOnCourse(j, st, until, v, t, slack);
    }
  }

  lemma StepOnCourse(j: Job, c: Cfg, m: Moment, v: Verdict, t: int, closes: bool)
    requires j.s.Runnable() && v != Pending
    requires OnCourse(j, c, v, t, Slack(closes)) && BlocksAhead(j, c) && Steady(j, c, m, closes)
    requires t <= c.st.now
    requires j.Begin(c, m).Look? ==> j.Begin(c, m).out.verdict == v
    ensures OnCourse(j, j.Step(c, m), v, t, Slack(closes))
  {
    if !c.pc.Done? {
      BeginFrame(j, c, m);
      match j.Begin(c, m) {
        case Proceed(_, _) =>
          ProceedOnCourse(j, c, m, v, t, closes);
        case Look(st, out, next) =>
          SteadyTurn(j, c, m, closes);
          LookOnCourse(j, st, out, next, v, t, Slack(closes));
        case Quit(st, e) =>
          SteadyTurn(j, c, m, closes);
          EndingIs(j, c, m);
          QuitNow(j, st, e);
        case Move(st, pc) =>
          SteadyTurn(j, c, m, closes);
      }
    }
  }

  lemma QuitNow(j: Job, st: State, e: Ending)
    ensures var c := j.Finish(Quit(st, e)); c.pc == Done(e) && c.st.now == st.now && c.st.clock == st.clock
  {
  }

  lemma TimeMovesOn(j: Job, c: Cfg, m: Moment)
    requires BlocksAhead(j, c)
    ensures Until(c, m) >= c.st.now
  {
  }

  // ---- It does get there ----

  /** Every watch event or closing comes at least a tick after the loop blocked. */
  predicate WakesTick(c: Cfg, m: Moment) {
    c.pc.Waiting? && (m.wake.Delivered? || m.wake.Closed?) ==> m.wake.after >= 1
  }

  ghost predicate AllWakesTick(j: Job, c: Cfg, moments: seq<Moment>)
    decreases |moments|
  {
    moments == [] || (WakesTick(c, moments[0]) && AllWakesTick(j, j.Step(c, moments[0]), moments[1..]))
  }

  function SteadyRank(pc: Pc): nat {
    match pc
    case Top => 4
    case Resolving(_) => 3
    case Listing(_) => 2
    case Opening(_) => 1
    case _ => 0
  }

  function SteadyPotential(j: Job, c: Cfg): nat {
    5 * Max(0, j.Deadline() - c.st.now) + SteadyRank(c.pc)
  }

  lemma SteadyDescends(j: Job, c: Cfg, m: Moment, closes: bool)
    requires BlocksAhead(j, c) && Steady(j, c, m, closes) && WakesTick(c, m)
    requires !c.pc.Done? && j.s.Runnable()
    ensures j.Step(c, m).pc.Done? || SteadyPotential(j, j.Step(c, m)) < SteadyPotential(j, c)
  {
    StepFollows(j, c, m);
    SteadyTurn(j, c, m, closes);
    FinishPc(j, j.Begin(c, m));
    var turn := j.Begin(c, m);
    if turn.Look? {
      ObservedIs(j, turn.st, turn.out);
      if turn.next.StartWait? && j.Observed(turn.st, turn.out).1.None? {
        FreshWaitStays(j, j.Observed(turn.st, turn.out).0, turn.next);
      }
    } else if turn.Proceed? && turn.next.StartWait? {
      FreshWaitStays(j, turn.st, turn.next);
    }
  }

  /** A wait that has just begun does not go straight back to the top. */
  lemma FreshWaitStays(j: Job, st: State, next: Next)
    requires j.s.Runnable() && next.StartWait? && (next.watching || !st.clock.Settled(st.now))
    ensures !j.Continue(st, next).pc.Top?
  {
  }

  /** A steady run is over once its moments outnumber the potential. */
  lemma {:induction false} SteadyRunEnds(j: Job, c: Cfg, moments: seq<Moment>, closes: bool)
    requires j.s.Runnable() && BlocksAhead(j, c)
    requires AllSteady(j, c, moments, closes) && AllWakesTick(j, c, moments)
    requires |moments| > SteadyPotential(j, c)
    ensures j.RunFrom(c, moments).pc.Done?
    decreases |moments|
  {
    if c.pc.Done? {
      DoneStays(j, c, moments);
    } else {
      var d := j.Step(c, moments[0]);
      StepBlocksAhead(j, c, moments[0]);
      SteadyDescends(j, c, moments[0], closes);
      if d.pc.Done? {
        DoneStays(j, d, moments[1..]);
      } else {
        SteadyRunEnds(j, d, moments[1..], closes);
      }
    }
  }

  // ---- The whole run is on time ----

  predicate Holds(clock: Clock) {
    clock.started && clock.state != Pending
  }

  /** With nothing to settle, the loop only has to meet the deadline. */
  predicate Idle(j: Job, c: Cfg) {
    match c.pc
    case Done(e) => e == TimedOut && c.st.now == j.Deadline()
    case Opening(cs) => cs <= c.st.now < j.Deadline()
    case Waiting(_, cs, _, _) => cs <= c.st.now < j.Deadline()
    case Sleeping(_, _) => c.st.now < j.Deadline()
    case Top => c.st.now <= j.Deadline()
    case Resolving(cs) => cs <= c.st.now < j.Deadline()
    case Listing(cs) => cs <= c.st.now < j.Deadline()
  }

  predicate BeforeFirstList(pc: Pc) {
    pc.Top? || pc.Resolving? || pc.Listing?
  }

  /** The clock and the trace have begun together, at the start of the wait. */
  ghost predicate BeganAtStart(j: Job, c: Cfg) {
    && (c.st.clock.started <==> c.st.obs != [])
    && (c.st.obs != [] ==> c.st.obs[0].at == j.start)
    && (c.st.obs == [] ==> BeforeFirstList(c.pc) && c.st.now == j.start)
  }

  predicate ClockAgrees(st: State) {
    st.clock.started ==> st.last.verdict == st.clock.state && st.clock.since <= st.now
  }

  ghost predicate OnTime(j: Job, c: Cfg, slack: int) {
    && c.st.clock.settle == j.s.settle && ClockAgrees(c.st)
    && if Holds(c.st.clock) then OnCourse(j, c, c.st.clock.state, c.st.clock.since, slack) else Idle(j, c)
  }

  /** Going on neither moves the clock nor changes the last outcome. */
  lemma ContinueClock(j: Job, st: State, next: Next)
    requires ClockAgrees(st)
    ensures var d := j.Continue(st, next).st; d.clock == st.clock && d.last == st.last && d.now == st.now
  {
    ContinueKept(j, st, next);
    match next {
      case OpenWatch(_) =>
      case StartWait(watching, cs) => WaitHeadClock(j, st, watching, cs, st.now + j.s.pollInterval);
      case KeepWaiting(watching, cs, resyncAt) => WaitHeadClock(j, st, watching, cs, resyncAt);
      case Nap(_) =>
      case BackOff =>
    }
  }

  lemma WaitHeadClock(j: Job, st: State, watching: bool, cs: int, resyncAt: int)
    requires ClockAgrees(st)
    ensures j.WaitHead(st, watching, cs, resyncAt).st.clock == st.clock
  {
    ObservedIs(j, j.Heartbeat(st), st.last);
  }

  /** A step moves the clock exactly by what it observes. */
  lemma StepClock(j: Job, c: Cfg, m: Moment)
    requires ClockAgrees(c.st) && BlocksAhead(j, c) && !c.pc.Done?
    requires !j.Begin(c, m).Quit? || c.pc == Top
    ensures var t, d := j.Begin(c, m), j.Step(c, m).st;
            && d.clock == (if t.Look? then c.st.clock.Observe(Until(c, m), t.out.verdict) else c.st.clock)
            && ClockAgrees(d) && d.now == Until(c, m) >= c.st.now
  {
    BeginFrame(j, c, m);
    EndingIs(j, c, m);
    TimeMovesOn(j, c, m);
    match j.Begin(c, m) {
      case Look(st, out, next) =>
        ObservedIs(j, st, out);
        ObservedKept(j, st, out);
        ContinueClock(j, j.Observed(st, out).0, next);
      case Proceed(st, next) => ContinueClock(j, st, next);
      case Quit(_, _) =>
      case Move(_, _) =>
    }
  }

  /** A pending observation, or going on with nothing to settle, leaves it so. */
  lemma ContinueIdle(j: Job, st: State, next: Next)
    requires j.s.Runnable() && !Holds(st.clock)
    requires match next
             case OpenWatch(cs) => cs <= st.now < j.Deadline()
             case StartWait(_, cs) => cs <= st.now <= j.Deadline()
             case KeepWaiting(_, cs, _) => cs <= st.now <= j.Deadline()
             case Nap(_) => st.now <= j.Deadline()
             case BackOff => false
    ensures Idle(j, j.Continue(st, next))
  {
  }

  lemma LookIdle(j: Job, st: State, out: Outcome, next: Next)
    requires j.s.Runnable() && out.verdict == Pending && st.now < j.Deadline()
    requires match next
             case OpenWatch(cs) => cs <= st.now
             case StartWait(_, cs) => cs <= st.now
             case KeepWaiting(_, cs, _) => cs <= st.now
             case _ => false
    ensures Idle(j, j.Finish(Look(st, out, next)))
  {
    PendingDoesNotSettle(j, st, out);
    ObservedIs(j, st, out);
    ContinueIdle(j, j.Observed(st, out).0, next);
  }

  /** A steady observation comes before the deadline, in a cycle begun by then. */
  lemma LooksInTime(j: Job, c: Cfg, m: Moment, closes: bool)
    requires OnTime(j, c, Slack(closes)) && BlocksAhead(j, c) && Steady(j, c, m, closes)
    requires !c.pc.Done? && j.Begin(c, m).Look?
    ensures Until(c, m) < j.Deadline()
    ensures match j.Begin(c, m).next
            case OpenWatch(cs) => cs <= Until(c, m)
            case StartWait(_, cs) => cs <= Until(c, m)
            case KeepWaiting(_, cs, _) => cs <= Until(c, m)
            case _ => false
  {
    SteadyTurn(j, c, m, closes);
  }

  lemma LookOnTime(j: Job, c: Cfg, m: Moment, closes: bool)
    requires j.s.Runnable() && OnTime(j, c, Slack(closes)) && BlocksAhead(j, c) && Steady(j, c, m, closes)
    requires !c.pc.Done? && j.Begin(c, m).Look? && TurnFramed(j, c, m)
    ensures var d, v := j.Step(c, m), j.Begin(c, m).out.verdict;
            if v == Pending then Idle(j, d)
            else
              var same := c.st.clock.started && c.st.clock.state == v;
              OnCourse(j, d, v, if same then c.st.clock.since else Until(c, m), Slack(closes))
  {
    var t := j.Begin(c, m);
    var v := t.out.verdict;
    LooksInTime(j, c, m, closes);
    if v == Pending {
      LookIdle(j, t.st, t.out, t.next);
    } else if c.st.clock.started && c.st.clock.state == v {
      StepOnCourse(j, c, m, v, c.st.clock.since, closes);
    } else {
      LookOnCourse(j, t.st, t.out, t.next, v, Until(c, m), Slack(closes));
    }
  }

  lemma QuietIdle(j: Job, c: Cfg, m: Moment, closes: bool)
    requires j.s.Runnable() && Idle(j, c) && BlocksAhead(j, c) && Steady(j, c, m, closes)
    requires !Holds(c.st.clock) && !c.pc.Done? && !j.Begin(c, m).Look? && TurnFramed(j, c, m)
    ensures Idle(j, j.Step(c, m))
  {
    var t := j.Begin(c, m);
    SteadyTurn(j, c, m, closes);
    EndingIs(j, c, m);
    match t {
      case Proceed(st, next) => ContinueIdle(j, st, next);
      case Quit(st, e) => QuitNow(j, st, e);
      case _ =>
    }
  }

  lemma StepOnTime(j: Job, c: Cfg, m: Moment, closes: bool)
    requires j.s.Runnable() && OnTime(j, c, Slack(closes)) && BlocksAhead(j, c) && Steady(j, c, m, closes)
    ensures OnTime(j, j.Step(c, m), Slack(closes))
  {
    if !c.pc.Done? {
      BeginFrame(j, c, m);
      SteadyTurn(j, c, m, closes);
      StepClock(j, c, m);
      if j.Begin(c, m).Look? {
        LookOnTime(j, c, m, closes);
      } else if Holds(c.st.clock) {
        StepOnCourse(j, c, m, c.st.clock.state, c.st.clock.since, closes);
      } else {
        QuietIdle(j, c, m, closes);
      }
    }
  }

  lemma StepBegan(j: Job, c: Cfg, m: Moment, closes: bool)
    requires j.s.Runnable() && BeganAtStart(j, c) && ClockAgrees(c.st) && BlocksAhead(j, c)
    requires Steady(j, c, m, closes)
    ensures BeganAtStart(j, j.Step(c, m))
  {
    if !c.pc.Done? {
      BeginFrame(j, c, m);
      SteadyTurn(j, c, m, closes);
      StepClock(j, c, m);
      StepObserves(j, c, m);
    }
  }

  lemma {:induction false} RunOnTime(j: Job, c: Cfg, moments: seq<Moment>, closes: bool)
    requires j.s.Runnable() && OnTime(j, c, Slack(closes)) && BeganAtStart(j, c) && BlocksAhead(j, c)
    requires AllSteady(j, c, moments, closes)
    ensures var d := j.RunFrom(c, moments); OnTime(j, d, Slack(closes)) && BeganAtStart(j, d)
    decreases |moments|
  {
    if moments == [] {
    } else {
      StepOnTime(j, c, moments[0], closes);
      StepBegan(j, c, moments[0], closes);
      StepBlocksAhead(j, c, moments[0]);
      RunOnTime(j, j.Step(c, moments[0]), moments[1..], closes);
    }
  }

  // ---- The theorems ----

  /** A steady run of enough moments is over, on time, and its clock reads the
      stretch of verdicts that ends its trace. */
  lemma {:induction false} SteadyRun(j: Job, moments: seq<Moment>, closes: bool) returns (i: nat)
    requires j.s.Runnable()
    requires AllSteady(j, j.Init(), moments, closes) && AllWakesTick(j, j.Init(), moments)
    requires |moments| > 5 * j.s.timeout + 4
    ensures var d := j.Run(moments);
            && d.pc.Done? && StretchStart(d.st.obs, i)
            && OnTime(j, d, Slack(closes)) && BeganAtStart(j, d)
            && d.st.clock == Clock(j.s.settle, true, d.st.obs[i].verdict, d.st.obs[i].at)
  {
    var d := j.Run(moments);
    SteadyRunEnds(j, j.Init(), moments, closes);
    RunOnTime(j, j.Init(), moments, closes);
    RunKeeps(j, j.Init(), moments);
    i := LastStretch(d.st.obs);
    ClockReadsStretch(j.s.settle, d.st.obs, i);
  }

  /** Exact liveness, of whole runs and of their traces. In a steady world whose
      watches do not close, a run of enough moments is over. Let i be the start of
      the stretch of equal verdicts that ends its trace. If that verdict is a
      success or a failure and its window ends before the deadline, the run has
      ended with it exactly when the window did; otherwise it has timed out exactly
      at the deadline. Polling or watching alike. */
  lemma {:induction false} SettlesExactlyOnTime(j: Job, moments: seq<Moment>) returns (i: nat)
    requires j.s.Runnable()
    requires AllSteady(j, j.Init(), moments, false) && AllWakesTick(j, j.Init(), moments)
    requires |moments| > 5 * j.s.timeout + 4
    ensures var d := j.Run(moments);
            && d.pc.Done? && StretchStart(d.st.obs, i)
            && var v, end := d.st.obs[i].verdict, d.st.obs[i].at + j.s.settle;
               if v != Pending && end < j.Deadline() then SettledAs(v, d.pc.ending) && d.st.now == end
               else d.pc.ending == TimedOut && d.st.now == j.Deadline()
  {
    i := SteadyRun(j, moments, false);
  }

  /** Watches that close, however often, delay that by at most one second, and
      cost the verdict only when its window ends in the last second. */
  lemma {:induction false} SettlesWithinACycle(j: Job, moments: seq<Moment>) returns (i: nat)
    requires j.s.Runnable()
    requires AllSteady(j, j.Init(), moments, true) && AllWakesTick(j, j.Init(), moments)
    requires |moments| > 5 * j.s.timeout + 4
    ensures var d := j.Run(moments);
            && d.pc.Done? && StretchStart(d.st.obs, i)
            && var v, end := d.st.obs[i].verdict, d.st.obs[i].at + j.s.settle;
               if d.pc.ending == TimedOut then
                 d.st.now == j.Deadline() && (v == Pending || j.Deadline() <= end + MIN_CYCLE)
               else
                 v != Pending && SettledAs(v, d.pc.ending) && d.st.now < j.Deadline() && end <= d.st.now <= end + MIN_CYCLE
  {
    i := SteadyRun(j, moments, true);
  }

  lemma FromTheFirst(obs: seq<Sample>, i: nat, v: Verdict)
    requires StretchStart(obs, i) && AllVerdicts(obs, 0, v)
    ensures i == 0
  {
  }

  /** If every observation of the run is the success or failure v, the run ends
      with v exactly one settle window after it began. */
  lemma {:induction false} SteadyFromTheStart(j: Job, moments: seq<Moment>, v: Verdict)
    requires j.s.Runnable() && v != Pending
    requires AllSteady(j, j.Init(), moments, false) && AllWakesTick(j, j.Init(), moments)
    requires AllVerdicts(j.Run(moments).st.obs, 0, v)
    requires |moments| > 5 * j.s.timeout + 4
    ensures var d := j.Run(moments);
            d.pc.Done? && SettledAs(v, d.pc.ending) && d.st.now == j.start + j.s.settle
  {
    var i := SteadyRun(j, moments, false);
    FromTheFirst(j.Run(moments).st.obs, i, v);
  }

  /** An event that brings v begins its stretch: from the instant of the event the
      loop is on course. */
  lemma EventPutsOnCourse(j: Job, c: Cfg, m: Moment, v: Verdict)
    requires j.s.Runnable() && v != Pending && BlocksAhead(j, c) && c.pc.Waiting?
    requires c.pc.cycleStart <= c.st.now && c.st.clock.settle == j.s.settle
    requires Steady(j, c, m, false) && m.wake.Delivered? && c.pc.watching
    requires j.Begin(c, m).Look? && j.Begin(c, m).out.verdict == v
    requires c.st.clock.state != v
    ensures OnCourse(j, j.Step(c, m), v, Until(c, m), 0)
    ensures BlocksAhead(j, j.Step(c, m)) && j.Step(c, m).st.now == Until(c, m)
  {
    var t := j.Begin(c, m);
    BeginFrame(j, c, m);
    SteadyTurn(j, c, m, false);
    StepFollows(j, c, m);
    StepBlocksAhead(j, c, m);
    LookOnCourse(j, t.st, t.out, t.next, v, Until(c, m), 0);
  }
}
