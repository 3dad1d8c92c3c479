/** Settle soundness: what a settled ending says about the whole run before it. */
module Soundness {
  import opened Common
  import opened Evaluator
  import opened Settle
  import opened Protocol
  import opened Blocking
  import opened Turns

  ghost predicate RecordedPending(obs: seq<Sample>, at: int) {
    exists k :: 0 <= k < |obs| && obs[k] == Sample(at, Pending)
  }

  /** Every retried error stands in the observation trace as a pending verdict. */
  ghost predicate ErrorsRecorded(log: seq<Entry>, obs: seq<Sample>) {
    forall e :: e in log && Retried(e.answer) ==> RecordedPending(obs, e.at)
  }

  /** The same, but for errors of this instant, which are about to be recorded. */
  ghost predicate EarlierErrorsRecorded(log: seq<Entry>, obs: seq<Sample>, now: int) {
    forall e :: e in log && Retried(e.answer) ==> RecordedPending(obs, e.at) || e.at == now
  }

  /** The settle clock has read exactly the trace, and the trace is in time order. */
  ghost predicate ClockReads(settle: int, clock: Clock, obs: seq<Sample>, now: int) {
    && clock == Replay(settle, obs)
    && NonDecreasing(obs)
    && (forall i :: 0 <= i < |obs| ==> obs[i].at <= now)
  }

  ghost predicate TraceOk(j: Job, st: State) {
    ClockReads(j.s.settle, st.clock, st.obs, st.now) && ErrorsRecorded(st.log, st.obs)
  }

  predicate Settled(e: Ending) {
    e.Succeeded? || e.Failed?
  }

  function VerdictOf(e: Ending): Verdict {
    if e.Succeeded? then Success else Failure
  }

  ghost predicate Good(j: Job, c: Cfg) {
    && TraceOk(j, c.st)
    && c.pc != Done(Unfinished)
    && (c.pc.Done? && Settled(c.pc.ending) ==>
          && c.st.clock.Settled(c.st.now)
          && c.st.obs != [] && c.st.obs[|c.st.obs| - 1] == Sample(c.st.now, VerdictOf(c.pc.ending)))
  }

  lemma ClockReadsNext(settle: int, clock: Clock, obs: seq<Sample>, now: int, v: Verdict)
    requires ClockReads(settle, clock, obs, now)
    ensures ClockReads(settle, clock.Observe(now, v), obs + [Sample(now, v)], now)
  {
    ReplaySnoc(settle, obs, Sample(now, v));
  }

  lemma RecordedGrows(obs: seq<Sample>, o: Sample, at: int)
    requires RecordedPending(obs, at) || o == Sample(at, Pending)
    ensures RecordedPending(obs + [o], at)
  {
    if RecordedPending(obs, at) {
      var k :| 0 <= k < |obs| && obs[k] == Sample(at, Pending);
      assert (obs + [o])[k] == Sample(at, Pending);
    } else {
      assert (obs + [o])[|obs|] == o;
    }
  }

  lemma ErrorsRecordedNext(log: seq<Entry>, obs: seq<Sample>, now: int, v: Verdict)
    requires ErrorsRecorded(log, obs) || (v == Pending && EarlierErrorsRecorded(log, obs, now))
    ensures ErrorsRecorded(log, obs + [Sample(now, v)])
  {
    forall e | e in log && Retried(e.answer) ensures RecordedPending(obs + [Sample(now, v)], e.at) {
      RecordedGrows(obs, Sample(now, v), e.at);
    }
  }

  /** An observation keeps the trace in order even when it is itself the record
      of the error just logged. */
  lemma ObservedKeeps(j: Job, st: State, out: Outcome)
    requires ClockReads(j.s.settle, st.clock, st.obs, st.now)
    requires ErrorsRecorded(st.log, st.obs) ||
             (out.verdict == Pending && EarlierErrorsRecorded(st.log, st.obs, st.now))
    ensures var (st', ending) := j.Observed(st, out);
            && TraceOk(j, st')
            && (ending.Some? ==> Settled(ending.value) && Good(j, Cfg(st', Done(ending.value))))
  {
    ClockReadsNext(j.s.settle, st.clock, st.obs, st.now, out.verdict);
    ErrorsRecordedNext(st.log, st.obs, st.now, out.verdict);
    ObservedIs(j, st, out);
  }

  /** An observation is the next sample, read by the clock; it ends the wait when
      the clock calls it settled. */
  lemma ObservedIs(j: Job, st: State, out: Outcome)
    ensures var (st', ending) := j.Observed(st, out);
            && st'.clock == st.clock.Observe(st.now, out.verdict)
            && st'.obs == st.obs + [Sample(st.now, out.verdict)]
            && st'.log == st.log && st'.now == st.now
            && (ending.Some? <==> st'.clock.Settled(st.now))
            && (ending.Some? ==> Settled(ending.value) && VerdictOf(ending.value) == out.verdict)
  {
  }

  lemma WaitHeadKeeps(j: Job, st: State, watching: bool, cycleStart: int, resyncAt: int)
    requires TraceOk(j, st)
    ensures Good(j, j.WaitHead(st, watching, cycleStart, resyncAt))
  {
    if st.now < j.Deadline() {
      var st1 := j.Heartbeat(st);
      assert TraceOk(j, st1);
      if watching && st1.clock.Settled(st1.now) {
        ObservedKeeps(j, st1, st1.last);
      }
    }
  }

  lemma SleepHeadKeeps(j: Job, st: State, until: int)
    requires TraceOk(j, st)
    ensures Good(j, j.SleepHead(st, until))
  {
  }

  /** What a turn must bring for the loop to keep the trace in order. */
  ghost predicate TurnOk(j: Job, t: Turn) {
    && ClockReads(j.s.settle, t.st.clock, t.st.obs, t.st.now)
    && (t.Move? ==> t.pc.Done? ==> t.pc.ending == Cancelled)
    && (t.Quit? ==> !Settled(t.ending) && t.ending != Unfinished)
    && (ErrorsRecorded(t.st.log, t.st.obs) ||
        (t.Look? && t.out.verdict == Pending && EarlierErrorsRecorded(t.st.log, t.st.obs, t.st.now)))
  }

  lemma ContinueKeeps(j: Job, st: State, next: Next)
    requires TraceOk(j, st)
    ensures Good(j, j.Continue(st, next))
  {
    match next {
      case OpenWatch(_) =>
      case StartWait(watching, cs) => WaitHeadKeeps(j, st, watching, cs, st.now + j.s.pollInterval);
      case KeepWaiting(watching, cs, resyncAt) => WaitHeadKeeps(j, st, watching, cs, resyncAt);
      case Nap(until) => SleepHeadKeeps(j, st, until);
      case BackOff =>
        var st1 := st.(backoff := j.NextBackoff(st.backoff));
        SleepHeadKeeps(j, st1, st1.now + st1.backoff);
    }
  }

  lemma FinishKeeps(j: Job, t: Turn)
    requires TurnOk(j, t)
    ensures Good(j, j.Finish(t))
  {
    match t {
      case Move(_, _) =>
      case Quit(_, _) =>
      case Proceed(st, next) => ContinueKeeps(j, st, next);
      case Look(st, out, next) =>
        ObservedKeeps(j, st, out);
        ContinueKeeps(j, j.Observed(st, out).0, next);
    }
  }

  lemma BeginKeeps(j: Job, c: Cfg, m: Moment)
    requires TraceOk(j, c.st) && BlocksAhead(j, c) && !c.pc.Done?
    ensures TurnOk(j, j.Begin(c, m))
  {
    var t := j.Begin(c, m);
    BeginFrame(j, c, m);
    EndingIs(j, c, m);
    assert Until(c, m) >= c.st.now;
    ClockReadsLater(j.s.settle, c.st.clock, c.st.obs, c.st.now, Until(c, m));
    var heard := Heard(j, c, m);
    if heard.Some? && Retried(heard.value) {
      LookIs(j, c, m);
      LoggedError(c.st.log, c.st.obs, Entry(Until(c, m), heard.value));
    } else if heard.Some? {
      LoggedQuietly(c.st.log, c.st.obs, Entry(Until(c, m), heard.value));
    }
  }

  lemma ClockReadsLater(settle: int, clock: Clock, obs: seq<Sample>, now: int, later: int)
    requires ClockReads(settle, clock, obs, now) && later >= now
    ensures ClockReads(settle, clock, obs, later)
  {
  }

  lemma LoggedQuietly(log: seq<Entry>, obs: seq<Sample>, e: Entry)
    requires ErrorsRecorded(log, obs) && !Retried(e.answer)
    ensures ErrorsRecorded(log + [e], obs)
  {
  }

  lemma LoggedError(log: seq<Entry>, obs: seq<Sample>, e: Entry)
    requires ErrorsRecorded(log, obs)
    ensures EarlierErrorsRecorded(log + [e], obs, e.at)
  {
  }

  lemma StepKeeps(j: Job, c: Cfg, m: Moment)
    requires Good(j, c) && BlocksAhead(j, c)
    ensures Good(j, j.Step(c, m))
  {
    if !c.pc.Done? {
      BeginKeeps(j, c, m);
      FinishKeeps(j, j.Begin(c, m));
    }
  }

  lemma {:induction false} RunKeeps(j: Job, c: Cfg, moments: seq<Moment>)
    requires j.s.Runnable() && Good(j, c) && BlocksAhead(j, c)
    ensures Good(j, j.RunFrom(c, moments))
    decreases |moments|
  {
    if moments == [] {
    } else {
      StepKeeps(j, c, moments[0]);
      StepBlocksAhead(j, c, moments[0]);
      RunKeeps(j, j.Step(c, moments[0]), moments[1..]);
    }
  }

  /** The run before c ended in one verdict held for the settle window: the
      observations from index i on all carry it, they span at least `settle` up
      to now, and no retried API error was answered after the window began. */
  ghost predicate HeldThrough(j: Job, c: Cfg, v: Verdict, i: nat) {
    && i < |c.st.obs|
    && (forall k :: i <= k < |c.st.obs| ==> c.st.obs[k].verdict == v)
    && c.st.obs[|c.st.obs| - 1].at == c.st.now
    && c.st.now - c.st.obs[i].at >= j.s.settle
    && (forall e :: e in c.st.log && Retried(e.answer) ==> e.at <= c.st.obs[i].at)
  }

  /** Settle soundness: every run that ends in success, or in a failure that is
      neither timeout, fatal error nor cancellation, held that verdict throughout
      a window of at least `settle`, with no pending observation and no retried
      error inside it. */
  lemma {:induction false} SettleSoundness(j: Job, moments: seq<Moment>) returns (i: nat)
    requires j.s.Runnable()
    requires var c := j.Run(moments); c.pc.Done? && Settled(c.pc.ending)
    ensures var c := j.Run(moments); HeldThrough(j, c, VerdictOf(c.pc.ending), i)
  {
    RunKeeps(j, j.Init(), moments);
    var c := j.Run(moments);
    i := LastStretch(c.st.obs);
    ClockReadsStretch(j.s.settle, c.st.obs, i);
    forall e | e in c.st.log && Retried(e.answer) ensures e.at <= c.st.obs[i].at {
      var k :| 0 <= k < |c.st.obs| && c.st.obs[k] == Sample(e.at, Pending);
      assert k < i;
    }
  }

  /** At any point of any run, the loop's clock says "settled" exactly when the
      trace so far has held for the window. */
  lemma {:induction false} ClockIsTheTrace(j: Job, moments: seq<Moment>)
    requires j.s.Runnable()
    ensures var st := j.Run(moments).st; st.clock.Settled(st.now) <==> HeldFor(st.obs, st.now, j.s.settle)
  {
    RunKeeps(j, j.Init(), moments);
    var st := j.Run(moments).st;
    SettledIffHeld(j.s.settle, st.obs, st.now);
  }

  /** Which API errors restart settle. A retried one adds a pending observation,
      at the instant of the answer; any other, be it a first 401, a watch that
      expired, or an error that ends the wait, leaves clock and trace as they were. */
  lemma ErrorsOnTheClock(j: Job, c: Cfg, m: Moment)
    requires !c.pc.Done? && Heard(j, c, m).Some?
    requires Heard(j, c, m).value.Rejected? || Heard(j, c, m).value.Relist?
    ensures var d := j.Step(c, m);
            if Retried(Heard(j, c, m).value) then
              && d.st.clock.started && d.st.clock.state == Pending
              && d.st.obs == c.st.obs + [Sample(Until(c, m), Pending)]
            else d.st.clock == c.st.clock && d.st.obs == c.st.obs
  {
    var t := j.Begin(c, m);
    BeginFrame(j, c, m);
    if Retried(Heard(j, c, m).value) {
      LookIs(j, c, m);
      ObservedIs(j, t.st, NO_OUTCOME);
      SleepHeadClock(j, j.Observed(t.st, NO_OUTCOME).0, j.NextBackoff(t.st.backoff));
    } else {
      ErrorMoves(j, c, m);
    }
  }

  lemma SleepHeadClock(j: Job, st: State, backoff: int)
    ensures var d := j.SleepHead(st.(backoff := backoff), st.now + backoff).st;
            d.clock == st.clock && d.obs == st.obs
  {
  }

  lemma ErrorMoves(j: Job, c: Cfg, m: Moment)
    requires Heard(j, c, m).Some? && !Observes(Heard(j, c, m))
    ensures j.Begin(c, m).Move? || j.Begin(c, m).Quit?
  {
    match c.pc {
      case Resolving(_) =>
      case Listing(_) =>
      case Opening(_) =>
      case Waiting(_, _, _, _) =>
      case _ =>
    }
  }

  /** The same at every point of every run: an error restarts settle exactly when
      it is one the loop retries with backoff. */
  lemma {:induction false} WhichErrorsRestartSettle(j: Job, moments: seq<Moment>, m: Moment)
    requires var c := j.Run(moments);
             && !c.pc.Done? && Heard(j, c, m).Some?
             && (Heard(j, c, m).value.Rejected? || Heard(j, c, m).value.Relist?)
    ensures var c, d := j.Run(moments), j.Run(moments + [m]);
            && (Retried(Heard(j, c, m).value) <==> d.st.obs != c.st.obs)
            && (Retried(Heard(j, c, m).value) ==> d.st.clock.Deadline().None?)
            && (!Retried(Heard(j, c, m).value) ==> d.st.clock == c.st.clock)
  {
    ErrorsOnTheClock(j, j.Run(moments), m);
    RunSnoc(j, j.Init(), moments, m);
  }

  lemma {:induction false} RunSnoc(j: Job, c: Cfg, moments: seq<Moment>, m: Moment)
    ensures j.RunFrom(c, moments + [m]) == j.Step(j.RunFrom(c, moments), m)
    decreases |moments|
  {
    if moments == [] {
      assert [m][1..] == [];
      assert [] + [m] == [m];
    } else {
      assert (moments + [m])[1..] == moments[1..] + [m];
      RunSnoc(j, j.Step(c, moments[0]), moments[1..], m);
    }
  }

  /** A run that is done has an ending of its own. */
  lemma {:induction false} DoneIsEnded(j: Job, moments: seq<Moment>)
    requires j.s.Runnable()
    ensures j.Run(moments).pc.Done? <==> !Report(j.Run(moments)).Unfinished?
  {
    RunKeeps(j, j.Init(), moments);
  }
}
