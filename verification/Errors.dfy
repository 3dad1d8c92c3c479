/** The error policy over whole runs: the 401 automaton, the backoff, the notes,
    and the warning on a vacuous success. Each is stated against the log of what
    the server answered. */
module Errors {
  import opened Common
  import opened Durations
  import opened Evaluator
  import opened Protocol
  import opened Turns
  import opened Blocking
  import opened Timing

  // ---- Reading the log ----

  /** How many 401 answers since the last successful list. */
  function Unauths(log: seq<Entry>): nat {
    if log == [] then 0
    else
      var n := |log| - 1;
      match log[n].answer
      case Refreshed(_, _) => 0
      case a => Unauths(log[..n]) + if a == Rejected(Unauthorized) then 1 else 0
  }

  /** When the retried errors since the last successful list were answered. */
  function RetryTimes(log: seq<Entry>): seq<int> {
    if log == [] then []
    else
      var n := |log| - 1;
      match log[n].answer
      case Refreshed(_, _) => []
      case a => RetryTimes(log[..n]) + if Retried(a) then [log[n].at] else []
  }

  /** Whether the last successful cycle found the kind served, if there was one. */
  function LastServed(log: seq<Entry>): Option<bool> {
    if log == [] then None
    else
      var n := |log| - 1;
      match log[n].answer
      case Refreshed(served, _) => Some(served)
      case _ => LastServed(log[..n])
  }

  ghost predicate Denied(log: seq<Entry>) {
    exists e :: e in log && e.answer == Rejected(Forbidden)
  }

  lemma LogSnoc(log: seq<Entry>, e: Entry)
    ensures Unauths(log + [e]) ==
            if e.answer.Refreshed? then 0 else Unauths(log) + if e.answer == Rejected(Unauthorized) then 1 else 0
    ensures RetryTimes(log + [e]) ==
            if e.answer.Refreshed? then [] else if Retried(e.answer) then RetryTimes(log) + [e.at] else RetryTimes(log)
    ensures LastServed(log + [e]) == if e.answer.Refreshed? then Some(e.answer.served) else LastServed(log)
    ensures Denied(log + [e]) <==> Denied(log) || e.answer == Rejected(Forbidden)
  {
    assert (log + [e])[..|log|] == log;
    assert RetryTimes(log) + [] == RetryTimes(log);
    assert e in log + [e];
  }

  // ---- Backoff in closed form ----

  function Pow2(n: nat): int
    ensures Pow2(n) >= 1
  {
    if n == 0 then 1 else 2 * Pow2(n - 1)
  }

  /** The delay after k retried errors: doubling from one second up to the poll
      interval. */
  function Backoff(j: Job, k: nat): int {
    if k == 0 then 0 else Min(Pow2(k - 1) * SECOND, j.s.pollInterval)
  }

  lemma BackoffNext(j: Job, k: nat)
    requires j.s.pollInterval > 0
    ensures j.NextBackoff(Backoff(j, k)) == Backoff(j, k + 1)
    ensures k > 0 ==> Backoff(j, k) > 0
  {
  }

  // ---- The invariant ----

  /** The flags of the error policy, read off the log. */
  ghost predicate Flags(j: Job, log: seq<Entry>, unauthRetried: bool, backoff: int) {
    && Unauths(log) <= 1
    && (unauthRetried <==> Unauths(log) == 1)
    && backoff == Backoff(j, |RetryTimes(log)|)
    && !Denied(log)
  }

  /** The note says what the last answer that matters was. */
  ghost predicate Notes(log: seq<Entry>, note: Note, v: Verdict) {
    && (note == ApiErrorNote ==> v == Pending)
    && (note == NotServedNote ==> LastServed(log) == Some(false))
    && (note == NoNote ==> LastServed(log) != Some(false))
  }

  ghost predicate PolicyOk(j: Job, c: Cfg) {
    match c.pc
    case Done(e) =>
      && Unauths(c.st.log) == (if e == NotAuthenticated then 2 else Unauths(c.st.log))
      && (Unauths(c.st.log) >= 2 ==> e == NotAuthenticated)
      && (Denied(c.st.log) <==> e == AccessDenied)
      && (e.Succeeded? ==> (e.warned <==> LastServed(c.st.log) == Some(false)))
      && (c.st.note == ApiErrorNote ==> c.st.last.verdict == Pending)
    case pc =>
      && Flags(j, c.st.log, c.st.unauthRetried, c.st.backoff)
      && Notes(c.st.log, c.st.note, c.st.last.verdict)
      && (pc.Opening? || pc.Waiting? ==> c.st.note != ApiErrorNote)
  }

  lemma KeptPolicy(j: Job, a: State, out: Outcome, c: Cfg)
    requires Undisturbed(a, out, c) && Notes(a.log, a.note, out.verdict)
    requires Unauths(a.log) <= 1 && !Denied(a.log)
    requires !c.pc.Done? ==> Flags(j, a.log, a.unauthRetried, c.st.backoff)
    requires c.pc.Opening? || c.pc.Waiting? ==> a.note != ApiErrorNote
    ensures PolicyOk(j, c)
  {
  }

  /** Flags and note after a turn that goes on with this delay and verdict. */
  ghost predicate PolicyAfter(j: Job, st: State, backoff: int, v: Verdict) {
    && Unauths(st.log) <= 1 && !Denied(st.log)
    && Flags(j, st.log, st.unauthRetried, backoff)
    && Notes(st.log, st.note, v)
  }

  function BackoffAfter(j: Job, t: Turn): int {
    if t.Look? && t.next == BackOff then j.NextBackoff(t.st.backoff) else t.st.backoff
  }

  function VerdictAfter(t: Turn): Verdict {
    if t.Look? then t.out.verdict else t.st.last.verdict
  }

  lemma LookFlags(j: Job, c: Cfg, m: Moment)
    requires PolicyOk(j, c) && !c.pc.Done? && j.s.pollInterval > 0
    requires j.Begin(c, m).Look? && TurnFramed(j, c, m)
    ensures var t := j.Begin(c, m); PolicyAfter(j, t.st, BackoffAfter(j, t), VerdictAfter(t))
  {
    var heard := Heard(j, c, m).value;
    LogSnoc(c.st.log, Entry(Until(c, m), heard));
    BackoffNext(j, |RetryTimes(c.st.log)|);
    LookIs(j, c, m);
    if heard.Refreshed? {
      RefreshIs(j, c, m);
    } else if heard.Changed? {
      ChangeIs(j, c, m);
    }
  }

  lemma QuietFlags(j: Job, c: Cfg, m: Moment)
    requires PolicyOk(j, c) && !c.pc.Done?
    requires !j.Begin(c, m).Look? && !j.Begin(c, m).Quit? && TurnFramed(j, c, m)
    ensures var t := j.Begin(c, m); PolicyAfter(j, t.st, BackoffAfter(j, t), VerdictAfter(t))
  {
    var heard := Heard(j, c, m);
    QuietTurn(j, c, m);
    if heard.Some? {
      LogSnoc(c.st.log, Entry(Until(c, m), heard.value));
      if heard.value.Rejected? {
        HeardQuietly(j, c, m);
      }
    }
  }

  /** The error policy after one more answer that did not end the wait. */
  lemma FlagsNext(j: Job, c: Cfg, m: Moment)
    requires PolicyOk(j, c) && !c.pc.Done? && j.s.pollInterval > 0
    requires !j.Begin(c, m).Quit?
    ensures var t := j.Begin(c, m); PolicyAfter(j, t.st, BackoffAfter(j, t), VerdictAfter(t))
  {
    BeginFrame(j, c, m);
    if j.Begin(c, m).Look? {
      LookFlags(j, c, m);
    } else {
      QuietFlags(j, c, m);
    }
  }

  /** An error that neither retries nor ends the wait is a first 401. */
  lemma HeardQuietly(j: Job, c: Cfg, m: Moment)
    requires Heard(j, c, m).Some? && Heard(j, c, m).value.Rejected? && !j.Begin(c, m).Look?
    ensures var t := j.Begin(c, m);
            && (Heard(j, c, m).value.error == Forbidden ==> t.Quit? && t.ending == AccessDenied)
            && (Heard(j, c, m).value.error == Unauthorized ==>
                  if c.st.unauthRetried then t.Quit? && t.ending == NotAuthenticated else t.Move? && t.pc == Top)
  {
  }

  /** A quit leaves the log with what was heard. */
  lemma QuitPolicy(j: Job, c: Cfg, m: Moment)
    requires PolicyOk(j, c) && !c.pc.Done? && j.Begin(c, m).Quit?
    ensures PolicyOk(j, j.Step(c, m))
  {
    var t := j.Begin(c, m);
    var heard := Heard(j, c, m);
    BeginFrame(j, c, m);
    EndingIs(j, c, m);
    QuietTurn(j, c, m);
    if heard.Some? {
      LogSnoc(c.st.log, Entry(Until(c, m), heard.value));
      if heard.value.Rejected? {
        HeardQuietly(j, c, m);
      }
    }
    QuitIs(j, t.st, t.ending);
  }

  lemma QuitIs(j: Job, st: State, e: Ending)
    ensures var c := j.Finish(Quit(st, e));
            && c.pc == Done(e) && c.st.log == st.log
            && ((c.st.note == st.note && c.st.last == st.last) || c.st.note == NoNote)
  {
  }

  /** Where a turn may go on to a watch or to waiting, the note is not an error's. */
  lemma NoErrorNoteWhileWaiting(j: Job, c: Cfg, m: Moment)
    requires PolicyOk(j, c) && !c.pc.Done?
    requires j.Step(c, m).pc.Opening? || j.Step(c, m).pc.Waiting?
    ensures !j.Begin(c, m).Move? && j.Begin(c, m).st.note != ApiErrorNote
  {
    var t := j.Begin(c, m);
    FinishPc(j, t);
    if t.Look? {
      LookIs(j, c, m);
      BeginFrame(j, c, m);
      if Heard(j, c, m).value.Refreshed? {
        RefreshIs(j, c, m);
      } else if Heard(j, c, m).value.Changed? {
        ChangeIs(j, c, m);
      }
    } else {
      QuietTurn(j, c, m);
      WaitsComeFromWaits(j, c, m);
    }
  }

  lemma WaitsComeFromWaits(j: Job, c: Cfg, m: Moment)
    requires !c.pc.Done? && (j.Begin(c, m).Move? || j.Begin(c, m).Proceed?)
    ensures var t := j.Begin(c, m);
            && (t.Move? ==> !t.pc.Opening? && !t.pc.Waiting? && !t.pc.Sleeping?)
            && (t.Proceed? && !t.next.Nap? ==> c.pc.Opening? || c.pc.Waiting?)
  {
    match c.pc {
      case Resolving(_) =>
      case Listing(_) =>
      case Opening(_) =>
      case Waiting(_, _, _, _) =>
      case _ =>
    }
  }

  lemma StepPolicy(j: Job, c: Cfg, m: Moment)
    requires PolicyOk(j, c) && j.s.pollInterval > 0
    ensures PolicyOk(j, j.Step(c, m))
  {
    if !c.pc.Done? {
      var t := j.Begin(c, m);
      var d := j.Step(c, m);
      if t.Quit? {
        QuitPolicy(j, c, m);
      } else {
        FlagsNext(j, c, m);
        if d.pc.Opening? || d.pc.Waiting? {
          NoErrorNoteWhileWaiting(j, c, m);
        }
        match t {
          case Look(st, out, next) =>
            LookKept(j, st, out, next);
            KeptPolicy(j, st, out, d);
          case Proceed(st, next) =>
            QuietTurn(j, c, m);
            ContinueKept(j, st, next);
            KeptPolicy(j, st, st.last, d);
          case Move(st, pc) =>
            EndingIs(j, c, m);
        }
      }
    }
  }

  lemma {:induction false} RunPolicy(j: Job, c: Cfg, moments: seq<Moment>)
    requires PolicyOk(j, c) && j.s.pollInterval > 0
    ensures PolicyOk(j, j.RunFrom(c, moments))
    decreases |moments|
  {
    if moments == [] {
    } else {
      StepPolicy(j, c, moments[0]);
      RunPolicy(j, j.Step(c, moments[0]), moments[1..]);
    }
  }

  // ---- The theorems ----

  /** The 401 automaton: a run has ended "not authenticated" exactly when the
      server has answered two 401s since the last successful list, whatever other
      answers lie between; and "access denied" exactly when it has answered 403. */
  lemma {:induction false} SecondUnauthorizedEnds(j: Job, moments: seq<Moment>)
    requires j.s.Runnable()
    ensures var c := j.Run(moments);
            && (c.pc == Done(NotAuthenticated) <==> Unauths(c.st.log) == 2)
            && Unauths(c.st.log) <= 2
            && (c.pc == Done(AccessDenied) <==> Denied(c.st.log))
  {
    RunPolicy(j, j.Init(), moments);
  }

  /** The delay in force is the closed form of the number of retried errors since
      the last successful list. */
  lemma {:induction false} BackoffIsClosedForm(j: Job, moments: seq<Moment>)
    requires j.s.Runnable()
    ensures var c := j.Run(moments);
            !c.pc.Done? ==> c.st.backoff == Backoff(j, |RetryTimes(c.st.log)|)
  {
    RunPolicy(j, j.Init(), moments);
  }

  /** A success is warned about exactly when the deciding cycle found the kind
      not served; and an error note always stands beside a pending outcome. */
  lemma {:induction false} WarningMeansNotServed(j: Job, moments: seq<Moment>)
    requires j.s.Runnable()
    ensures var c := j.Run(moments);
            && (c.pc.Done? && c.pc.ending.Succeeded? ==>
                  (c.pc.ending.warned <==> LastServed(c.st.log) == Some(false)))
            && (c.st.note == ApiErrorNote ==> c.st.last.verdict == Pending)
  {
    RunPolicy(j, j.Init(), moments);
  }

  // ---- Spacing of retries ----

  /** The delays after the first n of a streak of retried errors. */
  function TotalBackoff(j: Job, n: nat): int {
    if n == 0 then 0 else TotalBackoff(j, n - 1) + Backoff(j, n)
  }

  /** Each retried error of a streak came at least its backoff after the one
      before, and the next cycle waits for the delay in force. */
  ghost predicate WellSpaced(j: Job, c: Cfg) {
    var times := RetryTimes(c.st.log);
    var k := |times|;
    k > 0 ==>
      && times[k - 1] - times[0] >= TotalBackoff(j, k - 1)
      && times[k - 1] <= c.st.now
      && j.start <= times[0]
      && !c.pc.Opening? && !c.pc.Waiting?
      && (c.pc.Sleeping? ==> c.pc.until >= times[k - 1] + Backoff(j, k))
      && (c.pc.Top? || c.pc.Resolving? || c.pc.Listing? ==> c.st.now >= times[k - 1] + Backoff(j, k))
  }

  lemma SleepHeadUntil(j: Job, st: State, until: int)
    ensures var c := j.SleepHead(st, until);
            && (c.pc.Sleeping? ==> c.pc.until == until)
            && (c.pc.Top? ==> c.st.now >= until)
            && (c.pc.Sleeping? || c.pc.Top? || c.pc.Done?)
            && c.st.now == st.now && c.st.log == st.log
  {
  }

  lemma BackOffUntil(j: Job, st: State)
    ensures var c := j.Finish(Look(st, NO_OUTCOME, BackOff));
            && (c.pc.Sleeping? ==> c.pc.until == st.now + j.NextBackoff(st.backoff))
            && (c.pc.Top? ==> c.st.now >= st.now + j.NextBackoff(st.backoff))
            && (c.pc.Sleeping? || c.pc.Top? || c.pc.Done?)
            && c.st.now == st.now && c.st.log == st.log
  {
    ObservedKept(j, st, NO_OUTCOME);
    var st1 := j.Observed(st, NO_OUTCOME).0;
    var st2 := st1.(backoff := j.NextBackoff(st1.backoff));
    SleepHeadUntil(j, st2, st2.now + st2.backoff);
  }

  /** A retried error sleeps for the next delay, counted from its answer. */
  lemma RetryLands(j: Job, c: Cfg, m: Moment)
    requires PolicyOk(j, c) && !c.pc.Done? && j.s.pollInterval > 0
    requires Heard(j, c, m).Some? && Retried(Heard(j, c, m).value)
    ensures var d := j.Step(c, m);
            var at := Until(c, m);
            var next := at + Backoff(j, |RetryTimes(c.st.log)| + 1);
            && d.st.now == at && RetryTimes(d.st.log) == RetryTimes(c.st.log) + [at]
            && (d.pc.Sleeping? || d.pc.Top? || d.pc.Done?)
            && (d.pc.Sleeping? ==> d.pc.until == next)
            && (d.pc.Top? ==> at >= next)
  {
    BeginFrame(j, c, m);
    LookIs(j, c, m);
    LogSnoc(c.st.log, Entry(Until(c, m), Heard(j, c, m).value));
    BackOffUntil(j, j.Begin(c, m).st);
    BackoffNext(j, |RetryTimes(c.st.log)|);
  }

  lemma RetrySpaced(j: Job, c: Cfg, m: Moment)
    requires PolicyOk(j, c) && WellSpaced(j, c) && !c.pc.Done? && j.s.pollInterval > 0 && c.st.now >= j.start
    requires Heard(j, c, m).Some? && Retried(Heard(j, c, m).value)
    ensures WellSpaced(j, j.Step(c, m))
  {
    RetryLands(j, c, m);
    ErrorsComeFromCalls(j, c, m);
    SpacedAfterRetry(j, j.Step(c, m), RetryTimes(c.st.log), Until(c, m));
  }

  lemma SpacedAfterRetry(j: Job, d: Cfg, times: seq<int>, at: int)
    requires RetryTimes(d.st.log) == times + [at]
    requires var k := |times|; k > 0 ==>
               && times[k - 1] - times[0] >= TotalBackoff(j, k - 1)
               && at >= times[k - 1] + Backoff(j, k)
               && j.start <= times[0]
    requires d.st.now == at && j.start <= at
    requires d.pc.Sleeping? || d.pc.Top? || d.pc.Done?
    requires d.pc.Sleeping? ==> d.pc.until == at + Backoff(j, |times| + 1)
    requires d.pc.Top? ==> d.st.now >= at + Backoff(j, |times| + 1)
    ensures WellSpaced(j, d)
  {
  }

  lemma ErrorsComeFromCalls(j: Job, c: Cfg, m: Moment)
    requires Heard(j, c, m).Some? && Retried(Heard(j, c, m).value)
    ensures c.pc.Resolving? || c.pc.Listing? || c.pc.Opening? || c.pc.Waiting?
    ensures Until(c, m) >= c.st.now
  {
  }

  lemma OtherSpaced(j: Job, c: Cfg, m: Moment)
    requires WellSpaced(j, c) && BlocksAhead(j, c) && !c.pc.Done?
    requires Heard(j, c, m).None? || !Retried(Heard(j, c, m).value)
    ensures WellSpaced(j, j.Step(c, m))
  {
    var heard := Heard(j, c, m);
    BeginFrame(j, c, m);
    StepLog(j, c, m);
    if heard.Some? {
      LogSnoc(c.st.log, Entry(Until(c, m), heard.value));
    }
    if RetryTimes(j.Step(c, m).st.log) != [] {
      assert RetryTimes(j.Step(c, m).st.log) == RetryTimes(c.st.log);
      StreakGoesOn(j, c, m);
    }
  }

  /** Within a streak and without a new error, the loop sleeps, or is on its way
      to the next list. */
  lemma StreakGoesOn(j: Job, c: Cfg, m: Moment)
    requires BlocksAhead(j, c) && (c.pc.Top? || c.pc.Resolving? || c.pc.Listing? || c.pc.Sleeping?)
    requires !j.Begin(c, m).Look? && TurnFramed(j, c, m)
    ensures var d := j.Step(c, m);
            && d.st.now >= c.st.now && !d.pc.Opening? && !d.pc.Waiting?
            && (d.pc.Sleeping? ==> c.pc.Sleeping? && d.pc.until == c.pc.until)
            && (!d.pc.Sleeping? && !d.pc.Done? && c.pc.Sleeping? ==> d.st.now >= c.pc.until)
  {
    if c.pc.Sleeping? && !m.wake.CtxDone? {
      SleepHeadUntil(j, j.Begin(c, m).st, c.pc.until);
    }
  }

  lemma StepLog(j: Job, c: Cfg, m: Moment)
    ensures j.Step(c, m).st.log == j.Begin(c, m).st.log
  {
    var t := j.Begin(c, m);
    match t {
      case Look(st, out, next) => LookKept(j, st, out, next);
      case Proceed(st, next) => ContinueKept(j, st, next);
      case Quit(st, e) => QuitIs(j, st, e);
      case Move(_, _) =>
    }
  }

  lemma {:induction false} RunSpaced(j: Job, c: Cfg, moments: seq<Moment>)
    requires j.s.Runnable() && PolicyOk(j, c) && WellSpaced(j, c) && BlocksAhead(j, c) && c.st.now >= j.start
    ensures WellSpaced(j, j.RunFrom(c, moments))
    decreases |moments|
  {
    if c.pc.Done? {
      DoneStays(j, c, moments);
    } else if moments != [] {
      var m := moments[0];
      if Heard(j, c, m).Some? && Retried(Heard(j, c, m).value) {
        RetrySpaced(j, c, m);
      } else {
        OtherSpaced(j, c, m);
      }
      StepPolicy(j, c, m);
      StepBlocksAhead(j, c, m);
      StepFollows(j, c, m);
      RunSpaced(j, j.Step(c, m), moments[1..]);
    }
  }

  lemma BackoffCapped(j: Job, n: nat, doublings: nat)
    requires Pow2(doublings) * SECOND >= j.s.pollInterval && n > doublings
    ensures Backoff(j, n) == j.s.pollInterval
  {
    Pow2Grows(doublings, n - 1);
  }

  lemma OneMore(n: int, p: int)
    requires p > 0
    ensures n * p == (n - 1) * p + p
    ensures n <= 0 ==> n * p <= 0
  {
  }

  /** Once the doubling has reached the poll interval, every delay is that long. */
  lemma {:induction false} TotalBackoffGrows(j: Job, n: nat, doublings: nat)
    requires j.s.pollInterval > 0 && Pow2(doublings) * SECOND >= j.s.pollInterval
    ensures TotalBackoff(j, n) >= (n - doublings) * j.s.pollInterval
    ensures TotalBackoff(j, n) >= 0
  {
    OneMore(n - doublings, j.s.pollInterval);
    if n == 0 {
    } else {
      TotalBackoffGrows(j, n - 1, doublings);
      BackoffNext(j, n);
      if n > doublings {
        BackoffCapped(j, n, doublings);
      }
    }
  }

  lemma {:induction false} Pow2Grows(a: nat, b: nat)
    requires a <= b
    ensures Pow2(a) <= Pow2(b)
  {
    if a == b {
    } else {
      Pow2Grows(a, b - 1);
    }
  }

  /** The retry bound: a streak of k retried errors spans the sum of its delays,
      so beyond the first and the doublings up to the poll interval, there is at
      most one retry per poll interval of the time the streak has lasted. */
  lemma {:induction false} RetriesAreBounded(j: Job, moments: seq<Moment>, doublings: nat)
    requires j.s.Runnable() && Pow2(doublings) * SECOND >= j.s.pollInterval
    ensures var st := j.Run(moments).st;
            var times := RetryTimes(st.log);
            var k := |times|;
            k > 0 ==>
              && times[k - 1] - times[0] >= TotalBackoff(j, k - 1)
              && (k - 1 - doublings) * j.s.pollInterval <= times[k - 1] - times[0] <= st.now - j.start
  {
    RunSpaced(j, j.Init(), moments);
    var st := j.Run(moments).st;
    var times := RetryTimes(st.log);
    var k := |times|;
    if k > 0 {
      TotalBackoffGrows(j, k - 1, doublings);
    }
  }
}
