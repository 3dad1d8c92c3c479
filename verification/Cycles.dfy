/** Why the loop blocks, for how long, and why it lists again: in every step. */
module Cycles {
  import opened Common
  import opened Durations
  import opened Evaluator
  import opened Protocol
  import opened Turns
  import opened Blocking
  import opened Timing

  /** How going on may block, or return to the top. */
  predicate BlocksAs(j: Job, st: State, next: Next, c: Cfg) {
    match next
    case OpenWatch(_) => c.pc.Opening?
    case StartWait(watching, cs) =>
      && (c.pc.Waiting? ==> c.pc.watching == watching && c.pc.cycleStart == cs
                            && c.pc.resyncAt == st.now + j.s.pollInterval)
      && (c.pc.Top? ==> !watching && st.clock.Settled(st.now))
    case KeepWaiting(watching, cs, resyncAt) =>
      && (c.pc.Waiting? ==> c.pc.watching == watching && c.pc.cycleStart == cs && c.pc.resyncAt == resyncAt)
      && (c.pc.Top? ==> st.now >= resyncAt || (!watching && st.clock.Settled(st.now)))
    case Nap(until) => (c.pc.Sleeping? ==> c.pc.until == until) && (c.pc.Top? ==> st.now >= until)
    case BackOff =>
      && (c.pc.Sleeping? ==> c.pc.until == st.now + j.NextBackoff(st.backoff) == st.now + c.st.backoff)
      && !c.pc.Top?
  }

  lemma ContinueBlocks(j: Job, st: State, next: Next)
    requires j.s.Runnable() && st.backoff >= 0
    ensures BlocksAs(j, st, next, j.Continue(st, next))
  {
    match next {
      case OpenWatch(_) =>
      case StartWait(watching, cs) => WaitHeadBlocks(j, st, watching, cs, st.now + j.s.pollInterval);
      case KeepWaiting(watching, cs, resyncAt) => WaitHeadBlocks(j, st, watching, cs, resyncAt);
      case Nap(_) =>
      case BackOff =>
    }
  }

  lemma WaitHeadBlocks(j: Job, st: State, watching: bool, cs: int, resyncAt: int)
    requires j.s.Runnable()
    ensures BlocksAs(j, st, KeepWaiting(watching, cs, resyncAt), j.WaitHead(st, watching, cs, resyncAt))
  {
  }

  /** After an observation that has not ended the wait, nothing is settled. */
  lemma LookBlocks(j: Job, st: State, out: Outcome, next: Next)
    requires j.s.Runnable() && st.backoff >= 0
    ensures var st1, c := j.Observed(st, out).0, j.Finish(Look(st, out, next));
            c.pc.Done? || (BlocksAs(j, st1, next, c) && st1.now == st.now && !st1.clock.Settled(st1.now))
  {
    ObservedKept(j, st, out);
    ContinueBlocks(j, j.Observed(st, out).0, next);
  }

  // ---- Waiting ----

  /** What sends a waiting loop back to list again. */
  predicate ListAgain(c: Cfg, m: Moment, d: State, heard: Option<Answer>)
    requires c.pc.Waiting?
  {
    || d.now >= c.pc.resyncAt
    || (!c.pc.watching && d.clock.Settled(d.now))
    || (c.pc.watching && m.wake.Closed? && d.now - c.pc.cycleStart >= SECOND)
    || heard == Some(Relist) || heard == Some(Rejected(Unauthorized))
  }

  lemma WaitingTurn(j: Job, c: Cfg, m: Moment)
    requires c.pc.Waiting?
    ensures var t := j.Begin(c, m);
            && t.st.backoff == c.st.backoff
            && (t.Move? ==> t.pc.Done? || (t.pc == Top && ListAgain(c, m, t.st, Heard(j, c, m))))
            && (t.Proceed? || t.Look? ==>
                  || t.next == KeepWaiting(c.pc.watching, c.pc.cycleStart, c.pc.resyncAt)
                  || (t.Look? && t.next == BackOff && Retried(Heard(j, c, m).value))
                  || (t.Proceed? && m.wake.Closed? && c.pc.watching && t.next == Nap(c.pc.cycleStart + SECOND)
                      && t.st.now < c.pc.cycleStart + SECOND))
  {
  }

  /** The wait phase lasts until its resync, and the same phase until then. The loop
      leaves it for a list only at the resync, for a fresh look when a poll has
      settled, after a closed watch whose cycle has lasted a second, or when the
      watch expired or was refused as unauthorized. */
  lemma WhyListAgain(j: Job, c: Cfg, m: Moment)
    requires j.s.Runnable() && c.st.backoff >= 0 && c.pc.Waiting?
    ensures var d := j.Step(c, m);
            && (d.pc.Top? ==> ListAgain(c, m, d.st, Heard(j, c, m)))
            && (d.pc.Waiting? ==> && d.pc.watching == c.pc.watching && d.pc.cycleStart == c.pc.cycleStart
                                  && d.pc.resyncAt == c.pc.resyncAt && d.st.now < c.pc.resyncAt)
            && (d.pc.Sleeping? ==>
                  || (Heard(j, c, m).Some? && Retried(Heard(j, c, m).value) && d.pc.until == d.st.now + d.st.backoff)
                  || (m.wake.Closed? && d.st.now < d.pc.until == c.pc.cycleStart + SECOND))
  {
    var t := j.Begin(c, m);
    WaitingTurn(j, c, m);
    StepFollows(j, c, m);
    BeginFrame(j, c, m);
    StepBlocksAhead(j, c, m);
    match t {
      case Proceed(st, next) => ContinueBlocks(j, st, next);
      case Look(st, out, next) => LookBlocks(j, st, out, next);
      case _ =>
    }
  }

  // ---- Beginning ----

  lemma CallTurn(j: Job, c: Cfg, m: Moment)
    requires c.pc.Resolving? || c.pc.Listing? || c.pc.Opening?
    ensures var t := j.Begin(c, m);
            && (c.st.backoff >= 0 ==> t.st.backoff >= 0)
            && (t.Move? ==> !t.pc.Waiting? && !t.pc.Sleeping?)
            && (t.Proceed? || t.Look? ==>
                  || (t.next == StartWait(c.pc.Opening?, c.pc.cycleStart) && (t.Look? <==> !c.pc.Opening?))
                  || (t.Look? && t.next == OpenWatch(c.pc.cycleStart) && !c.pc.Opening?)
                  || (t.Look? && t.next == BackOff && Heard(j, c, m).Some? && Retried(Heard(j, c, m).value)))
  {
    match c.pc {
      case Resolving(_) =>
      case Listing(_) =>
      case Opening(_) =>
    }
  }

  /** How a block that begins here looks: d is where going on from st has led. */
  predicate BeginsAs(j: Job, watching: bool, cs: int, d: Cfg, retried: bool) {
    && (d.pc.Waiting? ==> && d.pc.watching == watching && d.pc.cycleStart == cs
                          && d.pc.resyncAt == d.st.now + j.s.pollInterval)
    && (d.pc.Sleeping? ==> retried && d.pc.until == d.st.now + d.st.backoff)
  }

  lemma LookBegins(j: Job, st: State, out: Outcome, next: Next, cs: int)
    requires j.s.Runnable() && st.backoff >= 0
    requires next == StartWait(false, cs) || next == OpenWatch(cs) || next == BackOff
    ensures BeginsAs(j, false, cs, j.Finish(Look(st, out, next)), next == BackOff)
  {
    LookBlocks(j, st, out, next);
    FinishPc(j, Look(st, out, next));
  }

  lemma ProceedBegins(j: Job, st: State, cs: int)
    requires j.s.Runnable() && st.backoff >= 0
    ensures BeginsAs(j, true, cs, j.Finish(Proceed(st, StartWait(true, cs))), false)
  {
    ContinueBlocks(j, st, StartWait(true, cs));
    FinishPc(j, Proceed(st, StartWait(true, cs)));
  }

  /** A wait phase begins with the answer to a call, watching exactly when a watch
      was opened, and lasts one poll interval from there; a sleep, with a retried
      error, for the delay in force. */
  lemma BlocksBegin(j: Job, c: Cfg, m: Moment)
    requires j.s.Runnable() && c.st.backoff >= 0
    requires c.pc.Resolving? || c.pc.Listing? || c.pc.Opening?
    ensures var heard := Heard(j, c, m);
            BeginsAs(j, c.pc.Opening?, c.pc.cycleStart, j.Step(c, m), heard.Some? && Retried(heard.value))
  {
    CallTurn(j, c, m);
    match j.Begin(c, m) {
      case Proceed(st, _) => ProceedBegins(j, st, c.pc.cycleStart);
      case Look(st, out, next) => LookBegins(j, st, out, next, c.pc.cycleStart);
      case _ =>
    }
  }

  /** A sleep lasts until its end, and then the loop lists again. */
  lemma SleepsOut(j: Job, c: Cfg, m: Moment)
    requires j.s.Runnable() && c.pc.Sleeping?
    ensures var d := j.Step(c, m);
            && (d.pc.Top? ==> d.st.now >= c.pc.until)
            && (d.pc.Sleeping? ==> d.pc.until == c.pc.until && d.st.now < c.pc.until)
            && (d.pc.Top? || d.pc.Sleeping? || d.pc.Done?)
  {
    StepBlocksAhead(j, c, m);
  }
}
