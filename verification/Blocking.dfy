/** Strict progress: every timer the loop sets lies ahead of now and no later
    than the deadline, whatever state the loop is in. */
module Blocking {
  import opened Common
  import opened Evaluator
  import opened Protocol

  /** The deadline or the heartbeat falls due at t. */
  predicate CallsFor(j: Job, st: State, t: int) {
    t == j.Deadline() || (st.emitted && t == st.lastEmit + j.s.progressInterval)
  }

  /** What holds wherever the loop blocks: the timer is set for the first thing
      that falls due, and for nothing else. */
  predicate BlocksAhead(j: Job, c: Cfg) {
    match c.pc
    case Waiting(_, _, resyncAt, wake) =>
      && c.st.now < wake <= Min(resyncAt, j.Deadline())
      && !c.st.clock.Settled(c.st.now)
      && (c.st.clock.Deadline().Some? ==> wake <= c.st.clock.Deadline().value)
      && (c.st.emitted ==> wake <= c.st.lastEmit + j.s.progressInterval)
      && (wake == resyncAt || c.st.clock.Deadline() == Some(wake) || CallsFor(j, c.st, wake))
    case Sleeping(until, wake) =>
      && c.st.now < wake <= Min(until, j.Deadline())
      && (c.st.emitted ==> wake <= c.st.lastEmit + j.s.progressInterval)
      && (wake == until || CallsFor(j, c.st, wake))
    case _ => true
  }

  /** A verdict that has been observed and has not settled is pending, or settles
      at a time still ahead. */
  lemma UnsettledLooksAhead(j: Job, st: State, out: Outcome)
    requires j.Observed(st, out).1.None?
    ensures var clock := j.Observed(st, out).0.clock;
            clock.state == out.verdict && (clock.state == Pending || clock.Deadline().value > st.now)
  {
  }

  lemma WaitHeadAhead(j: Job, st: State, watching: bool, cycleStart: int, resyncAt: int)
    requires j.s.Runnable()
    ensures BlocksAhead(j, j.WaitHead(st, watching, cycleStart, resyncAt))
  {
  }

  lemma SleepHeadAhead(j: Job, st: State, until: int)
    requires j.s.Runnable()
    ensures BlocksAhead(j, j.SleepHead(st, until))
  {
  }

  lemma FinishAhead(j: Job, t: Turn)
    requires j.s.Runnable()
    requires t.Move? ==> !t.pc.Waiting? && !t.pc.Sleeping?
    ensures BlocksAhead(j, j.Finish(t))
  {
    match t {
      case Move(_, _) =>
      case Quit(_, _) =>
      case Proceed(st, next) => ContinueAhead(j, st, next);
      case Look(st, out, next) => ContinueAhead(j, j.Observed(st, out).0, next);
    }
  }

  lemma ContinueAhead(j: Job, st: State, next: Next)
    requires j.s.Runnable()
    ensures BlocksAhead(j, j.Continue(st, next))
  {
    match next {
      case OpenWatch(_) =>
      case StartWait(watching, cs) => WaitHeadAhead(j, st, watching, cs, st.now + j.s.pollInterval);
      case KeepWaiting(watching, cs, resyncAt) => WaitHeadAhead(j, st, watching, cs, resyncAt);
      case Nap(until) => SleepHeadAhead(j, st, until);
      case BackOff =>
        var st1 := st.(backoff := j.NextBackoff(st.backoff));
        SleepHeadAhead(j, st1, st1.now + st1.backoff);
    }
  }

  /** A move never lands on a block. */
  lemma MovesDoNotBlock(j: Job, c: Cfg, m: Moment)
    requires j.Begin(c, m).Move?
    ensures var pc := j.Begin(c, m).pc; pc == Top || pc.Resolving? || pc.Listing? || pc == Done(Cancelled) || pc == c.pc
    ensures c.pc.Done? || !(j.Begin(c, m).pc.Waiting? || j.Begin(c, m).pc.Sleeping?)
  {
  }

  /** Every block of every run of a valid spec is strictly ahead and within the deadline. */
  lemma StepBlocksAhead(j: Job, c: Cfg, m: Moment)
    requires j.s.Runnable()
    ensures BlocksAhead(j, j.Step(c, m))
  {
    if j.Begin(c, m).Move? {
      MovesDoNotBlock(j, c, m);
    }
    FinishAhead(j, j.Begin(c, m));
  }

  lemma {:induction false} EveryBlockAhead(j: Job, c: Cfg, moments: seq<Moment>)
    requires j.s.Runnable() && BlocksAhead(j, c)
    ensures BlocksAhead(j, j.RunFrom(c, moments))
    decreases |moments|
  {
    if moments == [] {
    } else {
      StepBlocksAhead(j, c, moments[0]);
      EveryBlockAhead(j, j.Step(c, moments[0]), moments[1..]);
    }
  }
}
