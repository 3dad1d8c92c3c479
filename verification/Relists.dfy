/** How far apart successful lists are, in a world without delays or errors. */
module Relists {
  import opened Common
  import opened Protocol
  import opened Turns
  import opened Blocking
  import opened Timing
  import opened Endings
  import opened Liveness

  /** When lists were answered, or the kind was found not served. */
  function ListTimes(log: seq<Entry>): seq<int> {
    if log == [] then []
    else
      var n := |log| - 1;
      ListTimes(log[..n]) + if log[n].answer.Refreshed? then [log[n].at] else []
  }

  /** The longest a cycle lasts: the poll interval, or the least spacing of cycles
      if a watch may close. */
  function Gap(j: Job, closes: bool): int {
    Max(j.s.pollInterval, Slack(closes))
  }

  ghost predicate NoGap(times: seq<int>, gap: int) {
    forall k :: 0 < k < |times| ==> times[k] - times[k - 1] <= gap
  }

  /** Where the cycle stands, given when its list was answered. */
  predicate CycleOn(j: Job, pc: Pc, now: int, last: int, gap: int) {
    && last <= now <= last + gap
    && match pc
       case Opening(cs) => cs <= now == last
       case Waiting(_, cs, resyncAt, _) => cs <= last && resyncAt == last + j.s.pollInterval
       case Sleeping(until, _) => until <= last + gap
       case _ => true
  }

  ghost predicate Relisting(j: Job, c: Cfg, gap: int) {
    var times := ListTimes(c.st.log);
    && NoGap(times, gap)
    && (times == [] ==> BeforeFirstList(c.pc) || c.pc.Done?)
    && (times != [] ==> CycleOn(j, c.pc, c.st.now, times[|times| - 1], gap))
    && (c.pc.Resolving? || c.pc.Listing? ==> c.pc.cycleStart <= c.st.now)
  }

  lemma ListTimesSnoc(log: seq<Entry>, e: Entry)
    ensures ListTimes(log + [e]) == ListTimes(log) + if e.answer.Refreshed? then [e.at] else []
  {
    assert (log + [e])[..|log|] == log;
  }

  /** Going on from a list, or within its cycle. */
  lemma ContinueCycle(j: Job, st: State, next: Next, last: int, gap: int)
    requires j.s.Runnable() && last <= st.now <= last + gap && gap >= j.s.pollInterval
    requires match next
             case OpenWatch(cs) => cs <= st.now == last
             case StartWait(_, cs) => cs <= st.now == last
             case KeepWaiting(_, cs, resyncAt) => cs <= last && resyncAt == last + j.s.pollInterval
             case Nap(until) => until <= last + gap
             case BackOff => false
    ensures CycleOn(j, j.Continue(st, next).pc, st.now, last, gap)
  {
  }

  lemma TurnCycle(j: Job, c: Cfg, m: Moment, last: int, closes: bool)
    requires j.s.Runnable() && BlocksAhead(j, c) && Steady(j, c, m, closes) && !c.pc.Done?
    requires c.pc.Resolving? || c.pc.Listing? ==> c.pc.cycleStart <= c.st.now
    requires j.Begin(c, m).Look? || j.Begin(c, m).Proceed?
    requires if Heard(j, c, m).Some? && Heard(j, c, m).value.Refreshed? then last == Until(c, m)
             else CycleOn(j, c.pc, c.st.now, last, Gap(j, closes))
    ensures CycleOn(j, j.Step(c, m).pc, Until(c, m), last, Gap(j, closes))
  {
    var t := j.Begin(c, m);
    BeginFrame(j, c, m);
    SteadyTurn(j, c, m, closes);
    match t {
      case Proceed(st, next) => ContinueCycle(j, st, next, last, Gap(j, closes));
      case Look(st, out, next) =>
        ObservedKept(j, st, out);
        ContinueCycle(j, j.Observed(st, out).0, next, last, Gap(j, closes));
      case _ =>
    }
  }

  predicate Refreshes(a: Option<Answer>) {
    a.Some? && a.value.Refreshed?
  }

  /** A list is answered in the instant its cycle began. */
  lemma TimesAfter(j: Job, c: Cfg, m: Moment, closes: bool)
    requires Steady(j, c, m, closes)
    ensures ListTimes(j.Step(c, m).st.log) ==
            if Refreshes(Heard(j, c, m)) then ListTimes(c.st.log) + [c.st.now] else ListTimes(c.st.log)
    ensures Refreshes(Heard(j, c, m)) ==> Until(c, m) == c.st.now
  {
    StepLog(j, c, m);
    if Heard(j, c, m).Some? {
      ListTimesSnoc(c.st.log, Entry(Until(c, m), Heard(j, c, m).value));
    }
  }

  lemma MoveCycle(j: Job, c: Cfg, m: Moment, closes: bool)
    requires Steady(j, c, m, closes) && !c.pc.Done? && BlocksAhead(j, c)
    requires j.Begin(c, m).Move? || j.Begin(c, m).Quit?
    ensures var d := j.Step(c, m);
            && (d.pc.Done? || BeforeFirstList(d.pc))
            && (BeforeFirstList(c.pc) ==> Until(c, m) == c.st.now)
            && (!BeforeFirstList(c.pc) ==> c.pc.Waiting? && m.wake.Closed? && Until(c, m) <= c.pc.wake)
            && !Refreshes(Heard(j, c, m))
  {
    SteadyTurn(j, c, m, closes);
    BeginFrame(j, c, m);
  }

  /** A cycle is only in flight from its own start on. */
  lemma CallsAreLate(j: Job, c: Cfg, m: Moment, closes: bool)
    requires c.pc.Resolving? || c.pc.Listing? ==> c.pc.cycleStart <= c.st.now
    requires Steady(j, c, m, closes)
    ensures var d := j.Step(c, m); d.pc.Resolving? || d.pc.Listing? ==> d.pc.cycleStart <= d.st.now
  {
    StepFollows(j, c, m);
    FinishPc(j, j.Begin(c, m));
    if !c.pc.Done? {
      SteadyTurn(j, c, m, closes);
    }
  }

  lemma StepRelists(j: Job, c: Cfg, m: Moment, closes: bool)
    requires j.s.Runnable() && Relisting(j, c, Gap(j, closes)) && BlocksAhead(j, c) && Steady(j, c, m, closes)
    ensures Relisting(j, j.Step(c, m), Gap(j, closes))
  {
    if !c.pc.Done? {
      CallsAreLate(j, c, m, closes);
      if j.Begin(c, m).Look? || j.Begin(c, m).Proceed? {
        GoesOnRelisting(j, c, m, closes);
      } else {
        MovesOnRelisting(j, c, m, closes);
      }
    }
  }

  /** When the list of the cycle in hand was answered, once a step has gone on. */
  lemma LastList(j: Job, c: Cfg, m: Moment, closes: bool) returns (last: int)
    requires Relisting(j, c, Gap(j, closes)) && BlocksAhead(j, c) && Steady(j, c, m, closes)
    requires !c.pc.Done? && (j.Begin(c, m).Look? || j.Begin(c, m).Proceed?)
    ensures var times := ListTimes(j.Step(c, m).st.log);
            times != [] && NoGap(times, Gap(j, closes)) && last == times[|times| - 1]
    ensures if Refreshes(Heard(j, c, m)) then last == Until(c, m)
            else CycleOn(j, c.pc, c.st.now, last, Gap(j, closes))
  {
    var times := ListTimes(c.st.log);
    TimesAfter(j, c, m, closes);
    if BeforeFirstList(c.pc) {
      FirstLook(j, c, m, closes);
    }
    last := if Refreshes(Heard(j, c, m)) then c.st.now else times[|times| - 1];
  }

  lemma GoesOnRelisting(j: Job, c: Cfg, m: Moment, closes: bool)
    requires j.s.Runnable() && Relisting(j, c, Gap(j, closes)) && BlocksAhead(j, c) && Steady(j, c, m, closes)
    requires !c.pc.Done? && (j.Begin(c, m).Look? || j.Begin(c, m).Proceed?)
    ensures var times := ListTimes(j.Step(c, m).st.log);
            && times != [] && NoGap(times, Gap(j, closes))
            && CycleOn(j, j.Step(c, m).pc, j.Step(c, m).st.now, times[|times| - 1], Gap(j, closes))
  {
    StepNow(j, c, m);
    var last := LastList(j, c, m, closes);
    TurnCycle(j, c, m, last, closes);
  }

  lemma StepNow(j: Job, c: Cfg, m: Moment)
    ensures j.Step(c, m).st.now == Until(c, m)
  {
    StepFollows(j, c, m);
  }

  lemma MovesOnRelisting(j: Job, c: Cfg, m: Moment, closes: bool)
    requires Relisting(j, c, Gap(j, closes)) && BlocksAhead(j, c) && Steady(j, c, m, closes)
    requires !c.pc.Done? && (j.Begin(c, m).Move? || j.Begin(c, m).Quit?)
    ensures var d := j.Step(c, m);
            var times := ListTimes(d.st.log);
            && times == ListTimes(c.st.log) && (d.pc.Done? || BeforeFirstList(d.pc))
            && (times != [] ==> CycleOn(j, d.pc, d.st.now, times[|times| - 1], Gap(j, closes)))
  {
    StepNow(j, c, m);
    TimesAfter(j, c, m, closes);
    MoveCycle(j, c, m, closes);
    assert Until(c, m) >= c.st.now;
  }

  /** The first thing the loop looks at, or goes on from, is a list. */
  lemma FirstLook(j: Job, c: Cfg, m: Moment, closes: bool)
    requires Steady(j, c, m, closes) && !c.pc.Done? && BeforeFirstList(c.pc)
    requires j.Begin(c, m).Look? || j.Begin(c, m).Proceed?
    ensures Refreshes(Heard(j, c, m))
  {
  }

  lemma {:induction false} RunRelists(j: Job, c: Cfg, moments: seq<Moment>, closes: bool)
    requires j.s.Runnable() && Relisting(j, c, Gap(j, closes)) && BlocksAhead(j, c)
    requires AllSteady(j, c, moments, closes)
    ensures Relisting(j, j.RunFrom(c, moments), Gap(j, closes))
    decreases |moments|
  {
    if moments == [] {
    } else {
      StepRelists(j, c, moments[0], closes);
      StepBlocksAhead(j, c, moments[0]);
      RunRelists(j, j.Step(c, moments[0]), moments[1..], closes);
    }
  }

  /** In a steady world no two successive lists are further apart than the poll
      interval, nor is the last one longer ago than that at any point of the run;
      where watches may close, than the poll interval or one second. */
  lemma {:induction false} ListsKeepComing(j: Job, moments: seq<Moment>, closes: bool)
    requires j.s.Runnable() && AllSteady(j, j.Init(), moments, closes)
    ensures var st := j.Run(moments).st;
            var times := ListTimes(st.log);
            && NoGap(times, Gap(j, closes))
            && (times != [] ==> st.now - times[|times| - 1] <= Gap(j, closes))
  {
    RunRelists(j, j.Init(), moments, closes);
  }
}
