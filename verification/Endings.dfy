/** What decides a wait: the last thing before a settled ending, in every run. */
module Endings {
  import opened Common
  import opened Settle
  import opened Protocol
  import opened Turns
  import opened Blocking
  import opened Timing
  import opened Soundness

  predicate SettledAt(c: Cfg) {
    c.pc.Done? && Settled(c.pc.ending)
  }

  /** A list, or a change a watch reports: what a verdict can rest on. */
  predicate Evidence(a: Answer) {
    a.Refreshed? || a.Changed?
  }

  /** The wait phase settles by itself only while watching, and before the deadline. */
  lemma WaitHeadSettles(j: Job, st: State, watching: bool, cs: int, resyncAt: int)
    requires SettledAt(j.WaitHead(st, watching, cs, resyncAt))
    ensures watching && st.now < j.Deadline() && st.clock.Settled(st.now)
  {
  }

  lemma ContinueSettles(j: Job, st: State, next: Next)
    requires SettledAt(j.Continue(st, next))
    ensures (next.StartWait? || next.KeepWaiting?) && next.watching
    ensures st.now < j.Deadline() && st.clock.Settled(st.now)
  {
    match next {
      case OpenWatch(_) =>
      case StartWait(watching, cs) => WaitHeadSettles(j, st, watching, cs, st.now + j.s.pollInterval);
      case KeepWaiting(watching, cs, resyncAt) => WaitHeadSettles(j, st, watching, cs, resyncAt);
      case Nap(_) =>
      case BackOff =>
    }
  }

  /** The loop is at a watch, or at opening one. */
  predicate Watches(pc: Pc) {
    pc.Opening? || (pc.Waiting? && pc.watching)
  }

  /** A step that settles either has just been told something a verdict can rest
      on, or watches and has heard nothing before the deadline. */
  lemma SettlingStep(j: Job, c: Cfg, m: Moment)
    requires !c.pc.Done? && SettledAt(j.Step(c, m))
    ensures var heard := Heard(j, c, m);
            || (heard.Some? && Evidence(heard.value))
            || (heard.None? && Watches(c.pc) && Until(c, m) < j.Deadline())
  {
    var t := j.Begin(c, m);
    BeginFrame(j, c, m);
    match t {
      case Look(st, out, next) =>
        LookIs(j, c, m);
        if Retried(Heard(j, c, m).value) {
          PendingDoesNotSettle(j, st, out);
          ContinueSettles(j, j.Observed(st, out).0, BackOff);
        }
      case Proceed(st, next) =>
        ContinueSettles(j, st, next);
        ProceedsQuietly(j, c, m);
      case Move(_, _) => EndingIs(j, c, m);
      case Quit(_, _) => EndingIs(j, c, m);
    }
  }

  lemma ProceedsQuietly(j: Job, c: Cfg, m: Moment)
    requires j.Begin(c, m).Proceed?
    ensures Heard(j, c, m).None?
    ensures var next := j.Begin(c, m).next;
            (next.StartWait? || next.KeepWaiting?) && next.watching ==> Watches(c.pc)
  {
    match c.pc {
      case Opening(_) =>
      case Waiting(_, _, _, _) =>
      case _ =>
    }
  }

  /** A step settles at the deadline or later exactly when it is told something a
      verdict can rest on at the deadline or later. */
  lemma SettlesLateIff(j: Job, c: Cfg, m: Moment)
    requires !c.pc.Done? && SettledAt(j.Step(c, m))
    ensures var heard := Heard(j, c, m);
            j.Step(c, m).st.now >= j.Deadline() <==>
            heard.Some? && Evidence(heard.value) && Until(c, m) >= j.Deadline()
  {
    SettlingStep(j, c, m);
    StepFollows(j, c, m);
  }

  // ---- Over a run ----

  /** The newest entry of the log is no later than now. */
  ghost predicate LogBehind(log: seq<Entry>, now: int) {
    log != [] ==> log[|log| - 1].at <= now
  }

  /** The last thing answered is evidence, and was answered at t. */
  ghost predicate ToldAt(log: seq<Entry>, t: int) {
    log != [] && log[|log| - 1].at == t && Evidence(log[|log| - 1].answer)
  }

  ghost predicate Decided(j: Job, c: Cfg) {
    && LogBehind(c.st.log, c.st.now)
    && (!j.s.watch ==> !Watches(c.pc))
    && (SettledAt(c) ==> ToldAt(c.st.log, c.st.now) || (j.s.watch && c.st.now < j.Deadline()))
    && (SettledAt(c) && !j.s.watch ==> c.st.log[|c.st.log| - 1].answer.Refreshed?)
  }

  lemma StepLog(j: Job, c: Cfg, m: Moment)
    ensures j.Step(c, m).st.log ==
            if Heard(j, c, m).Some? then c.st.log + [Entry(Until(c, m), Heard(j, c, m).value)] else c.st.log
  {
    var t := j.Begin(c, m);
    BeginFrame(j, c, m);
    match t {
      case Look(st, out, next) => LookKept(j, st, out, next);
      case Proceed(st, next) => ContinueKept(j, st, next);
      case _ =>
    }
  }

  lemma StepDecided(j: Job, c: Cfg, m: Moment)
    requires Decided(j, c) && BlocksAhead(j, c)
    ensures Decided(j, j.Step(c, m))
  {
    if !c.pc.Done? {
      StepLog(j, c, m);
      StepFollows(j, c, m);
      assert Until(c, m) >= c.st.now;
      PollingDoesNotWatch(j, c, m);
      if SettledAt(j.Step(c, m)) {
        SettlingStep(j, c, m);
      }
    }
  }

  lemma PollingDoesNotWatch(j: Job, c: Cfg, m: Moment)
    requires !j.s.watch ==> !Watches(c.pc)
    ensures !j.s.watch ==> !Watches(j.Step(c, m).pc)
  {
    if !j.s.watch && !c.pc.Done? {
      var t := j.Begin(c, m);
      PollingNext(j, c, m);
      match t {
        case Look(st, out, next) => ContinueDoesNotWatch(j, j.Observed(st, out).0, next);
        case Proceed(st, next) => ContinueDoesNotWatch(j, st, next);
        case _ =>
      }
    }
  }

  predicate NextWatches(next: Next) {
    next.OpenWatch? || ((next.StartWait? || next.KeepWaiting?) && next.watching)
  }

  lemma PollingNext(j: Job, c: Cfg, m: Moment)
    requires !j.s.watch && !Watches(c.pc) && !c.pc.Done?
    ensures var t := j.Begin(c, m);
            && (t.Move? ==> !Watches(t.pc))
            && (t.Proceed? || t.Look? ==> !NextWatches(t.next))
  {
    match c.pc {
      case Resolving(_) =>
      case Listing(_) =>
      case Waiting(_, _, _, _) =>
      case _ =>
    }
  }

  lemma ContinueDoesNotWatch(j: Job, st: State, next: Next)
    requires !NextWatches(next)
    ensures !Watches(j.Continue(st, next).pc)
  {
  }

  lemma {:induction false} RunDecided(j: Job, c: Cfg, moments: seq<Moment>)
    requires j.s.Runnable() && Decided(j, c) && BlocksAhead(j, c)
    ensures Decided(j, j.RunFrom(c, moments))
    decreases |moments|
  {
    if moments == [] {
    } else {
      StepDecided(j, c, moments[0]);
      StepBlocksAhead(j, c, moments[0]);
      RunDecided(j, j.Step(c, moments[0]), moments[1..]);
    }
  }

  /** The exact exception to the time-out: a run settles at the deadline or later
      exactly when the last thing it was told came at the deadline or later. */
  lemma {:induction false} LateSettlement(j: Job, moments: seq<Moment>)
    requires j.s.Runnable() && SettledAt(j.Run(moments))
    ensures var st := j.Run(moments).st;
            st.now >= j.Deadline() <==> st.log != [] && st.log[|st.log| - 1].at >= j.Deadline()
  {
    RunDecided(j, j.Init(), moments);
  }

  /** A poll settles only on a list answered at that very instant. */
  lemma {:induction false} PollingSettlesOnAList(j: Job, moments: seq<Moment>)
    requires j.s.Runnable() && !j.s.watch && SettledAt(j.Run(moments))
    ensures var st := j.Run(moments).st;
            && st.log != [] && st.log[|st.log| - 1].at == st.now
            && st.log[|st.log| - 1].answer.Refreshed?
  {
    RunDecided(j, j.Init(), moments);
  }

  // ---- Cancelled ----

  /** The world cancels the wait: before a cycle, or while the loop is blocked. */
  predicate CancelledBy(c: Cfg, m: Moment) {
    || (c.pc.Top? && m.cancelled)
    || ((c.pc.Waiting? || c.pc.Sleeping?) && m.wake.CtxDone?)
  }

  lemma GoingOnIsNotCancelled(j: Job, t: Turn)
    requires !t.Move? && (t.Quit? ==> t.ending != Cancelled)
    ensures j.Finish(t).pc != Done(Cancelled)
  {
    match t {
      case Look(st, out, next) => LookKept(j, st, out, next);
      case Proceed(st, next) => ContinueKept(j, st, next);
      case Quit(_, _) =>
    }
  }

  lemma CancellingMoves(j: Job, c: Cfg, m: Moment)
    requires !c.pc.Done?
    ensures var t := j.Begin(c, m);
            CancelledBy(c, m) <==> t.Move? && t.pc == Done(Cancelled)
  {
    match c.pc {
      case Resolving(_) =>
      case Listing(_) =>
      case Opening(_) =>
      case Waiting(_, _, _, _) =>
      case _ =>
    }
  }

  /** A step ends the wait as cancelled exactly when the world cancels it, at that
      instant, and then neither observes nor reports anything more. */
  lemma StepCancelled(j: Job, c: Cfg, m: Moment)
    requires !c.pc.Done?
    ensures var d := j.Step(c, m);
            && (d.pc == Done(Cancelled) <==> CancelledBy(c, m))
            && (CancelledBy(c, m) ==>
                  && d.st.now == Until(c, m)
                  && d.st.obs == c.st.obs && d.st.emits == c.st.emits && d.st.log == c.st.log)
  {
    CancellingMoves(j, c, m);
    BeginFrame(j, c, m);
    if !j.Begin(c, m).Move? {
      EndingIs(j, c, m);
      GoingOnIsNotCancelled(j, j.Begin(c, m));
    }
  }

  /** The same at every point of every run. */
  lemma {:induction false} CancelledIff(j: Job, moments: seq<Moment>, m: Moment)
    requires !j.Run(moments).pc.Done?
    ensures var c, d := j.Run(moments), j.Run(moments + [m]);
            && (d.pc == Done(Cancelled) <==> CancelledBy(c, m))
            && (CancelledBy(c, m) ==> d.st.now == Until(c, m) && d.st.emits == c.st.emits)
  {
    StepCancelled(j, j.Run(moments), m);
    RunSnoc(j, j.Init(), moments, m);
  }

  /** At moment k the run is still going, and is cancelled. */
  ghost predicate CancelledAt(j: Job, c: Cfg, moments: seq<Moment>, k: nat) {
    && k < |moments|
    && !j.RunFrom(c, moments[..k]).pc.Done? && CancelledBy(j.RunFrom(c, moments[..k]), moments[k])
  }

  lemma {:induction false} CancelledLater(j: Job, c: Cfg, moments: seq<Moment>, k: nat)
    requires moments != [] && k < |moments| - 1
    ensures CancelledAt(j, c, moments, k + 1) <==> CancelledAt(j, j.Step(c, moments[0]), moments[1..], k)
  {
    assert moments[..k + 1][1..] == moments[1..][..k];
    assert moments[..k + 1][0] == moments[0];
  }

  /** A run ends as cancelled exactly when the world cancels it at one of its moments. */
  lemma {:induction false} RunCancelled(j: Job, c: Cfg, moments: seq<Moment>)
    requires !c.pc.Done?
    ensures j.RunFrom(c, moments).pc == Done(Cancelled) <==> exists k: nat :: CancelledAt(j, c, moments, k)
    decreases |moments|
  {
    if moments == [] {
    } else {
      var d := j.Step(c, moments[0]);
      StepCancelled(j, c, moments[0]);
      assert moments[..0] == [];
      assert CancelledAt(j, c, moments, 0) <==> CancelledBy(c, moments[0]);
      if d.pc.Done? {
        DoneStays(j, d, moments[1..]);
        forall k: nat | 0 < k < |moments| ensures !CancelledAt(j, c, moments, k) {
          CancelledLater(j, c, moments, k - 1);
          DoneStays(j, d, moments[1..][..k - 1]);
        }
      } else {
        RunCancelled(j, d, moments[1..]);
        forall k: nat | 0 < k < |moments|
          ensures CancelledAt(j, c, moments, k) <==> CancelledAt(j, d, moments[1..], k - 1)
        {
          CancelledLater(j, c, moments, k - 1);
        }
        if exists k: nat :: CancelledAt(j, d, moments[1..], k) {
          var k: nat :| CancelledAt(j, d, moments[1..], k);
          assert CancelledAt(j, c, moments, k + 1);
        }
      }
    }
  }

  // ---- The wrong scope ----

  /** A step ends the wait over its scope exactly when the kind is served, and is
      namespaced where one object is wanted without a namespace, or is not where a
      namespace is given. */
  lemma InvalidScopeIff(j: Job, c: Cfg, m: Moment)
    requires !c.pc.Done?
    ensures j.Step(c, m).pc == Done(InvalidScope) <==>
            && c.pc.Resolving? && m.took <= 60_000_000_000
            && m.resolve.Ok? && m.resolve.value.served
            && if m.resolve.value.namespaced then j.s.name != "" && j.s.namespace == "" else j.s.namespace != ""
  {
    var t := j.Begin(c, m);
    EndingIs(j, c, m);
    match t {
      case Look(st, out, next) => LookKept(j, st, out, next);
      case Proceed(st, next) => ContinueKept(j, st, next);
      case _ =>
    }
    ScopeQuits(j, c, m);
  }

  lemma ScopeQuits(j: Job, c: Cfg, m: Moment)
    requires !c.pc.Done?
    ensures var t := j.Begin(c, m);
            t.Quit? && t.ending == InvalidScope <==>
            && c.pc.Resolving? && m.took <= 60_000_000_000
            && m.resolve.Ok? && m.resolve.value.served
            && if m.resolve.value.namespaced then j.s.name != "" && j.s.namespace == "" else j.s.namespace != ""
  {
    match c.pc {
      case Resolving(_) =>
      case Listing(_) =>
      case Opening(_) =>
      case Waiting(_, _, _, _) =>
      case _ =>
    }
  }

  // ---- The request time-out ----

  /** A resolve or a list that would take more than a minute is an error that is
      retried, after exactly a minute; any other takes its time and says what the
      world answered. */
  lemma RequestTimesOut(j: Job, c: Cfg, m: Moment)
    requires c.pc.Resolving? || c.pc.Listing?
    ensures var d := j.Step(c, m).st;
            if m.took > 60_000_000_000 then
              && d.now == c.st.now + 60_000_000_000
              && d.log == c.st.log + [Entry(d.now, Rejected(OtherError))]
              && d.obs == c.st.obs + [Sample(d.now, Pending)]
            else
              && d.now == c.st.now + m.took
              && (c.pc.Listing? ==>
                    d.log == c.st.log +
                             [Entry(d.now, if m.list.Ok? then Refreshed(true, m.list.value) else Rejected(m.list.error))])
              && (c.pc.Resolving? && m.resolve.Err? ==> d.log == c.st.log + [Entry(d.now, Rejected(m.resolve.error))])
              && (c.pc.Resolving? && m.resolve.Ok? && !m.resolve.value.served ==>
                    d.log == c.st.log + [Entry(d.now, Refreshed(false, []))])
              && (c.pc.Resolving? && m.resolve.Ok? && m.resolve.value.served ==> d.log == c.st.log)
  {
    StepLog(j, c, m);
    StepFollows(j, c, m);
    if m.took > 60_000_000_000 {
      ErrorsOnTheClock(j, c, m);
    }
  }
}
