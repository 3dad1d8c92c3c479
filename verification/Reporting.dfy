/** Progress reporting: what has been said, and when, at every point of a run. */
module Reporting {
  import opened Common
  import opened Evaluator
  import opened Settle
  import opened Protocol
  import opened Turns
  import opened Blocking
  import opened Timing

  // ---- What has been said ----

  /** The report fields mirror the last emission. */
  ghost predicate EmitFields(emitted: bool, lastKey: Option<StateKey>, lastEmit: int, emits: seq<Emission>) {
    if emits == [] then !emitted && lastKey == None
    else emitted && emits[|emits| - 1] == Emission(lastEmit, emits[|emits| - 1].key)
         && lastKey == Some(emits[|emits| - 1].key)
  }

  /** Something has been said exactly when something has been observed, and what
      was last observed is what the loop remembers. */
  ghost predicate SaidWhatWasSeen(st: State) {
    && EmitFields(st.emitted, st.lastKey, st.lastEmit, st.emits)
    && (st.emitted <==> st.obs != [])
    && (st.obs != [] ==> st.last.verdict == st.obs[|st.obs| - 1].verdict)
    && (st.emitted ==> st.lastEmit <= st.now)
  }

  /** The last thing said is still true. */
  predicate UpToDate(st: State) {
    st.emitted ==> st.lastKey == Some(st.Key())
  }

  /** The final state was said at the final instant. */
  predicate LastWord(st: State) {
    st.emits != [] && st.emits[|st.emits| - 1] == Emission(st.now, st.Key())
  }

  /** An observation was reported when it was made. */
  ghost predicate Said(o: Sample, emits: seq<Emission>) {
    exists k :: 0 <= k < |emits| && emits[k].at == o.at && emits[k].key.verdict == o.verdict
  }

  predicate Begins(obs: seq<Sample>, i: int)
    requires 0 <= i < |obs|
  {
    i == 0 || obs[i - 1].verdict != obs[i].verdict
  }

  /** Every observation that begins a stretch was reported when it was made. */
  ghost predicate ChangesSaid(obs: seq<Sample>, emits: seq<Emission>) {
    forall i :: 0 <= i < |obs| && Begins(obs, i) ==> Said(obs[i], emits)
  }

  ghost predicate Reported(c: Cfg) {
    && ChangesSaid(c.st.obs, c.st.emits)
    && if c.pc.Done? then c.pc.ending == Cancelled || LastWord(c.st)
       else
         && SaidWhatWasSeen(c.st) && UpToDate(c.st)
         && (c.pc.Opening? || c.pc.Waiting? || c.pc.Sleeping? ==> c.st.emitted)
  }

  lemma SaidLater(o: Sample, emits: seq<Emission>, e: Emission)
    requires Said(o, emits) || (e.at == o.at && e.key.verdict == o.verdict)
    ensures Said(o, emits + [e])
  {
    if Said(o, emits) {
      var k :| 0 <= k < |emits| && emits[k].at == o.at && emits[k].key.verdict == o.verdict;
      assert (emits + [e])[k] == emits[k];
    } else {
      assert (emits + [e])[|emits|] == e;
    }
  }

  lemma ChangesSaidLater(obs: seq<Sample>, emits: seq<Emission>, e: Emission)
    requires ChangesSaid(obs, emits)
    ensures ChangesSaid(obs, emits + [e])
  {
    forall i | 0 <= i < |obs| && Begins(obs, i)
      ensures Said(obs[i], emits + [e])
    {
      SaidLater(obs[i], emits, e);
    }
  }

  lemma NextSaid(obs: seq<Sample>, emits: seq<Emission>, o: Sample)
    requires ChangesSaid(obs, emits)
    requires Said(o, emits) || (obs != [] && obs[|obs| - 1].verdict == o.verdict)
    ensures ChangesSaid(obs + [o], emits)
  {
    var all := obs + [o];
    forall i | 0 <= i < |all| && Begins(all, i)
      ensures Said(all[i], emits)
    {
      assert i < |obs| ==> Begins(obs, i);
    }
  }

  lemma EmitSays(st: State)
    requires ChangesSaid(st.obs, st.emits)
    ensures ChangesSaid(st.obs, st.Emit().emits) && LastWord(st.Emit()) && UpToDate(st.Emit())
    ensures EmitFields(st.Emit().emitted, st.Emit().lastKey, st.Emit().lastEmit, st.Emit().emits)
  {
    ChangesSaidLater(st.obs, st.emits, Emission(st.now, st.Key()));
  }

  lemma EmitFinalSays(st: State)
    requires ChangesSaid(st.obs, st.emits)
    requires EmitFields(st.emitted, st.lastKey, st.lastEmit, st.emits)
    ensures ChangesSaid(st.obs, st.EmitFinal().emits) && LastWord(st.EmitFinal())
  {
    EmitSays(st);
  }

  lemma NoticedSays(j: Job, st: State, out: Outcome)
    requires ChangesSaid(st.obs, st.emits) && SaidWhatWasSeen(st)
    requires st.emitted ==> st.lastKey.Some? && st.lastKey.value.verdict == st.last.verdict
    ensures var st' := j.Noticed(st, out);
            ChangesSaid(st'.obs, st'.emits) && SaidWhatWasSeen(st') && UpToDate(st') && st'.emitted
  {
    var o := Sample(st.now, out.verdict);
    var e := Emission(st.now, StateKey(out.verdict, st.note));
    if st.lastKey != Some(e.key) {
      ChangesSaidLater(st.obs, st.emits, e);
      SaidLater(o, st.emits, e) by { assert e.key.verdict == o.verdict; }
      NextSaid(st.obs, st.emits + [e], o);
    } else {
      NextSaid(st.obs, st.emits, o);
    }
  }

  lemma SameFieldsUpToDate(j: Job, a: State, b: State)
    requires SaidWhatWasSeen(a) && UpToDate(a)
    requires b.emitted == a.emitted && b.lastKey == a.lastKey && b.lastEmit == a.lastEmit && b.emits == a.emits
    requires b.obs == a.obs && b.last == a.last && b.note == a.note && b.now >= a.now
    ensures SaidWhatWasSeen(b) && UpToDate(b)
  {
  }

  lemma HeartbeatSays(j: Job, st: State)
    requires ChangesSaid(st.obs, st.emits) && SaidWhatWasSeen(st) && UpToDate(st) && st.emitted
    ensures var st' := j.Heartbeat(st);
            ChangesSaid(st'.obs, st'.emits) && SaidWhatWasSeen(st') && UpToDate(st') && st'.emitted
  {
    EmitSays(st);
  }

  lemma ObservedSays(j: Job, st: State, out: Outcome)
    requires ChangesSaid(st.obs, st.emits) && SaidWhatWasSeen(st)
    requires st.emitted ==> st.lastKey.Some? && st.lastKey.value.verdict == st.last.verdict
    ensures var (st', ending) := j.Observed(st, out);
            && ChangesSaid(st'.obs, st'.emits) && SaidWhatWasSeen(st') && UpToDate(st') && st'.emitted
            && (ending.Some? ==> LastWord(st'))
  {
    NoticedSays(j, st, out);
    var st1 := j.Noticed(st, out);
    EmitFinalSays(st1);
    EmitSays(st1);
  }

  /** The report side of a state that a wait can go on from. */
  ghost predicate Speaking(st: State) {
    ChangesSaid(st.obs, st.emits) && SaidWhatWasSeen(st) && UpToDate(st) && st.emitted
  }

  lemma WaitHeadSays(j: Job, st: State, watching: bool, cs: int, resyncAt: int)
    requires Speaking(st)
    ensures Reported(j.WaitHead(st, watching, cs, resyncAt))
  {
    if st.now >= j.Deadline() {
      EmitFinalSays(st);
    } else {
      HeartbeatSays(j, st);
      var st1 := j.Heartbeat(st);
      assert Speaking(st1);
      ObservedSays(j, st1, st1.last);
    }
  }

  lemma SleepHeadSays(j: Job, st: State, until: int)
    requires ChangesSaid(st.obs, st.emits) && SaidWhatWasSeen(st) && UpToDate(st) && st.emitted
    ensures Reported(j.SleepHead(st, until))
  {
    EmitFinalSays(st);
    HeartbeatSays(j, st);
  }

  lemma ContinueSays(j: Job, st: State, next: Next)
    requires ChangesSaid(st.obs, st.emits) && SaidWhatWasSeen(st) && UpToDate(st) && st.emitted
    ensures Reported(j.Continue(st, next))
  {
    match next {
      case OpenWatch(_) =>
      case StartWait(watching, cs) => WaitHeadSays(j, st, watching, cs, st.now + j.s.pollInterval);
      case KeepWaiting(watching, cs, resyncAt) => WaitHeadSays(j, st, watching, cs, resyncAt);
      case Nap(until) => SleepHeadSays(j, st, until);
      case BackOff =>
        var st1 := st.(backoff := j.NextBackoff(st.backoff));
        SleepHeadSays(j, st1, st1.now + st1.backoff);
    }
  }

  lemma LookSays(j: Job, st: State, out: Outcome, next: Next)
    requires ChangesSaid(st.obs, st.emits) && SaidWhatWasSeen(st)
    requires st.emitted ==> st.lastKey.Some? && st.lastKey.value.verdict == st.last.verdict
    ensures Reported(j.Finish(Look(st, out, next)))
  {
    ObservedSays(j, st, out);
    ContinueSays(j, j.Observed(st, out).0, next);
  }

  lemma QuitSays(j: Job, st: State, ending: Ending)
    requires ChangesSaid(st.obs, st.emits) && SaidWhatWasSeen(st)
    ensures Reported(j.Finish(Quit(st, ending)))
  {
    EmitFinalSays(st);
    EmitFinalSays(st.(last := FATAL_OUTCOME, note := NoNote));
  }

  lemma StepSays(j: Job, c: Cfg, m: Moment)
    requires Reported(c) && BlocksAhead(j, c)
    ensures Reported(j.Step(c, m))
  {
    if !c.pc.Done? {
      var t := j.Begin(c, m);
      BeginFrame(j, c, m);
      EndingIs(j, c, m);
      match t {
        case Look(st, out, next) => LookSays(j, st, out, next);
        case Quit(st, e) => QuitSays(j, st, e);
        case Proceed(st, next) =>
          QuietTurn(j, c, m);
          SameFieldsUpToDate(j, c.st, st);
          ContinueSays(j, st, next);
        case Move(st, pc) =>
          MovesDoNotOpen(j, c, m);
          QuietTurn(j, c, m);
          SameFieldsUpToDate(j, c.st, st);
      }
    }
  }

  lemma MovesDoNotOpen(j: Job, c: Cfg, m: Moment)
    requires j.Begin(c, m).Move? && !c.pc.Done?
    ensures var pc := j.Begin(c, m).pc; !pc.Opening? && !pc.Waiting? && !pc.Sleeping?
  {
    match c.pc {
      case Resolving(_) =>
      case Listing(_) =>
      case Opening(_) =>
      case Waiting(_, _, _, _) =>
      case _ =>
    }
  }

  lemma {:induction false} RunSays(j: Job, c: Cfg, moments: seq<Moment>)
    requires j.s.Runnable() && Reported(c) && BlocksAhead(j, c)
    ensures Reported(j.RunFrom(c, moments))
    decreases |moments|
  {
    if moments == [] {
    } else {
      StepSays(j, c, moments[0]);
      StepBlocksAhead(j, c, moments[0]);
      RunSays(j, j.Step(c, moments[0]), moments[1..]);
    }
  }

  /** Progress over every run: wherever the loop blocks, the last thing it said
      is its present state; every change of verdict was reported when it was
      seen; and a run that ends uncancelled ends by saying its final state. */
  lemma {:induction false} ProgressIsCurrent(j: Job, moments: seq<Moment>)
    requires j.s.Runnable()
    ensures var c := j.Run(moments);
            && (c.pc.Waiting? || c.pc.Sleeping? ==> c.st.emits != [] && c.st.emits[|c.st.emits| - 1].key == c.st.Key())
            && ChangesSaid(c.st.obs, c.st.emits)
            && (c.pc.Done? && c.pc.ending != Cancelled ==> LastWord(c.st))
  {
    RunSays(j, j.Init(), moments);
  }

  // ---- The heartbeat ----

  /** Calls take no time and no timer is late. */
  predicate Instant(c: Cfg, m: Moment) {
    Prompt(c, m, Bounds(0, 0, 0, 0))
  }

  ghost predicate Spaced(emits: seq<Emission>, gap: int) {
    forall k :: 0 < k < |emits| ==> emits[k].at - emits[k - 1].at <= gap
  }

  /** No silence so far, or now, is longer than the progress interval. */
  ghost predicate Beating(j: Job, st: State) {
    && EmitFields(st.emitted, st.lastKey, st.lastEmit, st.emits)
    && Spaced(st.emits, j.s.progressInterval)
    && (st.emitted ==> st.now - st.lastEmit <= j.s.progressInterval)
  }

  lemma EmitBeats(j: Job, st: State)
    requires Beating(j, st) && j.s.progressInterval > 0
    ensures Beating(j, st.Emit()) && Beating(j, st.EmitFinal())
  {
  }

  lemma ObservedBeats(j: Job, st: State, out: Outcome)
    requires Beating(j, st) && j.s.progressInterval > 0
    ensures Beating(j, j.Observed(st, out).0)
  {
    var st1 := st.(last := out, clock := st.clock.Observe(st.now, out.verdict),
                   obs := st.obs + [Sample(st.now, out.verdict)]);
    EmitBeats(j, st1);
    EmitBeats(j, j.Noticed(st, out));
  }

  lemma WaitHeadBeats(j: Job, st: State, watching: bool, cs: int, resyncAt: int)
    requires Beating(j, st) && j.s.progressInterval > 0
    ensures Beating(j, j.WaitHead(st, watching, cs, resyncAt).st)
  {
    EmitBeats(j, st);
    ObservedBeats(j, j.Heartbeat(st), st.last);
  }

  lemma SleepHeadBeats(j: Job, st: State, until: int)
    requires Beating(j, st) && j.s.progressInterval > 0
    ensures Beating(j, j.SleepHead(st, until).st)
  {
    EmitBeats(j, st);
  }

  lemma ContinueBeats(j: Job, st: State, next: Next)
    requires Beating(j, st) && j.s.progressInterval > 0
    ensures Beating(j, j.Continue(st, next).st)
  {
    match next {
      case OpenWatch(_) =>
      case StartWait(watching, cs) => WaitHeadBeats(j, st, watching, cs, st.now + j.s.pollInterval);
      case KeepWaiting(watching, cs, resyncAt) => WaitHeadBeats(j, st, watching, cs, resyncAt);
      case Nap(until) => SleepHeadBeats(j, st, until);
      case BackOff =>
        var st1 := st.(backoff := j.NextBackoff(st.backoff));
        SleepHeadBeats(j, st1, st1.now + st1.backoff);
    }
  }

  lemma FinishBeats(j: Job, t: Turn)
    requires Beating(j, t.st) && j.s.progressInterval > 0
    ensures Beating(j, j.Finish(t).st)
  {
    match t {
      case Move(_, _) =>
      case Quit(st, _) =>
        EmitBeats(j, st);
        EmitBeats(j, st.(last := FATAL_OUTCOME, note := NoNote));
      case Proceed(st, next) => ContinueBeats(j, st, next);
      case Look(st, out, next) =>
        ObservedBeats(j, st, out);
        ContinueBeats(j, j.Observed(st, out).0, next);
    }
  }

  lemma StepBeats(j: Job, c: Cfg, m: Moment)
    requires j.s.Runnable() && Beating(j, c.st) && BlocksAhead(j, c) && Instant(c, m)
    ensures Beating(j, j.Step(c, m).st)
  {
    BeginFrame(j, c, m);
    FinishBeats(j, j.Begin(c, m));
  }

  lemma {:induction false} RunBeats(j: Job, c: Cfg, moments: seq<Moment>)
    requires j.s.Runnable() && Beating(j, c.st) && BlocksAhead(j, c)
    requires AllPrompt(j, c, moments, Bounds(0, 0, 0, 0))
    ensures Beating(j, j.RunFrom(c, moments).st)
    decreases |moments|
  {
    if moments == [] {
    } else {
      StepBeats(j, c, moments[0]);
      StepBlocksAhead(j, c, moments[0]);
      RunBeats(j, j.Step(c, moments[0]), moments[1..]);
    }
  }

  /** The heartbeat: where calls take no time and no timer is late, from the
      first report on no silence is longer than the progress interval. */
  lemma {:induction false} HeartbeatHolds(j: Job, moments: seq<Moment>)
    requires j.s.Runnable() && AllPrompt(j, j.Init(), moments, Bounds(0, 0, 0, 0))
    ensures var st := j.Run(moments).st;
            && (forall k :: 0 < k < |st.emits| ==> st.emits[k].at - st.emits[k - 1].at <= j.s.progressInterval)
            && (st.emits != [] ==> st.now - st.emits[|st.emits| - 1].at <= j.s.progressInterval)
  {
    RunBeats(j, j.Init(), moments);
  }

  // ---- No report too many ----

  /** The report at k says something new, or falls due as a heartbeat. */
  predicate Due(emits: seq<Emission>, k: int, gap: int)
    requires 0 < k < |emits|
  {
    emits[k].key != emits[k - 1].key || emits[k].at - emits[k - 1].at >= gap
  }

  /** Every report is due, but for the last of a wait that is over. */
  ghost predicate Sparse(emits: seq<Emission>, gap: int, over: bool) {
    forall k :: 0 < k < |emits| ==>
      (emits[k] != emits[k - 1] && (Due(emits, k, gap) || (over && k == |emits| - 1)))
  }

  ghost predicate Quietly(j: Job, st: State, over: bool) {
    && EmitFields(st.emitted, st.lastKey, st.lastEmit, st.emits)
    && Sparse(st.emits, j.s.progressInterval, over)
  }

  lemma SparseNext(emits: seq<Emission>, gap: int, over: bool, e: Emission)
    requires Sparse(emits, gap, false) && emits != []
    requires var last := emits[|emits| - 1];
             e != last && (over || e.key != last.key || e.at - last.at >= gap)
    ensures Sparse(emits + [e], gap, over)
  {
    forall k | 0 < k < |emits + [e]|
      ensures (emits + [e])[k] != (emits + [e])[k - 1]
      ensures Due(emits + [e], k, gap) || (over && k == |emits|)
    {
      assert k < |emits| ==> Due(emits, k, gap);
    }
  }

  lemma EmitQuietly(j: Job, st: State, over: bool)
    requires Quietly(j, st, false)
    requires st.emitted ==>
               && (st.lastKey != Some(st.Key()) || st.lastEmit != st.now)
               && (over || st.lastKey != Some(st.Key()) || st.now - st.lastEmit >= j.s.progressInterval)
    ensures Quietly(j, st.Emit(), over)
  {
    if st.emits == [] {
    } else {
      SparseNext(st.emits, j.s.progressInterval, over, Emission(st.now, st.Key()));
    }
  }

  lemma EmitFinalQuietly(j: Job, st: State)
    requires Quietly(j, st, false)
    ensures Quietly(j, st.EmitFinal(), true)
  {
    if st.emitted && st.lastKey == Some(st.Key()) && st.lastEmit == st.now {
    } else {
      EmitQuietly(j, st, true);
    }
  }

  lemma NoticedQuietly(j: Job, st: State, out: Outcome)
    requires Quietly(j, st, false)
    ensures Quietly(j, j.Noticed(st, out), false)
  {
    var st1 := st.(last := out, clock := st.clock.Observe(st.now, out.verdict),
                   obs := st.obs + [Sample(st.now, out.verdict)]);
    if st1.lastKey != Some(st1.Key()) {
      EmitQuietly(j, st1, false);
    }
  }

  lemma ObservedQuietly(j: Job, st: State, out: Outcome)
    requires Quietly(j, st, false)
    ensures var (st', ending) := j.Observed(st, out); Quietly(j, st', ending.Some?)
  {
    NoticedQuietly(j, st, out);
    EmitFinalQuietly(j, j.Noticed(st, out));
  }

  lemma HeartbeatQuietly(j: Job, st: State)
    requires Quietly(j, st, false) && j.s.progressInterval > 0
    ensures Quietly(j, j.Heartbeat(st), false)
  {
    if st.emitted && st.now - st.lastEmit >= j.s.progressInterval {
      EmitQuietly(j, st, false);
    }
  }

  lemma WaitHeadQuietly(j: Job, st: State, watching: bool, cs: int, resyncAt: int)
    requires Quietly(j, st, false) && j.s.progressInterval > 0
    ensures var c := j.WaitHead(st, watching, cs, resyncAt); Quietly(j, c.st, c.pc.Done?)
  {
    if st.now >= j.Deadline() {
      EmitFinalQuietly(j, st);
    } else {
      HeartbeatQuietly(j, st);
      ObservedQuietly(j, j.Heartbeat(st), st.last);
    }
  }

  lemma SleepHeadQuietly(j: Job, st: State, until: int)
    requires Quietly(j, st, false) && j.s.progressInterval > 0
    ensures var c := j.SleepHead(st, until); Quietly(j, c.st, c.pc.Done?)
  {
    EmitFinalQuietly(j, st);
    HeartbeatQuietly(j, st);
  }

  lemma ContinueQuietly(j: Job, st: State, next: Next)
    requires Quietly(j, st, false) && j.s.progressInterval > 0
    ensures var c := j.Continue(st, next); Quietly(j, c.st, c.pc.Done?)
  {
    match next {
      case OpenWatch(_) =>
      case StartWait(watching, cs) => WaitHeadQuietly(j, st, watching, cs, st.now + j.s.pollInterval);
      case KeepWaiting(watching, cs, resyncAt) => WaitHeadQuietly(j, st, watching, cs, resyncAt);
      case Nap(until) => SleepHeadQuietly(j, st, until);
      case BackOff =>
        var st1 := st.(backoff := j.NextBackoff(st.backoff));
        SleepHeadQuietly(j, st1, st1.now + st1.backoff);
    }
  }

  lemma FinishQuietly(j: Job, t: Turn)
    requires Quietly(j, t.st, false) && j.s.progressInterval > 0
    ensures var c := j.Finish(t); Quietly(j, c.st, c.pc.Done?)
  {
    match t {
      case Move(_, _) =>
      case Quit(st, _) =>
        EmitFinalQuietly(j, st);
        EmitFinalQuietly(j, st.(last := FATAL_OUTCOME, note := NoNote));
      case Proceed(st, next) => ContinueQuietly(j, st, next);
      case Look(st, out, next) =>
        ObservedQuietly(j, st, out);
        if j.Observed(st, out).1.None? {
          ContinueQuietly(j, j.Observed(st, out).0, next);
        }
    }
  }

  lemma {:induction false} RunQuietly(j: Job, c: Cfg, moments: seq<Moment>)
    requires j.s.Runnable() && Quietly(j, c.st, c.pc.Done?)
    ensures var d := j.RunFrom(c, moments); Quietly(j, d.st, d.pc.Done?)
    decreases |moments|
  {
    if c.pc.Done? {
      DoneStays(j, c, moments);
    } else if moments == [] {
    } else {
      BeginFrame(j, c, moments[0]);
      FinishQuietly(j, j.Begin(c, moments[0]));
      RunQuietly(j, j.Step(c, moments[0]), moments[1..]);
    }
  }

  /** No report too many: of every run, two successive reports differ in what they
      say, or lie a progress interval apart, or the later one closes a wait that is
      over; and none ever repeats the one before at the same instant. */
  lemma {:induction false} ReportsAreDue(j: Job, moments: seq<Moment>)
    requires j.s.Runnable()
    ensures var c := j.Run(moments);
            forall k :: 0 < k < |c.st.emits| ==>
              && c.st.emits[k] != c.st.emits[k - 1]
              && (|| c.st.emits[k].key != c.st.emits[k - 1].key
                  || c.st.emits[k].at - c.st.emits[k - 1].at >= j.s.progressInterval
                  || (c.pc.Done? && k == |c.st.emits| - 1))
  {
    RunQuietly(j, j.Init(), moments);
    var c := j.Run(moments);
    forall k | 0 < k < |c.st.emits|
      ensures && c.st.emits[k] != c.st.emits[k - 1]
              && (|| c.st.emits[k].key != c.st.emits[k - 1].key
                  || c.st.emits[k].at - c.st.emits[k - 1].at >= j.s.progressInterval
                  || (c.pc.Done? && k == |c.st.emits| - 1))
    {
      assert Due(c.st.emits, k, j.s.progressInterval) || (c.pc.Done? && k == |c.st.emits| - 1);
    }
  }

  // ---- What the first and the last report say ----

  /** Nothing is reported before something has been observed, unless it is the end;
      and a wait that a refusal or its scope ends reports a failure without a note. */
  lemma {:induction false} FirstAndLastReport(j: Job, moments: seq<Moment>)
    requires j.s.Runnable()
    ensures var c := j.Run(moments);
            && (!c.pc.Done? ==> (c.st.emits == [] <==> c.st.obs == []))
            && (c.pc == Done(AccessDenied) || c.pc == Done(NotAuthenticated) || c.pc == Done(InvalidScope) ==>
                  LastWord(c.st) && c.st.Key() == StateKey(Failure, NoNote))
  {
    RunSays(j, j.Init(), moments);
    RunFatal(j, j.Init(), moments);
  }

  predicate FatalSaysFailure(c: Cfg) {
    c.pc == Done(AccessDenied) || c.pc == Done(NotAuthenticated) || c.pc == Done(InvalidScope) ==>
      c.st.Key() == StateKey(Failure, NoNote)
  }

  lemma StepFatal(j: Job, c: Cfg, m: Moment)
    requires FatalSaysFailure(c)
    ensures FatalSaysFailure(j.Step(c, m))
  {
    if !c.pc.Done? {
      EndingIs(j, c, m);
      match j.Begin(c, m) {
        case Look(st, out, next) => LookKept(j, st, out, next);
        case Proceed(st, next) => ContinueKept(j, st, next);
        case _ =>
      }
    }
  }

  lemma {:induction false} RunFatal(j: Job, c: Cfg, moments: seq<Moment>)
    requires FatalSaysFailure(c)
    ensures FatalSaysFailure(j.RunFrom(c, moments))
    decreases |moments|
  {
    if moments == [] {
    } else {
      StepFatal(j, c, moments[0]);
      RunFatal(j, j.Step(c, moments[0]), moments[1..]);
    }
  }
}
