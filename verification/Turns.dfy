/** What every turn of the loop has in common. */
module Turns {
  import opened Common
  import opened Objects
  import opened Evaluator
  import opened Protocol

  /** An error as the history records it: a watch that expired is a re-list. */
  function AnswerTo(e: ApiError): Answer {
    if e == Expired then Relist else Rejected(e)
  }

  /** What the API server says in a moment, if it says anything: read off the
      moment and the place the loop is at, not off what the loop does with it. */
  function Heard(j: Job, c: Cfg, m: Moment): Option<Answer> {
    match c.pc
    case Resolving(_) =>
      (match Received(m.took, m.resolve)
       case Err(e) => Some(Rejected(e))
       case Ok(res) => if res.served then None else Some(Refreshed(false, [])))
    case Listing(_) =>
      (match Received(m.took, m.list)
       case Err(e) => Some(Rejected(e))
       case Ok(items) => Some(Refreshed(true, items)))
    case Opening(_) =>
      (match m.open
       case Some(e) => Some(AnswerTo(e))
       case None => None)
    case Waiting(watching, _, _, _) =>
      if !watching || !m.wake.Delivered? then None
      else (match m.wake.event
            case Bookmark => None
            case ErrorEvent(e) => Some(AnswerTo(e))
            case ev => Some(Changed(ev)))
    case _ => None
  }

  /** The time at which a moment leaves the loop running again. */
  function Until(c: Cfg, m: Moment): int {
    match c.pc
    case Top => c.st.now
    case Done(_) => c.st.now
    case Waiting(watching, _, _, wake) =>
      if m.wake.Timer? then wake + m.wake.late
      else if watching || m.wake.CtxDone? then c.st.now + m.wake.after
      else wake
    case Sleeping(_, wake) =>
      if m.wake.Timer? then wake + m.wake.late
      else if m.wake.CtxDone? then c.st.now + m.wake.after
      else wake
    case Opening(_) => c.st.now + m.took
    case _ => c.st.now + Spent(m.took)
  }

  /** An answer the loop retries with backoff. */
  predicate Retried(a: Answer) {
    a.Rejected? && (a.error == Expired || a.error == OtherError)
  }

  /** A turn observes exactly when the server refreshed, changed or failed in a
      way that is retried. */
  predicate Observes(a: Option<Answer>) {
    a.Some? && (a.value.Refreshed? || a.value.Changed? || Retried(a.value))
  }

  /** The history fields and the clock are untouched until the turn is finished,
      except that the log gains what was heard. */
  predicate Frame(a: State, b: State, t: int, heard: Option<Answer>) {
    && b.now == t
    && b.clock == a.clock && b.obs == a.obs && b.last == a.last
    && b.emitted == a.emitted && b.lastKey == a.lastKey && b.lastEmit == a.lastEmit && b.emits == a.emits
    && b.log == (if heard.Some? then a.log + [Entry(t, heard.value)] else a.log)
  }

  /** t brings st forward to time now, with `heard` in the log. */
  predicate Framed(st: State, t: Turn, now: int, heard: Option<Answer>) {
    Frame(st, t.st, now, heard) && (t.Look? <==> Observes(heard))
  }

  lemma OnErrorFrame(j: Job, st: State, e: ApiError)
    ensures Framed(st, j.OnError(st, e), st.now, Some(Rejected(e)))
  {
  }

  lemma OnRefreshFrame(j: Job, st: State, served: bool, items: seq<Obj>, next: Next)
    ensures Framed(st, j.OnRefresh(st, served, items, next), st.now, Some(Refreshed(served, items)))
  {
  }

  lemma OnEventFrame(j: Job, c: Cfg, m: Moment)
    requires c.pc.Waiting? && c.pc.watching && m.wake.Delivered?
    ensures var st := c.st.At(c.st.now + m.wake.after);
            Framed(st, j.OnEvent(st, c.pc, m.wake.event), st.now, Heard(j, c, m))
  {
    var st := c.st.At(c.st.now + m.wake.after);
    if m.wake.event.ErrorEvent? {
      OnErrorFrame(j, st, m.wake.event.error);
    }
  }

  ghost predicate TurnFramed(j: Job, c: Cfg, m: Moment) {
    Framed(c.st, j.Begin(c, m), Until(c, m), Heard(j, c, m))
  }

  lemma ResolveFrame(j: Job, c: Cfg, m: Moment)
    requires c.pc.Resolving?
    ensures TurnFramed(j, c, m)
  {
    var st := c.st.At(c.st.now + Spent(m.took));
    var reply := Received(m.took, m.resolve);
    if reply.Err? {
      OnErrorFrame(j, st, reply.error);
    } else if !reply.value.served {
      OnRefreshFrame(j, st, false, [], StartWait(false, c.pc.cycleStart));
    }
  }

  lemma ListFrame(j: Job, c: Cfg, m: Moment)
    requires c.pc.Listing?
    ensures TurnFramed(j, c, m)
  {
    var st := c.st.At(c.st.now + Spent(m.took));
    var reply := Received(m.took, m.list);
    if reply.Err? {
      OnErrorFrame(j, st, reply.error);
    } else {
      OnRefreshFrame(j, st, true, reply.value, j.AfterListing(c.pc.cycleStart));
    }
  }

  lemma OpenFrame(j: Job, c: Cfg, m: Moment)
    requires c.pc.Opening?
    ensures TurnFramed(j, c, m)
  {
    if m.open.Some? {
      OnErrorFrame(j, c.st.At(c.st.now + m.took), m.open.value);
    }
  }

  lemma EventFrame(j: Job, c: Cfg, m: Moment)
    requires c.pc.Waiting? && c.pc.watching && m.wake.Delivered?
    ensures TurnFramed(j, c, m)
  {
    OnEventFrame(j, c, m);
  }

  lemma QuietFrame(j: Job, c: Cfg, m: Moment)
    requires c.pc.Waiting? && !(c.pc.watching && m.wake.Delivered?)
    ensures TurnFramed(j, c, m)
  {
  }

  lemma WaitFrame(j: Job, c: Cfg, m: Moment)
    requires c.pc.Waiting?
    ensures TurnFramed(j, c, m)
  {
    if c.pc.watching && m.wake.Delivered? {
      EventFrame(j, c, m);
    } else {
      QuietFrame(j, c, m);
    }
  }

  lemma IdleFrame(j: Job, c: Cfg, m: Moment)
    requires c.pc.Top? || c.pc.Sleeping? || c.pc.Done?
    ensures TurnFramed(j, c, m)
  {
  }

  lemma BeginFrame(j: Job, c: Cfg, m: Moment)
    ensures TurnFramed(j, c, m)
  {
    match c.pc {
      case Resolving(_) => ResolveFrame(j, c, m);
      case Listing(_) => ListFrame(j, c, m);
      case Opening(_) => OpenFrame(j, c, m);
      case Waiting(_, _, _, _) => WaitFrame(j, c, m);
      case _ => IdleFrame(j, c, m);
    }
  }

  /** What a turn observes: nothing but pending after an error, and the verdict
      on the cache it has just brought up to date otherwise. */
  lemma LookIs(j: Job, c: Cfg, m: Moment)
    requires j.Begin(c, m).Look?
    ensures var t := j.Begin(c, m);
            if Retried(Heard(j, c, m).value) then
              t.out == NO_OUTCOME && t.next == BackOff && t.st.note == ApiErrorNote &&
              t.st.cache == c.st.cache && t.st.backoff == c.st.backoff && t.st.unauthRetried == c.st.unauthRetried
            else
              t.out == j.Evaluated(t.st.cache) && t.next != BackOff && !t.next.Nap?
  {
    match c.pc {
      case Resolving(_) =>
      case Listing(_) =>
      case Opening(_) =>
      case Waiting(_, _, _, _) =>
      case _ =>
    }
  }

  /** A refresh starts over: both allowances restored, and the note and the cache
      replaced. */
  lemma RefreshIs(j: Job, c: Cfg, m: Moment)
    requires Heard(j, c, m).Some? && Heard(j, c, m).value.Refreshed?
    ensures var t := j.Begin(c, m);
            var a := Heard(j, c, m).value;
            && t.Look? && !t.st.unauthRetried && t.st.backoff == 0
            && t.st.note == (if a.served then NoNote else NotServedNote)
            && t.st.cache == (if a.served then CacheOf(a.items) else map[])
            && !t.next.KeepWaiting?
  {
  }

  /** A watch event touches the cache only. */
  lemma ChangeIs(j: Job, c: Cfg, m: Moment)
    requires Heard(j, c, m).Some? && Heard(j, c, m).value.Changed?
    ensures var t := j.Begin(c, m);
            && c.pc.Waiting? && t.Look? && t.next.KeepWaiting?
            && t.st.unauthRetried == c.st.unauthRetried && t.st.backoff == c.st.backoff && t.st.note == c.st.note
            && t.st.cache == Applied(c.st.cache, Heard(j, c, m).value.event)
  {
  }

  /** The policy fields are untouched, except that a first 401 marks the run, and
      going on is on from a wait, a sleep or a watch that has opened. */
  predicate Quiet(j: Job, c: Cfg, t: Turn, heard: Option<Answer>) {
    && t.st.note == c.st.note && t.st.cache == c.st.cache && t.st.backoff == c.st.backoff
    && (t.st.unauthRetried <==> c.st.unauthRetried || heard == Some(Rejected(Unauthorized)))
    && (t.Proceed? ==> t.next != BackOff && !t.next.OpenWatch?)
    && (t.Proceed? ==> c.pc.Opening? || c.pc.Waiting? || c.pc.Sleeping?)
  }

  lemma QuietError(j: Job, c: Cfg, st: State, e: ApiError)
    requires st.note == c.st.note && st.cache == c.st.cache && st.backoff == c.st.backoff
    requires st.unauthRetried == c.st.unauthRetried && !j.OnError(st, e).Look?
    ensures Quiet(j, c, j.OnError(st, e), Some(Rejected(e)))
  {
  }

  lemma QuietCall(j: Job, c: Cfg, m: Moment)
    requires !j.Begin(c, m).Look? && (c.pc.Resolving? || c.pc.Listing? || c.pc.Opening?)
    ensures Quiet(j, c, j.Begin(c, m), Heard(j, c, m))
  {
    var st := c.st.At(c.st.now + Spent(m.took));
    match c.pc {
      case Resolving(_) =>
        if Received(m.took, m.resolve).Err? {
          QuietError(j, c, st, Received(m.took, m.resolve).error);
        }
      case Listing(_) =>
        if Received(m.took, m.list).Err? {
          QuietError(j, c, st, Received(m.took, m.list).error);
        }
      case Opening(_) =>
        if m.open.Some? && m.open.value != Expired {
          QuietError(j, c, c.st.At(c.st.now + m.took), m.open.value);
        }
    }
  }

  /** A turn that observes nothing leaves the verdict's state alone; only a first
      401 marks it. */
  lemma QuietTurn(j: Job, c: Cfg, m: Moment)
    requires !j.Begin(c, m).Look?
    ensures Quiet(j, c, j.Begin(c, m), Heard(j, c, m))
  {
    match c.pc {
      case Resolving(_) => QuietCall(j, c, m);
      case Listing(_) => QuietCall(j, c, m);
      case Opening(_) => QuietCall(j, c, m);
      case Waiting(_, _, _, _) =>
      case _ =>
    }
  }

  /** Endings a turn brings by itself: cancellation as a move; time-out, and the
      fatal errors, as a quit. */
  lemma EndingIs(j: Job, c: Cfg, m: Moment)
    requires !c.pc.Done?
    ensures var t := j.Begin(c, m);
            && (t.Move? && t.pc.Done? ==> t.pc.ending == Cancelled)
            && (t.Quit? ==>
                  || (t.ending == TimedOut && c.pc == Top && c.st.now >= j.Deadline())
                  || (t.ending == AccessDenied && Heard(j, c, m) == Some(Rejected(Forbidden)))
                  || (t.ending == NotAuthenticated && Heard(j, c, m) == Some(Rejected(Unauthorized)) && c.st.unauthRetried)
                  || (t.ending == InvalidScope && c.pc.Resolving?))
  {
    match c.pc {
      case Resolving(_) =>
      case Listing(_) =>
      case Opening(_) =>
      case Waiting(_, _, _, _) =>
      case _ =>
    }
  }

  // ---- What finishing a turn leaves alone ----

  /** b is a, apart from the reports, the observation trace and the clock. */
  predicate SamePolicy(a: State, b: State) {
    && b.now == a.now && b.log == a.log && b.cache == a.cache && b.unauthRetried == a.unauthRetried
  }

  /** Going on keeps the policy fields, the note and the last outcome; an ending
      it brings is a time-out or a settled verdict, warned when not served. */
  predicate Undisturbed(a: State, out: Outcome, c: Cfg) {
    && SamePolicy(a, c.st) && c.st.note == a.note && c.st.last == out
    && (c.pc.Done? ==>
          || c.pc.ending == TimedOut
          || (c.pc.ending == Failed && out.verdict == Failure)
          || (c.pc.ending == Succeeded(a.note == NotServedNote) && out.verdict == Success))
  }

  lemma ObservedKept(j: Job, st: State, out: Outcome)
    ensures var (st', ending) := j.Observed(st, out);
            && SamePolicy(st, st') && st'.note == st.note && st'.last == out && st'.backoff == st.backoff
            && (ending.Some? ==> Undisturbed(st, out, Cfg(st', Done(ending.value))))
            && (out.verdict == Pending ==> ending.None?)
  {
  }

  lemma HeartbeatKept(j: Job, st: State)
    ensures var st' := j.Heartbeat(st);
            SamePolicy(st, st') && st'.note == st.note && st'.last == st.last && st'.backoff == st.backoff
  {
  }

  lemma WaitHeadKept(j: Job, st: State, watching: bool, cs: int, resyncAt: int)
    ensures var c := j.WaitHead(st, watching, cs, resyncAt); Undisturbed(st, st.last, c) && c.st.backoff == st.backoff
  {
    HeartbeatKept(j, st);
    if st.now < j.Deadline() {
      ObservedKept(j, j.Heartbeat(st), st.last);
    }
  }

  lemma SleepHeadKept(j: Job, st: State, until: int)
    ensures var c := j.SleepHead(st, until); Undisturbed(st, st.last, c) && c.st.backoff == st.backoff
  {
  }

  lemma ContinueKept(j: Job, st: State, next: Next)
    ensures var c := j.Continue(st, next);
            Undisturbed(st, st.last, c) && c.st.backoff == if next == BackOff then j.NextBackoff(st.backoff) else st.backoff
  {
    match next {
      case OpenWatch(_) =>
      case StartWait(watching, cs) => WaitHeadKept(j, st, watching, cs, st.now + j.s.pollInterval);
      case KeepWaiting(watching, cs, resyncAt) => WaitHeadKept(j, st, watching, cs, resyncAt);
      case Nap(until) => SleepHeadKept(j, st, until);
      case BackOff =>
        var st1 := st.(backoff := j.NextBackoff(st.backoff));
        SleepHeadKept(j, st1, st1.now + st1.backoff);
    }
  }

  lemma LookKept(j: Job, st: State, out: Outcome, next: Next)
    ensures var c := j.Finish(Look(st, out, next));
            && Undisturbed(st, out, c)
            && (c.pc.Done? || c.st.backoff == if next == BackOff then j.NextBackoff(st.backoff) else st.backoff)
  {
    ObservedKept(j, st, out);
    ContinueKept(j, j.Observed(st, out).0, next);
  }
}
