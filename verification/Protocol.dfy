/**
 The run loop as a timed state machine. Each step consumes one `Moment`: what
 the world does at the next point where the loop waits for it. A run is the
 loop against a finite sequence of moments, and every property is stated for
 every sequence. Time passes only inside API calls and while blocked.
 */
module Protocol {
  import opened Common
  import opened Durations
  import opened Objects
  import opened WaitSpec
  import opened Evaluator
  import opened Settle

  const MIN_BACKOFF: int := SECOND
  const MIN_CYCLE: int := SECOND
  const REQUEST_TIMEOUT: nat := MINUTE

  // ---- The world ----

  datatype ApiError = Forbidden | Unauthorized | Expired | OtherError

  datatype Reply<+T> = Ok(value: T) | Err(error: ApiError)

  datatype Resolution = Resolution(served: bool, namespaced: bool)

  datatype Event = Bookmark | ErrorEvent(error: ApiError) | Upsert(obj: Obj) | Remove(obj: Obj) | Unrecognized

  /** How a blocked wait ends: its timer, up to `late` after it was due; a watch
      event or the watch closing, `after` from the start; or cancellation. */
  datatype Wake = Timer(late: nat) | Delivered(after: nat, event: Event) | Closed(after: nat) | CtxDone(after: nat)

  /** The world's part at one interaction point; only the relevant field is read. */
  datatype Moment = Moment(
    cancelled: bool,
    took: nat,
    resolve: Reply<Resolution>,
    list: Reply<seq<Obj>>,
    open: Option<ApiError>,
    wake: Wake)

  /** How long a resolve or a list that would take `took` keeps the loop. */
  function Spent(took: nat): nat {
    Min(took, REQUEST_TIMEOUT)
  }

  /** What the loop gets from it: the answer, or the error of running out of time. */
  function Received<T>(took: nat, reply: Reply<T>): Reply<T> {
    if took <= REQUEST_TIMEOUT then reply else Err(OtherError)
  }

  // ---- The loop's state ----

  datatype Note = NoNote | ApiErrorNote | NotServedNote

  datatype StateKey = StateKey(verdict: Verdict, note: Note)

  datatype Emission = Emission(at: int, key: StateKey)

  /** What the API server answered, as the history records it. */
  datatype Answer =
    | Refreshed(served: bool, items: seq<Obj>)
    | Changed(event: Event)
    | Rejected(error: ApiError)
    | Relist

  datatype Entry = Entry(at: int, answer: Answer)

  datatype Ending =
    | Succeeded(warned: bool)
    | Failed
    | TimedOut
    | AccessDenied
    | NotAuthenticated
    | InvalidScope
    | Cancelled
    | Unfinished  // the moments ran out first; no run of the machine ends so

  /** The fields of the run, and the history: what was observed, what was
      reported, and what the server answered. */
  datatype State = State(
    now: int,
    clock: Clock, cache: map<string, Obj>, last: Outcome,
    note: Note,
    emitted: bool, lastKey: Option<StateKey>, lastEmit: int,
    unauthRetried: bool, backoff: int,
    obs: seq<Sample>, emits: seq<Emission>, log: seq<Entry>)
  {
    function Key(): StateKey {
      StateKey(last.verdict, note)
    }

    function Emit(): State {
      this.(emitted := true, lastKey := Some(Key()), lastEmit := now, emits := emits + [Emission(now, Key())])
    }

    function EmitFinal(): State {
      if emitted && lastKey == Some(Key()) && lastEmit == now then this else Emit()
    }

    function At(t: int): State {
      this.(now := t)
    }

    function Logged(a: Answer): State {
      this.(log := log + [Entry(now, a)])
    }
  }

  /** Where the loop is: about to start a cycle, inside one of the three API
      calls, blocked in the wait phase or in a sleep until `wake`, or done. */
  datatype Pc =
    | Top
    | Resolving(cycleStart: int)
    | Listing(cycleStart: int)
    | Opening(cycleStart: int)
    | Waiting(watching: bool, cycleStart: int, resyncAt: int, wake: int)
    | Sleeping(until: int, wake: int)
    | Done(ending: Ending)

  datatype Cfg = Cfg(st: State, pc: Pc)

  /** How the loop goes on once an observation has not ended the wait. */
  datatype Next =
    | OpenWatch(cycleStart: int)
    | StartWait(watching: bool, cycleStart: int)
    | KeepWaiting(watching: bool, cycleStart: int, resyncAt: int)
    | Nap(until: int)
    | BackOff

  /** What a moment leads to, before the loop runs on to its next blocking point:
      a plain move, going on, an observation and then going on, or an ending. */
  datatype Turn =
    | Move(st: State, pc: Pc)
    | Proceed(st: State, next: Next)
    | Look(st: State, out: Outcome, next: Next)
    | Quit(st: State, ending: Ending)

  const NO_OUTCOME: Outcome := Outcome(Pending, [], 0, 0, [])

  const FATAL_OUTCOME: Outcome := Outcome(Failure, [], 0, 0, [])

  function Start(now: int, settle: int): State {
    State(now, Fresh(settle), map[], NO_OUTCOME, NoNote, false, None, 0, false, 0, [], [], [])
  }

  /** The cache a list response leaves: each object under its key, later ones winning. */
  function CacheOf(items: seq<Obj>): map<string, Obj> {
    if items == [] then map[]
    else var n := |items| - 1; CacheOf(items[..n])[KeyOf(items[n]) := items[n]]
  }

  function Applied(cache: map<string, Obj>, ev: Event): map<string, Obj> {
    match ev
    case Upsert(o) => cache[KeyOf(o) := o]
    case Remove(o) => cache - {KeyOf(o)}
    case _ => cache
  }

  /** A spec and the instant its wait started. */
  datatype Job = Job(s: Spec, start: int) {

    function Deadline(): int {
      start + s.timeout
    }

    function Heartbeat(st: State): State {
      if st.emitted && st.now - st.lastEmit >= s.progressInterval then st.Emit() else st
    }

    function NextHeartbeat(st: State): int {
      if !st.emitted then Deadline() else st.lastEmit + s.progressInterval
    }

    // ---- Endings ----

    function TimeOut(st: State): Cfg {
      Cfg(st.EmitFinal(), Done(TimedOut))
    }

    function Fatal(st: State, ending: Ending): Cfg {
      Cfg(st.(last := FATAL_OUTCOME, note := NoNote).EmitFinal(), Done(ending))
    }

    // ---- One observation ----

    function Noticed(st: State, out: Outcome): State {
      var st1 := st.(last := out, clock := st.clock.Observe(st.now, out.verdict),
                     obs := st.obs + [Sample(st.now, out.verdict)]);
      if st1.lastKey != Some(st1.Key()) then st1.Emit() else st1
    }

    /** The state after an observation, and how the wait ends if it settled. */
    function Observed(st: State, out: Outcome): (State, Option<Ending>) {
      var st1 := Noticed(st, out);
      if !st1.clock.Settled(st1.now) then (st1, None)
      else
        var st2 := st1.EmitFinal();
        (st2, Some(if out.verdict == Success then Succeeded(st2.note == NotServedNote) else Failed))
    }

    // ---- The two places it blocks ----

    /** Up to the next time the wait phase blocks, or past its end. */
    function WaitHead(st: State, watching: bool, cycleStart: int, resyncAt: int): Cfg {
      if st.now >= Deadline() then TimeOut(st)
      else
        var st := Heartbeat(st);
        var due := st.clock.Settled(st.now);
        if due && !watching then Cfg(st, Top)
        else
          var (st, ending) := if due then Observed(st, st.last) else (st, None);
          if ending.Some? then Cfg(st, Done(ending.value))
          else if st.now >= resyncAt then Cfg(st, Top)
          else
            var next := Min(Min(resyncAt, Deadline()), NextHeartbeat(st));
            var dl := st.clock.Deadline();
            var wake := if dl.Some? && dl.value > st.now then Min(next, dl.value) else next;
            Cfg(st, Waiting(watching, cycleStart, resyncAt, wake))
    }

    function SleepHead(st: State, until: int): Cfg {
      if st.now >= Deadline() then TimeOut(st)
      else
        var st := Heartbeat(st);
        if st.now >= until then Cfg(st, Top)
        else Cfg(st, Sleeping(until, Min(Min(until, Deadline()), NextHeartbeat(st))))
    }

    // ---- Going on ----

    function NextBackoff(b: int): int {
      Min(if b == 0 then MIN_BACKOFF else 2 * b, s.pollInterval)
    }

    function Continue(st: State, next: Next): Cfg {
      match next
      case OpenWatch(cs) => Cfg(st, Opening(cs))
      case StartWait(watching, cs) => WaitHead(st, watching, cs, st.now + s.pollInterval)
      case KeepWaiting(watching, cs, resyncAt) => WaitHead(st, watching, cs, resyncAt)
      case Nap(until) => SleepHead(st, until)
      case BackOff =>
        var st := st.(backoff := NextBackoff(st.backoff));
        SleepHead(st, st.now + st.backoff)
    }

    function Finish(t: Turn): Cfg {
      match t
      case Move(st, pc) => Cfg(st, pc)
      case Proceed(st, next) => Continue(st, next)
      case Quit(st, ending) => if ending == TimedOut then TimeOut(st) else Fatal(st, ending)
      case Look(st, out, next) =>
        var (st, ending) := Observed(st, out);
        if ending.Some? then Cfg(st, Done(ending.value)) else Continue(st, next)
    }

    // ---- What the world's answer leads to ----

    predicate ScopeError(res: Resolution) {
      || (!res.namespaced && s.namespace != "")
      || (res.namespaced && s.Single() && s.namespace == "")
    }

    ghost function Evaluated(cache: map<string, Obj>): Outcome {
      OutcomeOf(s, cache.Values)
    }

    /** What an API error leads to. Only the last kind is seen by the settle clock. */
    function OnError(st: State, e: ApiError): Turn {
      var st := st.Logged(Rejected(e));
      match e
      case Forbidden => Quit(st, AccessDenied)
      case Unauthorized =>
        if !st.unauthRetried then Move(st.(unauthRetried := true), Top) else Quit(st, NotAuthenticated)
      case _ => Look(st.(note := ApiErrorNote), NO_OUTCOME, BackOff)
    }

    /** A successful list, or a kind nobody serves. */
    ghost function OnRefresh(st: State, served: bool, items: seq<Obj>, next: Next): Turn {
      var cache := if served then CacheOf(items) else map[];
      var st := st.Logged(Refreshed(served, items)).(
        unauthRetried := false, backoff := 0, cache := cache,
        note := if served then NoNote else NotServedNote);
      Look(st, Evaluated(cache), next)
    }

    ghost function OnEvent(st: State, pc: Pc, ev: Event): Turn
      requires pc.Waiting?
    {
      var next := KeepWaiting(pc.watching, pc.cycleStart, pc.resyncAt);
      match ev
      case Bookmark => Proceed(st, next)
      case ErrorEvent(e) => if e == Expired then Move(st.Logged(Relist), Top) else OnError(st, e)
      case _ =>
        var cache := Applied(st.cache, ev);
        Look(st.Logged(Changed(ev)).(cache := cache), Evaluated(cache), next)
    }

    ghost function AtTop(st: State, m: Moment): Turn {
      if m.cancelled then Move(st, Done(Cancelled))
      else if st.now >= Deadline() then Quit(st, TimedOut)
      else Move(st, Resolving(st.now))
    }

    ghost function AfterResolve(st: State, cycleStart: int, reply: Reply<Resolution>): Turn {
      match reply
      case Err(e) => OnError(st, e)
      case Ok(res) =>
        if !res.served then OnRefresh(st, false, [], StartWait(false, cycleStart))
        else if ScopeError(res) then Quit(st, InvalidScope)
        else Move(st, Listing(cycleStart))
    }

    function AfterListing(cycleStart: int): Next {
      if s.watch then OpenWatch(cycleStart) else StartWait(false, cycleStart)
    }

    ghost function AfterList(st: State, cycleStart: int, reply: Reply<seq<Obj>>): Turn {
      match reply
      case Err(e) => OnError(st, e)
      case Ok(items) => OnRefresh(st, true, items, AfterListing(cycleStart))
    }

    function AfterOpen(st: State, cycleStart: int, refused: Option<ApiError>): Turn {
      match refused
      case Some(e) => if e == Expired then Move(st.Logged(Relist), Top) else OnError(st, e)
      case None => Proceed(st, StartWait(true, cycleStart))
    }

    /** Without a watch there is no event to deliver; such a moment reads as the
        timer firing on time. */
    ghost function AtWait(st: State, pc: Pc, m: Moment): Turn
      requires pc.Waiting?
    {
      match m.wake
      case CtxDone(after) => Move(st.At(st.now + after), Done(Cancelled))
      case Timer(late) =>
        Proceed(st.At(pc.wake + late), KeepWaiting(pc.watching, pc.cycleStart, pc.resyncAt))
      case _ =>
        if !pc.watching then Proceed(st.At(pc.wake), KeepWaiting(pc.watching, pc.cycleStart, pc.resyncAt))
        else
          var st := st.At(st.now + m.wake.after);
          if m.wake.Delivered? then OnEvent(st, pc, m.wake.event)
          else if st.now - pc.cycleStart < MIN_CYCLE then Proceed(st, Nap(pc.cycleStart + MIN_CYCLE))
          else Move(st, Top)
    }

    function AtSleep(st: State, pc: Pc, m: Moment): Turn
      requires pc.Sleeping?
    {
      match m.wake
      case CtxDone(after) => Move(st.At(st.now + after), Done(Cancelled))
      case Timer(late) => Proceed(st.At(pc.wake + late), Nap(pc.until))
      case _ => Proceed(st.At(pc.wake), Nap(pc.until))
    }

    ghost function Begin(c: Cfg, m: Moment): Turn {
      match c.pc
      case Top => AtTop(c.st, m)
      case Resolving(cs) => AfterResolve(c.st.At(c.st.now + Spent(m.took)), cs, Received(m.took, m.resolve))
      case Listing(cs) => AfterList(c.st.At(c.st.now + Spent(m.took)), cs, Received(m.took, m.list))
      case Opening(cs) => AfterOpen(c.st.At(c.st.now + m.took), cs, m.open)
      case Waiting(_, _, _, _) => AtWait(c.st, c.pc, m)
      case Sleeping(_, _) => AtSleep(c.st, c.pc, m)
      case Done(_) => Move(c.st, c.pc)
    }

    ghost function Step(c: Cfg, m: Moment): Cfg {
      Finish(Begin(c, m))
    }

    // ---- Runs ----

    function Init(): Cfg {
      Cfg(Start(start, s.settle), Top)
    }

    ghost function RunFrom(c: Cfg, moments: seq<Moment>): Cfg
      decreases |moments|
    {
      if moments == [] then c else RunFrom(Step(c, moments[0]), moments[1..])
    }

    ghost function Run(moments: seq<Moment>): Cfg {
      RunFrom(Init(), moments)
    }
  }

  /** How the run has ended, if it has. */
  function Report(c: Cfg): Ending {
    if c.pc.Done? then c.pc.ending else Unfinished
  }
}
