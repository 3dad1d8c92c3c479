/**
 The run loop in the form the provider gives it: an object whose fields the
 methods update in place. Every method is tied to the state machine of
 `Protocol`, so that what is proved of the machine is proved of the loop.
 The world is a tape of moments; when it runs out the wait is simply unfinished.
 */
module Runner {
  import opened Common
  import opened Objects
  import opened WaitSpec
  import opened Evaluator
  import opened Settle
  import opened Protocol
  import opened Turns
  import opened Timing
  import opened Soundness
  import Endings
  import Mirror
  import Verdicts

  /** The clock, and what the world will do. */
  class World {
    var now: int
    var tape: seq<Moment>

    constructor (now: int, tape: seq<Moment>)
      ensures this.now == now && this.tape == tape
    {
      this.now, this.tape := now, tape;
    }

    method Next() returns (m: Moment, ok: bool)
      modifies this`tape
      ensures ok <==> old(tape) != []
      ensures ok ==> m == old(tape)[0] && tape == old(tape)[1..]
      ensures !ok ==> tape == old(tape)
    {
      ok := tape != [];
      if ok {
        m := tape[0];
        tape := tape[1..];
      } else {
        m := Moment(false, 0, Err(OtherError), Err(OtherError), None, Timer(0));
      }
    }
  }

  /** objs lists, each once, the objects cached under a key not in `left`. */
  ghost predicate Walked(cache: map<string, Obj>, left: set<string>, objs: seq<Obj>) {
    && (forall o :: o in objs ==> KeyOf(o) in cache && KeyOf(o) !in left && cache[KeyOf(o)] == o)
    && (forall k :: k in cache && k !in left ==> cache[k] in objs)
    && (forall i, j :: 0 <= i < j < |objs| ==> objs[i] != objs[j])
  }

  lemma WalkOn(cache: map<string, Obj>, left: set<string>, objs: seq<Obj>, k: string)
    requires Mirror.Keyed(cache) && Walked(cache, left, objs) && k in left && k in cache
    ensures Walked(cache, left - {k}, objs + [cache[k]])
  {
    assert KeyOf(cache[k]) == k;
    forall o | o in objs + [cache[k]]
      ensures KeyOf(o) in cache && KeyOf(o) !in left - {k} && cache[KeyOf(o)] == o
    {
      assert o in objs || o == cache[k];
    }
    assert forall o :: o in objs ==> o != cache[k];
  }

  lemma WalkedAll(cache: map<string, Obj>, objs: seq<Obj>)
    requires Walked(cache, {}, objs)
    ensures Lists(objs, cache.Values)
  {
  }

  // What a call in flight comes to.

  lemma {:induction false} RunUnfolds(j: Job, c: Cfg, tape: seq<Moment>)
    requires tape != []
    ensures j.RunFrom(c, tape) == j.RunFrom(j.Step(c, tape[0]), tape[1..])
  {
  }

  lemma {:induction false} TurnRuns(j: Job, c: Cfg, t: Turn, tape: seq<Moment>)
    requires tape != [] && j.Begin(c, tape[0]) == t
    ensures j.RunFrom(c, tape) == j.RunFrom(j.Finish(t), tape[1..])
  {
    RunUnfolds(j, c, tape);
  }

  lemma ResolveIs(j: Job, st: State, cs: int, m: Moment)
    ensures j.Begin(Cfg(st, Resolving(cs)), m) ==
            j.AfterResolve(st.At(st.now + Spent(m.took)), cs, Received(m.took, m.resolve))
  {
  }

  lemma ListIs(j: Job, st: State, cs: int, m: Moment)
    ensures j.Begin(Cfg(st, Listing(cs)), m) ==
            j.AfterList(st.At(st.now + Spent(m.took)), cs, Received(m.took, m.list))
  {
  }

  lemma OpenIs(j: Job, st: State, cs: int, m: Moment)
    ensures j.Begin(Cfg(st, Opening(cs)), m) == j.AfterOpen(st.At(st.now + m.took), cs, m.open)
  {
  }

  lemma SpokenIs(j: Job, st: State, pc: Pc, m: Moment)
    requires pc.Waiting? && pc.watching && (m.wake.Closed? || m.wake.Delivered?)
    ensures var st1 := st.At(st.now + m.wake.after);
            j.Step(Cfg(st, pc), m) ==
            if m.wake.Delivered? then j.Finish(j.OnEvent(st1, pc, m.wake.event))
            else if st1.now - pc.cycleStart < MIN_CYCLE then j.SleepHead(st1, pc.cycleStart + MIN_CYCLE)
            else Cfg(st1, Top)
  {
  }

  class Run {
    const s: Spec
    const start: int
    const tracker: Tracker
    const world: World
    var cache: map<string, Obj>
    var last: Outcome
    var noteKind: Note
    var emitted: bool
    var lastKey: Option<StateKey>
    var lastEmit: int
    var unauthRetried: bool
    var backoff: int
    ghost var emits: seq<Emission>
    ghost var log: seq<Entry>

    ghost function View(): State
      reads this, tracker, world
    {
      State(world.now, tracker.View(), cache, last, noteKind, emitted, lastKey, lastEmit,
            unauthRetried, backoff, tracker.history, emits, log)
    }

    ghost function J(): Job {
      Job(s, start)
    }

    ghost predicate Valid()
      reads this, tracker
    {
      tracker.Valid() && Mirror.Keyed(cache)
    }

    constructor (s: Spec, world: World)
      ensures Valid() && fresh(tracker) && this.s == s && this.world == world && start == world.now
      ensures Cfg(View(), Top) == J().Init()
    {
      this.s, this.world, start := s, world, world.now;
      tracker := new Tracker(s.settle);
      cache, last, noteKind := map[], NO_OUTCOME, NoNote;
      emitted, lastKey, lastEmit := false, None, 0;
      unauthRetried, backoff := false, 0;
      emits, log := [], [];
    }

    function Deadline(): int {
      start + s.timeout
    }

    /** Where the machine stands after the tape from c, as seen from here: ended
        (or out of moments) with this result, or back at the top of the loop. */
    ghost predicate Agrees(c: Cfg, tape: seq<Moment>, r: Ending, done: bool)
      reads this, tracker, world
    {
      if done then J().RunFrom(c, tape).st == View() && r == Report(J().RunFrom(c, tape))
      else J().RunFrom(c, tape) == J().RunFrom(Cfg(View(), Top), world.tape)
    }

    // ---- Reporting ----

    function StateKeyNow(): StateKey
      reads this
    {
      StateKey(last.verdict, noteKind)
    }

    method Emit(now: int)
      requires now == world.now
      modifies this`emitted, this`lastKey, this`lastEmit, this`emits
      ensures View() == old(View()).Emit()
    {
      emitted, lastKey, lastEmit := true, Some(StateKeyNow()), now;
      emits := emits + [Emission(now, StateKeyNow())];
    }

    method EmitFinal(now: int)
      requires now == world.now
      modifies this`emitted, this`lastKey, this`lastEmit, this`emits
      ensures View() == old(View()).EmitFinal()
    {
      if emitted && lastKey == Some(StateKeyNow()) && lastEmit == now {
        return;
      }
      Emit(now);
    }

    method Heartbeat(now: int)
      requires now == world.now
      modifies this`emitted, this`lastKey, this`lastEmit, this`emits
      ensures View() == J().Heartbeat(old(View()))
    {
      if emitted && now - lastEmit >= s.progressInterval {
        Emit(now);
      }
    }

    function NextHeartbeat(): int
      reads this
    {
      if !emitted then Deadline() else lastEmit + s.progressInterval
    }

    method SetNote(k: Note)
      modifies this`noteKind
      ensures noteKind == k
    {
      noteKind := k;
    }

    // ---- Endings ----

    method TimeOut() returns (r: Ending)
      modifies this`emitted, this`lastKey, this`lastEmit, this`emits
      ensures Cfg(View(), Done(r)) == J().TimeOut(old(View()))
    {
      EmitFinal(world.now);
      r := TimedOut;
    }

    method Fatal(ending: Ending) returns (r: Ending)
      modifies this
      ensures Cfg(View(), Done(r)) == J().Fatal(old(View()), ending)
      ensures r == ending && cache == old(cache)
    {
      last := FATAL_OUTCOME;
      SetNote(NoNote);
      EmitFinal(world.now);
      r := ending;
    }

    // ---- Observing ----

    /** The cached objects, in whatever order the map gives them. */
    method Walk() returns (objs: seq<Obj>)
      requires Valid()
      ensures Lists(objs, cache.Values)
    {
      var left := cache.Keys;
      objs := [];
      while left != {}
        invariant left <= cache.Keys
        invariant Walked(cache, left, objs)
        decreases |left|
      {
        var k :| k in left;
        WalkOn(cache, left, objs, k);
        objs := objs + [cache[k]];
        left := left - {k};
      }
      WalkedAll(cache, objs);
    }

    method EvaluateCache() returns (out: Outcome)
      requires Valid()
      ensures out == J().Evaluated(cache)
    {
      var objs := Walk();
      Mirror.KeyedRefsDiffer(cache);
      Verdicts.AnyListing(s, cache.Values, objs);
      out := Evaluate(s, objs);
    }

    method Record(out: Outcome) returns (settled: bool)
      requires Valid()
      modifies this`last, tracker
      ensures Valid()
      ensures View() == old(View()).(last := out, clock := old(View()).clock.Observe(world.now, out.verdict),
                                     obs := old(View()).obs + [Sample(world.now, out.verdict)])
      ensures settled == View().clock.Settled(world.now)
    {
      last := out;
      var changed;
      settled, changed := tracker.Observe(world.now, out.verdict);
    }

    /** Takes in an outcome; `done` when that ends the wait. */
    method Observe(out: Outcome) returns (r: Ending, done: bool)
      requires Valid()
      modifies this`last, this`emitted, this`lastKey, this`lastEmit, this`emits, tracker
      ensures Valid()
      ensures (View(), if done then Some(r) else None) == J().Observed(old(View()), out)
      ensures !done ==> r == Unfinished
    {
      var now := world.now;
      ghost var st := View();
      var settled := Record(out);
      if lastKey != Some(StateKeyNow()) {
        Emit(now);
      }
      assert View() == J().Noticed(st, out);
      if !settled {
        return Unfinished, false;
      }
      EmitFinal(now);
      if out.verdict == Success {
        return Succeeded(noteKind == NotServedNote), true;
      }
      return Failed, true;
    }

    // ---- Blocking ----

    /** One turn of the sleep loop up to the point where it blocks: timed out,
        over, or about to block until `next`. */
    method SleepTurn(until: int) returns (pc: Pc)
      requires Valid()
      modifies this`emitted, this`lastKey, this`lastEmit, this`emits
      ensures Valid()
      ensures Cfg(View(), pc) == J().SleepHead(old(View()), until)
    {
      var now := world.now;
      if now >= Deadline() {
        var r := TimeOut();
        return Done(r);
      }
      Heartbeat(now);
      if now >= until {
        return Top;
      }
      pc := Sleeping(until, Min(Min(until, Deadline()), NextHeartbeat()));
    }

    /** One turn of a sleep and the block that follows it. Unless the wait is over,
        or the sleep is (`leave`), it goes on. */
    method SleepOnce(until: int) returns (r: Ending, done: bool, leave: bool)
      requires Valid()
      modifies this, tracker, world
      ensures Valid()
      ensures var c := J().SleepHead(old(View()), until);
              if done || leave then Agrees(c, old(world.tape), r, done)
              else
                && |world.tape| < |old(world.tape)|
                && J().RunFrom(c, old(world.tape)) == J().RunFrom(J().SleepHead(View(), until), world.tape)
      ensures |world.tape| <= |old(world.tape)|
    {
      r, done, leave := Unfinished, false, true;
      var pc := SleepTurn(until);
      ghost var c, tape := Cfg(View(), pc), world.tape;
      if pc.Done? {
        DoneStays(J(), c, world.tape);
        return pc.ending, true, true;
      }
      if pc.Top? {
        return;
      }
      var m, ok := world.Next();
      if !ok {
        return Unfinished, true, true;
      }
      RunUnfolds(J(), c, tape);
      var cancelled := SleepWoken(m.wake, pc, m);
      if cancelled {
        DoneStays(J(), Cfg(View(), Done(Cancelled)), world.tape);
        return Cancelled, true, true;
      }
      leave := false;
    }

    /** Sleeps for `d`. The wait may end, or be reported on, in its course. */
    method Sleep(d: int) returns (r: Ending, done: bool)
      requires Valid()
      modifies this, tracker, world
      ensures Valid()
      ensures Agrees(J().SleepHead(old(View()), old(world.now) + d), old(world.tape), r, done)
      ensures |world.tape| <= |old(world.tape)|
    {
      var until := world.now + d;
      ghost var goal := J().RunFrom(J().SleepHead(View(), until), world.tape);
      while true
        invariant Valid()
        invariant J().RunFrom(J().SleepHead(View(), until), world.tape) == goal
        invariant |world.tape| <= |old(world.tape)|
        decreases |world.tape|
      {
        var leave;
        r, done, leave := SleepOnce(until);
        if done || leave {
          return;
        }
      }
    }

    /** What wakes a sleep: its timer, or cancellation. */
    method SleepWoken(wake: Wake, pc: Pc, ghost m: Moment) returns (cancelled: bool)
      requires pc.Sleeping? && wake == m.wake
      modifies world`now
      ensures J().Step(Cfg(old(View()), pc), m) ==
              if cancelled then Cfg(View(), Done(Cancelled)) else J().SleepHead(View(), pc.until)
    {
      match wake {
        case CtxDone(after) =>
          world.now := world.now + after;
          return true;
        case Timer(late) =>
          world.now := pc.wake + late;
        case _ =>
          world.now := pc.wake;
      }
      return false;
    }

    method NextBackoff()
      requires Valid() && s.Runnable()
      modifies this`backoff
      ensures backoff == J().NextBackoff(old(backoff)) && Valid()
    {
      if backoff == 0 {
        backoff := MIN_BACKOFF;
      } else {
        backoff := backoff * 2;
      }
      if backoff > s.pollInterval {
        backoff := s.pollInterval;
      }
    }

    /** The pending observation of an error, and the delay before the next try. */
    method Pend()
      requires Valid() && s.Runnable()
      modifies this, tracker
      ensures Valid()
      ensures var st := J().Observed(old(View()).(note := ApiErrorNote), NO_OUTCOME).0;
              View() == st.(backoff := J().NextBackoff(old(backoff)))
    {
      SetNote(ApiErrorNote);
      ghost var st := View();
      var r, done := Observe(NO_OUTCOME);
      ObservedKept(J(), st, NO_OUTCOME);
      ghost var st1 := View();
      NextBackoff();
      assert View() == st1.(backoff := J().NextBackoff(st.backoff));
    }

    /** Any error but 403 and 401: a pending observation, then a longer and longer sleep. */
    method Retry() returns (r: Ending, done: bool)
      requires Valid() && s.Runnable()
      modifies this, tracker, world
      ensures Valid()
      ensures Agrees(J().Finish(Look(old(View()).(note := ApiErrorNote), NO_OUTCOME, BackOff)), old(world.tape), r, done)
      ensures |world.tape| <= |old(world.tape)|
    {
      RetryIs(J(), View().(note := ApiErrorNote));
      Pend();
      r, done := Sleep(backoff);
    }

    method FatalNow(ending: Ending) returns (r: Ending, done: bool)
      requires Valid() && ending != TimedOut
      modifies this
      ensures Valid()
      ensures Agrees(J().Finish(Quit(old(View()), ending)), world.tape, r, done)
    {
      DoneStays(J(), J().Finish(Quit(View(), ending)), world.tape);
      r := Fatal(ending);
      done := true;
    }

    /** The error policy. */
    method ApiError(e: ApiError) returns (r: Ending, done: bool)
      requires Valid() && s.Runnable()
      modifies this, tracker, world
      ensures Valid()
      ensures Agrees(J().Finish(J().OnError(old(View()), e)), old(world.tape), r, done)
      ensures |world.tape| <= |old(world.tape)|
    {
      log := log + [Entry(world.now, Rejected(e))];
      match e {
        case Forbidden =>
          r, done := FatalNow(AccessDenied);
        case Unauthorized =>
          if !unauthRetried {
            unauthRetried := true;
            return Unfinished, false;
          }
          r, done := FatalNow(NotAuthenticated);
        case _ =>
          r, done := Retry();
      }
    }

    // ---- The wait phase ----

    /** One turn of the wait phase up to the point where it blocks. */
    method WaitTurn(watching: bool, cycleStart: int, resyncAt: int) returns (pc: Pc)
      requires Valid()
      modifies this`last, this`emitted, this`lastKey, this`lastEmit, this`emits, tracker
      ensures Valid()
      ensures Cfg(View(), pc) == J().WaitHead(old(View()), watching, cycleStart, resyncAt)
    {
      var now := world.now;
      if now >= Deadline() {
        var r := TimeOut();
        return Done(r);
      }
      Heartbeat(now);
      var dl := tracker.Deadline();
      if dl.Some? && now >= dl.value {
        if !watching {
          return Top;  // the verdict may be stale: look again first
        }
        var r, done := Observe(last);  // a change would have been reported
        if done {
          return Done(r);
        }
      }
      if now >= resyncAt {
        return Top;
      }
      var next := NextWake(resyncAt);
      pc := Waiting(watching, cycleStart, resyncAt, next);
    }

    /** What falls due first: the resync, the deadline, a report, or the verdict. */
    method NextWake(resyncAt: int) returns (next: int)
      requires Valid()
      ensures var earliest := Min(Min(resyncAt, J().Deadline()), J().NextHeartbeat(View()));
              var dl := View().clock.Deadline();
              next == if dl.Some? && dl.value > world.now then Min(earliest, dl.value) else earliest
    {
      next := Min(Min(resyncAt, Deadline()), NextHeartbeat());
      var dl := tracker.Deadline();
      if dl.Some? && dl.value > world.now {
        next := Min(next, dl.value);
      }
    }

    /** A watch event. Unless the wait ended, or goes back to the top (`leave`),
        it keeps waiting. */
    method HandleEvent(ev: Event, ghost pc: Pc) returns (r: Ending, done: bool, leave: bool)
      requires Valid() && s.Runnable() && pc.Waiting?
      modifies this, tracker, world
      ensures Valid()
      ensures var c := J().Finish(J().OnEvent(old(View()), pc, ev));
              if done || leave then Agrees(c, old(world.tape), r, done)
              else c == J().WaitHead(View(), pc.watching, pc.cycleStart, pc.resyncAt) && world.tape == old(world.tape)
      ensures |world.tape| <= |old(world.tape)|
    {
      r, done, leave := Unfinished, false, false;
      match ev {
        case Bookmark =>
        case ErrorEvent(e) =>
          leave := true;
          if e == Expired {
            log := log + [Entry(world.now, Relist)];
          } else {
            r, done := ApiError(e);
          }
        case _ =>
          ghost var c := J().Finish(J().OnEvent(View(), pc, ev));
          r, done := Change(ev, pc);
          if done {
            DoneStays(J(), c, world.tape);
          }
      }
    }

    method Apply(ev: Event)
      requires Valid()
      modifies this`log, this`cache
      ensures Valid()
      ensures View() == old(View()).Logged(Changed(ev)).(cache := Applied(old(cache), ev))
    {
      log := log + [Entry(world.now, Changed(ev))];
      match ev {
        case Upsert(o) => cache := cache[KeyOf(o) := o];
        case Remove(o) => cache := cache - {KeyOf(o)};
        case _ =>
      }
    }

    /** An event that may change the selected objects: apply it, evaluate, observe. */
    method Change(ev: Event, ghost pc: Pc) returns (r: Ending, done: bool)
      requires Valid() && pc.Waiting? && !ev.Bookmark? && !ev.ErrorEvent?
      modifies this, tracker
      ensures Valid()
      ensures J().Finish(J().OnEvent(old(View()), pc, ev)) ==
              if done then Cfg(View(), Done(r))
              else J().Continue(View(), KeepWaiting(pc.watching, pc.cycleStart, pc.resyncAt))
    {
      ghost var turn := J().OnEvent(View(), pc, ev);
      ghost var next := KeepWaiting(pc.watching, pc.cycleStart, pc.resyncAt);
      Apply(ev);
      var out := EvaluateCache();
      ghost var st := View();
      assert turn == Look(st, out, next);
      r, done := Observe(out);
      assert (View(), if done then Some(r) else None) == J().Observed(st, out);
    }

    /** One turn of the wait phase and the block that follows it. Unless the wait
        is over, or it is time to list again (`leave`), the phase goes on. */
    method WaitOnce(watching: bool, cycleStart: int, resyncAt: int) returns (r: Ending, done: bool, leave: bool)
      requires Valid() && s.Runnable()
      modifies this, tracker, world
      ensures Valid()
      ensures var c := J().WaitHead(old(View()), watching, cycleStart, resyncAt);
              if done || leave then Agrees(c, old(world.tape), r, done)
              else
                && |world.tape| < |old(world.tape)|
                && J().RunFrom(c, old(world.tape)) ==
                   J().RunFrom(J().WaitHead(View(), watching, cycleStart, resyncAt), world.tape)
      ensures |world.tape| <= |old(world.tape)|
    {
      r, done, leave := Unfinished, false, true;
      var pc := WaitTurn(watching, cycleStart, resyncAt);
      ghost var c, tape := Cfg(View(), pc), world.tape;
      if pc.Done? {
        DoneStays(J(), c, world.tape);
        return pc.ending, true, true;
      }
      if pc.Top? {
        return;
      }
      var m, ok := world.Next();
      if !ok {
        return Unfinished, true, true;
      }
      RunUnfolds(J(), c, tape);
      r, done, leave := Woken(m.wake, pc, m);
    }

    /** Waits, turn after turn, for as long as neither a list is due nor the wait over. */
    method WaitPhase(watching: bool, cycleStart: int) returns (r: Ending, done: bool)
      requires Valid() && s.Runnable()
      modifies this, tracker, world
      ensures Valid()
      ensures Agrees(J().Continue(old(View()), StartWait(watching, cycleStart)), old(world.tape), r, done)
      ensures |world.tape| <= |old(world.tape)|
    {
      var resyncAt := world.now + s.pollInterval;
      ghost var goal := J().RunFrom(J().WaitHead(View(), watching, cycleStart, resyncAt), world.tape);
      while true
        invariant Valid()
        invariant J().RunFrom(J().WaitHead(View(), watching, cycleStart, resyncAt), world.tape) == goal
        invariant |world.tape| <= |old(world.tape)|
        decreases |world.tape|
      {
        var leave;
        r, done, leave := WaitOnce(watching, cycleStart, resyncAt);
        if done || leave {
          return;
        }
      }
    }

    /** A watch that closes ends its cycle, which lasts a second at least. */
    method WatchClosed(cycleStart: int) returns (r: Ending, done: bool)
      requires Valid()
      modifies this, tracker, world
      ensures Valid()
      ensures var c := if old(world.now) - cycleStart < MIN_CYCLE
                       then J().SleepHead(old(View()), cycleStart + MIN_CYCLE) else Cfg(old(View()), Top);
              Agrees(c, old(world.tape), r, done)
      ensures |world.tape| <= |old(world.tape)|
    {
      var since := world.now - cycleStart;
      if since < MIN_CYCLE {
        r, done := Sleep(MIN_CYCLE - since);
      } else {
        r, done := Unfinished, false;
      }
    }

    /** The watch has something to say: an event, or that it is closed. */
    method WatchSpoke(wake: Wake, pc: Pc, ghost m: Moment) returns (r: Ending, done: bool, leave: bool)
      requires Valid() && s.Runnable() && pc.Waiting? && pc.watching && wake == m.wake
      requires wake.Closed? || wake.Delivered?
      modifies this, tracker, world
      ensures Valid()
      ensures var c := J().Step(Cfg(old(View()), pc), m);
              if done || leave then Agrees(c, old(world.tape), r, done)
              else c == J().WaitHead(View(), pc.watching, pc.cycleStart, pc.resyncAt) && world.tape == old(world.tape)
      ensures |world.tape| <= |old(world.tape)|
    {
      ghost var st := View();
      ghost var c := J().Step(Cfg(st, pc), m);
      SpokenIs(J(), st, pc, m);
      world.now := world.now + wake.after;
      assert View() == st.At(st.now + wake.after);
      if wake.Closed? {
        assert c == if world.now - pc.cycleStart < MIN_CYCLE
                    then J().SleepHead(View(), pc.cycleStart + MIN_CYCLE) else Cfg(View(), Top);
        leave := true;
        r, done := WatchClosed(pc.cycleStart);
      } else {
        assert c == J().Finish(J().OnEvent(View(), pc, wake.event));
        r, done, leave := HandleEvent(wake.event, pc);
      }
    }

    /** What wakes the wait phase. Without a watch, only its timer and cancellation do. */
    method Woken(wake: Wake, pc: Pc, ghost m: Moment) returns (r: Ending, done: bool, leave: bool)
      requires Valid() && s.Runnable() && pc.Waiting? && wake == m.wake
      modifies this, tracker, world
      ensures Valid()
      ensures var c := J().Step(Cfg(old(View()), pc), m);
              if done || leave then Agrees(c, old(world.tape), r, done)
              else c == J().WaitHead(View(), pc.watching, pc.cycleStart, pc.resyncAt) && world.tape == old(world.tape)
      ensures |world.tape| <= |old(world.tape)|
    {
      r, done, leave := Unfinished, false, false;
      if wake.CtxDone? {
        DoneStays(J(), J().Step(Cfg(View(), pc), m), world.tape);
        world.now := world.now + wake.after;
        r, done := Cancelled, true;
      } else if wake.Timer? {
        world.now := pc.wake + wake.late;
      } else if !pc.watching {
        world.now := pc.wake;
      } else {
        r, done, leave := WatchSpoke(wake, pc, m);
      }
    }

    // ---- One cycle ----

    /** The state a successful list leaves, before it is observed: the error
        allowances restored, the cache and the note replaced. */
    method Restock(served: bool, items: seq<Obj>)
      requires Valid()
      modifies this
      ensures Valid()
      ensures View() == old(View()).Logged(Refreshed(served, items)).(
                          unauthRetried := false, backoff := 0,
                          cache := if served then CacheOf(items) else map[],
                          note := if served then NoNote else NotServedNote)
    {
      log := log + [Entry(world.now, Refreshed(served, items))];
      unauthRetried, backoff := false, 0;
      cache := map[];
      if served {
        SetNote(NoNote);
        for i := 0 to |items|
          modifies this`cache
          invariant cache == CacheOf(items[..i])
        {
          assert items[..i + 1][..i] == items[..i];
          cache := cache[KeyOf(items[i]) := items[i]];
        }
        assert items[..|items|] == items;
        Mirror.CachedKeys(items);
      } else {
        SetNote(NotServedNote);
      }
    }

    /** A successful list, or a kind nobody serves. */
    method Refresh(served: bool, items: seq<Obj>, ghost next: Next) returns (r: Ending, done: bool)
      requires Valid()
      modifies this, tracker
      ensures Valid()
      ensures J().Finish(J().OnRefresh(old(View()), served, items, next)) ==
              if done then Cfg(View(), Done(r)) else J().Continue(View(), next)
    {
      ghost var turn := J().OnRefresh(View(), served, items, next);
      Restock(served, items);
      var out := EvaluateCache();
      assert turn == Look(View(), out, next);
      r, done := Observe(out);
    }

    /** An API call: it takes its time, and the world answers. */
    method Call() returns (m: Moment, ok: bool)
      modifies world
      ensures ok <==> old(world.tape) != []
      ensures ok ==>
                && m == old(world.tape)[0] && world.tape == old(world.tape)[1..]
                && View() == old(View()).At(old(world.now) + m.took)
      ensures !ok ==> world.tape == old(world.tape) && View() == old(View())
    {
      m, ok := world.Next();
      if ok {
        world.now := world.now + m.took;
      }
    }

    /** The same under the request time-out. */
    method Request() returns (m: Moment, ok: bool)
      modifies world
      ensures ok <==> old(world.tape) != []
      ensures ok ==>
                && m == old(world.tape)[0] && world.tape == old(world.tape)[1..]
                && View() == old(View()).At(old(world.now) + Spent(m.took))
      ensures !ok ==> world.tape == old(world.tape) && View() == old(View())
    {
      m, ok := world.Next();
      if ok {
        world.now := world.now + Spent(m.took);
      }
    }

    /** What the answer to opening a watch leads to. */
    method Opened(refused: Option<ApiError>, cycleStart: int) returns (r: Ending, done: bool)
      requires Valid() && s.Runnable()
      modifies this, tracker, world
      ensures Valid()
      ensures Agrees(J().Finish(J().AfterOpen(old(View()), cycleStart, refused)), old(world.tape), r, done)
      ensures |world.tape| <= |old(world.tape)|
    {
      if refused.Some? {
        if refused.value == Expired {
          log := log + [Entry(world.now, Relist)];
          return Unfinished, false;
        }
        r, done := ApiError(refused.value);
        return;
      }
      r, done := WaitPhase(true, cycleStart);
    }

    method OpenWatch(cycleStart: int) returns (r: Ending, done: bool)
      requires Valid() && s.Runnable()
      modifies this, tracker, world
      ensures Valid()
      ensures Agrees(Cfg(old(View()), Opening(cycleStart)), old(world.tape), r, done)
      ensures |world.tape| <= |old(world.tape)|
    {
      ghost var st, tape := View(), world.tape;
      var m, ok := Call();
      if !ok {
        return Unfinished, true;
      }
      OpenIs(J(), st, cycleStart, m);
      TurnRuns(J(), Cfg(st, Opening(cycleStart)), J().AfterOpen(View(), cycleStart, m.open), tape);
      r, done := Opened(m.open, cycleStart);
    }

    /** What the answer to a list leads to. */
    method Listed(reply: Reply<seq<Obj>>, cycleStart: int) returns (r: Ending, done: bool)
      requires Valid() && s.Runnable()
      modifies this, tracker, world
      ensures Valid()
      ensures Agrees(J().Finish(J().AfterList(old(View()), cycleStart, reply)), old(world.tape), r, done)
      ensures |world.tape| <= |old(world.tape)|
    {
      if reply.Err? {
        r, done := ApiError(reply.error);
        return;
      }
      ghost var c := J().Finish(J().AfterList(View(), cycleStart, reply));
      r, done := Refresh(true, reply.value, J().AfterListing(cycleStart));
      if done {
        DoneStays(J(), c, world.tape);
      } else if s.watch {
        r, done := OpenWatch(cycleStart);
      } else {
        r, done := WaitPhase(false, cycleStart);
      }
    }

    method List(cycleStart: int) returns (r: Ending, done: bool)
      requires Valid() && s.Runnable()
      modifies this, tracker, world
      ensures Valid()
      ensures Agrees(Cfg(old(View()), Listing(cycleStart)), old(world.tape), r, done)
      ensures |world.tape| <= |old(world.tape)|
    {
      ghost var st, tape := View(), world.tape;
      var m, ok := Request();
      if !ok {
        return Unfinished, true;
      }
      ListIs(J(), st, cycleStart, m);
      TurnRuns(J(), Cfg(st, Listing(cycleStart)), J().AfterList(View(), cycleStart, Received(m.took, m.list)), tape);
      r, done := Listed(Received(m.took, m.list), cycleStart);
    }

    /** The kind and the scope do not fit together. */
    predicate ScopeError(res: Resolution)
      ensures ScopeError(res) <==> J().ScopeError(res)
    {
      if !res.namespaced then s.namespace != "" else s.Single() && s.namespace == ""
    }

    /** What the answer to resolving the kind leads to. */
    method Resolved(reply: Reply<Resolution>, cycleStart: int) returns (r: Ending, done: bool)
      requires Valid() && s.Runnable()
      modifies this, tracker, world
      ensures Valid()
      ensures Agrees(J().Finish(J().AfterResolve(old(View()), cycleStart, reply)), old(world.tape), r, done)
      ensures |world.tape| <= |old(world.tape)|
    {
      if reply.Err? {
        r, done := ApiError(reply.error);
        return;
      }
      ghost var c := J().Finish(J().AfterResolve(View(), cycleStart, reply));
      var res := reply.value;
      if res.served {
        if ScopeError(res) {
          r, done := FatalNow(InvalidScope);
          return;
        }
        r, done := List(cycleStart);
        return;
      }
      r, done := Refresh(false, [], StartWait(false, cycleStart));
      if done {
        DoneStays(J(), c, world.tape);
      } else {
        r, done := WaitPhase(false, cycleStart);
      }
    }

    method Resolve(cycleStart: int) returns (r: Ending, done: bool)
      requires Valid() && s.Runnable()
      modifies this, tracker, world
      ensures Valid()
      ensures Agrees(Cfg(old(View()), Resolving(cycleStart)), old(world.tape), r, done)
      ensures |world.tape| <= |old(world.tape)|
    {
      ghost var st, tape := View(), world.tape;
      var m, ok := Request();
      if !ok {
        return Unfinished, true;
      }
      ResolveIs(J(), st, cycleStart, m);
      TurnRuns(J(), Cfg(st, Resolving(cycleStart)), J().AfterResolve(View(), cycleStart, Received(m.took, m.resolve)), tape);
      r, done := Resolved(Received(m.took, m.resolve), cycleStart);
    }

    /** Lists and waits, over and over, until the wait is over. */
    method Loop() returns (r: Ending)
      requires Valid() && s.Runnable()
      modifies this, tracker, world
      ensures var c := J().RunFrom(Cfg(old(View()), Top), old(world.tape)); c.st == View() && r == Report(c)
    {
      ghost var goal := J().RunFrom(Cfg(View(), Top), world.tape);
      while true
        invariant Valid()
        invariant J().RunFrom(Cfg(View(), Top), world.tape) == goal
        decreases |world.tape|
      {
        ghost var c := Cfg(View(), Top);
        var m, ok := world.Next();
        if !ok {
          return Unfinished;
        }
        ghost var d := J().Step(c, m);
        assert goal == J().RunFrom(d, world.tape);
        if m.cancelled {
          DoneStays(J(), d, world.tape);
          return Cancelled;
        }
        if world.now >= Deadline() {
          DoneStays(J(), d, world.tape);
          r := TimeOut();
          return;
        }
        var done;
        r, done := Resolve(world.now);
        if done {
          return;
        }
      }
    }
  }

  /** Runs a wait. Its ending is the machine's; a settled one has held its verdict
      for the settle window; with moments enough for its stalls, the wait ends;
      and it ends as cancelled exactly when the world cancels it. */
  method Wait(s: Spec, world: World) returns (r: Ending)
    requires s.Runnable()
    modifies world
    ensures r == Report(Job(s, old(world.now)).Run(old(world.tape)))
    ensures var c := Job(s, old(world.now)).Run(old(world.tape));
            Settled(r) ==> exists i: nat :: HeldThrough(Job(s, old(world.now)), c, VerdictOf(r), i)
    ensures var j := Job(s, old(world.now));
            |old(world.tape)| >= 6 * s.timeout + 2 + 6 * Stalls(j, j.Init(), old(world.tape)) ==> !r.Unfinished?
    ensures var j := Job(s, old(world.now));
            r == Cancelled <==> exists k: nat :: Endings.CancelledAt(j, j.Init(), old(world.tape), k)
  {
    ghost var j, tape := Job(s, world.now), world.tape;
    var x := new Run(s, world);
    r := x.Loop();
    if Settled(r) {
      ghost var i := SettleSoundness(j, tape);
    }
    Endings.RunCancelled(j, j.Init(), tape);
    if |tape| >= 6 * s.timeout + 2 + 6 * Stalls(j, j.Init(), tape) {
      EveryRunEnds(j, tape);
      DoneIsEnded(j, tape);
    }
  }
}
