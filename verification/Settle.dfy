/**
 How long a verdict has lasted. `Tracker` is the object the run keeps and
 updates; `Clock` is its value; and `HeldFor` asks the same question of a whole
 observation history, with no state carried along.
 */
module Settle {
  import opened Common

  /** One observation: the verdict seen at a time. */
  datatype Sample = Sample(at: int, verdict: Verdict)

  datatype Clock = Clock(settle: int, started: bool, state: Verdict, since: int) {

    function Observe(now: int, v: Verdict): Clock {
      if !started || v != state then Clock(settle, true, v, now) else this
    }

    predicate Settled(now: int) {
      started && state != Pending && now - since >= settle
    }

    function Deadline(): Option<int> {
      if !started || state == Pending then None else Some(since + settle)
    }
  }

  function Fresh(settle: int): Clock {
    Clock(settle, false, Pending, 0)
  }

  /** The clock after a history of observations. */
  ghost function Replay(settle: int, h: seq<Sample>): Clock {
    if h == [] then Fresh(settle)
    else var n := |h| - 1; Replay(settle, h[..n]).Observe(h[n].at, h[n].verdict)
  }

  // ---- What the clock means, said of the history alone ----

  ghost predicate NonDecreasing(h: seq<Sample>) {
    forall i, j :: 0 <= i <= j < |h| ==> h[i].at <= h[j].at
  }

  /** From index i on, every observation carries the verdict of the last one. */
  ghost predicate ConstantFrom(h: seq<Sample>, i: nat) {
    i < |h| && forall j :: i <= j < |h| ==> h[j].verdict == h[|h| - 1].verdict
  }

  /** i starts the longest constant stretch that ends the history. */
  ghost predicate StretchStart(h: seq<Sample>, i: nat) {
    ConstantFrom(h, i) && (i == 0 || h[i - 1].verdict != h[i].verdict)
  }

  /** The history ends in a stretch of one success or failure, without a
      detour through pending, that began at least `settle` before `now`. */
  ghost predicate HeldFor(h: seq<Sample>, now: int, settle: int) {
    exists i: nat :: ConstantFrom(h, i) && h[i].verdict != Pending && now - h[i].at >= settle
  }

  lemma ReplaySnoc(settle: int, h: seq<Sample>, o: Sample)
    ensures Replay(settle, h + [o]) == Replay(settle, h).Observe(o.at, o.verdict)
  {
    assert (h + [o])[..|h|] == h;
  }

  /** `since` is the time of the first observation of the longest constant stretch. */
  lemma {:induction false} ClockReadsStretch(settle: int, h: seq<Sample>, i: nat)
    requires StretchStart(h, i)
    ensures Replay(settle, h) == Clock(settle, true, h[|h| - 1].verdict, h[i].at)
  {
    var n := |h| - 1;
    if i < n {
      assert h[..n][n - 1].verdict == h[n].verdict;
      ClockReadsStretch(settle, h[..n], i);
    } else if n > 0 {
      var k := LastStretch(h[..n]);
      ClockReadsStretch(settle, h[..n], k);
    }
  }

  lemma {:induction false} LastStretch(h: seq<Sample>) returns (i: nat)
    requires h != []
    ensures StretchStart(h, i)
  {
    var n := |h| - 1;
    if n > 0 && h[n - 1].verdict == h[n].verdict {
      i := LastStretch(h[..n]);
    } else {
      i := n;
    }
  }

  /** The online clock agrees with the definition over the whole history. */
  lemma SettledIffHeld(settle: int, h: seq<Sample>, now: int)
    requires NonDecreasing(h)
    ensures Replay(settle, h).Settled(now) <==> HeldFor(h, now, settle)
    ensures HeldFor(h, now, settle) <==>
            Replay(settle, h).Deadline().Some? && Replay(settle, h).Deadline().value <= now
  {
    if h != [] {
      var i := LastStretch(h);
      ClockReadsStretch(settle, h, i);
      if HeldFor(h, now, settle) {
        var k: nat :| ConstantFrom(h, k) && h[k].verdict != Pending && now - h[k].at >= settle;
        assert i == 0 || h[i - 1].verdict != h[|h| - 1].verdict;
        assert i <= k;
      }
    }
  }

  class Tracker {
    const settle: int
    var started: bool
    var state: Verdict
    var since: int
    ghost var history: seq<Sample>

    ghost function View(): Clock
      reads this
    {
      Clock(settle, started, state, since)
    }

    ghost predicate Valid()
      reads this
    {
      View() == Replay(settle, history)
    }

    constructor (settle: int)
      ensures Valid() && this.settle == settle && history == []
      ensures View() == Fresh(settle)
    {
      this.settle := settle;
      started, state, since := false, Pending, 0;
      history := [];
    }

    /** Records a verdict. `settled` and `changed` are answers about the history. */
    method Observe(now: int, v: Verdict) returns (settled: bool, changed: bool)
      requires Valid()
      modifies this
      ensures Valid()
      ensures history == old(history) + [Sample(now, v)]
      ensures View() == old(View()).Observe(now, v)
      ensures settled == View().Settled(now)
      ensures NonDecreasing(history) ==> (settled <==> HeldFor(history, now, settle))
      ensures changed <==> StretchStart(history, |history| - 1)
    {
      changed := false;
      ReplaySnoc(settle, history, Sample(now, v));
      ghost var before := history;
      if before != [] {
        var i := LastStretch(before);
        ClockReadsStretch(settle, before, i);
      }
      if !started || v != state {
        changed := true;
        started, state, since := true, v, now;
      }
      history := history + [Sample(now, v)];
      settled := Settled(now);
      if NonDecreasing(history) {
        SettledIffHeld(settle, history, now);
      }
    }

    /** The fields read the stretch that ends the history, whichever it is. */
    lemma ReadsStretch()
      requires Valid()
      ensures started <==> history != []
      ensures forall i: nat :: StretchStart(history, i) ==>
                started && state == history[i].verdict && since == history[i].at
    {
      forall i: nat | StretchStart(history, i)
        ensures started && state == history[i].verdict && since == history[i].at
      {
        ClockReadsStretch(settle, history, i);
      }
      if history != [] {
        var i := LastStretch(history);
        assert StretchStart(history, i);
      }
    }

    predicate Settled(now: int)
      requires Valid()
      reads this
      ensures NonDecreasing(history) ==> (Settled(now) <==> HeldFor(history, now, settle))
    {
      assert NonDecreasing(history) ==> (View().Settled(now) <==> HeldFor(history, now, settle)) by {
        if NonDecreasing(history) {
          SettledIffHeld(settle, history, now);
        }
      }
      started && state != Pending && now - since >= settle
    }

    /** The age of the stretch that ends the history; zero for an empty one. */
    function Held(now: int): (d: int)
      requires Valid()
      reads this
      ensures history == [] ==> d == 0
      ensures forall i: nat :: StretchStart(history, i) ==> d == now - history[i].at
    {
      ReadsStretch();
      if !started then 0 else now - since
    }

    /** The end of the window opened by the stretch that ends the history, if it is
        a stretch of successes or failures. */
    function Deadline(): (d: Option<int>)
      requires Valid()
      reads this
      ensures history == [] ==> d == None
      ensures forall i: nat :: StretchStart(history, i) ==>
                d == if history[i].verdict == Pending then None else Some(history[i].at + settle)
    {
      ReadsStretch();
      if !started || state == Pending then None else Some(since + settle)
    }
  }
}
