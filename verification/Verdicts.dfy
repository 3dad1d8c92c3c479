/** What the evaluator's verdict means, for every spec and every snapshot. */
module Verdicts {
  import opened Common
  import opened Objects
  import opened Sorting
  import opened WaitSpec
  import opened Evaluator

  // ---- Order independence ----

  /** Two listings of the same distinctly named objects have the same outcome. */
  lemma OutcomeIgnoresOrder(s: Spec, a: seq<Obj>, b: seq<Obj>)
    requires DistinctRefs(a) && multiset(a) == multiset(b)
    ensures SnapshotOutcome(s, a) == SnapshotOutcome(s, b)
  {
    SortIgnoresOrder(a, b);
  }

  /** So the outcome belongs to the set of objects, not to a listing of it. */
  lemma AnyListing(s: Spec, objs: set<Obj>, listing: seq<Obj>)
    requires RefsDiffer(objs) && Lists(listing, objs)
    ensures SnapshotOutcome(s, listing) == OutcomeOf(s, objs)
  {
    ListingsAgree(listing, Enumerate(objs), objs);
    forall i, j | 0 <= i < j < |listing| ensures RefOf(listing[i]) != RefOf(listing[j]) {
      assert listing[i] in objs && listing[j] in objs;
    }
    OutcomeIgnoresOrder(s, listing, Enumerate(objs));
  }

  // ---- Set mode: the loop computes the declared verdict ----

  lemma {:induction false} MatchedIsFilter(s: Spec, objs: seq<Obj>)
    ensures forall o :: o in Matched(s, objs) <==> o in objs && Kept(s, o)
    ensures |Matched(s, objs)| <= |objs|
  {
    if objs == [] {
    } else {
      var n := |objs| - 1;
      MatchedIsFilter(s, objs[..n]);
      assert objs == objs[..n] + [objs[n]];
    }
  }

  lemma {:induction false} ErrorsAreErrors(s: Spec, objs: seq<Obj>)
    ensures Errors(s, objs) == [] <==> forall o :: o in objs ==> ErrorOf(s, o) == []
  {
    if objs == [] {
    } else {
      var n := |objs| - 1;
      ErrorsAreErrors(s, objs[..n]);
      assert objs == objs[..n] + [objs[n]];
    }
  }

  lemma {:induction false} CountIsCount(s: Spec, objs: seq<Obj>)
    ensures CountPassing(s, objs) <= |objs|
    ensures CountPassing(s, objs) == |objs| <==> forall o :: o in objs ==> Passes(s, o)
    ensures CountPassing(s, objs) == 0 <==> forall o :: o in objs ==> !Passes(s, o)
  {
    if objs == [] {
    } else {
      var n := |objs| - 1;
      CountIsCount(s, objs[..n]);
      assert objs == objs[..n] + [objs[n]];
      assert objs[n] in objs;
    }
  }

  /** Some object the filter keeps has failed. */
  ghost predicate ProvenFailure(s: Spec, objs: seq<Obj>) {
    exists o :: o in objs && Kept(s, o) && Fails(s, o)
  }

  /** No filter errs on any object, and no kept object is left unclassified. */
  ghost predicate NothingErred(s: Spec, objs: seq<Obj>) {
    forall o :: o in objs ==>
      !FilterTruth(s, o).Error? && (Kept(s, o) ==> EvalError(s, o).None?)
  }

  /** The kept objects meet the counts, require_all and set_expression. */
  ghost predicate DemandsMet(s: Spec, objs: seq<Obj>) {
    var kept := Matched(s, objs);
    && s.minMatching <= CountPassing(s, kept)
    && (s.maxMatching >= 0 ==> CountPassing(s, kept) <= s.maxMatching)
    && (s.requireAll ==> forall o :: o in objs && Kept(s, o) ==> Passes(s, o))
    && (s.setExpression.Some? ==> s.setExpression.value.eval(kept) == True)
  }

  lemma SomeFailsIsProven(s: Spec, objs: seq<Obj>)
    ensures SomeFails(s, Matched(s, objs)) <==> ProvenFailure(s, objs)
  {
    var kept := Matched(s, objs);
    MatchedIsFilter(s, objs);
    if ProvenFailure(s, objs) {
      var o :| o in objs && Kept(s, o) && Fails(s, o);
      var i :| 0 <= i < |kept| && kept[i] == o;
    } else {
      forall i | 0 <= i < |kept| ensures !Fails(s, kept[i]) {
        assert kept[i] in kept;
      }
    }
  }

  lemma NoErrorsIsNothingErred(s: Spec, objs: seq<Obj>)
    ensures Errors(s, objs) == [] <==> NothingErred(s, objs)
  {
    ErrorsAreErrors(s, objs);
    forall o ensures ErrorOf(s, o) == [] <==>
                     !FilterTruth(s, o).Error? && (Kept(s, o) ==> EvalError(s, o).None?) {
    }
  }

  lemma CountsAndSetExpression(s: Spec, objs: seq<Obj>)
    ensures DemandsMet(s, objs) <==>
            && CountsMet(s, CountPassing(s, Matched(s, objs)), |Matched(s, objs)|)
            && (s.setExpression.Some? ==> s.setExpression.value.eval(Matched(s, objs)) == True)
  {
    MatchedIsFilter(s, objs);
    CountIsCount(s, Matched(s, objs));
  }

  /** The verdict of set mode, in the terms of the configuration. */
  lemma SetVerdict(s: Spec, objs: seq<Obj>)
    ensures SetOutcome(s, objs).verdict == Failure <==> ProvenFailure(s, objs)
    ensures SetOutcome(s, objs).verdict == Success <==>
            !ProvenFailure(s, objs) && NothingErred(s, objs) && DemandsMet(s, objs)
    ensures SetOutcome(s, objs).evalErrors != [] ==> SetOutcome(s, objs).verdict != Success
  {
    SomeFailsIsProven(s, objs);
    NoErrorsIsNothingErred(s, objs);
    CountsAndSetExpression(s, objs);
  }

  /** Past the failure and error gates, the kept objects split into those that
      pass and those that merely do not. */
  lemma {:induction false} PassingAndNotPassingPartition(s: Spec, kept: seq<Obj>)
    requires forall o :: o in kept ==> !Fails(s, o) && EvalError(s, o).None?
    ensures CountPassing(s, kept) + CountNotPassing(s, kept) == |kept|
  {
    if kept == [] {
    } else {
      PassingAndNotPassingPartition(s, kept[..|kept| - 1]);
    }
  }

  // ---- Single mode ----

  lemma {:induction false} PickFinds(s: Spec, objs: seq<Obj>)
    ensures Pick(s, objs).None? <==> forall o :: o in objs ==> !Named(s, o)
    ensures Pick(s, objs).Some? ==> Pick(s, objs).value in objs && Named(s, Pick(s, objs).value)
  {
    if objs == [] {
    } else if !Named(s, objs[0]) {
      PickFinds(s, objs[1..]);
      assert objs == [objs[0]] + objs[1..];
    }
  }

  /** The first in order of the objects that answer to the spec's name, and of
      equal references the one listed first. */
  function First(s: Spec, objs: seq<Obj>): Option<Obj> {
    if objs == [] then None
    else
      var o, found := objs[|objs| - 1], First(s, objs[..|objs| - 1]);
      if Named(s, o) && (found.None? || ObjLess(o, found.value)) then Some(o) else found
  }

  lemma {:induction false} PickLast(s: Spec, front: seq<Obj>, o: Obj)
    ensures Pick(s, front + [o]) ==
            if Pick(s, front).Some? then Pick(s, front) else if Named(s, o) then Some(o) else None
  {
    if front == [] {
      assert front + [o] == [o];
    } else {
      assert (front + [o])[1..] == front[1..] + [o];
      PickLast(s, front[1..], o);
    }
  }

  lemma {:induction false} PickInserted(s: Spec, o: Obj, sorted: seq<Obj>)
    requires WeakOrder(ObjLess) && Sorted(ObjLess, sorted)
    ensures var found := Pick(s, sorted);
            Pick(s, Insert(ObjLess, o, sorted)) ==
            if Named(s, o) && (found.None? || ObjLess(o, found.value)) then Some(o) else found
  {
    if sorted == [] {
    } else {
      var n := |sorted| - 1;
      assert sorted == sorted[..n] + [sorted[n]];
      PickLast(s, sorted[..n], sorted[n]);
      PickFinds(s, sorted);
      if ObjLess(o, sorted[n]) {
        PickInserted(s, o, sorted[..n]);
        PickLast(s, Insert(ObjLess, o, sorted[..n]), sorted[n]);
      } else {
        PickLast(s, sorted, o);
      }
    }
  }

  lemma {:induction false} PickSorted(s: Spec, objs: seq<Obj>)
    ensures Pick(s, SortByRef(objs)) == First(s, objs)
  {
    if objs == [] {
    } else {
      var n := |objs| - 1;
      PickSorted(s, objs[..n]);
      SortByRefSorts(objs[..n]);
      ObjLessIsWeakOrder();
      PickInserted(s, objs[n], SortByRef(objs[..n]));
    }
  }

  /** Of the objects that answer to the spec's name, the one at i comes first. */
  ghost predicate NamedFirst(s: Spec, objs: seq<Obj>, i: nat) {
    && i < |objs| && Named(s, objs[i])
    && forall k :: 0 <= k < |objs| && k != i && Named(s, objs[k]) ==>
         ObjLess(objs[i], objs[k]) || (RefOf(objs[i]) == RefOf(objs[k]) && i < k)
  }

  lemma {:induction false} FirstIsNamedFirst(s: Spec, objs: seq<Obj>, i: nat)
    requires NamedFirst(s, objs, i)
    ensures First(s, objs) == Some(objs[i])
  {
    var n := |objs| - 1;
    var front := objs[..n];
    ObjLessIsWeakOrder();
    if i < n {
      assert forall k :: 0 <= k < n ==> front[k] == objs[k];
      FirstIsNamedFirst(s, front, i);
      if Named(s, objs[n]) && RefOf(objs[i]) == RefOf(objs[n]) {
        RefLessTotal(RefOf(objs[i]), RefOf(objs[n]));
      }
    } else {
      FirstIsNamed(s, front);
      if First(s, front).Some? {
        var k :| 0 <= k < n && front[k] == First(s, front).value;
        assert ObjLess(objs[i], objs[k]);
      }
    }
  }

  lemma {:induction false} FirstIsNamed(s: Spec, objs: seq<Obj>)
    ensures First(s, objs).Some? ==> First(s, objs).value in objs && Named(s, First(s, objs).value)
    ensures First(s, objs).None? <==> forall o :: o in objs ==> !Named(s, o)
  {
    if objs == [] {
    } else {
      var n := |objs| - 1;
      FirstIsNamed(s, objs[..n]);
      assert objs == objs[..n] + [objs[n]];
    }
  }

  /** The verdict is the named object's own, wherever it is in the snapshot: of
      several that answer to the name the first in order, and of equal references
      the one listed first. With none it is `absent`. */
  lemma SingleVerdict(s: Spec, objs: seq<Obj>, i: nat)
    requires s.Single()
    ensures (forall o :: o in objs ==> !Named(s, o)) ==> SnapshotOutcome(s, objs).verdict == s.absent
    ensures NamedFirst(s, objs, i) ==>
              var v, o := SnapshotOutcome(s, objs).verdict, objs[i];
              && (v == Failure <==> Fails(s, o))
              && (v == Success <==> !Fails(s, o) && EvalError(s, o).None? && Passes(s, o))
  {
    PickSorted(s, objs);
    FirstIsNamed(s, objs);
    if NamedFirst(s, objs, i) {
      FirstIsNamedFirst(s, objs, i);
    }
  }

  // ---- Errors are unknowns ----

  /** q is p with some of its errors decided one way or the other. */
  ghost predicate Decides(p: Option<Program>, q: Option<Program>) {
    && p.Some? == q.Some?
    && (p.Some? ==> forall o :: p.value.eval(o).Error? || q.value.eval(o) == p.value.eval(o))
  }

  ghost predicate DecidesSet(p: Option<SetProgram>, q: Option<SetProgram>) {
    && p.Some? == q.Some?
    && (p.Some? ==> forall os :: p.value.eval(os).Error? || q.value.eval(os) == p.value.eval(os))
  }

  /** t is s with some evaluation errors replaced by any truth value (or another error). */
  ghost predicate Resolves(s: Spec, t: Spec) {
    && t == s.(filter := t.filter, expression := t.expression,
               failureExpression := t.failureExpression, setExpression := t.setExpression)
    && Decides(s.filter, t.filter)
    && Decides(s.expression, t.expression)
    && Decides(s.failureExpression, t.failureExpression)
    && DecidesSet(s.setExpression, t.setExpression)
  }

  lemma ObjectStandingStays(s: Spec, t: Spec, o: Obj)
    requires Resolves(s, t)
    ensures Fails(s, o) ==> Fails(t, o)
    ensures Kept(s, o) ==> Kept(t, o)
    ensures !FilterTruth(s, o).Error? ==> FilterTruth(t, o) == FilterTruth(s, o)
    ensures !Fails(s, o) && EvalError(s, o).None? ==>
              !Fails(t, o) && EvalError(t, o).None? && (Passes(t, o) <==> Passes(s, o))
  {
  }

  lemma {:induction false} CountStays(s: Spec, t: Spec, kept: seq<Obj>)
    requires forall o :: o in kept ==> (Passes(t, o) <==> Passes(s, o))
    ensures CountPassing(t, kept) == CountPassing(s, kept)
  {
    if kept == [] {
    } else {
      CountStays(s, t, kept[..|kept| - 1]);
    }
  }

  lemma {:induction false} MatchedStays(s: Spec, t: Spec, objs: seq<Obj>)
    requires forall o :: o in objs ==> (Kept(t, o) <==> Kept(s, o))
    ensures Matched(t, objs) == Matched(s, objs)
  {
    if objs == [] {
    } else {
      MatchedStays(s, t, objs[..|objs| - 1]);
    }
  }

  lemma ClassifiedSetStays(s: Spec, t: Spec, objs: seq<Obj>)
    requires Resolves(s, t) && !ProvenFailure(s, objs) && NothingErred(s, objs)
    ensures !ProvenFailure(t, objs) && NothingErred(t, objs)
    ensures DemandsMet(s, objs) ==> DemandsMet(t, objs)
  {
    forall o | o in objs
      ensures FilterTruth(t, o) == FilterTruth(s, o)
      ensures Kept(s, o) ==> !Fails(t, o) && EvalError(t, o).None? && (Passes(t, o) <==> Passes(s, o))
    {
      ObjectStandingStays(s, t, o);
    }
    MatchedStays(s, t, objs);
    MatchedIsFilter(s, objs);
    CountStays(s, t, Matched(s, objs));
  }

  /** A verdict reached despite erring predicates survives every way the errors
      could have come out. */
  lemma ErrorsAreUnknown(s: Spec, t: Spec, objs: seq<Obj>)
    requires Resolves(s, t)
    requires SnapshotOutcome(s, objs).verdict != Pending
    ensures SnapshotOutcome(t, objs).verdict == SnapshotOutcome(s, objs).verdict
  {
    var sorted := SortByRef(objs);
    if s.Single() {
      SamePick(s, t, sorted);
      var p := Pick(s, sorted);
      if p.Some? {
        ObjectStandingStays(s, t, p.value);
      }
    } else {
      SetVerdict(s, sorted);
      SetVerdict(t, sorted);
      if ProvenFailure(s, sorted) {
        var o :| o in sorted && Kept(s, o) && Fails(s, o);
        ObjectStandingStays(s, t, o);
      } else {
        ClassifiedSetStays(s, t, sorted);
      }
    }
  }

  lemma {:induction false} SamePick(s: Spec, t: Spec, objs: seq<Obj>)
    requires s.name == t.name && s.namespace == t.namespace
    ensures Pick(s, objs) == Pick(t, objs)
  {
    if objs == [] {
    } else {
      SamePick(s, t, objs[1..]);
    }
  }

  // ---- Drains ----

  lemma DrainedSet(s: Spec, objs: seq<Obj>)
    requires s.Drain()
    ensures SetOutcome(s, objs).verdict == Success ==>
              forall o :: o in objs ==> FilterTruth(s, o) == False
    ensures s.minMatching == 0 && s.setExpression.None? &&
            (forall o :: o in objs ==> FilterTruth(s, o) == False) ==>
              SetOutcome(s, objs).verdict == Success
  {
    SetVerdict(s, objs);
    MatchedIsFilter(s, objs);
    CountIsCount(s, Matched(s, objs));
    forall o ensures Passes(s, o) {
    }
    if Matched(s, objs) != [] {
      assert Matched(s, objs)[0] in Matched(s, objs);
    }
  }

  /** A drain succeeds only when the filter said no, without error, to every
      selected object; with no set_expression that is also enough. */
  lemma DrainSuccess(s: Spec, objs: seq<Obj>)
    requires s.Drain() && !s.Single()
    ensures SnapshotOutcome(s, objs).verdict == Success ==>
              forall o :: o in objs ==> FilterTruth(s, o) == False
    ensures s.minMatching == 0 && s.setExpression.None? &&
            (forall o :: o in objs ==> FilterTruth(s, o) == False) ==>
              SnapshotOutcome(s, objs).verdict == Success
    ensures SnapshotOutcome(s, objs).verdict == Success && s.filter.None? ==> objs == []
  {
    DrainedSet(s, SortByRef(objs));
    SameMembers(objs);
    if objs != [] {
      assert objs[0] in objs;
    }
  }

  lemma SameMembers(objs: seq<Obj>)
    ensures forall o :: o in SortByRef(objs) <==> o in objs
  {
    SortByRefSorts(objs);
    forall o ensures o in SortByRef(objs) <==> o in objs {
      assert o in multiset(SortByRef(objs)) <==> o in multiset(objs);
    }
  }
}
