/** The outcome of a snapshot in the words of the configuration: said of conditions
    that hold, expressions and what they give, references, and numbers alone. */
module Meaning {
  import opened Common
  import opened Objects
  import opened Sorting
  import opened WaitSpec
  import opened Evaluator
  import opened Verdicts

  // ---- One object ----

  /** Some failure condition holds, or failure_expression is true. */
  ghost predicate HasFailed(s: Spec, o: Obj) {
    || (exists c :: c in s.failureConditions && Holds(c, o))
    || (s.failureExpression.Some? && s.failureExpression.value.eval(o) == True)
  }

  ghost predicate ConditionsMet(s: Spec, o: Obj) {
    forall c :: c in s.successConditions ==> Holds(c, o)
  }

  /** Every success condition holds, and expression, if given, is true. */
  ghost predicate HasPassed(s: Spec, o: Obj) {
    ConditionsMet(s, o) && (s.expression.Some? ==> s.expression.value.eval(o) == True)
  }

  ghost predicate Selected(s: Spec, o: Obj) {
    s.filter.Some? ==> s.filter.value.eval(o) == True
  }

  ghost predicate FilterErred(s: Spec, o: Obj, e: string) {
    s.filter.Some? && s.filter.value.eval(o) == Truth.Error(e)
  }

  ghost predicate FailureErred(s: Spec, o: Obj, e: string) {
    s.failureExpression.Some? && s.failureExpression.value.eval(o) == Truth.Error(e)
  }

  /** With no failure proven, failure_expression errs, or else expression does on an
      object that meets every success condition. */
  ghost predicate Unsure(s: Spec, o: Obj, e: string) {
    && !HasFailed(s, o)
    && (|| FailureErred(s, o, e)
        || (&& !(s.failureExpression.Some? && s.failureExpression.value.eval(o).Error?)
            && ConditionsMet(s, o)
            && s.expression.Some? && s.expression.value.eval(o) == Truth.Error(e)))
  }

  lemma SameOfOne(s: Spec, o: Obj)
    ensures Fails(s, o) <==> HasFailed(s, o)
    ensures Passes(s, o) <==> HasPassed(s, o)
    ensures Kept(s, o) <==> Selected(s, o)
    ensures forall e :: EvalError(s, o) == Some(e) <==> Unsure(s, o, e)
    ensures forall e :: FilterTruth(s, o) == Truth.Error(e) <==> FilterErred(s, o, e)
  {
    if exists c :: c in s.failureConditions && Holds(c, o) {
      var c :| c in s.failureConditions && Holds(c, o);
      var i :| 0 <= i < |s.failureConditions| && s.failureConditions[i] == c;
    }
    assert AllMet(s, o) <==> ConditionsMet(s, o) by {
      if AllMet(s, o) {
        forall c | c in s.successConditions ensures Holds(c, o) {
          var i :| 0 <= i < |s.successConditions| && s.successConditions[i] == c;
        }
      }
    }
  }

  // ---- Counting ----

  ghost function Count(objs: seq<Obj>, p: Obj -> bool): nat {
    if objs == [] then 0
    else var n := |objs| - 1; Count(objs[..n], p) + if p(objs[n]) then 1 else 0
  }

  ghost function Places(objs: seq<Obj>, p: Obj -> bool): set<int> {
    set i | 0 <= i < |objs| && p(objs[i])
  }

  /** Count is the number of places. */
  lemma {:induction false} CountIsPlaces(objs: seq<Obj>, p: Obj -> bool)
    ensures Count(objs, p) == |Places(objs, p)|
  {
    if objs == [] {
    } else {
      var n := |objs| - 1;
      CountIsPlaces(objs[..n], p);
      assert Places(objs, p) == Places(objs[..n], p) + if p(objs[n]) then {n} else {};
    }
  }

  lemma {:induction false} CountInserted(o: Obj, objs: seq<Obj>, p: Obj -> bool)
    ensures Count(Insert(ObjLess, o, objs), p) == Count(objs, p) + if p(o) then 1 else 0
  {
    if objs == [] {
      assert Count([o], p) == Count([o][..0], p) + if p(o) then 1 else 0;
    } else {
      var n := |objs| - 1;
      if ObjLess(o, objs[n]) {
        CountInserted(o, objs[..n], p);
        var r := Insert(ObjLess, o, objs[..n]) + [objs[n]];
        assert r[..|r| - 1] == Insert(ObjLess, o, objs[..n]);
      } else {
        assert (objs + [o])[..|objs|] == objs;
      }
    }
  }

  lemma {:induction false} CountSorted(objs: seq<Obj>, p: Obj -> bool)
    ensures Count(SortByRef(objs), p) == Count(objs, p)
  {
    if objs == [] {
    } else {
      var n := |objs| - 1;
      CountSorted(objs[..n], p);
      CountInserted(objs[n], SortByRef(objs[..n]), p);
    }
  }

  lemma {:induction false} CountMatched(s: Spec, objs: seq<Obj>)
    ensures |Matched(s, objs)| == Count(objs, o => Selected(s, o))
    ensures CountPassing(s, Matched(s, objs)) == Count(objs, o => Selected(s, o) && HasPassed(s, o))
  {
    if objs == [] {
    } else {
      var n := |objs| - 1;
      CountMatched(s, objs[..n]);
      SameOfOne(s, objs[n]);
      var front := Matched(s, objs[..n]);
      assert (front + [objs[n]])[..|front|] == front;
      assert front + [] == front;
    }
  }

  /** How many of the selected objects there are, and how many of them pass. */
  ghost function SelectedIn(s: Spec, objs: seq<Obj>): nat {
    |set i | 0 <= i < |objs| && Selected(s, objs[i])|
  }

  ghost function PassingIn(s: Spec, objs: seq<Obj>): nat {
    |set i | 0 <= i < |objs| && Selected(s, objs[i]) && HasPassed(s, objs[i])|
  }

  lemma NumbersSame(s: Spec, objs: seq<Obj>)
    ensures |Matched(s, SortByRef(objs))| == SelectedIn(s, objs)
    ensures CountPassing(s, Matched(s, SortByRef(objs))) == PassingIn(s, objs)
  {
    var p, q := (o: Obj) => Selected(s, o), (o: Obj) => Selected(s, o) && HasPassed(s, o);
    CountMatched(s, SortByRef(objs));
    CountSorted(objs, p);
    CountSorted(objs, q);
    CountIsPlaces(objs, p);
    CountIsPlaces(objs, q);
    assert Places(objs, p) == set i | 0 <= i < |objs| && Selected(s, objs[i]);
    assert Places(objs, q) == set i | 0 <= i < |objs| && Selected(s, objs[i]) && HasPassed(s, objs[i]);
  }

  // ---- A set of objects ----

  lemma {:induction false} MatchedOften(s: Spec, objs: seq<Obj>, o: Obj)
    ensures multiset(Matched(s, objs))[o] == if Selected(s, o) then multiset(objs)[o] else 0
  {
    if objs == [] {
    } else {
      var n := |objs| - 1;
      MatchedOften(s, objs[..n], o);
      SameOfOne(s, objs[n]);
      assert objs == objs[..n] + [objs[n]];
    }
  }

  lemma {:induction false} MatchedSorted(s: Spec, objs: seq<Obj>)
    requires Sorted(ObjLess, objs)
    ensures Sorted(ObjLess, Matched(s, objs))
  {
    if objs == [] {
    } else {
      var n := |objs| - 1;
      var front := Matched(s, objs[..n]);
      MatchedSorted(s, objs[..n]);
      MatchedIsFilter(s, objs[..n]);
      forall i | 0 <= i < |front| ensures !ObjLess(objs[n], front[i]) {
        assert front[i] in front;
        var k :| 0 <= k < n && objs[..n][k] == front[i];
      }
    }
  }

  /** No reference of the sequence precedes an earlier one. */
  ghost predicate InOrder(objs: seq<Obj>) {
    forall i, k :: 0 <= i < k < |objs| ==> !RefPrecedes(RefOf(objs[k]), RefOf(objs[i]))
  }

  /** In set mode an outcome lists the selected objects, each as often as the
      snapshot has it, by namespace and then name; and it counts them, and those
      that pass. */
  lemma SetObjects(s: Spec, objs: seq<Obj>)
    requires !s.Single()
    ensures var out := SnapshotOutcome(s, objs);
            && InOrder(out.objects)
            && (forall o :: multiset(out.objects)[o] == if Selected(s, o) then multiset(objs)[o] else 0)
            && out.matched == SelectedIn(s, objs) && out.passing == PassingIn(s, objs)
  {
    var sorted := SortByRef(objs);
    SortByRefSorts(objs);
    KeptInOrder(s, sorted);
    NumbersSame(s, objs);
    SetOutcomeLists(s, sorted);
    forall o ensures multiset(Matched(s, sorted))[o] == if Selected(s, o) then multiset(objs)[o] else 0 {
      MatchedOften(s, sorted, o);
    }
  }

  lemma KeptInOrder(s: Spec, sorted: seq<Obj>)
    requires Sorted(ObjLess, sorted)
    ensures InOrder(Matched(s, sorted))
  {
    var kept := Matched(s, sorted);
    MatchedSorted(s, sorted);
    forall i, k | 0 <= i < k < |kept| ensures !RefPrecedes(RefOf(kept[k]), RefOf(kept[i])) {
      assert !ObjLess(kept[k], kept[i]);
      RefLessIsRefPrecedes(RefOf(kept[k]), RefOf(kept[i]));
    }
  }

  lemma SetOutcomeLists(s: Spec, objs: seq<Obj>)
    ensures var out := SetOutcome(s, objs);
            && out.objects == Matched(s, objs) && out.matched == |Matched(s, objs)|
            && out.passing == CountPassing(s, Matched(s, objs))
  {
  }

  ghost predicate SomeHasFailed(s: Spec, objs: seq<Obj>) {
    exists o :: o in objs && Selected(s, o) && HasFailed(s, o)
  }

  ghost predicate NoneErred(s: Spec, objs: seq<Obj>) {
    forall o, e :: o in objs ==> !FilterErred(s, o, e) && !(Selected(s, o) && Unsure(s, o, e))
  }

  /** Failure is a selected object that has failed. */
  lemma SetFailureIff(s: Spec, objs: seq<Obj>)
    requires !s.Single()
    ensures SnapshotOutcome(s, objs).verdict == Failure <==>
            exists o :: o in objs && Selected(s, o) && HasFailed(s, o)
  {
    SetVerdict(s, SortByRef(objs));
    SameMembers(objs);
    forall o ensures Fails(s, o) <==> HasFailed(s, o)
             ensures Kept(s, o) <==> Selected(s, o)
    {
      SameOfOne(s, o);
    }
  }

  lemma NoneErredIs(s: Spec, objs: seq<Obj>)
    ensures NothingErred(s, objs) <==> NoneErred(s, objs)
  {
    forall o
      ensures !FilterTruth(s, o).Error? <==> forall e :: !FilterErred(s, o, e)
      ensures EvalError(s, o).None? <==> forall e :: !Unsure(s, o, e)
      ensures Kept(s, o) <==> Selected(s, o)
    {
      SameOfOne(s, o);
      if FilterTruth(s, o).Error? {
        assert FilterErred(s, o, FilterTruth(s, o).message);
      }
      if EvalError(s, o).Some? {
        assert Unsure(s, o, EvalError(s, o).value);
      }
    }
  }

  /** Success is: no selected object has failed, no predicate has erred, the number
      of those that pass lies in the range asked for, all of them pass if that is
      asked for, and set_expression, if given, is true of the selected objects. */
  lemma SetSuccessIff(s: Spec, objs: seq<Obj>)
    requires !s.Single()
    ensures SnapshotOutcome(s, objs).verdict == Success <==>
            && !SomeHasFailed(s, objs) && NoneErred(s, objs)
            && s.minMatching <= PassingIn(s, objs)
            && (s.maxMatching >= 0 ==> PassingIn(s, objs) <= s.maxMatching)
            && (s.requireAll ==> forall o :: o in objs && Selected(s, o) ==> HasPassed(s, o))
            && (s.setExpression.Some? ==> s.setExpression.value.eval(SnapshotOutcome(s, objs).objects) == True)
  {
    var sorted := SortByRef(objs);
    SetVerdict(s, sorted);
    SetFailureIff(s, objs);
    SameMembers(objs);
    NoneErredIs(s, sorted);
    NumbersSame(s, objs);
    forall o ensures Passes(s, o) <==> HasPassed(s, o)
             ensures Kept(s, o) <==> Selected(s, o)
    {
      SameOfOne(s, o);
    }
  }

  /** So a success that asks for an object has one, on which everything holds. */
  lemma SuccessHasAWitness(s: Spec, objs: seq<Obj>) returns (o: Obj)
    requires !s.Single() && SnapshotOutcome(s, objs).verdict == Success && s.minMatching > 0
    ensures o in objs && Selected(s, o) && HasPassed(s, o) && !HasFailed(s, o)
  {
    SetSuccessIff(s, objs);
    var places := set i | 0 <= i < |objs| && Selected(s, objs[i]) && HasPassed(s, objs[i]);
    assert |places| > 0;
    var i :| i in places;
    o := objs[i];
  }

  // ---- What the errors say ----

  ghost predicate Complains(s: Spec, o: Obj, text: string) {
    exists e :: (FilterErred(s, o, e) || (Selected(s, o) && Unsure(s, o, e))) && text == Key(RefOf(o)) + ": " + e
  }

  lemma ErrorOfIs(s: Spec, o: Obj, text: string)
    ensures text in ErrorOf(s, o) <==> Complains(s, o, text)
  {
    SameOfOne(s, o);
    if text in ErrorOf(s, o) {
      if FilterTruth(s, o).Error? {
        assert FilterErred(s, o, FilterTruth(s, o).message);
      } else {
        assert Unsure(s, o, EvalError(s, o).value);
      }
    }
  }

  lemma {:induction false} ErrorsAre(s: Spec, objs: seq<Obj>, text: string)
    ensures text in Errors(s, objs) <==> exists o :: o in objs && Complains(s, o, text)
  {
    if objs == [] {
    } else {
      var n := |objs| - 1;
      ErrorsAre(s, objs[..n], text);
      ErrorOfIs(s, objs[n], text);
      assert objs == objs[..n] + [objs[n]];
    }
  }

  /** The evaluation errors of set mode name each object whose filter, or whose
      judgement, has erred, and say how; where none has, only set_expression can. */
  lemma SetErrors(s: Spec, objs: seq<Obj>, text: string)
    requires !s.Single()
    ensures var out := SnapshotOutcome(s, objs);
            && ((exists o :: o in objs && Complains(s, o, text)) ==> text in out.evalErrors)
            && (text in out.evalErrors ==>
                  || (exists o :: o in objs && Complains(s, o, text))
                  || (s.setExpression.Some? && s.setExpression.value.eval(out.objects) == Truth.Error(text)))
  {
    ErrorsAre(s, SortByRef(objs), text);
    SameMembers(objs);
  }

  // ---- A single object ----

  predicate AnswersTo(s: Spec, o: Obj) {
    RefOf(o).name == s.name && (s.namespace == "" || RefOf(o).namespace == s.namespace)
  }

  /** Of the objects that answer to the name, the one at i comes first: by
      namespace, and of equal references by its place. */
  ghost predicate AnswersFirst(s: Spec, objs: seq<Obj>, i: nat) {
    && i < |objs| && AnswersTo(s, objs[i])
    && forall k :: 0 <= k < |objs| && k != i && AnswersTo(s, objs[k]) ==>
         RefPrecedes(RefOf(objs[i]), RefOf(objs[k])) || (RefOf(objs[i]) == RefOf(objs[k]) && i < k)
  }

  /** In single mode the outcome is that of the first object of the name; with none
      it is what `absent` says. */
  lemma SingleMeans(s: Spec, objs: seq<Obj>, i: nat)
    requires s.Single()
    ensures (forall o :: o in objs ==> !AnswersTo(s, o)) ==>
              SnapshotOutcome(s, objs) == Outcome(s.absent, [], 0, 0, [])
    ensures AnswersFirst(s, objs, i) ==>
              var out, o := SnapshotOutcome(s, objs), objs[i];
              && out.objects == [o] && out.matched == 1
              && (out.verdict == Failure <==> HasFailed(s, o))
              && (out.verdict == Success <==> !HasFailed(s, o) && HasPassed(s, o) && forall e :: !Unsure(s, o, e))
              && (out.passing == 1 <==> out.verdict == Success) && out.passing <= 1
              && (forall text :: text in out.evalErrors <==>
                    exists e :: Unsure(s, o, e) && text == Key(Ref(s.namespace, s.name)) + ": " + e)
  {
    PickSorted(s, objs);
    FirstIsNamed(s, objs);
    if AnswersFirst(s, objs, i) {
      forall k | 0 <= k < |objs| && k != i && Named(s, objs[k])
        ensures ObjLess(objs[i], objs[k]) || (RefOf(objs[i]) == RefOf(objs[k]) && i < k)
      {
        RefLessIsRefPrecedes(RefOf(objs[i]), RefOf(objs[k]));
      }
      FirstIsNamedFirst(s, objs, i);
      SameOfOne(s, objs[i]);
      if EvalError(s, objs[i]).Some? {
        assert Unsure(s, objs[i], EvalError(s, objs[i]).value);
      }
    }
  }
}
