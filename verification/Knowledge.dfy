/** What validation promises: learning a value never withdraws a finding, and an
    accepted configuration gives a spec the run loop can rely on. */
module Knowledge {
  import opened Common
  import opened Objects
  import opened WaitSpec
  import opened Evaluator
  import opened Validation
  import Verdicts

  // ---- Learning unknown values ----

  /** b is a, or whatever a turned out to be. */
  predicate Learned<T(==)>(a: Attr<T>, b: Attr<T>) {
    a.Unknown? || a == b
  }

  predicate ConditionLearned(a: RawCondition, b: RawCondition) {
    Learned(a.kind, b.kind) && Learned(a.status, b.status) && Learned(a.reason, b.reason)
  }

  predicate CondsLearned(a: Attr<seq<RawCondition>>, b: Attr<seq<RawCondition>>) {
    || a.Unknown?
    || (a.Null? && b.Null?)
    || (a.Known? && b.Known? && |a.value| == |b.value| &&
        forall i :: 0 <= i < |a.value| ==> ConditionLearned(a.value[i], b.value[i]))
  }

  predicate FieldsLearned(a: Attr<seq<Attr<string>>>, b: Attr<seq<Attr<string>>>) {
    || a.Unknown?
    || (a.Null? && b.Null?)
    || (a.Known? && b.Known? && |a.value| == |b.value| &&
        forall i :: 0 <= i < |a.value| ==> Learned(a.value[i], b.value[i]))
  }

  /** b is a with any of its unknown values, however deep, made known, null, or left. */
  predicate RawLearned(a: Raw, b: Raw) {
    && Learned(a.apiVersion, b.apiVersion) && Learned(a.kind, b.kind)
    && Learned(a.namespace, b.namespace) && Learned(a.name, b.name)
    && Learned(a.labelSelector, b.labelSelector) && Learned(a.fieldSelector, b.fieldSelector)
    && Learned(a.filter, b.filter)
    && CondsLearned(a.successConditions, b.successConditions)
    && CondsLearned(a.failureConditions, b.failureConditions)
    && Learned(a.expression, b.expression) && Learned(a.failureExpression, b.failureExpression)
    && Learned(a.setExpression, b.setExpression)
    && Learned(a.minMatching, b.minMatching) && Learned(a.maxMatching, b.maxMatching)
    && Learned(a.requireAll, b.requireAll) && Learned(a.absent, b.absent)
    && Learned(a.timeout, b.timeout) && Learned(a.settle, b.settle)
    && Learned(a.pollInterval, b.pollInterval) && Learned(a.watch, b.watch)
    && FieldsLearned(a.progressFields, b.progressFields)
    && Learned(a.progressInterval, b.progressInterval)
  }

  ghost predicate Within(ps: seq<Problem>, qs: seq<Problem>) {
    forall p :: p in ps ==> p in qs
  }

  lemma {:induction false} ItemsGrow(ps: seq<Problem>, qs: seq<Problem>, attr: Attribute,
                                     a: seq<RawCondition>, b: seq<RawCondition>)
    requires Within(ps, qs) && |a| == |b|
    requires forall i :: 0 <= i < |a| ==> ConditionLearned(a[i], b[i])
    ensures Within(ItemsFindings(ps, attr, a), ItemsFindings(qs, attr, b))
  {
    if a == [] {
    } else {
      var n := |a| - 1;
      ItemsGrow(ps, qs, attr, a[..n], b[..n]);
      assert ConditionLearned(a[n], b[n]);
    }
  }

  lemma {:induction false} PathsGrow(ps: seq<Problem>, qs: seq<Problem>, lib: Library,
                                     a: seq<Attr<string>>, b: seq<Attr<string>>)
    requires Within(ps, qs) && |a| == |b|
    requires forall i :: 0 <= i < |a| ==> Learned(a[i], b[i])
    ensures Within(PathsFindings(ps, lib, a), PathsFindings(qs, lib, b))
  {
    if a == [] {
    } else {
      var n := |a| - 1;
      PathsGrow(ps, qs, lib, a[..n], b[..n]);
      assert Learned(a[n], b[n]);
    }
  }

  lemma SelectionGrows(ps: seq<Problem>, qs: seq<Problem>, lib: Library, a: Raw, b: Raw)
    requires Within(ps, qs) && RawLearned(a, b)
    ensures Within(SelectionFindings(ps, lib, a), SelectionFindings(qs, lib, b))
  {
  }

  lemma PredicatesGrow(ps: seq<Problem>, qs: seq<Problem>, lib: Library, a: Raw, b: Raw)
    requires Within(ps, qs) && RawLearned(a, b)
    ensures Within(PredicateFindings(ps, lib, a), PredicateFindings(qs, lib, b))
  {
    var ps1, qs1 := CondsFindings(ps, SuccessConditions, a.successConditions),
                    CondsFindings(qs, SuccessConditions, b.successConditions);
    CondsGrow(ps, qs, SuccessConditions, a.successConditions, b.successConditions);
    CondsGrow(ps1, qs1, FailureConditions, a.failureConditions, b.failureConditions);
  }

  lemma CondsGrow(ps: seq<Problem>, qs: seq<Problem>, attr: Attribute, a: Attr<seq<RawCondition>>, b: Attr<seq<RawCondition>>)
    requires Within(ps, qs) && CondsLearned(a, b)
    ensures Within(CondsFindings(ps, attr, a), CondsFindings(qs, attr, b))
  {
    if a.Known? {
      ItemsGrow(ps, qs, attr, a.value, b.value);
    } else if b.Known? {
      ItemsKeep(qs, attr, b.value);
    }
  }

  lemma {:induction false} ItemsKeep(qs: seq<Problem>, attr: Attribute, b: seq<RawCondition>)
    ensures Within(qs, ItemsFindings(qs, attr, b))
  {
    if b == [] {
    } else {
      ItemsKeep(qs, attr, b[..|b| - 1]);
    }
  }

  lemma {:induction false} PathsKeep(qs: seq<Problem>, lib: Library, b: seq<Attr<string>>)
    ensures Within(qs, PathsFindings(qs, lib, b))
  {
    if b == [] {
    } else {
      PathsKeep(qs, lib, b[..|b| - 1]);
    }
  }

  lemma CountsGrow(ps: seq<Problem>, qs: seq<Problem>, a: Raw, b: Raw)
    requires Within(ps, qs) && RawLearned(a, b)
    ensures Within(CountFindings(ps, a), CountFindings(qs, b))
  {
    assert GivesConditions(a.successConditions) ==> GivesConditions(b.successConditions);
  }

  lemma TimesGrow(ps: seq<Problem>, qs: seq<Problem>, lib: Library, a: Raw, b: Raw)
    requires Within(ps, qs) && RawLearned(a, b)
    ensures Within(TimeFindings(ps, lib, a), TimeFindings(qs, lib, b))
  {
  }

  lemma FieldsGrow(ps: seq<Problem>, qs: seq<Problem>, lib: Library, a: Raw, b: Raw)
    requires Within(ps, qs) && RawLearned(a, b)
    ensures Within(FieldsFindings(ps, lib, a.progressFields), FieldsFindings(qs, lib, b.progressFields))
  {
    if a.progressFields.Known? {
      PathsGrow(ps, qs, lib, a.progressFields.value, b.progressFields.value);
    } else if b.progressFields.Known? {
      PathsKeep(qs, lib, b.progressFields.value);
    }
  }

  lemma IgnoredGrow(ps: seq<Problem>, qs: seq<Problem>, a: Raw, b: Raw)
    requires Within(ps, qs) && RawLearned(a, b)
    ensures Within(IgnoredFindings(ps, a), IgnoredFindings(qs, b))
  {
  }

  /** Replacing unknown values by anything never removes an error or a warning. */
  lemma LearningKeepsFindings(lib: Library, a: Raw, b: Raw)
    requires RawLearned(a, b)
    ensures Within(Findings(lib, a), Findings(lib, b))
  {
    var ps1, qs1 := SelectionFindings([], lib, a), SelectionFindings([], lib, b);
    SelectionGrows([], [], lib, a, b);
    var ps2, qs2 := PredicateFindings(ps1, lib, a), PredicateFindings(qs1, lib, b);
    PredicatesGrow(ps1, qs1, lib, a, b);
    var ps3, qs3 := CountFindings(ps2, a), CountFindings(qs2, b);
    CountsGrow(ps2, qs2, a, b);
    var ps4, qs4 := AbsentFindings(ps3, a.absent), AbsentFindings(qs3, b.absent);
    assert Within(ps4, qs4);
    var ps5, qs5 := TimeFindings(ps4, lib, a), TimeFindings(qs4, lib, b);
    TimesGrow(ps4, qs4, lib, a, b);
    var ps6, qs6 := FieldsFindings(ps5, lib, a.progressFields), FieldsFindings(qs5, lib, b.progressFields);
    FieldsGrow(ps5, qs5, lib, a, b);
    IgnoredGrow(ps6, qs6, a, b);
  }

  /** So what a plan rejects, no later knowledge can make acceptable. */
  lemma RejectionIsFinal(lib: Library, a: Raw, b: Raw)
    requires RawLearned(a, b) && HasError(Findings(lib, a))
    ensures !Accepted(lib, b)
  {
    LearningKeepsFindings(lib, a, b);
  }

  // ---- What acceptance gives ----

  lemma CleanTimes(ps: seq<Problem>, lib: Library, raw: Raw)
    requires !HasError(TimeFindings(ps, lib, raw))
    ensures !HasError(ps)
    ensures raw.timeout.Unknown? || DurationOf(lib, raw.timeout, true).Some?
    ensures raw.settle.Known? ==> DurationOf(lib, raw.settle, false).Some?
    ensures raw.pollInterval.Known? ==> DurationOf(lib, raw.pollInterval, true).Some?
    ensures raw.progressInterval.Known? ==> DurationOf(lib, raw.progressInterval, true).Some?
    ensures SettleFits(lib, raw)
  {
    var p1 := RequiredDuration(ps, lib, Timeout, raw.timeout);
    var p2 := OptionalDuration(p1, lib, SettleWindow, raw.settle, false);
    var p3 := OptionalDuration(p2, lib, PollInterval, raw.pollInterval, true);
    var p4 := OptionalDuration(p3, lib, ProgressInterval, raw.progressInterval, true);
    CleanNote(p4, SettleFits(lib, raw), Validation.Bad(SettleWindow));
    CleanNote(p3, raw.progressInterval.Known? ==> DurationOf(lib, raw.progressInterval, true).Some?,
              Validation.Bad(ProgressInterval));
    CleanNote(p2, raw.pollInterval.Known? ==> DurationOf(lib, raw.pollInterval, true).Some?, Validation.Bad(PollInterval));
    CleanNote(p1, raw.settle.Known? ==> DurationOf(lib, raw.settle, false).Some?, Validation.Bad(SettleWindow));
    CleanNote(ps, raw.timeout.Unknown? || DurationOf(lib, raw.timeout, true).Some?, Validation.Bad(Timeout));
  }

  lemma CleanNote(ps: seq<Problem>, ok: bool, p: Problem)
    requires !HasError(Note(ps, ok, p))
    ensures !HasError(ps)
    ensures p.severity == Severity.Error ==> ok
  {
    if !ok {
      assert p in ps + [p];
      forall q | q in ps ensures q.severity != Severity.Error {
        assert q in ps + [p];
      }
    }
  }

  lemma CleanCounts(ps: seq<Problem>, raw: Raw)
    requires !HasError(CountFindings(ps, raw))
    ensures !HasError(ps)
    ensures raw.minMatching.Known? ==> CountOk(raw.minMatching.value)
    ensures raw.maxMatching.Known? ==> CountOk(raw.maxMatching.value)
    ensures RangeOk(raw)
    ensures DrainAsked(raw) ==> !GivesConditions(raw.successConditions) && !raw.expression.Known?
  {
    var p1 := NumberFindings(ps, MinMatching, raw.minMatching);
    var p2 := NumberFindings(p1, MaxMatching, raw.maxMatching);
    var p3 := Note(p2, RangeOk(raw), Validation.Bad(MinMatching));
    var p4 := DrainFindings(p3, SuccessConditions, raw, GivesConditions(raw.successConditions));
    CleanNote(p4, !(DrainAsked(raw) && raw.expression.Known?),
              Problem(Severity.Error, Whole(Expression), DrainWithSuccessPredicates));
    CleanNote(p3, !(DrainAsked(raw) && GivesConditions(raw.successConditions)),
              Problem(Severity.Error, Whole(SuccessConditions), DrainWithSuccessPredicates));
    CleanNote(p2, RangeOk(raw), Validation.Bad(MinMatching));
    CleanNote(p1, raw.maxMatching.Known? ==> CountOk(raw.maxMatching.value), Validation.Bad(MaxMatching));
    CleanNote(ps, raw.minMatching.Known? ==> CountOk(raw.minMatching.value), Validation.Bad(MinMatching));
  }

  lemma {:induction false} CleanPaths(ps: seq<Problem>, lib: Library, items: seq<Attr<string>>)
    requires !HasError(PathsFindings(ps, lib, items))
    ensures !HasError(ps)
  {
    if items == [] {
    } else {
      var n := |items| - 1;
      CleanNote(PathsFindings(ps, lib, items[..n]), PathOk(lib, items[n]),
                Problem(Severity.Error, Item(ProgressFields, n), Invalid));
      CleanPaths(ps, lib, items[..n]);
    }
  }

  lemma CleanIgnored(ps: seq<Problem>, raw: Raw)
    requires !HasError(IgnoredFindings(ps, raw))
    ensures !HasError(ps)
  {
    forall p | p in ps ensures p.severity != Severity.Error {
      assert p in IgnoredFindings(ps, raw);
    }
  }

  /** Walks the findings backwards to the rules the run loop needs. */
  lemma CleanRules(lib: Library, raw: Raw)
    requires !HasError(Findings(lib, raw))
    ensures raw.timeout.Unknown? || DurationOf(lib, raw.timeout, true).Some?
    ensures raw.settle.Known? ==> DurationOf(lib, raw.settle, false).Some?
    ensures raw.pollInterval.Known? ==> DurationOf(lib, raw.pollInterval, true).Some?
    ensures raw.progressInterval.Known? ==> DurationOf(lib, raw.progressInterval, true).Some?
    ensures SettleFits(lib, raw)
    ensures raw.minMatching.Known? ==> CountOk(raw.minMatching.value)
    ensures raw.maxMatching.Known? ==> CountOk(raw.maxMatching.value)
    ensures RangeOk(raw)
    ensures DrainAsked(raw) ==> !GivesConditions(raw.successConditions) && !raw.expression.Known?
  {
    var ps2 := PredicateFindings(SelectionFindings([], lib, raw), lib, raw);
    var ps3 := CountFindings(ps2, raw);
    var ps4 := AbsentFindings(ps3, raw.absent);
    var ps5 := TimeFindings(ps4, lib, raw);
    var ps6 := FieldsFindings(ps5, lib, raw.progressFields);
    CleanIgnored(ps6, raw);
    if raw.progressFields.Known? {
      CleanPaths(ps5, lib, raw.progressFields.value);
    }
    CleanTimes(ps4, lib, raw);
    CleanNote(ps3, raw.absent.Known? ==> AbsentVerdict(raw.absent.value).Some?, Validation.Bad(Absent));
    CleanCounts(ps2, raw);
  }

  /** Positive intervals, settle shorter than timeout, a sensible range, and
      max_matching = 0 only as a true drain with min_matching = 0. */
  lemma AcceptedSpec(lib: Library, raw: Raw)
    requires Accepted(lib, raw)
    ensures var s := SpecOf(lib, raw);
            && s.Runnable()
            && s.minMatching >= 0 && s.maxMatching >= -1
            && (s.maxMatching >= 0 ==> s.minMatching <= s.maxMatching)
            && (s.maxMatching == 0 ==> s.Drain() && s.minMatching == 0)
  {
    CleanRules(lib, raw);
  }

  /** A drain, from configuration to verdict: an accepted max_matching = 0
      succeeds only on a snapshot whose every object the filter ruled out
      without error; without set_expression, it always succeeds on one. */
  lemma AcceptedDrain(lib: Library, raw: Raw, objs: seq<Obj>)
    requires Accepted(lib, raw) && raw.name.Null?
    requires raw.maxMatching.Known? && raw.maxMatching.value == Finite(0.0)
    ensures var s := SpecOf(lib, raw);
            var success := SnapshotOutcome(s, objs).verdict == Success;
            && (success ==> forall o :: o in objs ==> FilterTruth(s, o) == False)
            && (raw.filter.Null? && success ==> objs == [])
            && (raw.setExpression.Null? && (forall o :: o in objs ==> FilterTruth(s, o) == False) ==> success)
  {
    AcceptedSpec(lib, raw);
    Verdicts.DrainSuccess(SpecOf(lib, raw), objs);
  }
}
