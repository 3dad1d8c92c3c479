/** What validation says, as a set, and what an accepted configuration comes to:
    said of the raw values and what the libraries make of their text. */
module Acceptance {
  import opened Common
  import opened FieldPaths
  import opened Objects
  import opened WaitSpec
  import opened Evaluator
  import opened Validation
  import opened Knowledge
  import Meaning

  // ---- The rules ----

  /** v is the whole number n of objects. */
  predicate CountIs(v: BigFloat, n: nat) {
    v.Finite? && n as real == v.r && n <= 0x7fff_ffff_ffff_ffff
  }

  ghost predicate IsCount(v: BigFloat) {
    exists n: nat :: CountIs(v, n)
  }

  lemma CountOkIff(v: BigFloat)
    ensures CountOk(v) <==> IsCount(v)
    ensures CountOk(v) ==> v.r.Floor >= 0 && CountIs(v, v.r.Floor)
    ensures forall n: nat :: CountIs(v, n) ==> CountOk(v) && v.r.Floor == n
  {
    if CountOk(v) {
      assert CountIs(v, v.r.Floor);
    }
  }

  /** min_matching, or its default of one, comes to n. */
  ghost predicate MinIs(raw: Raw, n: nat) {
    (raw.minMatching.Null? && n == 1) || (raw.minMatching.Known? && CountIs(raw.minMatching.value, n))
  }

  ghost predicate MaxIs(raw: Raw, n: nat) {
    raw.maxMatching.Known? && CountIs(raw.maxMatching.value, n)
  }

  /** The text is a version, with or without a group. */
  predicate IsVersion(lib: Library, v: string) {
    v != "" && lib.groupVersion(v).Some? && lib.groupVersion(v).value.1 != ""
  }

  /** The text gives the duration d. */
  predicate Lasts(lib: Library, a: Attr<string>, d: int) {
    !a.Unknown? && lib.duration(if a.Known? then a.value else "") == Some(d)
  }

  predicate ErrorAt(p: Problem, attr: Attribute) {
    p == Problem(Severity.Error, Whole(attr), Invalid)
  }

  ghost predicate SelectionBroken(lib: Library, raw: Raw, p: Problem) {
    var served := !raw.apiVersion.Unknown? && !raw.kind.Unknown?;
    || (ErrorAt(p, ApiVersion) && served && !(raw.apiVersion.Known? && IsVersion(lib, raw.apiVersion.value)))
    || (ErrorAt(p, KindName) && served && raw.apiVersion.Known? && IsVersion(lib, raw.apiVersion.value)
        && (raw.kind.Null? || raw.kind == Known("")))
    || (ErrorAt(p, ObjectName) && raw.name == Known(""))
    || (ErrorAt(p, Namespace) && raw.namespace == Known(""))
    || (ErrorAt(p, LabelSelector) && raw.labelSelector.Known? && !lib.labelSelectorOk(raw.labelSelector.value))
    || (ErrorAt(p, FieldSelector) && raw.fieldSelector.Known? && !lib.fieldSelectorOk(raw.fieldSelector.value))
    || (p == Problem(Severity.Error, Whole(LabelSelector), Conflicting) && raw.name.Known? && raw.labelSelector.Known?)
    || (p == Problem(Severity.Error, Whole(FieldSelector), Conflicting) && raw.name.Known? && raw.fieldSelector.Known?)
  }

  /** The condition at i of the list lacks its type or its status. */
  ghost predicate ConditionBroken(attr: Attribute, a: Attr<seq<RawCondition>>, p: Problem) {
    && p.severity == Severity.Error && p.summary == Invalid
    && a.Known? && p.place.Inside? && p.place.attr == attr && p.place.i < |a.value|
    && (|| (p.place.part == TypePart && a.value[p.place.i].kind == Known(""))
        || (p.place.part == StatusPart && a.value[p.place.i].status == Known("")))
  }

  ghost predicate PredicatesBroken(lib: Library, raw: Raw, p: Problem) {
    || ConditionBroken(SuccessConditions, raw.successConditions, p)
    || ConditionBroken(FailureConditions, raw.failureConditions, p)
    || (ErrorAt(p, Filter) && raw.filter.Known? && lib.compile(raw.filter.value).None?)
    || (ErrorAt(p, Expression) && raw.expression.Known? && lib.compile(raw.expression.value).None?)
    || (ErrorAt(p, FailureExpression) && raw.failureExpression.Known? && lib.compile(raw.failureExpression.value).None?)
    || (ErrorAt(p, SetExpression) && raw.setExpression.Known? && lib.compileSet(raw.setExpression.value).None?)
  }

  ghost predicate CountsBroken(raw: Raw, p: Problem) {
    || (ErrorAt(p, MinMatching) && raw.minMatching.Known? && !IsCount(raw.minMatching.value))
    || (ErrorAt(p, MaxMatching) && raw.maxMatching.Known? && !IsCount(raw.maxMatching.value))
    || (ErrorAt(p, MinMatching) && exists n: nat, m: nat :: MinIs(raw, n) && MaxIs(raw, m) && n > m)
    || (p == Problem(Severity.Error, Whole(SuccessConditions), DrainWithSuccessPredicates)
        && MaxIs(raw, 0) && raw.successConditions.Known? && raw.successConditions.value != [])
    || (p == Problem(Severity.Error, Whole(Expression), DrainWithSuccessPredicates)
        && MaxIs(raw, 0) && raw.expression.Known?)
  }

  ghost predicate AbsentBroken(raw: Raw, p: Problem) {
    && ErrorAt(p, Absent) && raw.absent.Known?
    && raw.absent.value != "pending" && raw.absent.value != "success" && raw.absent.value != "failure"
  }

  ghost predicate TimesBroken(lib: Library, raw: Raw, p: Problem) {
    || (ErrorAt(p, Timeout) && !raw.timeout.Unknown? && !(exists d :: Lasts(lib, raw.timeout, d) && d > 0))
    || (ErrorAt(p, SettleWindow) && raw.settle.Known? && !(exists d :: Lasts(lib, raw.settle, d) && d >= 0))
    || (ErrorAt(p, PollInterval) && raw.pollInterval.Known? && !(exists d :: Lasts(lib, raw.pollInterval, d) && d > 0))
    || (ErrorAt(p, ProgressInterval) && raw.progressInterval.Known?
        && !(exists d :: Lasts(lib, raw.progressInterval, d) && d > 0))
    || (ErrorAt(p, SettleWindow) && exists t, d :: Lasts(lib, raw.timeout, t) && t > 0 && SettleIs(lib, raw, d) && d >= t)
  }

  /** settle, or its default of nothing, comes to d. */
  ghost predicate SettleIs(lib: Library, raw: Raw, d: int) {
    (raw.settle.Null? && d == 0) || (raw.settle.Known? && Lasts(lib, raw.settle, d) && d >= 0)
  }

  ghost predicate FieldsBroken(lib: Library, raw: Raw, p: Problem) {
    && p.severity == Severity.Error && p.summary == Invalid
    && raw.progressFields.Known? && p.place.Item? && p.place.attr == ProgressFields
    && p.place.i < |raw.progressFields.value|
    && var a := raw.progressFields.value[p.place.i];
       !a.Unknown? && ParsePath(lib.unquote, if a.Known? then a.value else "").Bad?
  }

  /** A warning about an attribute that the mode makes no use of. */
  ghost predicate Unused(raw: Raw, p: Problem) {
    && p.severity == Warning && p.place.Whole?
    && (|| (p.summary == IgnoredInSetMode && p.place.attr == Absent && raw.name.Null? && raw.absent.Known?)
        || (p.summary == IgnoredInSingleMode && raw.name.Known? && SetOnly(raw, p.place.attr)))
  }

  /** An attribute of set mode, and given. */
  predicate SetOnly(raw: Raw, attr: Attribute) {
    || (attr == Filter && raw.filter.Known?)
    || (attr == SetExpression && raw.setExpression.Known?)
    || (attr == MinMatching && raw.minMatching.Known?)
    || (attr == MaxMatching && raw.maxMatching.Known?)
    || (attr == RequireAll && raw.requireAll.Known?)
  }

  ghost predicate Broken(lib: Library, raw: Raw, p: Problem) {
    || SelectionBroken(lib, raw, p) || PredicatesBroken(lib, raw, p) || CountsBroken(raw, p)
    || AbsentBroken(raw, p) || TimesBroken(lib, raw, p) || FieldsBroken(lib, raw, p) || Unused(raw, p)
  }

  // ---- The findings are the rules broken ----

  lemma SelectionFinds(ps: seq<Problem>, lib: Library, raw: Raw, p: Problem)
    ensures p in SelectionFindings(ps, lib, raw) <==> p in ps || SelectionBroken(lib, raw, p)
  {
  }

  lemma {:induction false} ItemsFind(ps: seq<Problem>, attr: Attribute, items: seq<RawCondition>, p: Problem)
    ensures p in ItemsFindings(ps, attr, items) <==> p in ps || ConditionBroken(attr, Known(items), p)
  {
    if items == [] {
    } else {
      var n := |items| - 1;
      ItemsFind(ps, attr, items[..n], p);
    }
  }

  lemma CondsFind(ps: seq<Problem>, attr: Attribute, a: Attr<seq<RawCondition>>, p: Problem)
    ensures p in CondsFindings(ps, attr, a) <==> p in ps || ConditionBroken(attr, a, p)
  {
    if a.Known? {
      ItemsFind(ps, attr, a.value, p);
    }
  }

  lemma PredicatesFind(ps: seq<Problem>, lib: Library, raw: Raw, p: Problem)
    ensures p in PredicateFindings(ps, lib, raw) <==> p in ps || PredicatesBroken(lib, raw, p)
  {
    var ps1 := CondsFindings(ps, SuccessConditions, raw.successConditions);
    CondsFind(ps, SuccessConditions, raw.successConditions, p);
    CondsFind(ps1, FailureConditions, raw.failureConditions, p);
  }

  lemma RangeIs(raw: Raw)
    ensures !RangeOk(raw) <==> exists n: nat, m: nat :: MinIs(raw, n) && MaxIs(raw, m) && n > m
    ensures DrainAsked(raw) <==> MaxIs(raw, 0)
  {
    if raw.minMatching.Known? {
      CountOkIff(raw.minMatching.value);
    }
    if raw.maxMatching.Known? {
      CountOkIff(raw.maxMatching.value);
    }
    if !RangeOk(raw) {
      var n, m := CountOf(raw.minMatching, DEFAULT_MIN_MATCHING), CountOf(raw.maxMatching, -1);
      assert MinIs(raw, n) && MaxIs(raw, m);
    }
  }

  lemma CountsFind(ps: seq<Problem>, raw: Raw, p: Problem)
    ensures p in CountFindings(ps, raw) <==> p in ps || CountsBroken(raw, p)
  {
    RangeIs(raw);
    if raw.minMatching.Known? {
      CountOkIff(raw.minMatching.value);
    }
    if raw.maxMatching.Known? {
      CountOkIff(raw.maxMatching.value);
    }
  }

  lemma DurationIs(lib: Library, a: Attr<string>, positive: bool)
    requires !a.Unknown?
    ensures DurationOf(lib, a, positive).Some? <==>
            exists d :: Lasts(lib, a, d) && (if positive then d > 0 else d >= 0)
    ensures forall d :: DurationOf(lib, a, positive) == Some(d) <==> Lasts(lib, a, d) && (if positive then d > 0 else d >= 0)
  {
    if DurationOf(lib, a, positive).Some? {
      assert Lasts(lib, a, DurationOf(lib, a, positive).value);
    }
  }

  lemma SettleFitsIff(lib: Library, raw: Raw)
    ensures !SettleFits(lib, raw) <==>
            exists t, d :: Lasts(lib, raw.timeout, t) && t > 0 && SettleIs(lib, raw, d) && d >= t
  {
    if !raw.timeout.Unknown? && !raw.settle.Unknown? {
      DurationIs(lib, raw.timeout, true);
      DurationIs(lib, raw.settle, false);
      if !SettleFits(lib, raw) {
        assert Lasts(lib, raw.timeout, TimeoutOf(lib, raw.timeout));
        assert SettleIs(lib, raw, DurationOr(lib, raw.settle, false, 0));
      }
    }
  }

  lemma TimesFind(ps: seq<Problem>, lib: Library, raw: Raw, p: Problem)
    ensures p in TimeFindings(ps, lib, raw) <==> p in ps || TimesBroken(lib, raw, p)
  {
    SettleFitsIff(lib, raw);
    if !raw.timeout.Unknown? {
      DurationIs(lib, raw.timeout, true);
    }
    if !raw.settle.Unknown? {
      DurationIs(lib, raw.settle, false);
    }
    if !raw.pollInterval.Unknown? {
      DurationIs(lib, raw.pollInterval, true);
    }
    if !raw.progressInterval.Unknown? {
      DurationIs(lib, raw.progressInterval, true);
    }
  }

  lemma {:induction false} PathsFind(ps: seq<Problem>, lib: Library, raw: Raw, items: seq<Attr<string>>, p: Problem)
    ensures p in PathsFindings(ps, lib, items) <==> p in ps || FieldsBroken(lib, raw.(progressFields := Known(items)), p)
  {
    if items == [] {
    } else {
      var n := |items| - 1;
      PathsFind(ps, lib, raw, items[..n], p);
    }
  }

  lemma FieldsFind(ps: seq<Problem>, lib: Library, raw: Raw, p: Problem)
    ensures p in FieldsFindings(ps, lib, raw.progressFields) <==> p in ps || FieldsBroken(lib, raw, p)
  {
    if raw.progressFields.Known? {
      PathsFind(ps, lib, raw, raw.progressFields.value, p);
    }
  }

  lemma UnusedFind(ps: seq<Problem>, raw: Raw, p: Problem)
    ensures p in IgnoredFindings(ps, raw) <==> p in ps || Unused(raw, p)
  {
    SetOnlyFind(ps, raw, p);
  }

  lemma SetOnlyFind(ps: seq<Problem>, raw: Raw, p: Problem)
    ensures p in SetOnlyFindings(ps, raw) <==>
            p in ps || (p == Problem(Warning, Whole(p.place.attr), IgnoredInSingleMode) && SetOnly(raw, p.place.attr))
  {
  }

  /** Validation finds exactly the rules that are broken, each at its place. */
  lemma FindingsAreBrokenRules(lib: Library, raw: Raw, p: Problem)
    ensures p in Findings(lib, raw) <==> Broken(lib, raw, p)
  {
    var ps1 := SelectionFindings([], lib, raw);
    SelectionFinds([], lib, raw, p);
    var ps2 := PredicateFindings(ps1, lib, raw);
    PredicatesFind(ps1, lib, raw, p);
    var ps3 := CountFindings(ps2, raw);
    CountsFind(ps2, raw, p);
    var ps4 := AbsentFindings(ps3, raw.absent);
    assert p in ps4 <==> p in ps3 || AbsentBroken(raw, p);
    var ps5 := TimeFindings(ps4, lib, raw);
    TimesFind(ps4, lib, raw, p);
    var ps6 := FieldsFindings(ps5, lib, raw.progressFields);
    FieldsFind(ps5, lib, raw, p);
    UnusedFind(ps6, raw, p);
  }

  // ---- Nothing is unknown ----

  lemma LearnConds(a: Attr<seq<RawCondition>>) returns (b: Attr<seq<RawCondition>>)
    requires !CondsKnown(a)
    ensures CondsLearned(a, b) && b != a
  {
    if a.Unknown? {
      b := Attr.Null;
    } else {
      var i :| 0 <= i < |a.value| && !ConditionKnown(a.value[i]);
      var c := a.value[i];
      var d := if c.kind.Unknown? then c.(kind := Attr.Null)
               else if c.status.Unknown? then c.(status := Attr.Null) else c.(reason := Attr.Null);
      b := Known(a.value[i := d]);
      assert b.value[i] != a.value[i];
    }
  }

  lemma LearnFields(a: Attr<seq<Attr<string>>>) returns (b: Attr<seq<Attr<string>>>)
    requires !FieldsKnown(a)
    ensures FieldsLearned(a, b) && b != a
  {
    if a.Unknown? {
      b := Attr.Null;
    } else {
      var i :| 0 <= i < |a.value| && a.value[i].Unknown?;
      b := Known(a.value[i := Attr.Null]);
      assert b.value[i] != a.value[i];
    }
  }

  lemma LearnText(raw: Raw) returns (b: Raw)
    requires !SelectionKnown(raw) || !FlagsKnown(raw) || !TimesKnown(raw) || !CountsKnown(raw)
    ensures RawLearned(raw, b) && b != raw
  {
    b := if raw.apiVersion.Unknown? then raw.(apiVersion := Attr.Null)
         else if raw.kind.Unknown? then raw.(kind := Attr.Null)
         else if raw.name.Unknown? then raw.(name := Attr.Null)
         else if raw.namespace.Unknown? then raw.(namespace := Attr.Null)
         else if raw.labelSelector.Unknown? then raw.(labelSelector := Attr.Null)
         else if raw.fieldSelector.Unknown? then raw.(fieldSelector := Attr.Null)
         else if raw.minMatching.Unknown? then raw.(minMatching := Attr.Null)
         else if raw.maxMatching.Unknown? then raw.(maxMatching := Attr.Null)
         else if raw.requireAll.Unknown? then raw.(requireAll := Attr.Null)
         else if raw.watch.Unknown? then raw.(watch := Attr.Null)
         else if raw.absent.Unknown? then raw.(absent := Attr.Null)
         else if raw.timeout.Unknown? then raw.(timeout := Attr.Null)
         else if raw.settle.Unknown? then raw.(settle := Attr.Null)
         else if raw.pollInterval.Unknown? then raw.(pollInterval := Attr.Null)
         else raw.(progressInterval := Attr.Null);
  }

  lemma LearnPredicates(raw: Raw) returns (b: Raw)
    requires !PredicatesKnown(raw)
    ensures RawLearned(raw, b) && b != raw
  {
    if !CondsKnown(raw.successConditions) {
      var c := LearnConds(raw.successConditions);
      b := raw.(successConditions := c);
    } else if !CondsKnown(raw.failureConditions) {
      var c := LearnConds(raw.failureConditions);
      b := raw.(failureConditions := c);
    } else {
      b := if raw.filter.Unknown? then raw.(filter := Attr.Null)
           else if raw.expression.Unknown? then raw.(expression := Attr.Null)
           else if raw.failureExpression.Unknown? then raw.(failureExpression := Attr.Null)
           else raw.(setExpression := Attr.Null);
    }
  }

  /** A configuration is complete exactly when there is nothing left to learn of it. */
  lemma CompleteIff(raw: Raw)
    ensures AllKnown(raw) <==> forall b :: RawLearned(raw, b) ==> b == raw
  {
    if AllKnown(raw) {
      forall b | RawLearned(raw, b) ensures b == raw {
        NothingToLearn(raw, b);
      }
    } else if !PredicatesKnown(raw) {
      var b := LearnPredicates(raw);
    } else if !FieldsKnown(raw.progressFields) {
      var f := LearnFields(raw.progressFields);
      assert RawLearned(raw, raw.(progressFields := f));
    } else {
      var b := LearnText(raw);
    }
  }

  lemma SameItems(a: Attr<seq<RawCondition>>, b: Attr<seq<RawCondition>>)
    requires CondsKnown(a) && CondsLearned(a, b)
    ensures a == b
  {
    if a.Known? {
      forall i | 0 <= i < |a.value| ensures a.value[i] == b.value[i] {
        assert ConditionLearned(a.value[i], b.value[i]);
      }
      assert a.value == b.value;
    }
  }

  lemma SameFields(a: Attr<seq<Attr<string>>>, b: Attr<seq<Attr<string>>>)
    requires FieldsKnown(a) && FieldsLearned(a, b)
    ensures a == b
  {
    if a.Known? {
      forall i | 0 <= i < |a.value| ensures a.value[i] == b.value[i] {
        assert Learned(a.value[i], b.value[i]);
      }
      assert a.value == b.value;
    }
  }

  lemma NothingToLearn(raw: Raw, b: Raw)
    requires AllKnown(raw) && RawLearned(raw, b)
    ensures b == raw
  {
    SameItems(raw.successConditions, b.successConditions);
    SameItems(raw.failureConditions, b.failureConditions);
    SameFields(raw.progressFields, b.progressFields);
  }

  /** A spec is given exactly for a configuration that is complete and breaks no
      rule but those that warn. */
  lemma AcceptedIff(lib: Library, raw: Raw)
    ensures Accepted(lib, raw) <==>
            && (forall b :: RawLearned(raw, b) ==> b == raw)
            && (forall p: Problem :: p.severity == Severity.Error ==> !Broken(lib, raw, p))
  {
    CompleteIff(raw);
    forall p: Problem ensures p in Findings(lib, raw) <==> Broken(lib, raw, p) {
      FindingsAreBrokenRules(lib, raw, p);
    }
  }

  // ---- The spec an accepted configuration comes to ----

  lemma UnbrokenAt(lib: Library, raw: Raw, p: Problem)
    requires Accepted(lib, raw) && p.severity == Severity.Error
    ensures !Broken(lib, raw, p)
  {
    AcceptedIff(lib, raw);
  }

  /** Names and selectors are the texts given, and empty where none is; the kind is
      what the library reads in the version, and the text of the kind. */
  lemma AcceptedSelection(lib: Library, raw: Raw)
    requires Accepted(lib, raw)
    ensures var s := SpecOf(lib, raw);
            && (if raw.name.Known? then s.name == raw.name.value != "" else s.name == "")
            && (if raw.namespace.Known? then s.namespace == raw.namespace.value != "" else s.namespace == "")
            && (if raw.labelSelector.Known? then s.labelSelector == raw.labelSelector.value else s.labelSelector == "")
            && (if raw.fieldSelector.Known? then s.fieldSelector == raw.fieldSelector.value else s.fieldSelector == "")
            && (raw.name.Known? ==> raw.labelSelector.Null? && raw.fieldSelector.Null?)
            && raw.kind == Known(s.kind) && s.kind != ""
            && raw.apiVersion.Known? && lib.groupVersion(raw.apiVersion.value) == Some((s.group, s.version))
            && s.version != ""
  {
    UnbrokenAt(lib, raw, Validation.Bad(ApiVersion));
    UnbrokenAt(lib, raw, Validation.Bad(KindName));
    UnbrokenAt(lib, raw, Validation.Bad(ObjectName));
    UnbrokenAt(lib, raw, Validation.Bad(Namespace));
    UnbrokenAt(lib, raw, Problem(Severity.Error, Whole(LabelSelector), Conflicting));
    UnbrokenAt(lib, raw, Problem(Severity.Error, Whole(FieldSelector), Conflicting));
  }

  ghost predicate ReadsAs(c: Condition, r: RawCondition) {
    && (if r.kind.Known? then c.kind == r.kind.value else c.kind == "")
    && (if r.status.Known? then c.status == r.status.value else c.status == "")
    && (if r.reason.Known? then c.reason == Some(r.reason.value) else c.reason == None)
  }

  lemma {:induction false} ItemsRead(items: seq<RawCondition>)
    requires forall i :: 0 <= i < |items| ==> ConditionUsable(items[i])
    ensures |ItemsOf(items)| == |items|
    ensures forall i :: 0 <= i < |items| ==> ReadsAs(ItemsOf(items)[i], items[i])
  {
    if items == [] {
    } else {
      ItemsRead(items[..|items| - 1]);
    }
  }

  /** The conditions are the ones given, in order; none for null. */
  ghost predicate ConditionsRead(cs: seq<Condition>, a: Attr<seq<RawCondition>>) {
    if a.Known? then |cs| == |a.value| && forall i :: 0 <= i < |cs| ==> ReadsAs(cs[i], a.value[i])
    else cs == []
  }

  lemma CondsRead(lib: Library, raw: Raw, attr: Attribute, a: Attr<seq<RawCondition>>)
    requires Accepted(lib, raw) && CondsKnown(a)
    requires (attr == SuccessConditions && a == raw.successConditions) ||
             (attr == FailureConditions && a == raw.failureConditions)
    ensures ConditionsRead(CondsOf(a), a)
  {
    if a.Known? {
      forall i | 0 <= i < |a.value| ensures ConditionUsable(a.value[i]) {
        UnbrokenAt(lib, raw, Problem(Severity.Error, Inside(attr, i, TypePart), Invalid));
        UnbrokenAt(lib, raw, Problem(Severity.Error, Inside(attr, i, StatusPart), Invalid));
        assert ConditionKnown(a.value[i]);
      }
      ItemsRead(a.value);
    }
  }

  /** The compiled text, and nothing for null. */
  ghost predicate Compiled<P(!new)>(compile: string -> Option<P>, a: Attr<string>, p: Option<P>) {
    if a.Known? then p.Some? && compile(a.value) == p else p.None?
  }

  /** The predicates are what was written, compiled where it is CEL. */
  lemma AcceptedPredicates(lib: Library, raw: Raw)
    requires Accepted(lib, raw)
    ensures var s := SpecOf(lib, raw);
            && ConditionsRead(s.successConditions, raw.successConditions)
            && ConditionsRead(s.failureConditions, raw.failureConditions)
            && Compiled(lib.compile, raw.filter, s.filter)
            && Compiled(lib.compile, raw.expression, s.expression)
            && Compiled(lib.compile, raw.failureExpression, s.failureExpression)
            && Compiled(lib.compileSet, raw.setExpression, s.setExpression)
  {
    CondsRead(lib, raw, SuccessConditions, raw.successConditions);
    CondsRead(lib, raw, FailureConditions, raw.failureConditions);
    UnbrokenAt(lib, raw, Validation.Bad(Filter));
    UnbrokenAt(lib, raw, Validation.Bad(Expression));
    UnbrokenAt(lib, raw, Validation.Bad(FailureExpression));
    UnbrokenAt(lib, raw, Validation.Bad(SetExpression));
  }

  /** Counts, flags and times are the ones given, or their defaults: at least one
      and no limit, not all, watching, no settling, ten seconds and sixty. */
  lemma AcceptedNumbers(lib: Library, raw: Raw)
    requires Accepted(lib, raw)
    ensures var s := SpecOf(lib, raw);
            && (if raw.minMatching.Known? then s.minMatching >= 0 && CountIs(raw.minMatching.value, s.minMatching)
                else s.minMatching == 1)
            && (if raw.maxMatching.Known? then s.maxMatching >= 0 && CountIs(raw.maxMatching.value, s.maxMatching)
                else s.maxMatching == -1)
            && (s.requireAll <==> raw.requireAll == Known(true)) && (s.watch <==> raw.watch != Known(false))
            && Lasts(lib, raw.timeout, s.timeout)
            && (if raw.settle.Known? then Lasts(lib, raw.settle, s.settle) else s.settle == 0)
            && (if raw.pollInterval.Known? then Lasts(lib, raw.pollInterval, s.pollInterval)
                else s.pollInterval == 10_000_000_000)
            && (if raw.progressInterval.Known? then Lasts(lib, raw.progressInterval, s.progressInterval)
                else s.progressInterval == 60_000_000_000)
  {
    CleanRules(lib, raw);
    if raw.minMatching.Known? {
      CountOkIff(raw.minMatching.value);
    }
    if raw.maxMatching.Known? {
      CountOkIff(raw.maxMatching.value);
    }
  }

  lemma {:induction false} PathsRead(lib: Library, items: seq<Attr<string>>)
    requires forall i :: 0 <= i < |items| ==> PathOf(lib, items[i]).Some?
    ensures |PathsOf(lib, items)| == |items|
    ensures forall i :: 0 <= i < |items| ==> Some(PathsOf(lib, items)[i]) == PathOf(lib, items[i])
  {
    if items == [] {
    } else {
      PathsRead(lib, items[..|items| - 1]);
    }
  }

  /** The progress fields are the parsed texts, in order. */
  lemma AcceptedProgressFields(lib: Library, raw: Raw)
    requires Accepted(lib, raw)
    ensures var fields := SpecOf(lib, raw).progressFields;
            if raw.progressFields.Known? then
              && |fields| == |raw.progressFields.value|
              && forall i :: 0 <= i < |fields| ==>
                   && raw.progressFields.value[i] == Known(fields[i].source)
                   && ParsePath(lib.unquote, fields[i].source) == Ok(fields[i].elems)
            else fields == []
  {
    if raw.progressFields.Known? {
      var items := raw.progressFields.value;
      forall i | 0 <= i < |items| ensures PathOf(lib, items[i]).Some? && items[i].Known? {
        UnbrokenAt(lib, raw, Problem(Severity.Error, Item(ProgressFields, i), Invalid));
        assert !items[i].Unknown?;
      }
      PathsRead(lib, items);
    }
  }

  // ---- Absent, from configuration to verdict ----

  lemma AbsentRead(lib: Library, raw: Raw)
    requires Accepted(lib, raw)
    ensures var v := SpecOf(lib, raw).absent;
            && (v == Success <==> raw.absent == Known("success"))
            && (v == Failure <==> raw.absent == Known("failure"))
            && (v == Pending <==> raw.absent == Known("pending") || raw.absent.Null?)
  {
    UnbrokenAt(lib, raw, Validation.Bad(Absent));
  }

  /** The object o has the name, and the namespace if there is one, that raw asks for. */
  predicate AskedFor(raw: Raw, o: Obj)
    requires raw.name.Known?
  {
    RefOf(o).name == raw.name.value && (raw.namespace.Known? ==> RefOf(o).namespace == raw.namespace.value)
  }

  lemma NobodyAnswers(lib: Library, raw: Raw, objs: seq<Obj>)
    requires Accepted(lib, raw) && raw.name.Known?
    requires forall o :: o in objs ==> !AskedFor(raw, o)
    ensures SpecOf(lib, raw).Single() && forall o :: o in objs ==> !Meaning.AnswersTo(SpecOf(lib, raw), o)
  {
    AcceptedSelection(lib, raw);
    var s := SpecOf(lib, raw);
    forall o | o in objs ensures !Meaning.AnswersTo(s, o) {
      assert !AskedFor(raw, o);
    }
  }

  /** A wait for one object, on a snapshot without it: success or failure exactly
      when `absent` says so, and pending when it says that or nothing. */
  lemma AbsentMeans(lib: Library, raw: Raw, objs: seq<Obj>)
    requires Accepted(lib, raw) && raw.name.Known?
    requires forall o :: o in objs ==> !AskedFor(raw, o)
    ensures var v := SnapshotOutcome(SpecOf(lib, raw), objs).verdict;
            && (v == Success <==> raw.absent == Known("success"))
            && (v == Failure <==> raw.absent == Known("failure"))
            && (v == Pending <==> raw.absent == Known("pending") || raw.absent.Null?)
  {
    NobodyAnswers(lib, raw, objs);
    AbsentRead(lib, raw);
    Meaning.SingleMeans(SpecOf(lib, raw), objs, 0);
  }
}
