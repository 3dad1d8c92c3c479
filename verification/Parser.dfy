/** The walk over a raw configuration that reports findings and builds the spec. */
module Parser {
  import opened Common
  import opened Decimals
  import opened FieldPaths
  import opened WaitSpec
  import opened Validation

  /** The findings so far, and whether every value met so far was known. */
  class Report {
    var problems: seq<Problem>
    var complete: bool

    constructor ()
      ensures problems == [] && complete
    {
      problems, complete := [], true;
    }

    method Known<T>(a: Attr<T>) returns (known: bool)
      modifies this`complete
      ensures known == !a.Unknown?
      ensures complete == (old(complete) && known)
    {
      known := !a.Unknown?;
      if a.Unknown? {
        complete := false;
      }
    }

    method Add(p: Problem)
      modifies this`problems
      ensures problems == old(problems) + [p]
    {
      problems := problems + [p];
    }
  }

  method AnyError(ps: seq<Problem>) returns (found: bool)
    ensures found <==> HasError(ps)
  {
    for i := 0 to |ps|
      invariant forall k :: 0 <= k < i ==> ps[k].severity != Severity.Error
    {
      if ps[i].severity == Severity.Error {
        return true;
      }
    }
    return false;
  }

  method ParseConds(rep: Report, attr: Attribute, raw: Attr<seq<RawCondition>>) returns (out: seq<Condition>)
    modifies rep
    ensures rep.problems == CondsFindings(old(rep.problems), attr, raw)
    ensures rep.complete == (old(rep.complete) && CondsKnown(raw))
    ensures out == CondsOf(raw)
  {
    out := [];
    if raw.Unknown? {
      rep.complete := false;
      return;
    }
    if raw.Null? {
      return;
    }
    var items := raw.value;
    for i := 0 to |items|
      invariant rep.problems == ItemsFindings(old(rep.problems), attr, items[..i])
      invariant rep.complete == (old(rep.complete) && forall k :: 0 <= k < i ==> ConditionKnown(items[k]))
      invariant out == ItemsOf(items[..i])
    {
      assert items[..i + 1][..i] == items[..i];
      var ok := ParseCondition(rep, attr, i, items[i]);
      if ok {
        out := out + [ConditionOf(items[i])];
      }
    }
    assert items[..|items|] == items;
  }

  method ParseCondition(rep: Report, attr: Attribute, i: nat, c: RawCondition) returns (ok: bool)
    modifies rep
    ensures rep.problems == ConditionFindings(old(rep.problems), attr, i, c)
    ensures rep.complete == (old(rep.complete) && ConditionKnown(c))
    ensures ok == ConditionUsable(c)
  {
    var typeOk := ParsePart(rep, attr, i, TypePart, c.kind, true);
    var statusOk := ParsePart(rep, attr, i, StatusPart, c.status, true);
    var reasonOk := ParsePart(rep, attr, i, ReasonPart, c.reason, false);
    ok := typeOk && statusOk && reasonOk;
  }

  method ParsePart(rep: Report, attr: Attribute, i: nat, part: Part, a: Attr<string>, required: bool) returns (ok: bool)
    modifies rep
    ensures rep.problems == if required then RequiredFindings(old(rep.problems), attr, i, part, a) else old(rep.problems)
    ensures rep.complete == (old(rep.complete) && !a.Unknown?)
    ensures ok == (!a.Unknown? && (required ==> a != Known("")))
  {
    ok := true;
    if a.Unknown? {
      rep.complete := false;
      return false;
    }
    if a.Null? {
      return;
    }
    if a.value == "" && required {
      rep.Add(Problem(Severity.Error, Inside(attr, i, part), Invalid));
      ok := false;
    }
  }

  method Compile<P>(rep: Report, compile: string -> Option<P>, attr: Attribute, a: Attr<string>) returns (p: Option<P>)
    modifies rep
    ensures rep.problems == CelFindings(old(rep.problems), attr, compile, a)
    ensures rep.complete == (old(rep.complete) && !a.Unknown?)
    ensures p == CelOf(compile, a)
  {
    var known := rep.Known(a);
    if !known || a.Null? {
      return None;
    }
    p := compile(a.value);
    if p.None? {
      rep.Add(Validation.Bad(attr));
    }
  }

  method Count(rep: Report, attr: Attribute, v: BigFloat) returns (n: int, ok: bool)
    modifies rep`problems
    ensures ok == CountOk(v)
    ensures rep.problems == Note(old(rep.problems), ok, Validation.Bad(attr))
    ensures ok ==> n == v.r.Floor
  {
    if v.NoNumber? || v.Infinite? || v.r.Floor as real != v.r || v.r < 0.0 || v.r.Floor > MAX_INT64 {
      rep.Add(Validation.Bad(attr));
      return 0, false;
    }
    return v.r.Floor, true;
  }

  method Duration(lib: Library, rep: Report, attr: Attribute, a: Attr<string>, positive: bool) returns (d: int, ok: bool)
    modifies rep`problems
    ensures ok == DurationOf(lib, a, positive).Some?
    ensures rep.problems == Note(old(rep.problems), ok, Validation.Bad(attr))
    ensures d == if ok then DurationOf(lib, a, positive).value else 0
  {
    var r := lib.duration(TextOf(a));
    if r.None? || (positive && r.value <= 0) || r.value < 0 {
      rep.Add(Validation.Bad(attr));
      return 0, false;
    }
    return r.value, true;
  }

  method ParseSelection(lib: Library, rep: Report, raw: Raw)
    returns (gvk: (string, string, string), name: string, namespace: string, labels: string, fields: string)
    modifies rep
    ensures rep.problems == SelectionFindings(old(rep.problems), lib, raw)
    ensures rep.complete == (old(rep.complete) && SelectionKnown(raw))
    ensures gvk == GroupVersionKindOf(lib, raw)
    ensures name == TextOf(raw.name) && namespace == TextOf(raw.namespace)
    ensures labels == TextOf(raw.labelSelector) && fields == TextOf(raw.fieldSelector)
  {
    gvk, name, namespace, labels, fields := ("", "", ""), "", "", "", "";
    var known := rep.Known(raw.apiVersion);
    if known {
      known := rep.Known(raw.kind);
      if known {
        var v := TextOf(raw.apiVersion);
        var gv := lib.groupVersion(v);
        if gv.None? || v == "" || gv.value.1 == "" {
          rep.Add(Validation.Bad(ApiVersion));
        } else if TextOf(raw.kind) == "" {
          rep.Add(Validation.Bad(KindName));
        } else {
          gvk := (gv.value.0, gv.value.1, TextOf(raw.kind));
        }
      }
    }

    name := ParseText(rep, ObjectName, raw.name);
    namespace := ParseText(rep, Namespace, raw.namespace);
    labels := ParseSelector(rep, lib.labelSelectorOk, LabelSelector, raw.labelSelector);
    fields := ParseSelector(rep, lib.fieldSelectorOk, FieldSelector, raw.fieldSelector);
    if raw.name.Known? {
      if raw.labelSelector.Known? {
        rep.Add(Problem(Severity.Error, Whole(LabelSelector), Conflicting));
      }
    }
    if raw.name.Known? {
      if raw.fieldSelector.Known? {
        rep.Add(Problem(Severity.Error, Whole(FieldSelector), Conflicting));
      }
    }
  }

  method ParseText(rep: Report, attr: Attribute, a: Attr<string>) returns (v: string)
    modifies rep
    ensures rep.problems == NonEmptyFindings(old(rep.problems), attr, a)
    ensures rep.complete == (old(rep.complete) && !a.Unknown?)
    ensures v == TextOf(a)
  {
    v := "";
    var known := rep.Known(a);
    if known && a.Known? {
      if a.value == "" {
        rep.Add(Validation.Bad(attr));
      }
      v := a.value;
    }
  }

  method ParseSelector(rep: Report, valid: string -> bool, attr: Attribute, a: Attr<string>) returns (v: string)
    modifies rep
    ensures rep.problems == SelectorFindings(old(rep.problems), attr, valid, a)
    ensures rep.complete == (old(rep.complete) && !a.Unknown?)
    ensures v == TextOf(a)
  {
    v := "";
    var known := rep.Known(a);
    if known && a.Known? {
      if !valid(a.value) {
        rep.Add(Validation.Bad(attr));
      }
      v := a.value;
    }
  }

  method ParsePredicates(lib: Library, rep: Report, raw: Raw)
    returns (succ: seq<Condition>, fail: seq<Condition>, filter: Option<Program>, expr: Option<Program>,
             fexpr: Option<Program>, sexpr: Option<SetProgram>)
    modifies rep
    ensures rep.problems == PredicateFindings(old(rep.problems), lib, raw)
    ensures rep.complete == (old(rep.complete) && PredicatesKnown(raw))
    ensures succ == CondsOf(raw.successConditions) && fail == CondsOf(raw.failureConditions)
    ensures filter == CelOf(lib.compile, raw.filter) && expr == CelOf(lib.compile, raw.expression)
    ensures fexpr == CelOf(lib.compile, raw.failureExpression) && sexpr == CelOf(lib.compileSet, raw.setExpression)
  {
    succ := ParseConds(rep, SuccessConditions, raw.successConditions);
    fail := ParseConds(rep, FailureConditions, raw.failureConditions);
    filter := Compile(rep, lib.compile, Filter, raw.filter);
    expr := Compile(rep, lib.compile, Expression, raw.expression);
    fexpr := Compile(rep, lib.compile, FailureExpression, raw.failureExpression);
    sexpr := Compile(rep, lib.compileSet, SetExpression, raw.setExpression);
  }

  method ParseCount(rep: Report, attr: Attribute, a: Attr<BigFloat>, default: int) returns (n: int, known: bool)
    modifies rep
    ensures rep.problems == NumberFindings(old(rep.problems), attr, a)
    ensures rep.complete == (old(rep.complete) && !a.Unknown?)
    ensures n == CountOf(a, default) && known == CountKnown(a)
  {
    n := default;
    known := rep.Known(a);
    if known && a.Known? {
      var v, ok := Count(rep, attr, a.value);
      if ok {
        n := v;
      } else {
        known := false;
      }
    }
  }

  method ParseCounts(rep: Report, raw: Raw) returns (min: int, max: int)
    modifies rep
    ensures rep.problems == CountFindings(old(rep.problems), raw)
    ensures rep.complete == (old(rep.complete) && CountsKnown(raw))
    ensures min == CountOf(raw.minMatching, DEFAULT_MIN_MATCHING) && max == CountOf(raw.maxMatching, -1)
  {
    var minKnown, maxKnown;
    min, minKnown := ParseCount(rep, MinMatching, raw.minMatching, DEFAULT_MIN_MATCHING);
    max, maxKnown := ParseCount(rep, MaxMatching, raw.maxMatching, -1);
    if minKnown && maxKnown && max >= 0 && min > max {
      rep.Add(Validation.Bad(MinMatching));
    }
    var drain := maxKnown && raw.maxMatching.Known? && max == 0;
    if drain && raw.successConditions.Known? && |raw.successConditions.value| > 0 {
      rep.Add(Problem(Severity.Error, Whole(SuccessConditions), DrainWithSuccessPredicates));
    }
    if drain && raw.expression.Known? {
      rep.Add(Problem(Severity.Error, Whole(Expression), DrainWithSuccessPredicates));
    }
  }

  method ParseFlags(rep: Report, raw: Raw) returns (all: bool, watch: bool, absent: Verdict)
    modifies rep
    ensures rep.problems == AbsentFindings(old(rep.problems), raw.absent)
    ensures rep.complete == (old(rep.complete) && FlagsKnown(raw))
    ensures all == FlagOf(raw.requireAll, false) && watch == FlagOf(raw.watch, true)
    ensures absent == AbsentOf(raw.absent)
  {
    all, watch, absent := false, true, Pending;
    var known := rep.Known(raw.requireAll);
    if known && raw.requireAll.Known? {
      all := raw.requireAll.value;
    }
    known := rep.Known(raw.watch);
    if known && raw.watch.Known? {
      watch := raw.watch.value;
    }
    known := rep.Known(raw.absent);
    if known && raw.absent.Known? {
      var v := AbsentVerdict(raw.absent.value);
      if v.Some? {
        absent := v.value;
      } else {
        rep.Add(Validation.Bad(Absent));
      }
    }
  }

  method ParseInterval(lib: Library, rep: Report, attr: Attribute, a: Attr<string>, default: int) returns (d: int)
    modifies rep
    ensures rep.problems == OptionalDuration(old(rep.problems), lib, attr, a, true)
    ensures rep.complete == (old(rep.complete) && !a.Unknown?)
    ensures d == DurationOr(lib, a, true, default)
  {
    d := default;
    var known := rep.Known(a);
    if known && a.Known? {
      var v, ok := Duration(lib, rep, attr, a, true);
      if ok {
        d := v;
      }
    }
  }

  method ParseTimes(lib: Library, rep: Report, raw: Raw)
    returns (timeout: int, settle: int, poll: int, progress: int)
    modifies rep
    ensures rep.problems == TimeFindings(old(rep.problems), lib, raw)
    ensures rep.complete == (old(rep.complete) && TimesKnown(raw))
    ensures timeout == TimeoutOf(lib, raw.timeout)
    ensures settle == DurationOr(lib, raw.settle, false, 0)
    ensures poll == DurationOr(lib, raw.pollInterval, true, DEFAULT_POLL_INTERVAL)
    ensures progress == DurationOr(lib, raw.progressInterval, true, DEFAULT_PROGRESS_INTERVAL)
  {
    var timeoutOk, settleOk := false, true;
    timeout, settle := 0, 0;
    var known := rep.Known(raw.timeout);
    if known {
      var d, ok := Duration(lib, rep, Timeout, raw.timeout, true);
      if ok {
        timeout, timeoutOk := d, true;
      }
    }
    known := rep.Known(raw.settle);
    if !known {
      settleOk := false;
    } else if raw.settle.Known? {
      settle, settleOk := Duration(lib, rep, SettleWindow, raw.settle, false);
    }
    poll := ParseInterval(lib, rep, PollInterval, raw.pollInterval, DEFAULT_POLL_INTERVAL);
    progress := ParseInterval(lib, rep, ProgressInterval, raw.progressInterval, DEFAULT_PROGRESS_INTERVAL);
    if timeoutOk && settleOk && settle >= timeout {
      rep.Add(Validation.Bad(SettleWindow));
    }
  }

  method ParseField(lib: Library, rep: Report, i: nat, a: Attr<string>) returns (path: Option<FieldPath>)
    modifies rep
    ensures rep.problems == Note(old(rep.problems), PathOk(lib, a), Problem(Severity.Error, Item(ProgressFields, i), Invalid))
    ensures rep.complete == (old(rep.complete) && !a.Unknown?)
    ensures path == PathOf(lib, a)
  {
    path := None;
    var known := rep.Known(a);
    if !known {
      return;
    }
    var r := ParseFieldPath(lib.unquote, TextOf(a));
    if r.Bad? {
      rep.Add(Problem(Severity.Error, Item(ProgressFields, i), Invalid));
      return;
    }
    path := Some(FieldPath(TextOf(a), r.elems));
  }

  /** One more entry, in the findings and in the paths. */
  lemma FieldsNext(ps: seq<Problem>, lib: Library, items: seq<Attr<string>>, i: nat)
    requires i < |items|
    ensures PathsFindings(ps, lib, items[..i + 1]) ==
            Note(PathsFindings(ps, lib, items[..i]), PathOk(lib, items[i]),
                 Problem(Severity.Error, Item(ProgressFields, i), Invalid))
    ensures PathsOf(lib, items[..i + 1]) ==
            if PathOf(lib, items[i]).Some? then PathsOf(lib, items[..i]) + [PathOf(lib, items[i]).value]
            else PathsOf(lib, items[..i])
  {
    assert items[..i + 1][..i] == items[..i];
    assert PathsOf(lib, items[..i]) + [] == PathsOf(lib, items[..i]);
  }

  method ParseFields(lib: Library, rep: Report, a: Attr<seq<Attr<string>>>) returns (paths: seq<FieldPath>)
    modifies rep
    ensures rep.problems == FieldsFindings(old(rep.problems), lib, a)
    ensures rep.complete == (old(rep.complete) && FieldsKnown(a))
    ensures paths == FieldsOf(lib, a)
  {
    paths := [];
    var known := rep.Known(a);
    if !known || a.Null? {
      return;
    }
    var items := a.value;
    for i := 0 to |items|
      invariant rep.problems == PathsFindings(old(rep.problems), lib, items[..i])
      invariant rep.complete == (old(rep.complete) && forall k :: 0 <= k < i ==> !items[k].Unknown?)
      invariant paths == PathsOf(lib, items[..i])
    {
      FieldsNext(old(rep.problems), lib, items, i);
      var path := ParseField(lib, rep, i, items[i]);
      if path.Some? {
        paths := paths + [path.value];
      }
    }
    assert items[..|items|] == items;
  }

  method WarnIgnored(rep: Report, raw: Raw)
    modifies rep`problems
    ensures rep.problems == IgnoredFindings(old(rep.problems), raw)
  {
    if raw.name.Known? {
      WarnIf(rep, raw.filter.Known?, Ignored(Filter));
      WarnIf(rep, raw.setExpression.Known?, Ignored(SetExpression));
      WarnIf(rep, raw.minMatching.Known?, Ignored(MinMatching));
      WarnIf(rep, raw.maxMatching.Known?, Ignored(MaxMatching));
      WarnIf(rep, raw.requireAll.Known?, Ignored(RequireAll));
    } else if raw.name.Null? {
      WarnIf(rep, raw.absent.Known?, Ignored(Absent));
    }
  }

  method WarnIf(rep: Report, given: bool, p: Problem)
    modifies rep`problems
    ensures rep.problems == Note(old(rep.problems), !given, p)
  {
    if given {
      rep.Add(p);
    }
  }

  /** The whole walk. A spec comes back exactly when the configuration is
      accepted, and it is the one the configuration stands for. */
  method Parse(lib: Library, raw: Raw) returns (spec: Option<Spec>, problems: seq<Problem>)
    ensures problems == Findings(lib, raw)
    ensures spec == if Accepted(lib, raw) then Some(SpecOf(lib, raw)) else None
  {
    var rep := new Report();
    var gvk, name, namespace, labels, fields := ParseSelection(lib, rep, raw);
    var succ, fail, filter, expr, fexpr, sexpr := ParsePredicates(lib, rep, raw);
    var min, max := ParseCounts(rep, raw);
    var all, watch, absent := ParseFlags(rep, raw);
    var timeout, settle, poll, progress := ParseTimes(lib, rep, raw);
    var paths := ParseFields(lib, rep, raw.progressFields);
    WarnIgnored(rep, raw);
    problems := rep.problems;
    assert problems == Findings(lib, raw);
    var failed := AnyError(problems);
    if !rep.complete || failed {
      return None, problems;
    }
    spec := Some(Spec(gvk.0, gvk.1, gvk.2, namespace, name, labels, fields, filter, expr, fexpr, sexpr,
                      succ, fail, min, max, all, absent, timeout, settle, poll, progress, watch, paths));
  }
}
