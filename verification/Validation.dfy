/**
 Validating a raw configuration. Every attribute may be null, not yet known, or
 known. The findings are given rule by rule as functions of the raw values; the
 methods walk the configuration the way the provider does, adding to a report.
 */
module Validation {
  import opened Common
  import opened Decimals
  import opened Durations
  import opened FieldPaths
  import opened WaitSpec

  // ---- Raw configuration ----

  datatype Attr<+T> = Null | Unknown | Known(value: T)

  datatype BigFloat = NoNumber | Infinite(negative: bool) | Finite(r: real)

  datatype RawCondition = RawCondition(kind: Attr<string>, status: Attr<string>, reason: Attr<string>)

  datatype Raw = Raw(
    apiVersion: Attr<string>, kind: Attr<string>,
    namespace: Attr<string>, name: Attr<string>,
    labelSelector: Attr<string>, fieldSelector: Attr<string>,
    filter: Attr<string>,
    successConditions: Attr<seq<RawCondition>>, failureConditions: Attr<seq<RawCondition>>,
    expression: Attr<string>, failureExpression: Attr<string>, setExpression: Attr<string>,
    minMatching: Attr<BigFloat>, maxMatching: Attr<BigFloat>,
    requireAll: Attr<bool>, absent: Attr<string>,
    timeout: Attr<string>, settle: Attr<string>, pollInterval: Attr<string>,
    watch: Attr<bool>,
    progressFields: Attr<seq<Attr<string>>>, progressInterval: Attr<string>)

  /** Parsers the provider takes from libraries; each may refuse its text. */
  datatype Library = Library(
    groupVersion: string -> Option<(string, string)>,
    labelSelectorOk: string -> bool,
    fieldSelectorOk: string -> bool,
    compile: string -> Option<Program>,
    compileSet: string -> Option<SetProgram>,
    duration: string -> Option<int>,
    unquote: Unquote)

  const DEFAULT_MIN_MATCHING := 1
  const DEFAULT_POLL_INTERVAL := 10 * SECOND
  const DEFAULT_PROGRESS_INTERVAL := 60 * SECOND

  /** The text of an attribute; a null one reads as empty. */
  function TextOf(a: Attr<string>): string {
    if a.Known? then a.value else ""
  }

  // ---- Findings ----

  datatype Severity = Error | Warning

  datatype Attribute =
    | ApiVersion | KindName | Namespace | ObjectName | LabelSelector | FieldSelector | Filter
    | SuccessConditions | FailureConditions | Expression | FailureExpression | SetExpression
    | MinMatching | MaxMatching | RequireAll | Absent | Timeout | SettleWindow | PollInterval
    | Watch | ProgressFields | ProgressInterval

  datatype Part = TypePart | StatusPart | ReasonPart

  /** Where a problem is: an attribute, an element of it, or a part of that. */
  datatype Place = Whole(attr: Attribute) | Item(attr: Attribute, i: nat) | Inside(attr: Attribute, i: nat, part: Part)

  datatype Summary = Invalid | Conflicting | DrainWithSuccessPredicates | IgnoredInSingleMode | IgnoredInSetMode

  datatype Problem = Problem(severity: Severity, place: Place, summary: Summary)

  function Bad(attr: Attribute): Problem {
    Problem(Severity.Error, Whole(attr), Invalid)
  }

  /** The findings so far, and p unless all is well. */
  function Note(ps: seq<Problem>, ok: bool, p: Problem): seq<Problem> {
    if ok then ps else ps + [p]
  }

  ghost predicate HasError(ps: seq<Problem>) {
    exists p :: p in ps && p.severity == Severity.Error
  }

  // Selection.

  predicate ApiVersionOk(lib: Library, v: string) {
    v != "" && lib.groupVersion(v).Some? && lib.groupVersion(v).value.1 != ""
  }

  function KindFindings(ps: seq<Problem>, lib: Library, raw: Raw): seq<Problem> {
    if raw.apiVersion.Unknown? || raw.kind.Unknown? then ps
    else if !ApiVersionOk(lib, TextOf(raw.apiVersion)) then ps + [Bad(ApiVersion)]
    else Note(ps, TextOf(raw.kind) != "", Bad(KindName))
  }

  function NonEmptyFindings(ps: seq<Problem>, attr: Attribute, a: Attr<string>): seq<Problem> {
    Note(ps, a.Known? ==> a.value != "", Bad(attr))
  }

  function SelectorFindings(ps: seq<Problem>, attr: Attribute, valid: string -> bool, a: Attr<string>): seq<Problem> {
    Note(ps, a.Known? ==> valid(a.value), Bad(attr))
  }

  /** An object is chosen by its name or by a selector, not by both. */
  function ConflictFindings(ps: seq<Problem>, attr: Attribute, name: Attr<string>, selector: Attr<string>): seq<Problem> {
    Note(ps, !(name.Known? && selector.Known?), Problem(Severity.Error, Whole(attr), Conflicting))
  }

  function SelectionFindings(ps: seq<Problem>, lib: Library, raw: Raw): seq<Problem> {
    var ps := KindFindings(ps, lib, raw);
    var ps := NonEmptyFindings(ps, ObjectName, raw.name);
    var ps := NonEmptyFindings(ps, Namespace, raw.namespace);
    var ps := SelectorFindings(ps, LabelSelector, lib.labelSelectorOk, raw.labelSelector);
    var ps := SelectorFindings(ps, FieldSelector, lib.fieldSelectorOk, raw.fieldSelector);
    var ps := ConflictFindings(ps, LabelSelector, raw.name, raw.labelSelector);
    ConflictFindings(ps, FieldSelector, raw.name, raw.fieldSelector)
  }

  // Predicates.

  function RequiredFindings(ps: seq<Problem>, attr: Attribute, i: nat, part: Part, a: Attr<string>): seq<Problem> {
    Note(ps, a != Known(""), Problem(Severity.Error, Inside(attr, i, part), Invalid))
  }

  function ConditionFindings(ps: seq<Problem>, attr: Attribute, i: nat, c: RawCondition): seq<Problem> {
    RequiredFindings(RequiredFindings(ps, attr, i, TypePart, c.kind), attr, i, StatusPart, c.status)
  }

  function ItemsFindings(ps: seq<Problem>, attr: Attribute, items: seq<RawCondition>): seq<Problem> {
    if items == [] then ps
    else var n := |items| - 1; ConditionFindings(ItemsFindings(ps, attr, items[..n]), attr, n, items[n])
  }

  function CondsFindings(ps: seq<Problem>, attr: Attribute, a: Attr<seq<RawCondition>>): seq<Problem> {
    if a.Known? then ItemsFindings(ps, attr, a.value) else ps
  }

  function CelFindings<P>(ps: seq<Problem>, attr: Attribute, compile: string -> Option<P>, a: Attr<string>): seq<Problem> {
    Note(ps, a.Known? ==> compile(a.value).Some?, Bad(attr))
  }

  function PredicateFindings(ps: seq<Problem>, lib: Library, raw: Raw): seq<Problem> {
    var ps := CondsFindings(ps, SuccessConditions, raw.successConditions);
    var ps := CondsFindings(ps, FailureConditions, raw.failureConditions);
    var ps := CelFindings(ps, Filter, lib.compile, raw.filter);
    var ps := CelFindings(ps, Expression, lib.compile, raw.expression);
    var ps := CelFindings(ps, FailureExpression, lib.compile, raw.failureExpression);
    CelFindings(ps, SetExpression, lib.compileSet, raw.setExpression)
  }

  // Counts.

  /** Finite, integral, and in [0, MAX_INT64]. */
  predicate CountOk(v: BigFloat) {
    v.Finite? && v.r >= 0.0 && v.r.Floor as real == v.r && v.r.Floor <= MAX_INT64
  }

  function CountOf(a: Attr<BigFloat>, default: int): int {
    if a.Known? && CountOk(a.value) then a.value.r.Floor else default
  }

  function NumberFindings(ps: seq<Problem>, attr: Attribute, a: Attr<BigFloat>): seq<Problem> {
    Note(ps, a.Known? ==> CountOk(a.value), Bad(attr))
  }

  /** Whether a later rule may rely on the count: it is known, and valid if set. */
  predicate CountKnown(a: Attr<BigFloat>) {
    !a.Unknown? && (a.Known? ==> CountOk(a.value))
  }

  predicate RangeOk(raw: Raw) {
    CountKnown(raw.minMatching) && CountKnown(raw.maxMatching) && CountOf(raw.maxMatching, -1) >= 0 ==>
      CountOf(raw.minMatching, DEFAULT_MIN_MATCHING) <= CountOf(raw.maxMatching, -1)
  }

  predicate DrainAsked(raw: Raw) {
    raw.maxMatching.Known? && CountOf(raw.maxMatching, -1) == 0
  }

  function DrainFindings(ps: seq<Problem>, attr: Attribute, raw: Raw, narrows: bool): seq<Problem> {
    Note(ps, !(DrainAsked(raw) && narrows), Problem(Severity.Error, Whole(attr), DrainWithSuccessPredicates))
  }

  predicate GivesConditions(a: Attr<seq<RawCondition>>) {
    a.Known? && a.value != []
  }

  function CountFindings(ps: seq<Problem>, raw: Raw): seq<Problem> {
    var ps := NumberFindings(ps, MinMatching, raw.minMatching);
    var ps := NumberFindings(ps, MaxMatching, raw.maxMatching);
    var ps := Note(ps, RangeOk(raw), Bad(MinMatching));
    var ps := DrainFindings(ps, SuccessConditions, raw, GivesConditions(raw.successConditions));
    DrainFindings(ps, Expression, raw, raw.expression.Known?)
  }

  // Flags.

  function AbsentVerdict(v: string): Option<Verdict> {
    if v == "pending" then Some(Pending)
    else if v == "success" then Some(Success)
    else if v == "failure" then Some(Failure)
    else None
  }

  function AbsentFindings(ps: seq<Problem>, a: Attr<string>): seq<Problem> {
    Note(ps, a.Known? ==> AbsentVerdict(a.value).Some?, Bad(Absent))
  }

  // Durations.

  /** The duration an attribute gives, if its text and its sign are acceptable. */
  function DurationOf(lib: Library, a: Attr<string>, positive: bool): Option<int> {
    var d := lib.duration(TextOf(a));
    if d.None? || (positive && d.value <= 0) || d.value < 0 then None else d
  }

  function RequiredDuration(ps: seq<Problem>, lib: Library, attr: Attribute, a: Attr<string>): seq<Problem> {
    Note(ps, a.Unknown? || DurationOf(lib, a, true).Some?, Bad(attr))
  }

  function OptionalDuration(ps: seq<Problem>, lib: Library, attr: Attribute, a: Attr<string>, positive: bool): seq<Problem> {
    Note(ps, a.Known? ==> DurationOf(lib, a, positive).Some?, Bad(attr))
  }

  function DurationOr(lib: Library, a: Attr<string>, positive: bool, default: int): int {
    if a.Known? && DurationOf(lib, a, positive).Some? then DurationOf(lib, a, positive).value else default
  }

  function TimeoutOf(lib: Library, a: Attr<string>): int {
    if !a.Unknown? && DurationOf(lib, a, true).Some? then DurationOf(lib, a, true).value else 0
  }

  /** settle is shorter than timeout, wherever both are known and valid. */
  predicate SettleFits(lib: Library, raw: Raw) {
    && !raw.timeout.Unknown? && DurationOf(lib, raw.timeout, true).Some?
    && !raw.settle.Unknown? && (raw.settle.Known? ==> DurationOf(lib, raw.settle, false).Some?)
    ==> DurationOr(lib, raw.settle, false, 0) < TimeoutOf(lib, raw.timeout)
  }

  function TimeFindings(ps: seq<Problem>, lib: Library, raw: Raw): seq<Problem> {
    var ps := RequiredDuration(ps, lib, Timeout, raw.timeout);
    var ps := OptionalDuration(ps, lib, SettleWindow, raw.settle, false);
    var ps := OptionalDuration(ps, lib, PollInterval, raw.pollInterval, true);
    var ps := OptionalDuration(ps, lib, ProgressInterval, raw.progressInterval, true);
    Note(ps, SettleFits(lib, raw), Bad(SettleWindow))
  }

  // Progress fields.

  /** The path an entry gives, if it is known and parses. */
  function PathOf(lib: Library, a: Attr<string>): Option<FieldPath> {
    if a.Unknown? then None
    else match ParsePath(lib.unquote, TextOf(a))
      case Ok(elems) => Some(FieldPath(TextOf(a), elems))
      case Bad(_) => None
  }

  predicate PathOk(lib: Library, a: Attr<string>) {
    a.Unknown? || PathOf(lib, a).Some?
  }

  function PathsFindings(ps: seq<Problem>, lib: Library, items: seq<Attr<string>>): seq<Problem> {
    if items == [] then ps
    else
      var n := |items| - 1;
      Note(PathsFindings(ps, lib, items[..n]), PathOk(lib, items[n]),
           Problem(Severity.Error, Item(ProgressFields, n), Invalid))
  }

  function FieldsFindings(ps: seq<Problem>, lib: Library, a: Attr<seq<Attr<string>>>): seq<Problem> {
    if a.Known? then PathsFindings(ps, lib, a.value) else ps
  }

  // Attributes the mode makes no use of.

  function Ignored(attr: Attribute): Problem {
    Problem(Warning, Whole(attr), if attr == Absent then IgnoredInSetMode else IgnoredInSingleMode)
  }

  function SetOnlyFindings(ps: seq<Problem>, raw: Raw): seq<Problem> {
    var ps := Note(ps, !raw.filter.Known?, Ignored(Filter));
    var ps := Note(ps, !raw.setExpression.Known?, Ignored(SetExpression));
    var ps := Note(ps, !raw.minMatching.Known?, Ignored(MinMatching));
    var ps := Note(ps, !raw.maxMatching.Known?, Ignored(MaxMatching));
    Note(ps, !raw.requireAll.Known?, Ignored(RequireAll))
  }

  function IgnoredFindings(ps: seq<Problem>, raw: Raw): seq<Problem> {
    match raw.name
    case Unknown => ps
    case Known(_) => SetOnlyFindings(ps, raw)
    case Null => Note(ps, !raw.absent.Known?, Ignored(Absent))
  }

  /** Everything validation has to say about a configuration, in order. */
  function Findings(lib: Library, raw: Raw): seq<Problem> {
    var ps := SelectionFindings([], lib, raw);
    var ps := PredicateFindings(ps, lib, raw);
    var ps := CountFindings(ps, raw);
    var ps := AbsentFindings(ps, raw.absent);
    var ps := TimeFindings(ps, lib, raw);
    var ps := FieldsFindings(ps, lib, raw.progressFields);
    IgnoredFindings(ps, raw)
  }

  // ---- Completeness ----

  predicate ConditionKnown(c: RawCondition) {
    !c.kind.Unknown? && !c.status.Unknown? && !c.reason.Unknown?
  }

  predicate CondsKnown(a: Attr<seq<RawCondition>>) {
    !a.Unknown? && (a.Known? ==> forall i :: 0 <= i < |a.value| ==> ConditionKnown(a.value[i]))
  }

  predicate FieldsKnown(a: Attr<seq<Attr<string>>>) {
    !a.Unknown? && (a.Known? ==> forall i :: 0 <= i < |a.value| ==> !a.value[i].Unknown?)
  }

  predicate SelectionKnown(raw: Raw) {
    && !raw.apiVersion.Unknown? && !raw.kind.Unknown? && !raw.name.Unknown? && !raw.namespace.Unknown?
    && !raw.labelSelector.Unknown? && !raw.fieldSelector.Unknown?
  }

  predicate PredicatesKnown(raw: Raw) {
    && CondsKnown(raw.successConditions) && CondsKnown(raw.failureConditions)
    && !raw.filter.Unknown? && !raw.expression.Unknown?
    && !raw.failureExpression.Unknown? && !raw.setExpression.Unknown?
  }

  predicate CountsKnown(raw: Raw) {
    !raw.minMatching.Unknown? && !raw.maxMatching.Unknown?
  }

  predicate FlagsKnown(raw: Raw) {
    !raw.requireAll.Unknown? && !raw.watch.Unknown? && !raw.absent.Unknown?
  }

  predicate TimesKnown(raw: Raw) {
    && !raw.timeout.Unknown? && !raw.settle.Unknown?
    && !raw.pollInterval.Unknown? && !raw.progressInterval.Unknown?
  }

  /** No attribute, and no part of one, is unknown. */
  predicate AllKnown(raw: Raw) {
    && SelectionKnown(raw) && PredicatesKnown(raw) && CountsKnown(raw)
    && FlagsKnown(raw) && TimesKnown(raw) && FieldsKnown(raw.progressFields)
  }

  // ---- The spec a configuration stands for ----

  function ConditionOf(c: RawCondition): Condition {
    Condition(TextOf(c.kind), TextOf(c.status), if c.reason.Known? then Some(c.reason.value) else None)
  }

  predicate ConditionUsable(c: RawCondition) {
    ConditionKnown(c) && c.kind != Known("") && c.status != Known("")
  }

  function ItemsOf(items: seq<RawCondition>): seq<Condition> {
    if items == [] then []
    else
      var n := |items| - 1;
      ItemsOf(items[..n]) + if ConditionUsable(items[n]) then [ConditionOf(items[n])] else []
  }

  function CondsOf(a: Attr<seq<RawCondition>>): seq<Condition> {
    if a.Known? then ItemsOf(a.value) else []
  }

  function CelOf<P>(compile: string -> Option<P>, a: Attr<string>): Option<P> {
    if a.Known? then compile(a.value) else None
  }

  function PathsOf(lib: Library, items: seq<Attr<string>>): seq<FieldPath> {
    if items == [] then []
    else
      var n := |items| - 1;
      PathsOf(lib, items[..n]) + if PathOf(lib, items[n]).Some? then [PathOf(lib, items[n]).value] else []
  }

  function FieldsOf(lib: Library, a: Attr<seq<Attr<string>>>): seq<FieldPath> {
    if a.Known? then PathsOf(lib, a.value) else []
  }

  function GroupVersionKindOf(lib: Library, raw: Raw): (string, string, string) {
    var v := TextOf(raw.apiVersion);
    if raw.apiVersion.Unknown? || raw.kind.Unknown? || !ApiVersionOk(lib, v) || TextOf(raw.kind) == "" then ("", "", "")
    else (lib.groupVersion(v).value.0, lib.groupVersion(v).value.1, TextOf(raw.kind))
  }

  function FlagOf(a: Attr<bool>, default: bool): bool {
    if a.Known? then a.value else default
  }

  function AbsentOf(a: Attr<string>): Verdict {
    if a.Known? && AbsentVerdict(a.value).Some? then AbsentVerdict(a.value).value else Pending
  }

  function SpecOf(lib: Library, raw: Raw): Spec {
    var gvk := GroupVersionKindOf(lib, raw);
    Spec(gvk.0, gvk.1, gvk.2,
         TextOf(raw.namespace), TextOf(raw.name), TextOf(raw.labelSelector), TextOf(raw.fieldSelector),
         CelOf(lib.compile, raw.filter), CelOf(lib.compile, raw.expression),
         CelOf(lib.compile, raw.failureExpression), CelOf(lib.compileSet, raw.setExpression),
         CondsOf(raw.successConditions), CondsOf(raw.failureConditions),
         CountOf(raw.minMatching, DEFAULT_MIN_MATCHING), CountOf(raw.maxMatching, -1),
         FlagOf(raw.requireAll, false), AbsentOf(raw.absent),
         TimeoutOf(lib, raw.timeout), DurationOr(lib, raw.settle, false, 0),
         DurationOr(lib, raw.pollInterval, true, DEFAULT_POLL_INTERVAL),
         DurationOr(lib, raw.progressInterval, true, DEFAULT_PROGRESS_INTERVAL),
         FlagOf(raw.watch, true), FieldsOf(lib, raw.progressFields))
  }

  ghost predicate Accepted(lib: Library, raw: Raw) {
    AllKnown(raw) && !HasError(Findings(lib, raw))
  }
}
