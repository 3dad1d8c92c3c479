/**
 Judging one snapshot of objects. The predicates come first, each said of one
 object; then the outcome of a snapshot as a function; then the loops that
 compute it.
 */
module Evaluator {
  import opened Common
  import opened Objects
  import opened WaitSpec

  /** The reason text is not modelled; everything a verdict rests on is. */
  datatype Outcome = Outcome(
    verdict: Verdict, objects: seq<Obj>, matched: nat, passing: nat, evalErrors: seq<string>)

  // ---- One object ----

  predicate Fails(s: Spec, o: Obj) {
    || (exists i :: 0 <= i < |s.failureConditions| && Holds(s.failureConditions[i], o))
    || (s.failureExpression.Some? && s.failureExpression.value.eval(o) == True)
  }

  predicate AllMet(s: Spec, o: Obj) {
    forall i :: 0 <= i < |s.successConditions| ==> Holds(s.successConditions[i], o)
  }

  predicate Passes(s: Spec, o: Obj) {
    AllMet(s, o) && (s.expression.Some? ==> s.expression.value.eval(o) == True)
  }

  /** The error that leaves an object unclassified. The expression is not
      evaluated on an object that misses a success condition, and a proven
      failure hides every error. */
  function EvalError(s: Spec, o: Obj): Option<string> {
    if Fails(s, o) then None
    else if s.failureExpression.Some? && s.failureExpression.value.eval(o).Error? then
      Some(s.failureExpression.value.eval(o).message)
    else if AllMet(s, o) && s.expression.Some? && s.expression.value.eval(o).Error? then
      Some(s.expression.value.eval(o).message)
    else None
  }

  function FilterTruth(s: Spec, o: Obj): Truth {
    if s.filter.None? then True else s.filter.value.eval(o)
  }

  predicate Kept(s: Spec, o: Obj) {
    FilterTruth(s, o) == True
  }

  // ---- A set of objects ----

  function Matched(s: Spec, objs: seq<Obj>): seq<Obj> {
    if objs == [] then [] else
      var n := |objs| - 1;
      Matched(s, objs[..n]) + if Kept(s, objs[n]) then [objs[n]] else []
  }

  function Complaint(o: Obj, message: string): string {
    KeyOf(o) + ": " + message
  }

  function ErrorOf(s: Spec, o: Obj): seq<string> {
    match FilterTruth(s, o)
    case Error(e) => [Complaint(o, e)]
    case False => []
    case True => if EvalError(s, o).Some? then [Complaint(o, EvalError(s, o).value)] else []
  }

  function Errors(s: Spec, objs: seq<Obj>): seq<string> {
    if objs == [] then [] else var n := |objs| - 1; Errors(s, objs[..n]) + ErrorOf(s, objs[n])
  }

  function CountPassing(s: Spec, objs: seq<Obj>): nat {
    if objs == [] then 0 else
      var n := |objs| - 1;
      CountPassing(s, objs[..n]) + if Passes(s, objs[n]) then 1 else 0
  }

  function CountNotPassing(s: Spec, objs: seq<Obj>): nat {
    if objs == [] then 0 else
      var n := |objs| - 1;
      CountNotPassing(s, objs[..n]) + if !Passes(s, objs[n]) && EvalError(s, objs[n]).None? then 1 else 0
  }

  predicate SomeFails(s: Spec, matched: seq<Obj>) {
    exists i :: 0 <= i < |matched| && Fails(s, matched[i])
  }

  predicate CountsMet(s: Spec, n: nat, matched: nat) {
    && s.minMatching <= n
    && (s.maxMatching >= 0 ==> n <= s.maxMatching)
    && (s.requireAll ==> n == matched)
  }

  function SetOutcome(s: Spec, objs: seq<Obj>): Outcome {
    var matched := Matched(s, objs);
    var errors := Errors(s, objs);
    var n := CountPassing(s, matched);
    if SomeFails(s, matched) then Outcome(Failure, matched, |matched|, n, errors)
    else if errors != [] || !CountsMet(s, n, |matched|) then Outcome(Pending, matched, |matched|, n, errors)
    else if s.setExpression.None? then Outcome(Success, matched, |matched|, n, errors)
    else match s.setExpression.value.eval(matched)
      case True => Outcome(Success, matched, |matched|, n, errors)
      case False => Outcome(Pending, matched, |matched|, n, errors)
      case Error(e) => Outcome(Pending, matched, |matched|, n, errors + [e])
  }

  // ---- A single object ----

  predicate Named(s: Spec, o: Obj) {
    RefOf(o).name == s.name && (s.namespace == "" || RefOf(o).namespace == s.namespace)
  }

  function Pick(s: Spec, objs: seq<Obj>): Option<Obj> {
    if objs == [] then None else if Named(s, objs[0]) then Some(objs[0]) else Pick(s, objs[1..])
  }

  function SingleOutcome(s: Spec, objs: seq<Obj>): Outcome {
    match Pick(s, objs)
    case None => Outcome(s.absent, [], 0, 0, [])
    case Some(o) =>
      if Fails(s, o) then Outcome(Failure, [o], 1, 0, [])
      else if EvalError(s, o).Some? then
        Outcome(Pending, [o], 1, 0, [Key(Ref(s.namespace, s.name)) + ": " + EvalError(s, o).value])
      else if Passes(s, o) then Outcome(Success, [o], 1, 1, [])
      else Outcome(Pending, [o], 1, 0, [])
  }

  // ---- A snapshot ----

  function SnapshotOutcome(s: Spec, objs: seq<Obj>): Outcome {
    if s.Single() then SingleOutcome(s, SortByRef(objs)) else SetOutcome(s, SortByRef(objs))
  }

  /** The outcome of a set of objects, whatever order they are listed in. */
  ghost function OutcomeOf(s: Spec, objs: set<Obj>): Outcome {
    SnapshotOutcome(s, Enumerate(objs))
  }

  // ---- The loops ----

  datatype Judgement = Judgement(ref: Ref, obj: Obj, fails: bool, passes: bool, err: Option<string>)

  predicate Judged(s: Spec, j: Judgement, o: Obj) {
    j == Judgement(RefOf(o), o, Fails(s, o), Passes(s, o), EvalError(s, o))
  }

  method Judge(s: Spec, o: Obj) returns (j: Judgement)
    ensures Judged(s, j, o)
  {
    var fails := false;
    var i := 0;
    while i < |s.failureConditions| && !fails
      invariant 0 <= i <= |s.failureConditions|
      invariant !fails ==> forall k :: 0 <= k < i ==> !Holds(s.failureConditions[k], o)
      invariant fails ==> exists k :: 0 <= k < |s.failureConditions| && Holds(s.failureConditions[k], o)
    {
      if Holds(s.failureConditions[i], o) {
        fails := true;
      }
      i := i + 1;
    }
    var ferr: Option<string> := None;
    if !fails && s.failureExpression.Some? {
      match s.failureExpression.value.eval(o) {
        case Error(e) => ferr := Some(e);
        case True => fails := true;
        case False =>
      }
    }

    var unmet := 0;
    i := 0;
    while i < |s.successConditions|
      invariant 0 <= i <= |s.successConditions|
      invariant unmet >= 0
      invariant unmet == 0 <==> forall k :: 0 <= k < i ==> Holds(s.successConditions[k], o)
    {
      if !Holds(s.successConditions[i], o) {
        unmet := unmet + 1;
      }
      i := i + 1;
    }
    var passes := false;
    var perr: Option<string> := None;
    if unmet == 0 {
      if s.expression.Some? {
        match s.expression.value.eval(o) {
          case Error(e) => perr := Some(e);
          case True => passes := true;
          case False =>
        }
      } else {
        passes := true;
      }
    }

    var err: Option<string> := None;
    if !fails {
      err := if ferr.Some? then ferr else perr;
    }
    j := Judgement(RefOf(o), o, fails, passes, err);
  }

  method EvaluateSingle(s: Spec, objs: seq<Obj>) returns (out: Outcome)
    ensures out == SingleOutcome(s, objs)
  {
    var obj: Option<Obj> := None;
    var i := 0;
    while i < |objs| && obj.None?
      invariant 0 <= i <= |objs|
      invariant Pick(s, objs) == if obj.Some? then obj else Pick(s, objs[i..])
    {
      if Named(s, objs[i]) {
        obj := Some(objs[i]);
      }
      i := i + 1;
    }
    if obj.None? {
      return Outcome(s.absent, [], 0, 0, []);
    }
    var j := Judge(s, obj.value);
    out := Outcome(Pending, [obj.value], 1, 0, []);
    if j.fails {
      out := out.(verdict := Failure);
    } else if j.err.Some? {
      out := out.(evalErrors := [Key(Ref(s.namespace, s.name)) + ": " + j.err.value]);
    } else if j.passes {
      out := out.(verdict := Success, passing := 1);
    }
  }

  /** The first half of the set mode: what the filter keeps, judged, and the errors met. */
  method Sift(s: Spec, objs: seq<Obj>) returns (errors: seq<string>, matched: seq<Judgement>, objects: seq<Obj>)
    ensures errors == Errors(s, objs) && objects == Matched(s, objs)
    ensures |matched| == |objects|
    ensures forall k :: 0 <= k < |matched| ==> Judged(s, matched[k], objects[k])
  {
    errors, matched, objects := [], [], [];
    for i := 0 to |objs|
      invariant errors == Errors(s, objs[..i])
      invariant objects == Matched(s, objs[..i])
      invariant |matched| == |objects|
      invariant forall k :: 0 <= k < |matched| ==> Judged(s, matched[k], objects[k])
    {
      assert objs[..i + 1][..i] == objs[..i];
      var o := objs[i];
      if s.filter.Some? {
        match s.filter.value.eval(o) {
          case Error(e) =>
            errors := errors + [Complaint(o, e)];
            continue;
          case False => continue;
          case True =>
        }
      }
      var j := Judge(s, o);
      if j.err.Some? {
        errors := errors + [Complaint(o, j.err.value)];
      }
      matched := matched + [j];
      objects := objects + [o];
    }
    assert objs[..|objs|] == objs;
  }

  lemma CountNext(s: Spec, objs: seq<Obj>, i: nat)
    requires i < |objs|
    ensures CountPassing(s, objs[..i + 1]) == CountPassing(s, objs[..i]) + if Passes(s, objs[i]) then 1 else 0
    ensures CountNotPassing(s, objs[..i + 1]) ==
            CountNotPassing(s, objs[..i]) + if !Passes(s, objs[i]) && EvalError(s, objs[i]).None? then 1 else 0
  {
    assert objs[..i + 1][..i] == objs[..i];
  }

  /** The second half: who fails, who passes, and who merely does not pass. */
  method Tally(s: Spec, matched: seq<Judgement>, ghost objects: seq<Obj>)
    returns (failing: seq<Judgement>, passing: seq<Judgement>, notPassing: seq<Judgement>)
    requires |matched| == |objects|
    requires forall k :: 0 <= k < |matched| ==> Judged(s, matched[k], objects[k])
    ensures failing != [] <==> SomeFails(s, objects)
    ensures |passing| == CountPassing(s, objects)
    ensures |notPassing| == CountNotPassing(s, objects)
  {
    failing, passing, notPassing := [], [], [];
    for i := 0 to |matched|
      invariant failing != [] <==> exists k :: 0 <= k < i && Fails(s, objects[k])
      invariant |passing| == CountPassing(s, objects[..i])
      invariant |notPassing| == CountNotPassing(s, objects[..i])
    {
      CountNext(s, objects, i);
      var j := matched[i];
      assert Judged(s, j, objects[i]);
      if j.fails {
        failing := failing + [j];
      }
      if j.passes {
        passing := passing + [j];
      } else if j.err.None? {
        notPassing := notPassing + [j];
      }
    }
    assert objects[..|objects|] == objects;
  }

  method EvaluateSet(s: Spec, objs: seq<Obj>) returns (out: Outcome)
    ensures out == SetOutcome(s, objs)
  {
    var errors, matched, objects := Sift(s, objs);
    var failing, passing, notPassing := Tally(s, matched, objects);
    var n := |passing|;

    // The gates, in this order: failures, errors, counts, the set expression.
    out := Outcome(Failure, objects, |matched|, n, errors);
    if failing != [] {
      return;
    }
    out := out.(verdict := Pending);
    if errors != [] {
      return;
    }
    if s.Drain() && n > 0 {
      return;
    } else if s.maxMatching >= 0 && n > s.maxMatching {
      return;
    } else if n < s.minMatching {
      return;
    } else if s.requireAll && n != |matched| {
      return;
    }
    if s.setExpression.Some? {
      match s.setExpression.value.eval(objects) {
        case Error(e) =>
          out := out.(evalErrors := errors + [e]);
          return;
        case False => return;
        case True =>
      }
    }
    out := out.(verdict := Success);
  }

  method Evaluate(s: Spec, objs: seq<Obj>) returns (out: Outcome)
    ensures out == SnapshotOutcome(s, objs)
  {
    var sorted := SortByRef(objs);
    if s.Single() {
      out := EvaluateSingle(s, sorted);
    } else {
      out := EvaluateSet(s, sorted);
    }
  }
}
