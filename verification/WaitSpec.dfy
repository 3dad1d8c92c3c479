/** The parsed, validated wait configuration. */
module WaitSpec {
  import opened Common
  import opened FieldPaths
  import opened Objects

  /** What evaluating a CEL predicate gives: a boolean, or a runtime error. */
  datatype Truth = True | False | Error(message: string)

  datatype Program = Program(source: string, eval: Obj -> Truth)

  datatype SetProgram = SetProgram(source: string, eval: seq<Obj> -> Truth)

  datatype Condition = Condition(kind: string, status: string, reason: Option<string>)

  /** The entry for a condition type: the first, if there are several. */
  function Entry(conds: seq<Value>, kind: string): Option<Obj> {
    if conds == [] then None
    else if conds[0].Dict? && TextAt(conds[0].fields, "type") == kind then Some(conds[0].fields)
    else Entry(conds[1..], kind)
  }

  /** Whether an object's status.conditions carries c. It never errs. */
  predicate Holds(c: Condition, o: Obj) {
    var e := Entry(ListAt(DictAt(o, "status"), "conditions"), c.kind);
    && e.Some?
    && TextAt(e.value, "status") == c.status
    && (c.reason.Some? ==> TextAt(e.value, "reason") == c.reason.value)
  }

  /** The entry at i is one for the condition type. */
  predicate Speaks(conds: seq<Value>, i: nat, kind: string)
    requires i < |conds|
  {
    conds[i].Dict? && TextAt(conds[i].fields, "type") == kind
  }

  predicate FirstToSpeak(conds: seq<Value>, i: nat, kind: string) {
    i < |conds| && Speaks(conds, i, kind) && forall k :: 0 <= k < i ==> !Speaks(conds, k, kind)
  }

  lemma {:induction false} EntryIsFirst(conds: seq<Value>, kind: string)
    ensures Entry(conds, kind).Some? <==> exists i: nat :: FirstToSpeak(conds, i, kind)
    ensures forall i: nat :: FirstToSpeak(conds, i, kind) ==> Entry(conds, kind) == Some(conds[i].fields)
  {
    if conds == [] {
    } else if Speaks(conds, 0, kind) {
      assert FirstToSpeak(conds, 0, kind);
    } else {
      var rest := conds[1..];
      EntryIsFirst(rest, kind);
      forall i: nat | FirstToSpeak(conds, i, kind) ensures i > 0 && FirstToSpeak(rest, i - 1, kind) {
        assert i > 0;
        assert forall k :: 0 <= k < i - 1 ==> Speaks(rest, k, kind) == Speaks(conds, k + 1, kind);
      }
      forall i: nat | FirstToSpeak(rest, i, kind) ensures FirstToSpeak(conds, i + 1, kind) {
        assert forall k :: 0 < k < i + 1 ==> Speaks(conds, k, kind) == Speaks(rest, k - 1, kind);
      }
    }
  }

  /** A condition holds exactly when the first entry of its type in
      status.conditions carries its status, and its reason if it names one. */
  lemma HoldsIff(c: Condition, o: Obj)
    ensures var conds := ListAt(DictAt(o, "status"), "conditions");
            Holds(c, o) <==>
            exists i: nat :: FirstToSpeak(conds, i, c.kind)
              && TextAt(conds[i].fields, "status") == c.status
              && (c.reason.Some? ==> TextAt(conds[i].fields, "reason") == c.reason.value)
  {
    EntryIsFirst(ListAt(DictAt(o, "status"), "conditions"), c.kind);
  }

  datatype Spec = Spec(
    group: string, version: string, kind: string,
    namespace: string, name: string,
    labelSelector: string, fieldSelector: string,
    filter: Option<Program>, expression: Option<Program>,
    failureExpression: Option<Program>, setExpression: Option<SetProgram>,
    successConditions: seq<Condition>, failureConditions: seq<Condition>,
    minMatching: int, maxMatching: int, requireAll: bool, absent: Verdict,
    timeout: int, settle: int, pollInterval: int, progressInterval: int, watch: bool,
    progressFields: seq<FieldPath>)
  {
    /** Single-object mode. */
    predicate Single() {
      name != ""
    }

    /** The wait is for the matched set to empty. */
    predicate Drain() {
      maxMatching == 0 && successConditions == [] && expression.None?
    }

    /** What the run loop relies on; validation establishes it. */
    predicate Runnable() {
      && 0 <= settle < timeout
      && pollInterval > 0
      && progressInterval > 0
    }
  }
}
