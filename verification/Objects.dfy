/**
 Kubernetes objects as the wait sees them: decoded JSON, the reference that
 names an object, the key the cache stores it under, and the order the
 evaluator sorts by.
 */
module Objects {
  import opened Sorting

  datatype Value =
    | Null
    | Bool(b: bool)
    | Number(r: real)
    | Text(s: string)
    | List(items: seq<Value>)
    | Dict(fields: map<string, Value>)

  type Obj = map<string, Value>

  datatype Ref = Ref(namespace: string, name: string)

  function DictAt(o: Obj, k: string): Obj {
    if k in o && o[k].Dict? then o[k].fields else map[]
  }

  function TextAt(o: Obj, k: string): string {
    if k in o && o[k].Text? then o[k].s else ""
  }

  function ListAt(o: Obj, k: string): seq<Value> {
    if k in o && o[k].List? then o[k].items else []
  }

  function RefOf(o: Obj): Ref {
    var md := DictAt(o, "metadata");
    Ref(TextAt(md, "namespace"), TextAt(md, "name"))
  }

  /** The string form of a reference; the cache stores an object under it. */
  function Key(r: Ref): string {
    if r.namespace == "" then r.name else r.namespace + "/" + r.name
  }

  function KeyOf(o: Obj): string {
    Key(RefOf(o))
  }

  predicate SlashFree(r: Ref) {
    '/' !in r.namespace && '/' !in r.name
  }

  /** Keys tell references apart as long as neither half contains a slash,
      which the API server enforces. */
  lemma KeyInjective(a: Ref, b: Ref)
    requires SlashFree(a) && SlashFree(b)
    ensures Key(a) == Key(b) <==> a == b
  {
    if Key(a) == Key(b) {
      var k := Key(a);
      if a.namespace != "" {
        assert k[|a.namespace|] == '/';
        assert k[..|a.namespace|] == a.namespace && k[|a.namespace| + 1..] == a.name;
      }
      if b.namespace != "" {
        assert k[|b.namespace|] == '/';
        assert k[..|b.namespace|] == b.namespace && k[|b.namespace| + 1..] == b.name;
      }
      if a.namespace != "" && b.namespace != "" {
        assert |a.namespace| == |b.namespace| by {
          assert forall i :: 0 <= i < |b.namespace| ==> k[i] == b.namespace[i];
          assert forall i :: 0 <= i < |a.namespace| ==> k[i] == a.namespace[i];
        }
      }
    }
  }

  /** Without that, two objects share one cache slot. */
  lemma KeyCollision()
    ensures Key(Ref("", "a/b")) == Key(Ref("a", "b"))
  {
  }

  // ---- Order ----

  /** Go's string order, on code points. */
  predicate Less(a: string, b: string) {
    if b == [] then false
    else if a == [] then true
    else if a[0] != b[0] then a[0] < b[0]
    else Less(a[1..], b[1..])
  }

  predicate RefLess(a: Ref, b: Ref) {
    if a.namespace != b.namespace then Less(a.namespace, b.namespace)
    else Less(a.name, b.name)
  }

  /** a stops, or is the smaller, at the first place where the two differ. */
  ghost predicate Precedes(a: string, b: string) {
    exists k: nat :: DiffersAt(a, b, k)
  }

  predicate DiffersAt(a: string, b: string, k: nat) {
    k < |b| && k <= |a| && a[..k] == b[..k] && (k == |a| || a[k] < b[k])
  }

  lemma {:induction false} LessIsPrecedes(a: string, b: string)
    ensures Less(a, b) <==> Precedes(a, b)
  {
    if b == [] {
    } else if a == [] {
      assert DiffersAt(a, b, 0);
    } else if a[0] != b[0] {
      if a[0] < b[0] {
        assert DiffersAt(a, b, 0);
      }
    } else {
      LessIsPrecedes(a[1..], b[1..]);
      assert a == [a[0]] + a[1..] && b == [b[0]] + b[1..];
      if Less(a, b) {
        var k: nat :| DiffersAt(a[1..], b[1..], k);
        assert a[..k + 1] == [a[0]] + a[1..][..k] && b[..k + 1] == [b[0]] + b[1..][..k];
        assert DiffersAt(a, b, k + 1);
      }
      if Precedes(a, b) {
        var k: nat :| DiffersAt(a, b, k);
        assert k > 0;
        assert a[1..][..k - 1] == a[..k][1..] && b[1..][..k - 1] == b[..k][1..];
        assert DiffersAt(a[1..], b[1..], k - 1);
      }
    }
  }

  /** The order of references: by namespace, and by name within one. */
  ghost predicate RefPrecedes(a: Ref, b: Ref) {
    Precedes(a.namespace, b.namespace) || (a.namespace == b.namespace && Precedes(a.name, b.name))
  }

  lemma RefLessIsRefPrecedes(a: Ref, b: Ref)
    ensures RefLess(a, b) <==> RefPrecedes(a, b)
  {
    LessIsPrecedes(a.namespace, b.namespace);
    LessIsPrecedes(a.name, b.name);
    LessTotal(a.namespace, b.namespace);
  }

  /** What a reference is read from; what is missing, or no text, reads as empty. */
  lemma RefIsRead(o: Obj, md: Obj)
    requires "metadata" in o && o["metadata"] == Dict(md)
    ensures "namespace" in md && md["namespace"].Text? ==> RefOf(o).namespace == md["namespace"].s
    ensures "name" in md && md["name"].Text? ==> RefOf(o).name == md["name"].s
    ensures "namespace" !in md || !md["namespace"].Text? ==> RefOf(o).namespace == ""
    ensures "name" !in md || !md["name"].Text? ==> RefOf(o).name == ""
  {
  }

  lemma {:induction false} LessTotal(a: string, b: string)
    ensures Less(a, b) || Less(b, a) || a == b
    ensures !(Less(a, b) && Less(b, a))
    ensures !Less(a, a)
  {
    if a == [] {
    } else {
      LessTotal(a[1..], if b == [] then [] else b[1..]);
      if b != [] && a[0] == b[0] {
        assert a == [a[0]] + a[1..] && b == [b[0]] + b[1..];
      }
    }
  }

  lemma {:induction false} LessTransitive(a: string, b: string, c: string)
    requires Less(a, b) && Less(b, c)
    ensures Less(a, c)
  {
    if a != [] && b[0] == a[0] && c[0] == b[0] {
      LessTransitive(a[1..], b[1..], c[1..]);
    }
  }

  lemma RefLessTotal(a: Ref, b: Ref)
    ensures RefLess(a, b) || RefLess(b, a) || a == b
    ensures !(RefLess(a, b) && RefLess(b, a))
  {
    LessTotal(a.namespace, b.namespace);
    LessTotal(a.name, b.name);
  }

  lemma RefLessTransitive(a: Ref, b: Ref, c: Ref)
    requires RefLess(a, b) && RefLess(b, c)
    ensures RefLess(a, c)
  {
    if a.namespace != b.namespace && b.namespace != c.namespace {
      LessTransitive(a.namespace, b.namespace, c.namespace);
      LessTotal(b.namespace, a.namespace);
    } else if a.namespace == b.namespace == c.namespace {
      LessTransitive(a.name, b.name, c.name);
    }
  }

  lemma RefLessChain(a: Ref, b: Ref, c: Ref)
    requires RefLess(a, b) && !RefLess(c, b)
    ensures RefLess(a, c)
  {
    RefLessTotal(b, c);
    if RefLess(b, c) {
      RefLessTransitive(a, b, c);
    }
  }

  // ---- The stable sort by reference ----

  predicate ObjLess(a: Obj, b: Obj) {
    RefLess(RefOf(a), RefOf(b))
  }

  /** The evaluator's order: by namespace, then name, equal references kept in place. */
  function SortByRef(objs: seq<Obj>): seq<Obj> {
    StableSort(ObjLess, objs)
  }

  ghost predicate DistinctRefs(objs: seq<Obj>) {
    forall i, j :: 0 <= i < j < |objs| ==> RefOf(objs[i]) != RefOf(objs[j])
  }

  lemma ObjLessIsWeakOrder()
    ensures WeakOrder(ObjLess)
  {
    forall a, b ensures !(ObjLess(a, b) && ObjLess(b, a)) {
      RefLessTotal(RefOf(a), RefOf(b));
    }
    forall a, b, c | ObjLess(a, b) && !ObjLess(c, b) ensures ObjLess(a, c) {
      RefLessChain(RefOf(a), RefOf(b), RefOf(c));
    }
  }

  lemma SortByRefSorts(objs: seq<Obj>)
    ensures multiset(SortByRef(objs)) == multiset(objs)
    ensures Sorted(ObjLess, SortByRef(objs))
    ensures DistinctRefs(objs) ==> StrictlySorted(ObjLess, SortByRef(objs))
  {
    ObjLessIsWeakOrder();
    StableSortSorts(ObjLess, objs);
    if DistinctRefs(objs) {
      var s := SortByRef(objs);
      PermutationStaysDistinct(objs, s);
      forall i, j | 0 <= i < j < |s| ensures ObjLess(s[i], s[j]) {
        RefLessTotal(RefOf(s[i]), RefOf(s[j]));
      }
    }
  }

  lemma PermutationStaysDistinct(a: seq<Obj>, b: seq<Obj>)
    requires DistinctRefs(a) && multiset(a) == multiset(b)
    ensures DistinctRefs(b)
  {
    forall i, j | 0 <= i < j < |b| ensures RefOf(b[i]) != RefOf(b[j]) {
      assert b[i] in multiset(a) && b[j] in multiset(a);
      var k :| 0 <= k < |a| && a[k] == b[i];
      var l :| 0 <= l < |a| && a[l] == b[j];
      if b[i] == b[j] {
        OccursOnce(a, k);
        OccursTwice(b, i, j);
        assert false;
      }
      assert k != l;
    }
  }

  lemma OccursTwice<T>(s: seq<T>, i: nat, j: nat)
    requires i < j < |s| && s[i] == s[j]
    ensures multiset(s)[s[i]] >= 2
  {
    assert s == s[..i] + [s[i]] + s[i + 1..j] + [s[j]] + s[j + 1..];
  }

  lemma OccursOnce<T>(s: seq<T>, i: nat)
    requires i < |s| && forall j :: 0 <= j < |s| && j != i ==> s[j] != s[i]
    ensures multiset(s)[s[i]] == 1
  {
    assert s == s[..i] + [s[i]] + s[i + 1..];
    assert s[i] !in s[..i] && s[i] !in s[i + 1..];
  }

  /** Any two listings of the same distinctly named objects sort alike. */
  lemma SortIgnoresOrder(a: seq<Obj>, b: seq<Obj>)
    requires DistinctRefs(a) && multiset(a) == multiset(b)
    ensures SortByRef(a) == SortByRef(b)
  {
    ObjLessIsWeakOrder();
    PermutationStaysDistinct(a, b);
    SortByRefSorts(a);
    SortByRefSorts(b);
    StrictlySortedIsUnique(ObjLess, SortByRef(a), SortByRef(b));
  }

  // ---- Listings of a set of objects ----

  /** objs lists the set s, each member once. */
  ghost predicate Lists(objs: seq<Obj>, s: set<Obj>) {
    && (forall o :: o in objs <==> o in s)
    && (forall i, j :: 0 <= i < j < |objs| ==> objs[i] != objs[j])
  }

  ghost predicate RefsDiffer(s: set<Obj>) {
    forall a, b :: a in s && b in s && RefOf(a) == RefOf(b) ==> a == b
  }

  ghost function Enumerate(s: set<Obj>): (objs: seq<Obj>)
    ensures Lists(objs, s)
  {
    if s == {} then [] else var o :| o in s; [o] + Enumerate(s - {o})
  }

  lemma {:induction false} ListingsAgree(a: seq<Obj>, b: seq<Obj>, s: set<Obj>)
    requires Lists(a, s) && Lists(b, s)
    ensures multiset(a) == multiset(b)
  {
    forall o ensures multiset(a)[o] == multiset(b)[o] {
      CountInListing(a, s, o);
      CountInListing(b, s, o);
    }
  }

  lemma CountInListing(a: seq<Obj>, s: set<Obj>, o: Obj)
    requires Lists(a, s)
    ensures multiset(a)[o] == if o in s then 1 else 0
  {
    if o in s {
      var k :| 0 <= k < |a| && a[k] == o;
      assert a == a[..k] + [a[k]] + a[k + 1..];
      assert o !in a[..k] && o !in a[k + 1..];
    } else {
      assert o !in a;
    }
  }
}
