/** The cache refines the server: after a list and any changes a watch reports,
    the loop's view is the server's, and so is its verdict. */
module Mirror {
  import opened Objects
  import opened Evaluator
  import opened Protocol
  import opened Turns
  import opened Errors
  import Verdicts

  // ---- The server, from what it said ----

  /** The objects of a list, by reference; a reference listed twice keeps its last. */
  function Listed(items: seq<Obj>): map<Ref, Obj> {
    if items == [] then map[]
    else var n := |items| - 1; Listed(items[..n])[RefOf(items[n]) := items[n]]
  }

  function ServerAfter(objs: map<Ref, Obj>, ev: Event): map<Ref, Obj> {
    match ev
    case Upsert(o) => objs[RefOf(o) := o]
    case Remove(o) => objs - {RefOf(o)}
    case _ => objs
  }

  /** The selected objects the server holds, going by its last list and the
      changes since; none when it does not serve the kind. */
  function ServerView(log: seq<Entry>): map<Ref, Obj> {
    if log == [] then map[]
    else
      var n := |log| - 1;
      match log[n].answer
      case Refreshed(served, items) => if served then Listed(items) else map[]
      case Changed(ev) => ServerAfter(ServerView(log[..n]), ev)
      case _ => ServerView(log[..n])
  }

  predicate ItemsSlashFree(items: seq<Obj>) {
    forall i :: 0 <= i < |items| ==> SlashFree(RefOf(items[i]))
  }

  predicate EventSlashFree(ev: Event) {
    match ev
    case Upsert(o) => SlashFree(RefOf(o))
    case Remove(o) => SlashFree(RefOf(o))
    case _ => true
  }

  predicate AnswerSlashFree(a: Answer) {
    match a
    case Refreshed(_, items) => ItemsSlashFree(items)
    case Changed(ev) => EventSlashFree(ev)
    case _ => true
  }

  ghost predicate LogSlashFree(log: seq<Entry>) {
    forall e :: e in log ==> AnswerSlashFree(e.answer)
  }

  // ---- Cache and server agree ----

  /** Every object of the server is in the cache under its key, and nothing else is. */
  ghost predicate Mirrors(cache: map<string, Obj>, objs: map<Ref, Obj>) {
    && (forall r :: r in objs ==> RefOf(objs[r]) == r && Key(r) in cache && cache[Key(r)] == objs[r])
    && (forall k :: k in cache ==> RefOf(cache[k]) in objs && KeyOf(cache[k]) == k)
  }

  ghost predicate RefsSlashFree(objs: map<Ref, Obj>) {
    forall r :: r in objs ==> SlashFree(r)
  }

  ghost predicate Agree(cache: map<string, Obj>, objs: map<Ref, Obj>) {
    Mirrors(cache, objs) && RefsSlashFree(objs)
  }

  /** The key of o stands for its reference among those of objs. */
  ghost predicate KeyApart(objs: map<Ref, Obj>, o: Obj) {
    forall r :: r in objs && Key(r) == KeyOf(o) ==> r == RefOf(o)
  }

  lemma SlashFreeApart(objs: map<Ref, Obj>, o: Obj)
    requires RefsSlashFree(objs) && SlashFree(RefOf(o))
    ensures KeyApart(objs, o)
  {
    forall r | r in objs && Key(r) == KeyOf(o) ensures r == RefOf(o) {
      KeyInjective(r, RefOf(o));
    }
  }

  lemma UpsertMirrors(cache: map<string, Obj>, objs: map<Ref, Obj>, o: Obj)
    requires Mirrors(cache, objs) && KeyApart(objs, o)
    ensures Mirrors(cache[KeyOf(o) := o], objs[RefOf(o) := o])
  {
    var cache', objs' := cache[KeyOf(o) := o], objs[RefOf(o) := o];
    forall r | r in objs' ensures RefOf(objs'[r]) == r && Key(r) in cache' && cache'[Key(r)] == objs'[r] {
      if r != RefOf(o) {
        assert r in objs && Key(r) != KeyOf(o);
      }
    }
    forall k | k in cache' ensures RefOf(cache'[k]) in objs' && KeyOf(cache'[k]) == k {
      if k != KeyOf(o) {
        assert k in cache;
      }
    }
  }

  lemma UpsertAgrees(cache: map<string, Obj>, objs: map<Ref, Obj>, o: Obj)
    requires Agree(cache, objs) && SlashFree(RefOf(o))
    ensures Agree(cache[KeyOf(o) := o], objs[RefOf(o) := o])
  {
    SlashFreeApart(objs, o);
    UpsertMirrors(cache, objs, o);
  }

  lemma RemoveAgrees(cache: map<string, Obj>, objs: map<Ref, Obj>, o: Obj)
    requires Agree(cache, objs) && SlashFree(RefOf(o))
    ensures Agree(cache - {KeyOf(o)}, objs - {RefOf(o)})
  {
    forall r | r in objs ensures Key(r) == KeyOf(o) <==> r == RefOf(o) {
      KeyInjective(r, RefOf(o));
    }
  }

  lemma {:induction false} ListAgrees(items: seq<Obj>)
    requires ItemsSlashFree(items)
    ensures Agree(CacheOf(items), Listed(items))
  {
    if items == [] {
    } else {
      var n := |items| - 1;
      ListAgrees(items[..n]);
      UpsertAgrees(CacheOf(items[..n]), Listed(items[..n]), items[n]);
    }
  }

  lemma {:induction false} ListedRefs(items: seq<Obj>)
    ensures forall i :: 0 <= i < |items| ==> RefOf(items[i]) in Listed(items)
    ensures forall r :: r in Listed(items) ==> RefOf(Listed(items)[r]) == r && Listed(items)[r] in items
  {
    if items == [] {
    } else {
      var n := |items| - 1;
      ListedRefs(items[..n]);
      forall i | 0 <= i < |items| ensures RefOf(items[i]) in Listed(items) {
        assert i < n ==> items[i] == items[..n][i];
      }
    }
  }

  lemma {:induction false} CachedKeys(items: seq<Obj>)
    ensures Keyed(CacheOf(items))
  {
    if items == [] {
    } else {
      CachedKeys(items[..|items| - 1]);
    }
  }

  /** What agreement gives: the same set of objects, no two of one name. */
  lemma SameObjects(cache: map<string, Obj>, objs: map<Ref, Obj>)
    requires Mirrors(cache, objs)
    ensures cache.Values == objs.Values
    ensures RefsDiffer(objs.Values)
  {
    forall o | o in cache.Values ensures o in objs.Values {
      var k :| k in cache && cache[k] == o;
      assert objs[RefOf(o)] == cache[k];
    }
    forall o | o in objs.Values ensures o in cache.Values {
      var r :| r in objs && objs[r] == o;
      assert cache[Key(r)] == o;
    }
    forall a, b | a in objs.Values && b in objs.Values && RefOf(a) == RefOf(b) ensures a == b {
      var r :| r in objs && objs[r] == a;
      var q :| q in objs && objs[q] == b;
      assert r == RefOf(a) && q == RefOf(b);
    }
  }

  // ---- Over a run ----

  /** Each object sits under its own key, so no two cached objects share a name,
      whatever order the cache is walked in. */
  ghost predicate Keyed(cache: map<string, Obj>) {
    forall k :: k in cache ==> KeyOf(cache[k]) == k
  }

  lemma KeyedRefsDiffer(cache: map<string, Obj>)
    requires Keyed(cache)
    ensures RefsDiffer(cache.Values)
  {
    forall a, b | a in cache.Values && b in cache.Values && RefOf(a) == RefOf(b) ensures a == b {
      var k :| k in cache && cache[k] == a;
      var l :| l in cache && cache[l] == b;
      assert k == l;
    }
  }

  predicate Fatal(pc: Pc) {
    pc.Done? && (pc.ending == AccessDenied || pc.ending == NotAuthenticated || pc.ending == InvalidScope)
  }

  /** After a successful list, unless an error has come since, the last outcome
      is the evaluation of the cache. */
  ghost predicate LastIsCache(j: Job, log: seq<Entry>, st: State) {
    LastServed(log).Some? && st.note != ApiErrorNote ==> st.last == j.Evaluated(st.cache)
  }

  ghost predicate InStep(j: Job, c: Cfg) {
    && Keyed(c.st.cache)
    && (LogSlashFree(c.st.log) ==> Agree(c.st.cache, ServerView(c.st.log)))
    && (!Fatal(c.pc) ==> LastIsCache(j, c.st.log, c.st))
  }

  lemma ViewSnoc(log: seq<Entry>, e: Entry)
    ensures ServerView(log + [e]) ==
            if e.answer.Refreshed? then (if e.answer.served then Listed(e.answer.items) else map[])
            else if e.answer.Changed? then ServerAfter(ServerView(log), e.answer.event)
            else ServerView(log)
    ensures LogSlashFree(log + [e]) ==> LogSlashFree(log) && AnswerSlashFree(e.answer)
  {
    assert (log + [e])[..|log|] == log;
    if LogSlashFree(log + [e]) {
      assert (log + [e])[|log|] in log + [e];
      forall f | f in log ensures AnswerSlashFree(f.answer) {
        assert f in log + [e];
      }
    }
  }

  lemma AppliedAgrees(cache: map<string, Obj>, objs: map<Ref, Obj>, ev: Event)
    requires Keyed(cache)
    ensures Keyed(Applied(cache, ev))
    ensures Agree(cache, objs) && AnswerSlashFree(Changed(ev)) ==> Agree(Applied(cache, ev), ServerAfter(objs, ev))
  {
    if Agree(cache, objs) && AnswerSlashFree(Changed(ev)) {
      match ev {
        case Upsert(o) => UpsertAgrees(cache, objs, o);
        case Remove(o) => RemoveAgrees(cache, objs, o);
        case _ =>
      }
    }
  }

  /** The cache of a turn keeps step with the log of the turn. */
  lemma TurnInStep(j: Job, c: Cfg, m: Moment)
    requires InStep(j, c)
    ensures var st := j.Begin(c, m).st;
            Keyed(st.cache) && (LogSlashFree(st.log) ==> Agree(st.cache, ServerView(st.log)))
  {
    var heard := Heard(j, c, m);
    BeginFrame(j, c, m);
    if heard.Some? {
      ViewSnoc(c.st.log, Entry(Until(c, m), heard.value));
      if heard.value.Refreshed? {
        RefreshIs(j, c, m);
        var items := heard.value.items;
        CachedKeys(items);
        if ItemsSlashFree(items) {
          ListAgrees(items);
        }
      } else if heard.value.Changed? {
        ChangeIs(j, c, m);
        AppliedAgrees(c.st.cache, ServerView(c.st.log), heard.value.event);
      } else if j.Begin(c, m).Look? {
        LookIs(j, c, m);
      } else {
        QuietTurn(j, c, m);
      }
    } else {
      QuietTurn(j, c, m);
    }
  }

  lemma TurnLast(j: Job, c: Cfg, m: Moment)
    requires InStep(j, c) && !c.pc.Done?
    ensures var t := j.Begin(c, m);
            && (t.Look? ==> t.st.note == ApiErrorNote || t.out == j.Evaluated(t.st.cache))
            && (!t.Look? ==> LastIsCache(j, t.st.log, t.st))
  {
    var t := j.Begin(c, m);
    var heard := Heard(j, c, m);
    BeginFrame(j, c, m);
    if t.Look? {
      LookIs(j, c, m);
    } else {
      QuietTurn(j, c, m);
      if heard.Some? {
        LogSnoc(c.st.log, Entry(Until(c, m), heard.value));
      }
    }
  }

  lemma StepInStep(j: Job, c: Cfg, m: Moment)
    requires InStep(j, c)
    ensures InStep(j, j.Step(c, m))
  {
    if !c.pc.Done? {
      var t := j.Begin(c, m);
      TurnInStep(j, c, m);
      TurnLast(j, c, m);
      match t {
        case Look(st, out, next) => LookKept(j, st, out, next);
        case Proceed(st, next) => ContinueKept(j, st, next);
        case Quit(st, e) =>
          EndingIs(j, c, m);
          QuitKeeps(j, st, e);
        case Move(_, _) =>
      }
    }
  }

  lemma QuitKeeps(j: Job, st: State, e: Ending)
    ensures var c := j.Finish(Quit(st, e));
            && c.pc == Done(e) && c.st.cache == st.cache && c.st.log == st.log
            && (e == TimedOut ==> c.st.last == st.last && c.st.note == st.note)
  {
  }

  lemma {:induction false} RunInStep(j: Job, c: Cfg, moments: seq<Moment>)
    requires InStep(j, c)
    ensures InStep(j, j.RunFrom(c, moments))
    decreases |moments|
  {
    if moments == [] {
    } else {
      StepInStep(j, c, moments[0]);
      RunInStep(j, j.Step(c, moments[0]), moments[1..]);
    }
  }

  /** There has been a successful list, and no error has come after it or ended the run. */
  predicate HasVerdict(c: Cfg) {
    LastServed(c.st.log).Some? && c.st.note != ApiErrorNote && !Fatal(c.pc)
  }

  /** The cache refines the server. At every point of every run in which no
      namespace or name contains a slash, the cache holds exactly the server's
      objects, each under its key; and, once there has been a list and unless an
      error came after it or ended the run, the last outcome is what evaluating a
      full list of those objects, in any order, would give. */
  lemma {:induction false} CacheRefinesServer(j: Job, moments: seq<Moment>, relist: seq<Obj>)
    requires LogSlashFree(j.Run(moments).st.log)
    ensures var c := j.Run(moments);
            var server := ServerView(c.st.log);
            && Mirrors(c.st.cache, server)
            && (HasVerdict(c) && Lists(relist, server.Values) ==> c.st.last == SnapshotOutcome(j.s, relist))
  {
    RunInStep(j, j.Init(), moments);
    var c := j.Run(moments);
    var server := ServerView(c.st.log);
    SameObjects(c.st.cache, server);
    if Lists(relist, server.Values) {
      Verdicts.AnyListing(j.s, server.Values, relist);
    }
  }

  // ---- A server with versions ----

  /** items enumerates a version of the server: all of it, in any order. */
  ghost predicate ListsVersion(items: seq<Obj>, objs: map<Ref, Obj>) {
    && (forall i :: 0 <= i < |items| ==> RefOf(items[i]) in objs && objs[RefOf(items[i])] == items[i])
    && (forall r :: r in objs ==> r == RefOf(objs[r]) && objs[r] in items)
  }

  /** The log is what a server passing through these versions has said, up to
      version n: a list tells one version, whichever it was; each event tells what
      took the version told last to the next. */
  ghost predicate Tells(versions: seq<map<Ref, Obj>>, n: nat, log: seq<Entry>) {
    && n < |versions|
    && if log == [] then versions[n] == map[]
       else
         var front, a := log[..|log| - 1], log[|log| - 1].answer;
         match a
         case Refreshed(served, items) => if served then ListsVersion(items, versions[n]) else versions[n] == map[]
         case Changed(ev) =>
           n > 0 && Tells(versions, n - 1, front) && versions[n] == ServerAfter(versions[n - 1], ev)
         case _ => Tells(versions, n, front)
  }

  lemma ListIsVersion(items: seq<Obj>, objs: map<Ref, Obj>)
    requires ListsVersion(items, objs)
    ensures Listed(items) == objs
  {
    ListedRefs(items);
    forall r | r in objs ensures r in Listed(items) {
      var i :| 0 <= i < |items| && items[i] == objs[r];
    }
    forall r | r in Listed(items) ensures r in objs && Listed(items)[r] == objs[r] {
      var i :| 0 <= i < |items| && items[i] == Listed(items)[r];
    }
  }

  lemma {:induction false} ToldIsView(versions: seq<map<Ref, Obj>>, n: nat, log: seq<Entry>)
    requires Tells(versions, n, log)
    ensures ServerView(log) == versions[n]
  {
    if log == [] {
    } else {
      var front, a := log[..|log| - 1], log[|log| - 1].answer;
      match a {
        case Refreshed(served, items) =>
          if served {
            ListIsVersion(items, versions[n]);
          }
        case Changed(ev) => ToldIsView(versions, n - 1, front);
        case _ => ToldIsView(versions, n, front);
      }
    }
  }

  /** The cache refines a server with versions: where a list tells any version of
      it and each event of a watch leads from the version told last to the next, the
      cache mirrors the version reached, and the last outcome is that of a full
      list of this version. */
  lemma {:induction false} CacheReachesVersion(j: Job, moments: seq<Moment>,
                                               versions: seq<map<Ref, Obj>>, n: nat, relist: seq<Obj>)
    requires LogSlashFree(j.Run(moments).st.log) && Tells(versions, n, j.Run(moments).st.log)
    ensures var c := j.Run(moments);
            && Mirrors(c.st.cache, versions[n])
            && (HasVerdict(c) && Lists(relist, versions[n].Values) ==> c.st.last == SnapshotOutcome(j.s, relist))
  {
    ToldIsView(versions, n, j.Run(moments).st.log);
    CacheRefinesServer(j, moments, relist);
  }

  /** No two objects of a list with different references share a key. */
  ghost predicate KeysDiffer(items: seq<Obj>) {
    forall a, b :: a in items && b in items && KeyOf(a) == KeyOf(b) ==> RefOf(a) == RefOf(b)
  }

  /** Of a list, the cache is a mirror exactly when its keys tell its objects apart. */
  lemma ListMirrorsWhenKeysDiffer(items: seq<Obj>)
    ensures Mirrors(CacheOf(items), Listed(items)) <==> KeysDiffer(items)
  {
    if KeysDiffer(items) {
      KeysDifferMirrors(items);
    } else {
      ListedRefs(items);
      var a, b :| a in items && b in items && KeyOf(a) == KeyOf(b) && RefOf(a) != RefOf(b);
      assert RefOf(a) in Listed(items) && RefOf(b) in Listed(items);
    }
  }

  lemma {:induction false} KeysDifferMirrors(items: seq<Obj>)
    requires KeysDiffer(items)
    ensures Mirrors(CacheOf(items), Listed(items))
  {
    if items == [] {
    } else {
      var n := |items| - 1;
      var front, o := items[..n], items[n];
      assert forall x :: x in front ==> x in items;
      KeysDifferMirrors(front);
      ListedRefs(front);
      forall r | r in Listed(front) && Key(r) == KeyOf(o) ensures r == RefOf(o) {
        assert KeyOf(Listed(front)[r]) == KeyOf(o);
      }
      UpsertMirrors(CacheOf(front), Listed(front), o);
    }
  }
}
