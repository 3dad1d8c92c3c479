/** The language of field paths: which texts are paths, what they spell, and what is
    wrong with the others. The parser is measured against it in both directions. */
module PathGrammar {
  import opened Common
  import opened Decimals
  import opened FieldPaths

  /** A path is written as keys, dots and boxes, a box being what stands in brackets. */
  datatype Token = Dot | Key(k: string) | Box(inner: string)

  function TokenText(t: Token): string {
    match t
    case Dot => "."
    case Key(k) => k
    case Box(inner) => "[" + inner + "]"
  }

  function Text(ts: seq<Token>): string {
    if ts == [] then "" else TokenText(ts[0]) + Text(ts[1..])
  }

  predicate Quoted(inner: string) {
    inner != "" && inner[0] == '"'
  }

  /** A key is not empty and has neither dot nor bracket; a box holds no closing
      bracket, and either a quoted key or the numeral of an index. */
  predicate TokenOk(unquote: Unquote, t: Token) {
    match t
    case Dot => true
    case Key(k) => k != "" && '.' !in k && '[' !in k
    case Box(inner) =>
      && ']' !in inner
      && if Quoted(inner) then unquote(inner).Some? else Atoi(inner).Some? && Atoi(inner).value >= 0
  }

  /** What a token spells: a key itself, a quoted key without its quotes, a number. */
  function Spelled(unquote: Unquote, t: Token): seq<Elem>
    requires TokenOk(unquote, t)
  {
    match t
    case Dot => []
    case Key(k) => [Name(k)]
    case Box(inner) => if Quoted(inner) then [Name(unquote(inner).value)] else [Index(Atoi(inner).value)]
  }

  ghost predicate TokensOk(unquote: Unquote, ts: seq<Token>) {
    forall i :: 0 <= i < |ts| ==> TokenOk(unquote, ts[i])
  }

  function Spells(unquote: Unquote, ts: seq<Token>): seq<Elem>
    requires TokensOk(unquote, ts)
  {
    if ts == [] then [] else Spelled(unquote, ts[0]) + Spells(unquote, ts[1..])
  }

  /** The token at i stands at the beginning, or after a dot; `atKey` says so of
      what comes before the first. */
  predicate AtKey(ts: seq<Token>, i: nat, atKey: bool)
    requires i <= |ts|
  {
    if i == 0 then atKey else ts[i - 1].Dot?
  }

  /** A key stands at the beginning or after a dot, a dot after a key or a box, and
      a box anywhere. */
  predicate Placed(ts: seq<Token>, i: nat, atKey: bool)
    requires i < |ts|
  {
    (ts[i].Key? ==> AtKey(ts, i, atKey)) && (ts[i].Dot? ==> !AtKey(ts, i, atKey))
  }

  ghost predicate WellPlaced(ts: seq<Token>, atKey: bool) {
    forall i :: 0 <= i < |ts| ==> Placed(ts, i, atKey)
  }

  predicate EndsInDot(ts: seq<Token>) {
    ts != [] && ts[|ts| - 1].Dot?
  }

  /** ts writes src, and spells path: every token is good and in its place, and no
      dot comes last. */
  ghost predicate Writes(unquote: Unquote, ts: seq<Token>, src: string, path: seq<Elem>) {
    && ts != [] && TokensOk(unquote, ts) && WellPlaced(ts, true) && !EndsInDot(ts)
    && Text(ts) == src && Spells(unquote, ts) == path
  }

  lemma PlacedTail(ts: seq<Token>, atKey: bool)
    requires ts != []
    ensures WellPlaced(ts, atKey) <==>
            && WellPlaced(ts[1..], ts[0].Dot?)
            && (ts[0].Key? ==> atKey) && (ts[0].Dot? ==> !atKey)
    ensures EndsInDot(ts) <==> if |ts| == 1 then ts[0].Dot? else EndsInDot(ts[1..])
  {
    var tail := ts[1..];
    assert forall i :: 0 <= i < |tail| ==> Placed(tail, i, ts[0].Dot?) == Placed(ts, i + 1, atKey);
    assert Placed(ts, 0, atKey) <==> (ts[0].Key? ==> atKey) && (ts[0].Dot? ==> !atKey);
    if WellPlaced(tail, ts[0].Dot?) && Placed(ts, 0, atKey) {
      forall i | 0 <= i < |ts| ensures Placed(ts, i, atKey) {
        assert i > 0 ==> Placed(tail, i - 1, ts[0].Dot?);
      }
    }
  }

  // ---- What is written is parsed ----

  lemma ParseBox(unquote: Unquote, inner: string, rest: string, atKey: bool, elems: seq<Elem>)
    requires TokenOk(unquote, Box(inner)) && (!atKey ==> elems != [])
    ensures ParseFrom(unquote, "[" + inner + "]" + rest, atKey, elems) ==
            ParseFrom(unquote, rest, false, elems + Spelled(unquote, Box(inner)))
  {
    BracketsClose(inner, rest);
  }

  /** rest may follow: where a key has come last, it does not go on with the key. */
  predicate Separate(ts: seq<Token>, rest: string) {
    ts != [] && ts[|ts| - 1].Key? && rest != "" ==> EndsKey(rest[0])
  }

  lemma TokenThen(unquote: Unquote, t: Token, rest: string, atKey: bool, elems: seq<Elem>)
    requires TokenOk(unquote, t) && (!atKey ==> elems != [])
    requires (t.Key? ==> atKey && (rest != "" ==> EndsKey(rest[0]))) && (t.Dot? ==> !atKey && rest != "")
    ensures ParseFrom(unquote, TokenText(t) + rest, atKey, elems) ==
            ParseFrom(unquote, rest, t.Dot?, elems + Spelled(unquote, t))
  {
    match t {
      case Dot =>
        assert elems + [] == elems;
        assert ("." + rest)[1..] == rest;
      case Key(k) => ParseKey(unquote, k, rest, elems);
      case Box(inner) => ParseBox(unquote, inner, rest, atKey, elems);
    }
  }

  lemma TextStarts(unquote: Unquote, ts: seq<Token>)
    requires TokensOk(unquote, ts) && ts != []
    ensures Text(ts) != "" && (!ts[0].Key? ==> EndsKey(Text(ts)[0]))
  {
  }

  lemma {:induction false} SpellsSomething(unquote: Unquote, ts: seq<Token>)
    requires TokensOk(unquote, ts) && ts != [] && !EndsInDot(ts)
    ensures Spells(unquote, ts) != []
  {
    if |ts| == 1 {
    } else {
      SpellsSomething(unquote, ts[1..]);
    }
  }

  /** A good token, put before what is well written, and what that does to the text. */
  lemma HeadOf(unquote: Unquote, ts: seq<Token>, rest: string, atKey: bool)
    requires TokensOk(unquote, ts) && WellPlaced(ts, atKey) && ts != []
    requires Separate(ts, rest) && (EndsInDot(ts) ==> rest != "")
    ensures var after := Text(ts[1..]) + rest;
            && Text(ts) + rest == TokenText(ts[0]) + after
            && (ts[0].Key? ==> atKey && (after != "" ==> EndsKey(after[0])))
            && (ts[0].Dot? ==> !atKey && after != "")
    ensures TokensOk(unquote, ts[1..]) && WellPlaced(ts[1..], ts[0].Dot?)
    ensures Separate(ts[1..], rest) && (EndsInDot(ts[1..]) ==> rest != "")
  {
    var tail := ts[1..];
    PlacedTail(ts, atKey);
    ConcatAssociates(TokenText(ts[0]), Text(tail), rest);
    if tail == [] {
      assert Text(tail) + rest == rest;
    } else {
      TextStarts(unquote, tail);
      assert Placed(tail, 0, ts[0].Dot?);
      assert tail[|tail| - 1] == ts[|ts| - 1];
    }
  }

  /** A well-written beginning is parsed, whatever follows it. */
  lemma {:induction false} WrittenIsParsed(unquote: Unquote, ts: seq<Token>, rest: string, atKey: bool, elems: seq<Elem>)
    requires TokensOk(unquote, ts) && WellPlaced(ts, atKey) && (!atKey ==> elems != [])
    requires Separate(ts, rest) && (EndsInDot(ts) ==> rest != "")
    ensures AtKey(ts, |ts|, atKey) || elems + Spells(unquote, ts) != []
    ensures ParseFrom(unquote, Text(ts) + rest, atKey, elems) ==
            ParseFrom(unquote, rest, AtKey(ts, |ts|, atKey), elems + Spells(unquote, ts))
    decreases |ts|
  {
    if ts == [] {
      assert elems + [] == elems;
      assert Text(ts) + rest == rest;
    } else {
      var t, tail := ts[0], ts[1..];
      HeadOf(unquote, ts, rest, atKey);
      TokenThen(unquote, t, Text(tail) + rest, atKey, elems);
      SpelledAdds(unquote, t, elems);
      WrittenIsParsed(unquote, tail, rest, t.Dot?, elems + Spelled(unquote, t));
      ConcatAssociates(elems, Spelled(unquote, t), Spells(unquote, tail));
      assert AtKey(tail, |tail|, t.Dot?) == AtKey(ts, |ts|, atKey);
    }
  }

  lemma SpelledAdds(unquote: Unquote, t: Token, elems: seq<Elem>)
    requires TokenOk(unquote, t)
    ensures !t.Dot? ==> elems + Spelled(unquote, t) != []
  {
  }

  // ---- What is parsed was written ----

  /** The token a text begins with, and what follows it. */
  function FirstToken(s: string): (Token, string)
    requires s != ""
  {
    if s[0] == '.' then (Dot, s[1..])
    else if s[0] == '[' then
      var end := IndexByte(s, ']');
      if end < 0 then (Box(s), "") else (Box(s[1..end]), s[end + 1..])
    else (Key(s[..KeyEnd(s)]), s[KeyEnd(s)..])
  }

  /** The text begins with a token that may stand here. */
  predicate StepsOn(unquote: Unquote, s: string, atKey: bool)
    requires s != ""
  {
    var (t, rest) := FirstToken(s);
    TokenOk(unquote, t) && (t.Box? ==> ']' in s) && (t.Key? ==> atKey) && (t.Dot? ==> !atKey && rest != "")
  }

  lemma TokenAndRest(unquote: Unquote, s: string, atKey: bool)
    requires s != "" && StepsOn(unquote, s, atKey)
    ensures var (t, rest) := FirstToken(s); TokenText(t) + rest == s && |rest| < |s| && Separate([t], rest)
  {
    var (t, rest) := FirstToken(s);
    if t.Box? {
      assert s == "[" + s[1..IndexByte(s, ']')] + "]" + s[IndexByte(s, ']') + 1..];
    }
  }

  lemma StepOn(unquote: Unquote, s: string, atKey: bool, elems: seq<Elem>)
    requires s != "" && (!atKey ==> elems != []) && StepsOn(unquote, s, atKey)
    ensures var (t, rest) := FirstToken(s);
            && TokenText(t) + rest == s && |rest| < |s| && Separate([t], rest)
            && (t.Dot? || elems + Spelled(unquote, t) != [])
            && ParseFrom(unquote, s, atKey, elems) == ParseFrom(unquote, rest, t.Dot?, elems + Spelled(unquote, t))
  {
    var (t, rest) := FirstToken(s);
    TokenAndRest(unquote, s, atKey);
    SpelledAdds(unquote, t, elems);
    TokenThen(unquote, t, rest, atKey, elems);
  }

  /** What is wrong with a text where no token steps on: prev is the token before it,
      and elems what has been spelled so far. */
  predicate Wrong(unquote: Unquote, rest: string, prev: Option<Token>, elems: seq<Elem>, e: PathError)
    requires rest != ""
  {
    var closed := ']' in rest;
    var inner := if rest[0] == '[' && closed then rest[1..IndexByte(rest, ']')] else "";
    var atKey := prev.None? || prev.value.Dot?;
    match e
    case EmptyPath => false
    case UnclosedBracket => rest[0] == '[' && !closed
    case BadQuotedKey => rest[0] == '[' && closed && Quoted(inner) && unquote(inner).None?
    case BadIndex => rest[0] == '[' && closed && !Quoted(inner) && (Atoi(inner).None? || Atoi(inner).value < 0)
    case EmptySegment => rest[0] == '.' && atKey
    case TrailingDot => rest == "." && !atKey
    case MissingSeparator(after) =>
      && !EndsKey(rest[0]) && prev.Some? && prev.value.Box?
      && elems != [] && after == elems[|elems| - 1]
  }

  predicate Follows(prev: Option<Token>, rest: string) {
    prev.Some? && prev.value.Key? && rest != "" ==> EndsKey(rest[0])
  }

  lemma StopHere(unquote: Unquote, s: string, prev: Option<Token>, elems: seq<Elem>, e: PathError)
    requires s != "" && (prev.Some? && !prev.value.Dot? ==> elems != []) && Follows(prev, s)
    ensures var atKey := prev.None? || prev.value.Dot?;
            && (!StepsOn(unquote, s, atKey) ==>
                  (ParseFrom(unquote, s, atKey, elems) == Bad(e) <==> Wrong(unquote, s, prev, elems, e)))
            && (StepsOn(unquote, s, atKey) ==> !Wrong(unquote, s, prev, elems, e))
  {
  }

  function Last(ts: seq<Token>, prev: Option<Token>): Option<Token> {
    if ts == [] then prev else Some(ts[|ts| - 1])
  }

  lemma Prepended(unquote: Unquote, t: Token, tail: seq<Token>, atKey: bool, elems: seq<Elem>, rest: string)
    requires TokenOk(unquote, t) && TokensOk(unquote, tail) && WellPlaced(tail, t.Dot?)
    requires (t.Key? ==> atKey) && (t.Dot? ==> !atKey)
    ensures var ts := [t] + tail;
            && TokensOk(unquote, ts) && WellPlaced(ts, atKey)
            && Text(ts) + rest == TokenText(t) + (Text(tail) + rest)
            && elems + Spells(unquote, ts) == elems + Spelled(unquote, t) + Spells(unquote, tail)
  {
    var ts := [t] + tail;
    assert ts[1..] == tail;
    PlacedTail(ts, atKey);
    ConcatAssociates(TokenText(t), Text(tail), rest);
    ConcatAssociates(elems, Spelled(unquote, t), Spells(unquote, tail));
  }

  predicate Fresh(prev: Option<Token>) {
    prev.None? || prev.value.Dot?
  }

  /** From s the parser gets past ts to rest: to the end, or to what is wrong. */
  ghost predicate Reached(unquote: Unquote, s: string, prev: Option<Token>, elems: seq<Elem>,
                          ts: seq<Token>, rest: string)
    requires !Fresh(prev) ==> elems != []
  {
    && TokensOk(unquote, ts) && WellPlaced(ts, Fresh(prev)) && Text(ts) + rest == s
    && (ts == [] && rest == "" ==> s == "")
    && var r := ParseFrom(unquote, s, Fresh(prev), elems);
       if rest == "" then r == Ok(elems + Spells(unquote, ts)) && !EndsInDot(ts)
       else r.Bad? && Wrong(unquote, rest, Last(ts, prev), elems + Spells(unquote, ts), r.error)
  }

  lemma ReachedHere(unquote: Unquote, s: string, prev: Option<Token>, elems: seq<Elem>)
    requires (!Fresh(prev) ==> elems != []) && Follows(prev, s)
    requires s == "" || !StepsOn(unquote, s, Fresh(prev))
    ensures Reached(unquote, s, prev, elems, [], s)
  {
    assert elems + Spells(unquote, []) == elems;
    assert Text([]) + s == s;
    if s != "" {
      StopsSomehow(unquote, s, Fresh(prev), elems);
      StopHere(unquote, s, prev, elems, ParseFrom(unquote, s, Fresh(prev), elems).error);
    }
  }

  lemma ReachedOn(unquote: Unquote, s: string, prev: Option<Token>, elems: seq<Elem>,
                  tail: seq<Token>, rest: string)
    requires s != "" && (!Fresh(prev) ==> elems != []) && StepsOn(unquote, s, Fresh(prev))
    requires var (t, after) := FirstToken(s);
             && (!t.Dot? ==> elems + Spelled(unquote, t) != [])
             && Reached(unquote, after, Some(t), elems + Spelled(unquote, t), tail, rest)
    ensures Reached(unquote, s, prev, elems, [FirstToken(s).0] + tail, rest)
  {
    var t := FirstToken(s).0;
    StepOn(unquote, s, Fresh(prev), elems);
    Prepended(unquote, t, tail, Fresh(prev), elems, rest);
    LastPrepended(t, tail, prev);
  }

  lemma LastPrepended(t: Token, tail: seq<Token>, prev: Option<Token>)
    ensures Last([t] + tail, prev) == Last(tail, Some(t))
    ensures EndsInDot([t] + tail) <==> if tail == [] then t.Dot? else EndsInDot(tail)
  {
  }

  /** Follows the parser: to the end, or up to the place where it stops. */
  lemma {:induction false} ParsedWasWritten(unquote: Unquote, s: string, prev: Option<Token>, elems: seq<Elem>)
    returns (ts: seq<Token>, rest: string)
    requires (!Fresh(prev) ==> elems != []) && Follows(prev, s)
    ensures Reached(unquote, s, prev, elems, ts, rest)
    decreases |s|
  {
    if s == "" || !StepsOn(unquote, s, Fresh(prev)) {
      ts, rest := [], s;
      ReachedHere(unquote, s, prev, elems);
    } else {
      var (t, after) := FirstToken(s);
      StepOn(unquote, s, Fresh(prev), elems);
      var tail;
      tail, rest := ParsedWasWritten(unquote, after, Some(t), elems + Spelled(unquote, t));
      ts := [t] + tail;
      ReachedOn(unquote, s, prev, elems, tail, rest);
    }
  }

  lemma StopsSomehow(unquote: Unquote, s: string, atKey: bool, elems: seq<Elem>)
    requires s != "" && (!atKey ==> elems != []) && !StepsOn(unquote, s, atKey)
    ensures ParseFrom(unquote, s, atKey, elems).Bad?
  {
  }

  /** The parser accepts exactly the texts of the language, and reads off them what
      they spell. */
  lemma ParsesExactlyPaths(unquote: Unquote, src: string, path: seq<Elem>)
    ensures ParsePath(unquote, src) == Ok(path) <==> exists ts :: Writes(unquote, ts, src, path)
  {
    if ParsePath(unquote, src) == Ok(path) {
      var ts, rest := ParsedWasWritten(unquote, src, None, []);
      assert Text(ts) + "" == Text(ts);
      assert [] + Spells(unquote, ts) == Spells(unquote, ts);
      assert Writes(unquote, ts, src, path);
    }
    if ts :| Writes(unquote, ts, src, path) {
      TextStarts(unquote, ts);
      WrittenIsParsed(unquote, ts, "", true, []);
      assert Text(ts) + "" == Text(ts);
      assert [] + Spells(unquote, ts) == Spells(unquote, ts);
    }
  }

  /** src is well written up to a place where e is what is wrong. */
  ghost predicate WrongAt(unquote: Unquote, src: string, ts: seq<Token>, rest: string, e: PathError) {
    && rest != "" && TokensOk(unquote, ts) && WellPlaced(ts, true) && src == Text(ts) + rest
    && Separate(ts, rest) && Wrong(unquote, rest, Last(ts, None), Spells(unquote, ts), e)
  }

  lemma WrongIsSaid(unquote: Unquote, src: string, ts: seq<Token>, rest: string, e: PathError)
    requires WrongAt(unquote, src, ts, rest, e)
    ensures ParsePath(unquote, src) == Bad(e)
  {
    WrittenIsParsed(unquote, ts, rest, true, []);
    assert [] + Spells(unquote, ts) == Spells(unquote, ts);
    StopHere(unquote, rest, Last(ts, None), Spells(unquote, ts), e);
  }

  lemma SaidIsWrong(unquote: Unquote, src: string, e: PathError) returns (ts: seq<Token>, rest: string)
    requires src != "" && ParsePath(unquote, src) == Bad(e)
    ensures WrongAt(unquote, src, ts, rest, e)
  {
    ts, rest := ParsedWasWritten(unquote, src, None, []);
    assert [] + Spells(unquote, ts) == Spells(unquote, ts);
    KeysEnd(unquote, ts, rest, e);
  }

  /** Of any other text it says what is wrong, at the first place where something is. */
  lemma SaysWhatIsWrong(unquote: Unquote, src: string, e: PathError)
    ensures ParsePath(unquote, src) == Bad(e) <==>
            (src == "" && e == EmptyPath) || exists ts, rest :: WrongAt(unquote, src, ts, rest, e)
  {
    if src != "" && ParsePath(unquote, src) == Bad(e) {
      var ts, rest := SaidIsWrong(unquote, src, e);
    }
    if ts, rest :| WrongAt(unquote, src, ts, rest, e) {
      WrongIsSaid(unquote, src, ts, rest, e);
    }
  }

  lemma KeysEnd(unquote: Unquote, ts: seq<Token>, rest: string, e: PathError)
    requires rest != "" && TokensOk(unquote, ts)
    requires Wrong(unquote, rest, Last(ts, None), Spells(unquote, ts), e)
    ensures Separate(ts, rest)
  {
  }

  // ---- A printer for every path ----

  /** A way of quoting keys that the library reads back, and that hides brackets. */
  ghost predicate Quotes(unquote: Unquote, quote: string -> string) {
    forall k :: Quoted(quote(k)) && ']' !in quote(k) && unquote(quote(k)) == Some(k)
  }

  function TokensOf(quote: string -> string, e: Elem, first: bool): seq<Token> {
    match e
    case Index(i) => [Box(if i < 0 then "-" + Print(-i) else Print(i))]
    case Name(k) =>
      if !Plain(e) then [Box(quote(k))] else if first then [Key(k)] else [Dot, Key(k)]
  }

  function WriteOut(quote: string -> string, path: seq<Elem>): seq<Token> {
    if path == [] then []
    else
      var n := |path| - 1;
      WriteOut(quote, path[..n]) + TokensOf(quote, path[n], n == 0)
  }

  ghost predicate Indexable(path: seq<Elem>) {
    forall i :: 0 <= i < |path| && path[i].Index? ==> 0 <= path[i].i <= MAX_INT64
  }

  lemma OneWritten(unquote: Unquote, quote: string -> string, e: Elem, first: bool)
    requires Quotes(unquote, quote) && (e.Index? ==> 0 <= e.i <= MAX_INT64)
    ensures var ts := TokensOf(quote, e, first);
            && TokensOk(unquote, ts) && WellPlaced(ts, first) && !ts[|ts| - 1].Dot?
            && Spells(unquote, ts) == [e]
  {
    if e.Index? {
      PrintReads(e.i);
      AtoiPrint(e.i);
      assert forall c :: c in Print(e.i) ==> IsDigit(c);
      assert !Quoted(Print(e.i));
    }
    var ts := TokensOf(quote, e, first);
    if |ts| == 2 {
      assert Spells(unquote, ts[1..]) == [e];
    } else {
      assert Spells(unquote, ts[1..]) == [];
    }
  }

  lemma PlacedAppend(a: seq<Token>, b: seq<Token>)
    requires a != [] && WellPlaced(a, true) && !a[|a| - 1].Dot? && WellPlaced(b, false)
    ensures WellPlaced(a + b, true)
  {
    forall i | 0 <= i < |a + b| ensures Placed(a + b, i, true) {
      if i < |a| {
        assert Placed(a, i, true);
      } else {
        assert Placed(b, i - |a|, false);
      }
    }
  }

  lemma {:induction false} SpellsAppend(unquote: Unquote, a: seq<Token>, b: seq<Token>)
    requires TokensOk(unquote, a) && TokensOk(unquote, b)
    ensures TokensOk(unquote, a + b) && Spells(unquote, a + b) == Spells(unquote, a) + Spells(unquote, b)
  {
    if a == [] {
      assert a + b == b;
    } else {
      assert (a + b)[1..] == a[1..] + b;
      SpellsAppend(unquote, a[1..], b);
    }
  }

  lemma {:induction false} WrittenOut(unquote: Unquote, quote: string -> string, path: seq<Elem>)
    requires Quotes(unquote, quote) && path != [] && Indexable(path)
    ensures var ts := WriteOut(quote, path);
            && ts != [] && TokensOk(unquote, ts) && WellPlaced(ts, true) && !ts[|ts| - 1].Dot?
            && Spells(unquote, ts) == path
  {
    var n := |path| - 1;
    assert path == path[..n] + [path[n]];
    OneWritten(unquote, quote, path[n], n == 0);
    if n == 0 {
      assert WriteOut(quote, path) == TokensOf(quote, path[0], true);
    } else {
      var a, b := WriteOut(quote, path[..n]), TokensOf(quote, path[n], false);
      WrittenOut(unquote, quote, path[..n]);
      PlacedAppend(a, b);
      SpellsAppend(unquote, a, b);
    }
  }

  /** Every non-empty path whose indices int64 holds can be written so that parsing
      gives it back, keys that are not plain being quoted and bracketed. */
  lemma EveryPathRoundTrips(unquote: Unquote, quote: string -> string, path: seq<Elem>)
    requires Quotes(unquote, quote) && path != [] && Indexable(path)
    ensures ParsePath(unquote, Text(WriteOut(quote, path))) == Ok(path)
  {
    WrittenOut(unquote, quote, path);
    assert Writes(unquote, WriteOut(quote, path), Text(WriteOut(quote, path)), path);
    ParsesExactlyPaths(unquote, Text(WriteOut(quote, path)), path);
  }
}
