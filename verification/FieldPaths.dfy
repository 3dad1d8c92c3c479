/**
 Field paths: the dot-path parser behind progress_fields, the printer of
 attribute paths, and the round trip between them.
 */
module FieldPaths {
  import opened Common
  import opened Decimals

  datatype Elem = Name(key: string) | Index(i: int)

  datatype FieldPath = FieldPath(source: string, elems: seq<Elem>)

  datatype PathError =
    | EmptyPath | UnclosedBracket | BadQuotedKey | BadIndex | EmptySegment | TrailingDot
    | MissingSeparator(after: Elem)

  datatype Parsed = Ok(elems: seq<Elem>) | Bad(error: PathError)

  /** strconv.Unquote on a bracketed key; Go's escapes are not modelled. */
  type Unquote = string -> Option<string>

  function IndexByte(s: string, c: char): int
    ensures -1 <= IndexByte(s, c) < |s|
    ensures IndexByte(s, c) >= 0 ==> s[IndexByte(s, c)] == c
    ensures forall k :: 0 <= k < (if IndexByte(s, c) < 0 then |s| else IndexByte(s, c)) ==> s[k] != c
  {
    if s == [] then -1
    else if s[0] == c then 0
    else var r := IndexByte(s[1..], c); if r < 0 then -1 else r + 1
  }

  predicate EndsKey(c: char) {
    c == '.' || c == '['
  }

  /** Where a plain key ends: the first "." or "[", or the end of the text. */
  function KeyEnd(s: string): nat
    ensures KeyEnd(s) <= |s|
    ensures forall k :: 0 <= k < KeyEnd(s) ==> !EndsKey(s[k])
    ensures KeyEnd(s) < |s| ==> EndsKey(s[KeyEnd(s)])
  {
    if s == [] || EndsKey(s[0]) then 0 else 1 + KeyEnd(s[1..])
  }

  /** What stands between brackets: a key in quotes, or else a numeral. */
  function Bracketed(unquote: Unquote, inner: string): (r: Parsed)
    ensures r.Ok? ==> |r.elems| == 1
  {
    if inner != [] && inner[0] == '"' then
      (match unquote(inner) case Some(k) => Ok([Name(k)]) case None => Bad(BadQuotedKey))
    else
      match Atoi(inner)
      case Some(i) => if i < 0 then Bad(BadIndex) else Ok([Index(i)])
      case None => Bad(BadIndex)
  }

  /** What the parser makes of the rest of a path, given what it has so far. */
  function ParseFrom(unquote: Unquote, s: string, expectKey: bool, elems: seq<Elem>): Parsed
    requires !expectKey ==> elems != []
    decreases |s|
  {
    if s == [] then Ok(elems)
    else if s[0] == '[' then
      var end := IndexByte(s, ']');
      if end < 0 then Bad(UnclosedBracket)
      else
        match Bracketed(unquote, s[1..end])
        case Bad(e) => Bad(e)
        case Ok(es) => ParseFrom(unquote, s[end + 1..], false, elems + es)
    else if s[0] == '.' then
      if expectKey then Bad(EmptySegment)
      else if |s| == 1 then Bad(TrailingDot)
      else ParseFrom(unquote, s[1..], true, elems)
    else if !expectKey then Bad(MissingSeparator(elems[|elems| - 1]))
    else ParseFrom(unquote, s[KeyEnd(s)..], false, elems + [Name(s[..KeyEnd(s)])])
  }

  function ParsePath(unquote: Unquote, src: string): Parsed {
    if src == [] then Bad(EmptyPath) else ParseFrom(unquote, src, true, [])
  }

  /** The parse loop. Every turn shortens `s`; whenever the parser expects no
      key it has an element to name in its complaint. */
  method ParseFieldPath(unquote: Unquote, src: string) returns (r: Parsed)
    ensures r == ParsePath(unquote, src)
  {
    if src == "" {
      return Bad(EmptyPath);
    }
    var s, elems, expectKey := src, [], true;
    while |s| > 0
      invariant !expectKey ==> elems != []
      invariant ParsePath(unquote, src) == ParseFrom(unquote, s, expectKey, elems)
      decreases |s|
    {
      if s[0] == '[' {
        var end := IndexByte(s, ']');
        if end < 0 {
          return Bad(UnclosedBracket);
        }
        var inner := s[1..end];
        if inner != "" && inner[0] == '"' {
          var k := unquote(inner);
          if k.None? {
            return Bad(BadQuotedKey);
          }
          elems := elems + [Name(k.value)];
        } else {
          var i := Atoi(inner);
          if i.None? || i.value < 0 {
            return Bad(BadIndex);
          }
          elems := elems + [Index(i.value)];
        }
        s := s[end + 1..];
        expectKey := false;
      } else if s[0] == '.' {
        if expectKey {
          return Bad(EmptySegment);
        }
        s := s[1..];
        expectKey := true;
        if s == "" {
          return Bad(TrailingDot);
        }
      } else {
        if !expectKey {
          return Bad(MissingSeparator(elems[|elems| - 1]));
        }
        var end := KeyEnd(s);
        elems := elems + [Name(s[..end])];
        s := s[end..];
        expectKey := false;
      }
    }
    return Ok(elems);
  }

  // ---- The printer ----

  function Piece(e: Elem, first: bool): string {
    match e
    case Index(i) => "[" + (if i < 0 then "-" + Print(-i) else Print(i)) + "]"
    case Name(k) => (if first then "" else ".") + k
  }

  /** The text of a path, given what has been written before it. */
  function TextAfter(b: string, path: seq<Elem>): string
    decreases |path|
  {
    if path == [] then b else TextAfter(b + Piece(path[0], b == ""), path[1..])
  }

  function PathText(path: seq<Elem>): string {
    TextAfter("", path)
  }

  method PathString(path: seq<Elem>) returns (b: string)
    ensures b == PathText(path)
  {
    b := "";
    assert path[0..] == path;
    for i := 0 to |path|
      invariant TextAfter(b, path[i..]) == PathText(path)
    {
      b := b + Piece(path[i], b == "");
    }
  }

  // ---- Printing and parsing are inverse on plain paths ----

  /** An element that survives printing: a key that needs no brackets, or an index. */
  predicate Plain(e: Elem) {
    match e
    case Name(k) => k != "" && forall i :: 0 <= i < |k| ==> !EndsKey(k[i])
    case Index(i) => 0 <= i <= MAX_INT64
  }

  ghost predicate AllPlain(path: seq<Elem>) {
    forall i :: 0 <= i < |path| ==> Plain(path[i])
  }

  /** The printed form of everything after the first element. */
  function Suffix(path: seq<Elem>): string {
    if path == [] then "" else Piece(path[0], false) + Suffix(path[1..])
  }

  lemma {:induction false} TextIsSuffix(b: string, path: seq<Elem>)
    requires b != ""
    ensures TextAfter(b, path) == b + Suffix(path)
    decreases |path|
  {
    if path == [] {
      assert b + Suffix(path) == b;
    } else {
      TextIsSuffix(b + Piece(path[0], false), path[1..]);
      ConcatAssociates(b, Piece(path[0], false), Suffix(path[1..]));
    }
  }

  lemma TextFromFront(path: seq<Elem>)
    requires path != [] && Plain(path[0])
    ensures PathText(path) == Piece(path[0], true) + Suffix(path[1..])
  {
    var p := Piece(path[0], true);
    assert "" + p == p;
    TextIsSuffix(p, path[1..]);
  }

  lemma IndexByteAt(s: string, c: char, k: nat)
    requires k < |s| && s[k] == c && forall i :: 0 <= i < k ==> s[i] != c
    ensures IndexByte(s, c) == k
  {
  }

  lemma KeyEndAt(s: string, k: nat)
    requires k <= |s| && (k < |s| ==> EndsKey(s[k])) && forall i :: 0 <= i < k ==> !EndsKey(s[i])
    ensures KeyEnd(s) == k
  {
  }

  /** Where brackets close, and what they and the rest hold. */
  lemma BracketsClose(inner: string, rest: string)
    requires ']' !in inner
    ensures var s := "[" + inner + "]" + rest;
            IndexByte(s, ']') == |inner| + 1 && s[1..|inner| + 1] == inner && s[|inner| + 2..] == rest
  {
    IndexByteAt("[" + inner + "]" + rest, ']', |inner| + 1);
  }

  lemma IndexInBrackets(unquote: Unquote, i: nat)
    requires i <= MAX_INT64
    ensures ']' !in Print(i) && Bracketed(unquote, Print(i)) == Ok([Index(i)])
  {
    PrintReads(i);
    AtoiPrint(i);
    assert IsDigit(Print(i)[0]);
  }

  lemma ParseIndex(unquote: Unquote, i: nat, rest: string, expectKey: bool, elems: seq<Elem>)
    requires i <= MAX_INT64 && (!expectKey ==> elems != [])
    ensures ParseFrom(unquote, Piece(Index(i), true) + rest, expectKey, elems) ==
            ParseFrom(unquote, rest, false, elems + [Index(i)])
  {
    IndexInBrackets(unquote, i);
    BracketsClose(Print(i), rest);
    assert Piece(Index(i), true) + rest == "[" + Print(i) + "]" + rest;
  }

  lemma ParseKey(unquote: Unquote, k: string, rest: string, elems: seq<Elem>)
    requires Plain(Name(k)) && (rest != "" ==> EndsKey(rest[0]))
    ensures ParseFrom(unquote, k + rest, true, elems) == ParseFrom(unquote, rest, false, elems + [Name(k)])
  {
    var s := k + rest;
    KeyEndAt(s, |k|);
    assert s[..|k|] == k && s[|k|..] == rest;
    assert !EndsKey(s[0]);
  }

  lemma SuffixStarts(path: seq<Elem>)
    ensures Suffix(path) != "" ==> EndsKey(Suffix(path)[0])
  {
  }

  lemma ParseFirst(unquote: Unquote, e: Elem, rest: string)
    requires Plain(e) && (rest != "" ==> EndsKey(rest[0]))
    ensures ParseFrom(unquote, Piece(e, true) + rest, true, []) == ParseFrom(unquote, rest, false, [e])
  {
    assert [] + [e] == [e];
    match e {
      case Index(i) => ParseIndex(unquote, i, rest, true, []);
      case Name(k) =>
        ParseKey(unquote, k, rest, []);
        assert Piece(e, true) == k;
    }
  }

  lemma ParseDot(unquote: Unquote, k: string, rest: string, elems: seq<Elem>)
    requires Plain(Name(k)) && elems != []
    ensures ParseFrom(unquote, "." + k + rest, false, elems) == ParseFrom(unquote, k + rest, true, elems)
  {
    var s := "." + k + rest;
    assert s[0] == '.' && |s| > 1 && s[1..] == k + rest;
  }

  lemma ParseNext(unquote: Unquote, e: Elem, rest: string, elems: seq<Elem>)
    requires Plain(e) && elems != [] && (rest != "" ==> EndsKey(rest[0]))
    ensures ParseFrom(unquote, Piece(e, false) + rest, false, elems) == ParseFrom(unquote, rest, false, elems + [e])
  {
    match e {
      case Index(i) => ParseIndex(unquote, i, rest, false, elems);
      case Name(k) =>
        ParseDot(unquote, k, rest, elems);
        ParseKey(unquote, k, rest, elems);
    }
  }

  lemma HeadAndTail(path: seq<Elem>, elems: seq<Elem>)
    requires path != [] && AllPlain(path)
    ensures Plain(path[0]) && AllPlain(path[1..])
    ensures elems + [path[0]] + path[1..] == elems + path
  {
  }

  lemma {:induction false} ParseSuffix(unquote: Unquote, path: seq<Elem>, elems: seq<Elem>)
    requires AllPlain(path) && elems != []
    ensures ParseFrom(unquote, Suffix(path), false, elems) == Ok(elems + path)
    decreases |path|
  {
    if path == [] {
      assert elems + path == elems;
    } else {
      var tail := path[1..];
      HeadAndTail(path, elems);
      SuffixStarts(tail);
      ParseNext(unquote, path[0], Suffix(tail), elems);
      ParseSuffix(unquote, tail, elems + [path[0]]);
    }
  }

  /** Parsing what the printer wrote gives the path back. */
  lemma PathRoundTrip(unquote: Unquote, path: seq<Elem>)
    requires path != [] && AllPlain(path)
    ensures ParsePath(unquote, PathText(path)) == Ok(path)
  {
    assert [path[0]] + path[1..] == path;
    TextFromFront(path);
    SuffixStarts(path[1..]);
    ParseFirst(unquote, path[0], Suffix(path[1..]));
    ParseSuffix(unquote, path[1..], [path[0]]);
  }

  // ---- And on no other path ----

  /** strconv.Unquote drops at least the two quotes. */
  ghost predicate DropsQuotes(unquote: Unquote) {
    forall q :: unquote(q).Some? ==> |unquote(q).value| + 2 <= |q|
  }

  /** The room an element takes when it is printed after others, or first. */
  function Room(e: Elem, first: bool): nat {
    |Piece(e, first)|
  }

  function RoomOf(path: seq<Elem>, first: bool): nat {
    if path == [] then 0 else Room(path[0], first) + RoomOf(path[1..], false)
  }

  lemma {:induction false} TextFits(b: string, path: seq<Elem>)
    ensures |TextAfter(b, path)| <= |b| + RoomOf(path, b == "")
    decreases |path|
  {
    if path == [] {
    } else {
      TextFits(b + Piece(path[0], b == ""), path[1..]);
      LaterTakesMore(path[1..]);
    }
  }

  lemma LaterTakesMore(path: seq<Elem>)
    ensures RoomOf(path, true) <= RoomOf(path, false)
  {
  }

  /** No numeral is shorter than the printed one. */
  lemma {:induction false} PrintIsShortest(d: string)
    requires d != [] && AllDigits(d)
    ensures |Print(Number(d))| <= |d|
  {
    var n := |d| - 1;
    if n == 0 {
      assert Number(d[..0]) == 0;
    } else {
      PrintIsShortest(d[..n]);
    }
  }

  /** A bracketed element is printed in no more room than it was written in, and
      in less if it was written as a quoted key. */
  lemma BracketedFits(unquote: Unquote, inner: string)
    requires DropsQuotes(unquote) && Bracketed(unquote, inner).Ok?
    ensures var e := Bracketed(unquote, inner).elems[0];
            forall first :: Room(e, first) < |inner| + 2 || (Plain(e) && Room(e, first) == |inner| + 2)
  {
    if inner == [] || inner[0] != '"' {
      var digits := if inner != [] && (inner[0] == '+' || inner[0] == '-') then inner[1..] else inner;
      PrintIsShortest(digits);
    }
  }

  /** What was added to elems to give r takes no more room than the text it came
      from, and less unless all of it is plain. */
  ghost predicate Fits(r: seq<Elem>, elems: seq<Elem>, text: nat) {
    && elems <= r
    && var added := r[|elems|..];
       RoomOf(added, elems == []) <= text && (RoomOf(added, elems == []) == text ==> AllPlain(added))
  }

  lemma AddedFits(r: seq<Elem>, elems: seq<Elem>, e: Elem, text: nat, more: nat)
    requires Fits(r, elems + [e], text)
    requires Room(e, elems == []) < more || (Plain(e) && Room(e, elems == []) == more)
    ensures Fits(r, elems, text + more)
  {
    var added := r[|elems|..];
    assert added[0] == e && added[1..] == r[|elems + [e]|..];
    assert added == [e] + added[1..];
  }

  /** The room in the text of a parse; a dot already consumed counts. */
  function TextRoom(s: string, expectKey: bool, elems: seq<Elem>): nat {
    |s| + if expectKey && elems != [] then 1 else 0
  }

  lemma {:induction false} ParseFits(unquote: Unquote, s: string, expectKey: bool, elems: seq<Elem>)
    requires DropsQuotes(unquote) && (!expectKey ==> elems != [])
    requires ParseFrom(unquote, s, expectKey, elems).Ok?
    ensures Fits(ParseFrom(unquote, s, expectKey, elems).elems, elems, TextRoom(s, expectKey, elems))
    decreases |s|
  {
    var r := ParseFrom(unquote, s, expectKey, elems).elems;
    if s == [] {
      assert r[|elems|..] == [];
    } else if s[0] == '[' {
      BracketFits(unquote, s, expectKey, elems);
    } else if s[0] == '.' {
      ParseFits(unquote, s[1..], true, elems);
    } else {
      KeyFits(unquote, s, elems);
    }
  }

  lemma BracketFits(unquote: Unquote, s: string, expectKey: bool, elems: seq<Elem>)
    requires DropsQuotes(unquote) && (!expectKey ==> elems != [])
    requires ParseFrom(unquote, s, expectKey, elems).Ok? && s != [] && s[0] == '['
    ensures Fits(ParseFrom(unquote, s, expectKey, elems).elems, elems, TextRoom(s, expectKey, elems))
    decreases |s|, 0
  {
    var r := ParseFrom(unquote, s, expectKey, elems).elems;
    var end := IndexByte(s, ']');
    var es := Bracketed(unquote, s[1..end]).elems;
    var rest := s[end + 1..];
    assert es == [es[0]];
    BracketedFits(unquote, s[1..end]);
    ParseFits(unquote, rest, false, elems + es);
    AddedFits(r, elems, es[0], |rest|, TextRoom(s, expectKey, elems) - |rest|);
  }

  lemma KeyFits(unquote: Unquote, s: string, elems: seq<Elem>)
    requires DropsQuotes(unquote) && ParseFrom(unquote, s, true, elems).Ok? && s != [] && !EndsKey(s[0])
    ensures Fits(ParseFrom(unquote, s, true, elems).elems, elems, TextRoom(s, true, elems))
    decreases |s|, 0
  {
    var r := ParseFrom(unquote, s, true, elems).elems;
    var k, rest := Name(s[..KeyEnd(s)]), s[KeyEnd(s)..];
    ParseFits(unquote, rest, false, elems + [k]);
    AddedFits(r, elems, k, |rest|, TextRoom(s, true, elems) - |rest|);
  }

  lemma ReturningIsPlain(unquote: Unquote, path: seq<Elem>)
    requires DropsQuotes(unquote) && ParsePath(unquote, PathText(path)) == Ok(path)
    ensures path != [] && AllPlain(path)
  {
    ParseFits(unquote, PathText(path), true, []);
    TextFits("", path);
    assert path[0..] == path;
  }

  /** Exactly the non-empty plain paths come back from the printer. */
  lemma PathRoundTripIff(unquote: Unquote, path: seq<Elem>)
    requires DropsQuotes(unquote)
    ensures ParsePath(unquote, PathText(path)) == Ok(path) <==> path != [] && AllPlain(path)
  {
    if path != [] && AllPlain(path) {
      PathRoundTrip(unquote, path);
    }
    if ParsePath(unquote, PathText(path)) == Ok(path) {
      ReturningIsPlain(unquote, path);
    }
  }

  /** For one: the empty path prints as nothing, and a key with a dot prints like
      the two keys around it. */
  lemma UnplainPathsDoNotReturn(unquote: Unquote, a: string, b: string)
    requires Plain(Name(a)) && Plain(Name(b))
    ensures ParsePath(unquote, PathText([])) == Bad(EmptyPath)
    ensures ParsePath(unquote, PathText([Name(a + "." + b)])) == Ok([Name(a), Name(b)])
  {
    var two := [Name(a), Name(b)];
    PathRoundTrip(unquote, two);
    TwoKeys(a, b);
    OneKey(a + "." + b);
  }

  lemma OneKey(k: string)
    ensures PathText([Name(k)]) == k
  {
    var one := [Name(k)];
    var rest := one[1..];
    assert rest == [];
    assert "" + Piece(one[0], true) == k;
    assert TextAfter("" + Piece(one[0], true), rest) == k;
  }

  lemma TwoKeys(a: string, b: string)
    requires Plain(Name(a))
    ensures PathText([Name(a), Name(b)]) == a + "." + b
  {
    var two := [Name(a), Name(b)];
    TextFromFront(two);
    assert Suffix(two[1..][1..]) == "";
    assert Piece(Name(a), true) == a && Piece(Name(b), false) == "." + b;
    assert two[1..][0] == Name(b);
    assert Suffix(two[1..]) == "." + b;
    ConcatAssociates(a, ".", b);
  }
}
