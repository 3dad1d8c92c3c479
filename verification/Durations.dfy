/** Durations, in int64 nanoseconds: printed to whole seconds, and read back. */
module Durations {
  import opened Common
  import opened Decimals

  const SECOND: int := 1_000_000_000
  const MINUTE: int := 60 * SECOND
  const HOUR: int := 60 * MINUTE

  /** Duration.Round(time.Second) on a non-negative duration: half up, and the
      largest duration when rounding up would overflow. */
  function RoundToSecond(d: int): int
    requires 0 <= d <= MAX_INT64
  {
    var r := d % SECOND;
    if r + r < SECOND then d - r
    else if d + SECOND - r <= MAX_INT64 then d + SECOND - r
    else MAX_INT64
  }

  function Part(n: nat, unit: char): string {
    if n > 0 then Print(n) + [unit] else ""
  }

  const ZERO: string := ['0', 's']

  /** Hours, minutes and seconds, leaving out the zero ones unless all are. */
  function Layout(h: nat, m: nat, s: nat): string {
    if h == 0 && m == 0 && s == 0 then ZERO else Part(h, 'h') + Part(m, 'm') + Part(s, 's')
  }

  method FormatDuration(d: int) returns (b: string)
    requires d <= MAX_INT64
    ensures exists h: nat, m: nat, s: nat ::
              && b == Layout(h, m, s) && m < 60 && s < 60
              && h * 3600 + m * 60 + s == RoundToSecond(Max(d, 0)) / SECOND
    ensures Read(b) == Some(RoundToSecond(Max(d, 0)) / SECOND)
    ensures d <= 0 ==> b == ZERO
  {
    var r := if d < 0 then 0 else d;
    r := RoundToSecond(r);
    var h, m, s := r / HOUR, (r % HOUR) / MINUTE, (r % MINUTE) / SECOND;
    SplitSeconds(r);
    b := "";
    if h > 0 {
      b := b + (Print(h) + ['h']);
    }
    assert b == Part(h, 'h');
    if m > 0 {
      b := b + (Print(m) + ['m']);
    }
    assert b == Part(h, 'h') + Part(m, 'm');
    if s > 0 || b == "" {
      b := b + (Print(s) + ['s']);
    }
    assert h == 0 && m == 0 && s == 0 ==> b == ZERO by { PrintZero(); }
    assert b == Layout(h, m, s);
    ReadLayout(h, m, s);
  }

  lemma PrintZero()
    ensures Print(0) + ['s'] == ZERO
  {
    assert Print(0) == [Digit(0)];
  }

  /** Hours and the minutes beside them are the whole minutes. */
  lemma SplitMinutes(r: int)
    requires r >= 0
    ensures r / MINUTE == r / HOUR * 60 + (r % HOUR) / MINUTE
    ensures r % MINUTE == (r % HOUR) % MINUTE && 0 <= (r % HOUR) / MINUTE < 60
  {
    var q, a := r / HOUR, r % HOUR;
    assert r == MINUTE * (60 * q + a / MINUTE) + a % MINUTE;
  }

  lemma SplitSeconds(r: int)
    requires r >= 0
    ensures r / HOUR * 3600 + (r % HOUR) / MINUTE * 60 + (r % MINUTE) / SECOND == r / SECOND
    ensures 0 <= (r % HOUR) / MINUTE < 60 && 0 <= (r % MINUTE) / SECOND < 60
  {
    SplitMinutes(r);
    var m, a := r / MINUTE, r % MINUTE;
    assert r == SECOND * (60 * m + a / SECOND) + a % SECOND;
  }

  // ---- Reading the text back ----

  predicate IsUnit(c: char) {
    c == 'h' || c == 'm' || c == 's'
  }

  function UnitSeconds(c: char): nat
    requires IsUnit(c)
  {
    if c == 'h' then 3600 else if c == 'm' then 60 else 1
  }

  /** Reads on, after a number and a total, in units of less than `below` seconds: a
      unit that is not smaller than the one before it makes no sense, nor do none of
      a unit, but for 0s alone. */
  function ReadFrom(t: string, number: nat, total: nat, below: nat): Option<nat> {
    if t == [] then Some(total)
    else if IsDigit(t[0]) then ReadFrom(t[1..], number * 10 + DigitValue(t[0]), total, below)
    else if IsUnit(t[0]) && UnitSeconds(t[0]) < below && (number > 0 || (t[0] == 's' && below == 3601)) then
      ReadFrom(t[1..], 0, total + number * UnitSeconds(t[0]), UnitSeconds(t[0]))
    else None
  }

  /** The number of seconds a printed duration stands for. */
  function Read(t: string): Option<nat> {
    ReadFrom(t, 0, 0, 3601)
  }

  lemma {:induction false} ReadPrinted(n: nat, rest: string, total: nat, below: nat)
    ensures ReadFrom(Print(n) + rest, 0, total, below) == ReadFrom(rest, n, total, below)
  {
    if n < 10 {
      assert (Print(n) + rest)[1..] == rest;
    } else {
      ReadPrinted(n / 10, [Digit(n % 10)] + rest, total, below);
      assert Print(n) + rest == Print(n / 10) + ([Digit(n % 10)] + rest);
      assert ([Digit(n % 10)] + rest)[1..] == rest;
    }
  }

  lemma ReadPart(n: nat, unit: char, rest: string, total: nat, below: nat)
    requires IsUnit(unit) && UnitSeconds(unit) < below
    ensures ReadFrom(Part(n, unit) + rest, 0, total, below) ==
            ReadFrom(rest, 0, total + n * UnitSeconds(unit), if n > 0 then UnitSeconds(unit) else below)
  {
    if n > 0 {
      ReadPrinted(n, [unit] + rest, total, below);
      assert Part(n, unit) + rest == Print(n) + ([unit] + rest);
      assert ([unit] + rest)[1..] == rest;
    } else {
      assert Part(n, unit) + rest == rest;
    }
  }

  lemma ReadZero()
    ensures Read(ZERO) == Some(0)
  {
    PrintZero();
    ReadPrinted(0, ['s'], 0, 3601);
    assert ['s'][1..] == [];
  }

  lemma ReadParts(h: nat, m: nat, s: nat)
    ensures Read(Part(h, 'h') + Part(m, 'm') + Part(s, 's')) == Some(h * 3600 + m * 60 + s)
  {
    var ms, ss := Part(m, 'm'), Part(s, 's');
    var belowM := if h > 0 then 3600 else 3601;
    var belowS := if m > 0 then 60 else belowM;
    ConcatAssociates(Part(h, 'h'), ms, ss);
    ReadPart(h, 'h', ms + ss, 0, 3601);
    ReadPart(m, 'm', ss, h * 3600, belowM);
    ReadPart(s, 's', [], h * 3600 + m * 60, belowS);
    assert ss + [] == ss;
  }

  lemma ReadLayout(h: nat, m: nat, s: nat)
    ensures Read(Layout(h, m, s)) == Some(h * 3600 + m * 60 + s)
  {
    if h == 0 && m == 0 && s == 0 {
      ReadZero();
    } else {
      ReadParts(h, m, s);
    }
  }

  /** What the printed text reads back as is d rounded half up to whole seconds,
      off by at most half a second, exactly when rounding does not run past
      int64: when d is short of the last half second that int64 holds. */
  lemma RoundingIsHalfUp(d: int)
    requires 0 <= d <= MAX_INT64
    ensures RoundToSecond(d) / SECOND == (d + SECOND / 2) / SECOND <==>
            d < MAX_INT64 / SECOND * SECOND + SECOND / 2
    ensures d < MAX_INT64 / SECOND * SECOND + SECOND / 2 ==>
              && RoundToSecond(d) % SECOND == 0
              && -SECOND < 2 * (RoundToSecond(d) - d) <= SECOND
  {
    var r := d % SECOND;
    assert d == d / SECOND * SECOND + r;
  }
}
