/** The ledger stores moments as the text of `datetime.isoformat()` and compares the texts in SQL.
    For UTC moments the order of the texts is the order of time. */
module Isoformat {
  // ----- moments -----

  datatype Moment = Moment(year: nat, month: nat, day: nat, hour: nat, minute: nat, second: nat, micro: nat)

  predicate Leap(year: nat) {
    year % 4 == 0 && (year % 100 != 0 || year % 400 == 0)
  }

  function DaysIn(year: nat, month: nat): nat {
    if month == 2 then (if Leap(year) then 29 else 28)
    else if month in {4, 6, 9, 11} then 30
    else 31
  }

  /** The range of a `datetime`. */
  predicate Valid(m: Moment) {
    && 1 <= m.year <= 9999 && 1 <= m.month <= 12 && 1 <= m.day <= DaysIn(m.year, m.month)
    && m.hour < 24 && m.minute < 60 && m.second < 60 && m.micro < 1_000_000
  }

  /** Days before the first of a month, since the first of January of year 1. */
  function DaysBefore(year: nat, month: nat): nat
    requires 1 <= year && 1 <= month
    decreases year, month
  {
    if month > 1 then DaysBefore(year, month - 1) + DaysIn(year, month - 1)
    else if year > 1 then DaysBefore(year - 1, 12) + DaysIn(year - 1, 12)
    else 0
  }

  /** Microseconds since the beginning of year 1. */
  function Instant(m: Moment): nat
    requires 1 <= m.year && 1 <= m.month && 1 <= m.day
  {
    var days := DaysBefore(m.year, m.month) + m.day - 1;
    (((days * 24 + m.hour) * 60 + m.minute) * 60 + m.second) * 1_000_000 + m.micro
  }

  // ----- their text -----

  function Digit(n: nat): char
    requires n < 10
  {
    '0' + n as char
  }

  /** The last `width` decimal digits of n. */
  function Pad(n: nat, width: nat): string {
    if width == 0 then "" else Pad(n / 10, width - 1) + [Digit(n % 10)]
  }

  /** How many numbers fit the width. */
  function Bound(width: nat): nat {
    if width == 0 then 1 else 10 * Bound(width - 1)
  }

  const UTC := "+00:00"

  /** `isoformat()` of a UTC moment: the fraction is left out when it is zero. */
  function Iso(m: Moment): string {
    Pad(m.year, 4) + ("-" + (Pad(m.month, 2) + ("-" + (Pad(m.day, 2) + ("T" + (Pad(m.hour, 2) + (":" +
    (Pad(m.minute, 2) + (":" + (Pad(m.second, 2) + Tail(m.micro)))))))))))
  }

  function Tail(micro: nat): string {
    if micro == 0 then UTC else "." + (Pad(micro, 6) + UTC)
  }

  // ----- reading it back -----

  predicate Digits(s: string) {
    forall k :: 0 <= k < |s| ==> '0' <= s[k] <= '9'
  }

  /** The number that decimal digits say. */
  function Value(s: string): nat
    requires Digits(s)
  {
    if s == "" then 0 else 10 * Value(s[..|s| - 1]) + (s[|s| - 1] as int - '0' as int)
  }

  lemma {:induction false} PadReads(n: nat, width: nat)
    requires n < Bound(width)
    ensures |Pad(n, width)| == width && Digits(Pad(n, width)) && Value(Pad(n, width)) == n
  {
    if width > 0 {
      PadReads(n / 10, width - 1);
      assert Pad(n, width)[..width - 1] == Pad(n / 10, width - 1);
    }
  }

  /** From position i the text goes on with a piece and then the rest. */
  lemma Piece(text: string, i: nat, p: string, rest: string)
    requires i <= |text| && text[i..] == p + rest
    ensures i + |p| <= |text| && text[i..i + |p|] == p && text[i + |p|..] == rest
  {
    assert text[i..][..|p|] == p && text[i..][|p|..] == rest;
  }

  /** The digits from position i on say n. */
  predicate Reads(text: string, i: nat, width: nat, n: nat) {
    i + width <= |text| && Digits(text[i..i + width]) && Value(text[i..i + width]) == n
  }

  /** A number from position i on, and the character after it. */
  lemma NumberAt(text: string, i: nat, n: nat, width: nat, c: char, rest: string)
    requires i <= |text| && n < Bound(width) && text[i..] == Pad(n, width) + ([c] + rest)
    ensures i + width + 1 <= |text| && text[i + width] == c && text[i + width + 1..] == rest
    ensures Reads(text, i, width, n)
  {
    PadReads(n, width);
    Piece(text, i, Pad(n, width), [c] + rest);
    Piece(text, i + width, [c], rest);
  }

  /** The text is that of the ISO format, and its digits say the fields of the moment. */
  lemma TextReadsBack(m: Moment)
    requires Valid(m)
    ensures var t := Iso(m);
            && |t| == (if m.micro == 0 then 25 else 32) && t[|t| - 6..] == "+00:00"
            && t[4] == '-' && t[7] == '-' && t[10] == 'T' && t[13] == ':' && t[16] == ':'
            && Reads(t, 0, 4, m.year) && Reads(t, 5, 2, m.month) && Reads(t, 8, 2, m.day)
            && Reads(t, 11, 2, m.hour) && Reads(t, 14, 2, m.minute) && Reads(t, 17, 2, m.second)
            && (m.micro != 0 ==> t[19] == '.' && Reads(t, 20, 6, m.micro))
  {
    assert Bound(4) == 10_000 && Bound(2) == 100;
    var t := Iso(m);
    var clock := Clock(m);
    var day := Pad(m.day, 2) + ("T" + clock);
    var month := Pad(m.month, 2) + ("-" + day);
    assert t[0..] == t;
    NumberAt(t, 0, m.year, 4, '-', month);
    NumberAt(t, 5, m.month, 2, '-', day);
    NumberAt(t, 8, m.day, 2, 'T', clock);
    ClockReads(t, m);
  }

  /** What the text says after the date. */
  function Clock(m: Moment): string {
    Pad(m.hour, 2) + (":" + (Pad(m.minute, 2) + (":" + (Pad(m.second, 2) + Tail(m.micro)))))
  }

  lemma ClockReads(t: string, m: Moment)
    requires Valid(m) && |t| >= 11 && t[11..] == Clock(m)
    ensures |t| == (if m.micro == 0 then 25 else 32) && t[|t| - 6..] == "+00:00" && t[13] == ':' && t[16] == ':'
    ensures Reads(t, 11, 2, m.hour) && Reads(t, 14, 2, m.minute) && Reads(t, 17, 2, m.second)
    ensures m.micro != 0 ==> t[19] == '.' && Reads(t, 20, 6, m.micro)
  {
    assert Bound(2) == 100;
    var second := Pad(m.second, 2) + Tail(m.micro);
    NumberAt(t, 11, m.hour, 2, ':', Pad(m.minute, 2) + (":" + second));
    NumberAt(t, 14, m.minute, 2, ':', second);
    PadReads(m.second, 2);
    Piece(t, 17, Pad(m.second, 2), Tail(m.micro));
    TailReads(t, m.micro);
  }

  lemma TailReads(t: string, micro: nat)
    requires |t| >= 19 && micro < 1_000_000 && t[19..] == Tail(micro)
    ensures |t| == (if micro == 0 then 25 else 32) && t[|t| - 6..] == "+00:00"
    ensures micro != 0 ==> t[19] == '.' && Reads(t, 20, 6, micro)
  {
    assert Bound(6) == 1_000_000;
    PadReads(micro, 6);
    if micro != 0 {
      Piece(t, 19, ".", Pad(micro, 6) + UTC);
      Piece(t, 20, Pad(micro, 6), UTC);
    }
  }

  /** `a < b` in SQLite's BINARY collation. */
  predicate Before(a: string, b: string) {
    b != [] && (a == [] || a[0] < b[0] || (a[0] == b[0] && Before(a[1..], b[1..])))
  }

  // ----- text order, piece by piece -----

  lemma SamePiece(p: string, a: string, b: string)
    ensures Before(p + a, p + b) <==> Before(a, b)
  {
    if p == "" {
      assert p + a == a && p + b == b;
    } else {
      assert (p + a)[1..] == p[1..] + a && (p + b)[1..] == p[1..] + b;
      SamePiece(p[1..], a, b);
    }
  }

  lemma {:induction false} NumberPiece(n: nat, m: nat, width: nat, a: string, b: string)
    requires n < Bound(width) && m < Bound(width)
    ensures Before(Pad(n, width) + a, Pad(m, width) + b) <==> n < m || (n == m && Before(a, b))
  {
    if width == 0 {
      assert Pad(n, width) + a == a && Pad(m, width) + b == b;
    } else {
      var x, y := [Digit(n % 10)], [Digit(m % 10)];
      NumberPiece(n / 10, m / 10, width - 1, x + a, y + b);
      assert Pad(n, width) + a == Pad(n / 10, width - 1) + (x + a);
      assert Pad(m, width) + b == Pad(m / 10, width - 1) + (y + b);
      assert (x + a)[1..] == a && (y + b)[1..] == b;
    }
  }

  /** A number and the separator after it. */
  lemma FieldPiece(n: nat, m: nat, width: nat, separator: string, a: string, b: string)
    requires n < Bound(width) && m < Bound(width)
    ensures Before(Pad(n, width) + (separator + a), Pad(m, width) + (separator + b)) <==>
              n < m || (n == m && Before(a, b))
  {
    NumberPiece(n, m, width, separator + a, separator + b);
    SamePiece(separator, a, b);
  }

  lemma TailPiece(n: nat, m: nat)
    requires n < 1_000_000 && m < 1_000_000
    ensures Before(Tail(n), Tail(m)) <==> n < m
  {
    assert Bound(6) == 1_000_000;
    if n != 0 && m != 0 {
      SamePiece(".", Pad(n, 6) + UTC, Pad(m, 6) + UTC);
      NumberPiece(n, m, 6, UTC, UTC);
      SamePiece(UTC, "", "");
      assert UTC + "" == UTC;
    } else if n == 0 && m == 0 {
      SamePiece(UTC, "", "");
      assert UTC + "" == UTC;
    }
  }

  // ----- the order of the fields is the order of time -----

  predicate Earlier(a: Moment, b: Moment) {
    || a.year < b.year
    || (a.year == b.year && (a.month < b.month
    || (a.month == b.month && (a.day < b.day
    || (a.day == b.day && (a.hour < b.hour
    || (a.hour == b.hour && (a.minute < b.minute
    || (a.minute == b.minute && (a.second < b.second
    || (a.second == b.second && a.micro < b.micro))))))))))) 
  }

  lemma {:induction false} MonthsGrow(y: nat, m: nat, z: nat, n: nat)
    requires 1 <= y && 1 <= m <= 12 && 1 <= z && 1 <= n <= 12
    requires y < z || (y == z && m < n)
    ensures DaysBefore(y, m) + DaysIn(y, m) <= DaysBefore(z, n)
    decreases z, n
  {
    var py, pm := if n > 1 then z else z - 1, if n > 1 then n - 1 else 12;
    assert DaysBefore(z, n) == DaysBefore(py, pm) + DaysIn(py, pm);
    if !(y == py && m == pm) {
      MonthsGrow(y, m, py, pm);
    }
  }

  lemma EarlierIsSooner(a: Moment, b: Moment)
    requires Valid(a) && Valid(b) && Earlier(a, b)
    ensures Instant(a) < Instant(b)
  {
    if a.year != b.year || a.month != b.month {
      MonthsGrow(a.year, a.month, b.year, b.month);
    }
  }

  lemma EarlierIsTime(a: Moment, b: Moment)
    requires Valid(a) && Valid(b)
    ensures Earlier(a, b) <==> Instant(a) < Instant(b)
  {
    if Earlier(a, b) {
      EarlierIsSooner(a, b);
    } else if a != b {
      EarlierIsSooner(b, a);
    }
  }

  /** For UTC moments the text comparison is exactly the comparison of time. */
  lemma TextOrderIsTimeOrder(a: Moment, b: Moment)
    requires Valid(a) && Valid(b)
    ensures Before(Iso(a), Iso(b)) <==> Instant(a) < Instant(b)
  {
    assert Bound(4) == 10_000 && Bound(2) == 100;
    var ta, tb := Tail(a.micro), Tail(b.micro);
    var sa, sb := Pad(a.second, 2) + ta, Pad(b.second, 2) + tb;
    var ma, mb := Pad(a.minute, 2) + (":" + sa), Pad(b.minute, 2) + (":" + sb);
    var ha, hb := Pad(a.hour, 2) + (":" + ma), Pad(b.hour, 2) + (":" + mb);
    var da, db := Pad(a.day, 2) + ("T" + ha), Pad(b.day, 2) + ("T" + hb);
    var oa, ob := Pad(a.month, 2) + ("-" + da), Pad(b.month, 2) + ("-" + db);
    TailPiece(a.micro, b.micro);
    NumberPiece(a.second, b.second, 2, ta, tb);
    FieldPiece(a.minute, b.minute, 2, ":", sa, sb);
    FieldPiece(a.hour, b.hour, 2, ":", ma, mb);
    FieldPiece(a.day, b.day, 2, "T", ha, hb);
    FieldPiece(a.month, b.month, 2, "-", da, db);
    FieldPiece(a.year, b.year, 4, "-", oa, ob);
    EarlierIsTime(a, b);
  }

  /** Of two texts exactly one comes first, unless they are the same; so `expires_at>?` and
      `expires_at<=?` split the rows. */
  lemma {:induction false} OneComesFirst(a: string, b: string)
    ensures Before(a, b) <==> !Before(b, a) && a != b
  {
    if a != [] && b != [] {
      OneComesFirst(a[1..], b[1..]);
      assert a == [a[0]] + a[1..] && b == [b[0]] + b[1..];
    }
  }

  /** Different moments have different texts. */
  lemma TextIsFaithful(a: Moment, b: Moment)
    requires Valid(a) && Valid(b)
    ensures Iso(a) == Iso(b) <==> Instant(a) == Instant(b)
    ensures Instant(a) == Instant(b) ==> a == b
  {
    TextOrderIsTimeOrder(a, b);
    TextOrderIsTimeOrder(b, a);
    EarlierIsTime(a, b);
    EarlierIsTime(b, a);
    OneComesFirst(Iso(a), Iso(b));
  }
}
