/** Local date and time as the `Date` getters return them, and the
    zero-padded `YYYY-MM-DD` string both diary and report code build from
    them. */
module Dates {
  import opened JsText

  /** `getFullYear()`, `getMonth()` (0-based), `getDate()`, `getHours()`,
      `getMinutes()`, `getSeconds()`, `getMilliseconds()`. */
  datatype Clock = Clock(year: nat, monthIndex: nat, day: nat,
                         hours: nat, minutes: nat, seconds: nat, millis: nat)

  /** The ranges the `Date` getters return, with a four-digit year. */
  predicate ValidClock(c: Clock) {
    && 1000 <= c.year <= 9999 && c.monthIndex < 12 && 1 <= c.day <= 31
    && c.hours < 24 && c.minutes < 60 && c.seconds < 60 && c.millis < 1000
  }

  /** `${year}-${month}-${day}` with the 1-based month and the day each
      padded to two digits. */
  function FormatDate(c: Clock): string {
    NatToString(c.year) + "-" + ZeroPad(c.monthIndex + 1, 2) + "-" + ZeroPad(c.day, 2)
  }

  /** Shape of a `YYYY-MM-DD` string. */
  predicate IsIsoDate(s: string) {
    && |s| == 10 && s[4] == '-' && s[7] == '-'
    && AllDigits(s[..4]) && AllDigits(s[5..7]) && AllDigits(s[8..])
  }

  /** The year, 1-based month and day written in a `YYYY-MM-DD` string. */
  function ParseIsoDate(s: string): (nat, nat, nat)
    requires IsIsoDate(s)
  {
    (DigitsValue(s[..4]), DigitsValue(s[5..7]), DigitsValue(s[8..]))
  }

  /** The stored date is always `YYYY-MM-DD`, and it reads back as the
      clock's year, 1-based month and day. */
  lemma FormatDateRoundTrip(c: Clock)
    requires ValidClock(c)
    ensures IsIsoDate(FormatDate(c))
    ensures ParseIsoDate(FormatDate(c)) == (c.year, c.monthIndex + 1, c.day)
  {
    var y, m, d := NatToString(c.year), ZeroPad(c.monthIndex + 1, 2), ZeroPad(c.day, 2);
    var s := FormatDate(c);
    assert s == y + "-" + m + "-" + d;
    assert s[..4] == y && s[5..7] == m && s[8..] == d;
    NatToStringRoundTrip(c.year);
    ZeroPadValue(c.monthIndex + 1, 2);
    ZeroPadValue(c.day, 2);
  }

  /** Two clocks give the same date string exactly when they fall on the
      same calendar day. */
  lemma FormatDateSameDay(c1: Clock, c2: Clock)
    requires ValidClock(c1) && ValidClock(c2)
    ensures FormatDate(c1) == FormatDate(c2) <==>
            (c1.year, c1.monthIndex, c1.day) == (c2.year, c2.monthIndex, c2.day)
  {
    FormatDateRoundTrip(c1);
    FormatDateRoundTrip(c2);
  }

  /** A formatted date holds only digits and dashes, so no `.` occurs in it. */
  lemma FormatDateHasNoDot(c: Clock)
    requires ValidClock(c)
    ensures forall i :: 0 <= i < |FormatDate(c)| ==> IsDigit(FormatDate(c)[i]) || FormatDate(c)[i] == '-'
  {
    FormatDateRoundTrip(c);
    var s := FormatDate(c);
    forall i | 0 <= i < |s|
      ensures IsDigit(s[i]) || s[i] == '-'
    {
      if i < 4 { assert s[i] == s[..4][i]; }
      else if 5 <= i < 7 { assert s[i] == s[5..7][i - 5]; }
      else if 8 <= i { assert s[i] == s[8..][i - 8]; }
    }
  }

  /** Comparing equal-length blocks first. */
  lemma {:induction false} LexLeBlocks(x: string, y: string, x': string, y': string)
    requires |x| == |x'|
    ensures LexLe(x + y, x' + y') <==> (x == x' && LexLe(y, y')) || (x != x' && LexLe(x, x'))
    decreases |x|
  {
    if x == [] {
      assert x + y == y && x' + y' == y';
    } else {
      assert (x + y)[0] == x[0] && (x' + y')[0] == x'[0];
      assert (x + y)[1..] == x[1..] + y && (x' + y')[1..] == x'[1..] + y';
      LexLeBlocks(x[1..], y, x'[1..], y');
      if x[0] == x'[0] {
        assert x == x' <==> x[1..] == x'[1..];
      }
    }
  }

  lemma {:induction false} DigitsValueInjective(a: string, b: string)
    requires AllDigits(a) && AllDigits(b) && |a| == |b|
    requires DigitsValue(a) == DigitsValue(b)
    ensures a == b
    decreases |a|
  {
    if a != [] {
      var n := |a| - 1;
      assert DigitValue(a[n]) == DigitsValue(a) % 10 && DigitValue(b[n]) == DigitsValue(b) % 10;
      DigitsValueInjective(a[..n], b[..n]);
      assert a == a[..n] + [a[n]] && b == b[..n] + [b[n]];
    }
  }

  /** On digit strings of one length, code-unit order is numeric order. */
  lemma {:induction false} LexLeDigits(a: string, b: string)
    requires AllDigits(a) && AllDigits(b) && |a| == |b|
    ensures LexLe(a, b) <==> DigitsValue(a) <= DigitsValue(b)
    decreases |a|
  {
    if a != [] {
      var n := |a| - 1;
      var a', b' := a[..n], b[..n];
      assert a == a' + [a[n]] && b == b' + [b[n]];
      LexLeBlocks(a', [a[n]], b', [b[n]]);
      LexLeDigits(a', b');
      if a' != b' {
        if DigitsValue(a') == DigitsValue(b') {
          DigitsValueInjective(a', b');
        }
      }
    }
  }

  /** A block of digits decides the order unless it is equal on both
      sides, in which case what follows decides. */
  lemma DigitBlockOrder(x: string, y: string, x': string, y': string)
    requires AllDigits(x) && AllDigits(x') && |x| == |x'|
    ensures LexLe(x + y, x' + y') <==>
            DigitsValue(x) < DigitsValue(x') || (DigitsValue(x) == DigitsValue(x') && LexLe(y, y'))
  {
    LexLeBlocks(x, y, x', y');
    LexLeDigits(x, x');
    if DigitsValue(x) == DigitsValue(x') {
      DigitsValueInjective(x, x');
    }
  }

  /** A common dash in front does not change the order. */
  lemma DashOrder(y: string, y': string)
    ensures LexLe("-" + y, "-" + y') <==> LexLe(y, y')
  {
    LexLeBlocks("-", y, "-", y');
  }

  /** Code-unit order on `YYYY-MM-DD` strings is the order of the
      (year, month, day) triples they denote. */
  lemma IsoDateOrder(s1: string, s2: string)
    requires IsIsoDate(s1) && IsIsoDate(s2)
    ensures LexLe(s1, s2) <==>
            var (y1, m1, d1) := ParseIsoDate(s1);
            var (y2, m2, d2) := ParseIsoDate(s2);
            y1 < y2 || (y1 == y2 && (m1 < m2 || (m1 == m2 && d1 <= d2)))
  {
    assert s1 == s1[..4] + ("-" + (s1[5..7] + ("-" + s1[8..])));
    assert s2 == s2[..4] + ("-" + (s2[5..7] + ("-" + s2[8..])));
    DigitBlockOrder(s1[..4], "-" + (s1[5..7] + ("-" + s1[8..])), s2[..4], "-" + (s2[5..7] + ("-" + s2[8..])));
    DashOrder(s1[5..7] + ("-" + s1[8..]), s2[5..7] + ("-" + s2[8..]));
    DigitBlockOrder(s1[5..7], "-" + s1[8..], s2[5..7], "-" + s2[8..]);
    DashOrder(s1[8..], s2[8..]);
    LexLeDigits(s1[8..], s2[8..]);
  }

  /** Sorting `YYYY-MM-DD` strings in code-unit order sorts them by day:
      the descending sort of the listings puts the most recent day first. */
  lemma FormatDateChronological(c1: Clock, c2: Clock)
    requires ValidClock(c1) && ValidClock(c2)
    ensures LexLe(FormatDate(c1), FormatDate(c2)) <==>
            c1.year < c2.year
            || (c1.year == c2.year && c1.monthIndex < c2.monthIndex)
            || (c1.year == c2.year && c1.monthIndex == c2.monthIndex && c1.day <= c2.day)
  {
    FormatDateRoundTrip(c1);
    FormatDateRoundTrip(c2);
    IsoDateOrder(FormatDate(c1), FormatDate(c2));
  }
}
