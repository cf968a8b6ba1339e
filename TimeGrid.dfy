/**
 * The arithmetic of the day-planner timeline: a 1440-unit-tall canvas, one unit
 * per minute, on which a click becomes a 15-minute-aligned start and a
 * one-hour default span, and on which a plan's `HH:MM` times become a vertical
 * offset and a height.
 */
module TimeGrid {
  import opened Options
  import opened JsStrings

  /** The last minute of the day, 23:59, and the lowest offset a click can reach. */
  const LastMinute: int := 1439
  /** The grid a click snaps down to, in minutes. */
  const SnapStep: int := 15
  /** The length of the draft a click creates, in minutes. */
  const DefaultSpan: int := 60
  /** How far above the current time the initial scroll position sits. */
  const ScrollLead: int := 100

  function Min(a: int, b: int): int { if a <= b then a else b }
  function Max(a: int, b: int): int { if a >= b then a else b }

  /** The click offset in minutes, clamped to the day. */
  function ClampOffset(y: int): (m: int)
    ensures 0 <= m <= LastMinute
    ensures 0 <= y <= LastMinute ==> m == y
    ensures y < 0 ==> m == 0
    ensures y > LastMinute ==> m == LastMinute
  {
    Max(0, Min(LastMinute, y))
  }

  /** `Math.floor(m / 15) * 15`: the grid line at or just below `m`. */
  function SnapDown(m: int): (s: int)
    ensures s % SnapStep == 0
    ensures s <= m < s + SnapStep
  {
    (m / SnapStep) * SnapStep
  }

  /** The snapped start, in minutes since midnight, of the draft a click at `y` creates. */
  function ClickStart(y: int): (s: int)
    ensures s % SnapStep == 0
    ensures s <= ClampOffset(y) < s + SnapStep
    ensures 0 <= s <= LastMinute - 14
    ensures 0 <= s / 60 <= 23 && s % 60 in {0, 15, 30, 45}
  {
    GridLine(ClampOffset(y) / SnapStep);
    SnapDown(ClampOffset(y))
  }

  /** The `k`-th grid line of the day, as hours and minutes. */
  lemma GridLine(k: nat)
    requires k <= 95
    ensures (k * 15) / 60 == k / 4 && (k * 15) % 60 == (k % 4) * 15
  {
  }

  /** The end of the draft: one hour after the start, but never past 23:59. */
  function ClickEnd(y: int): (e: int)
    ensures e <= LastMinute
    ensures ClickStart(y) < e
    ensures e == ClickStart(y) + DefaultSpan <==> ClickStart(y) < LastMinute + 1 - DefaultSpan
    ensures ClickStart(y) >= LastMinute + 1 - DefaultSpan ==> e == LastMinute
  {
    Min(LastMinute, ClickStart(y) + DefaultSpan)
  }

  /** The inner `formatTime`: hours and minutes, each zero-padded to two digits. */
  function FormatTime(h: nat, m: nat): string {
    PadStart(DecimalString(h), 2, '0') + ":" + PadStart(DecimalString(m), 2, '0')
  }

  /** `getPosition`: split at ':' and read `h * 60 + m`; NaN when a part is not a number. */
  function Position(time: string): Number {
    var parts := Split(time, ':');
    var m := if |parts| > 1 then ToNumber(parts[1]) else NaN;
    Add(Scale(ToNumber(parts[0]), 60), m)
  }

  /** `getHeight`: the distance between the end and the start position. */
  function Height(start: string, end: string): Number {
    Sub(Position(end), Position(start))
  }

  /** The two times, as strings, that a click at offset `y` puts into the draft. */
  function ClickTimes(y: int): (string, string) {
    var s := ClickStart(y);
    var e := ClickEnd(y);
    (FormatTime(s / 60, s % 60), FormatTime(e / 60, e % 60))
  }

  /** The offset of the current-time line: shown only when the viewed day is today. */
  function NowLine(viewingToday: bool, hours: nat, minutes: nat): (r: Option<int>)
    requires hours < 24 && minutes < 60
    ensures r.Some? <==> viewingToday
    ensures r.Some? ==> 0 <= r.value <= LastMinute
  {
    if viewingToday then Some(hours * 60 + minutes) else None
  }

  /**
   * The scroll offset after the viewed day changes: on today, 100 minutes above
   * the current time but never above the top; on another day, where it was.
   */
  function AutoScroll(viewingToday: bool, hours: nat, minutes: nat, scrollTop: int): (r: int)
    requires hours < 24 && minutes < 60
    ensures !viewingToday ==> r == scrollTop
    ensures viewingToday ==> r >= 0 && r >= hours * 60 + minutes - ScrollLead
    ensures viewingToday ==> r == 0 || r == hours * 60 + minutes - ScrollLead
    ensures viewingToday ==> r <= LastMinute - ScrollLead
  {
    if viewingToday then Max(0, hours * 60 + minutes - ScrollLead) else scrollTop
  }

  // ---------------------------------------------------------------- lemmas

  /** The current-time line sits where a plan starting at the current `HH:MM` would. */
  lemma NowLineIsPosition(hours: nat, minutes: nat)
    requires hours < 24 && minutes < 60
    ensures Position(FormatTime(hours, minutes)) == Num(NowLine(true, hours, minutes).value)
  {
    FormatPositionRoundTrip(hours, minutes);
  }

  /** Two-digit padding of a number below 100 is its tens digit and its units digit. */
  lemma Pad2(n: nat)
    requires n < 100
    ensures PadStart(DecimalString(n), 2, '0') == [Digit(n / 10), Digit(n % 10)]
  {
    if n >= 10 {
      assert DecimalString(n / 10) == [Digit(n / 10)];
    }
  }

  /** Below 100 hours and 100 minutes, `formatTime` gives five characters `HH:MM`. */
  lemma FormatTimeShape(h: nat, m: nat)
    requires h < 100 && m < 100
    ensures FormatTime(h, m) == [Digit(h / 10), Digit(h % 10), ':', Digit(m / 10), Digit(m % 10)]
    ensures |FormatTime(h, m)| == 5
  {
    Pad2(h);
    Pad2(m);
  }

  /** Reading a zero-padded decimal back with `Number` gives the number. */
  lemma PaddedValue(n: nat)
    ensures AllDigits(PadStart(DecimalString(n), 2, '0'))
    ensures ToNumber(PadStart(DecimalString(n), 2, '0')) == Num(n)
  {
    var d := DecimalString(n);
    var p := PadStart(d, 2, '0');
    DecimalStringValue(n);
    if |d| < 2 {
      LeadingZerosValue(2 - |d|, d);
    }
    ToNumberDigits(p);
  }

  /** `getPosition(formatTime(h, m)) == h * 60 + m`, for every hour and minute count. */
  lemma FormatPositionRoundTrip(h: nat, m: nat)
    ensures Position(FormatTime(h, m)) == Num(h * 60 + m)
  {
    var ph := PadStart(DecimalString(h), 2, '0');
    var pm := PadStart(DecimalString(m), 2, '0');
    var t := FormatTime(h, m);
    PaddedValue(h);
    PaddedValue(m);
    assert ':' !in ph && ':' !in pm by {
      assert !IsDigit(':');
    }
    assert t == ph + [':'] + pm;
    SplitFirst(ph, ':', pm);
    SplitNone(pm, ':');
    var parts := Split(t, ':');
    assert parts == [ph, pm];
    assert Position(t) == Add(Scale(ToNumber(ph), 60), ToNumber(pm));
  }

  /** JavaScript's `<` on five-character strings with the same middle character. */
  lemma StrLess5(a: string, b: string)
    requires |a| == 5 && |b| == 5 && a[2] == b[2]
    ensures StrLess(a, b) <==>
      a[0] < b[0] || (a[0] == b[0] && (a[1] < b[1] || (a[1] == b[1] &&
        (a[3] < b[3] || (a[3] == b[3] && a[4] < b[4])))))
  {
    var a1, b1 := a[1..], b[1..];
    var a2, b2 := a1[1..], b1[1..];
    var a3, b3 := a2[1..], b2[1..];
    var a4, b4 := a3[1..], b3[1..];
    var a5, b5 := a4[1..], b4[1..];
    assert a5 == [] && b5 == [];
    assert StrLess(a, b) == (a[0] < b[0] || (a[0] == b[0] && StrLess(a1, b1)));
    assert StrLess(a1, b1) == (a[1] < b[1] || (a[1] == b[1] && StrLess(a2, b2)));
    assert StrLess(a2, b2) == StrLess(a3, b3);
    assert StrLess(a3, b3) == (a[3] < b[3] || (a[3] == b[3] && StrLess(a4, b4)));
    assert StrLess(a4, b4) == (a[4] < b[4]);
  }

  lemma TwoDigitOrder(x: nat, y: nat)
    requires x < 100 && y < 100
    ensures (x / 10 < y / 10 || (x / 10 == y / 10 && x % 10 < y % 10)) <==> x < y
    ensures (x / 10 == y / 10 && x % 10 == y % 10) <==> x == y
  {
  }

  /**
   * For zero-padded `HH:MM` strings, the source's string comparison agrees
   * with the order of the minute counts.
   */
  lemma FormatOrder(h1: nat, m1: nat, h2: nat, m2: nat)
    requires h1 < 100 && h2 < 100 && m1 < 60 && m2 < 60
    ensures StrLess(FormatTime(h1, m1), FormatTime(h2, m2)) <==> h1 * 60 + m1 < h2 * 60 + m2
  {
    FormatTimeShape(h1, m1);
    FormatTimeShape(h2, m2);
    StrLess5(FormatTime(h1, m1), FormatTime(h2, m2));
    TwoDigitOrder(h1, h2);
    TwoDigitOrder(m1, m2);
  }

  /** The height of a block whose formatted start is not after its end is non-negative. */
  lemma HeightOfFormatted(h1: nat, m1: nat, h2: nat, m2: nat)
    ensures Height(FormatTime(h1, m1), FormatTime(h2, m2)) == Num((h2 * 60 + m2) - (h1 * 60 + m1))
    ensures h1 * 60 + m1 <= h2 * 60 + m2 ==> Height(FormatTime(h1, m1), FormatTime(h2, m2)).value >= 0
  {
    FormatPositionRoundTrip(h1, m1);
    FormatPositionRoundTrip(h2, m2);
  }

  /** A click lands on the grid: the start string and its position agree with the snap. */
  lemma ClickTimesPositions(y: int)
    ensures Position(ClickTimes(y).0) == Num(ClickStart(y))
    ensures Position(ClickTimes(y).1) == Num(ClickEnd(y))
    ensures Height(ClickTimes(y).0, ClickTimes(y).1) == Num(ClickEnd(y) - ClickStart(y))
    ensures 0 < ClickEnd(y) - ClickStart(y) <= DefaultSpan
  {
    var s, e := ClickStart(y), ClickEnd(y);
    assert ClickTimes(y) == (FormatTime(s / 60, s % 60), FormatTime(e / 60, e % 60));
    MinutesPosition(s);
    MinutesPosition(e);
  }

  /** Formatting a minute count as hours and minutes and reading it back gives the count. */
  lemma MinutesPosition(t: nat)
    ensures Position(FormatTime(t / 60, t % 60)) == Num(t)
  {
    var h, m := t / 60, t % 60;
    HoursAndMinutes(t);
    FormatPositionRoundTrip(h, m);
  }

  lemma HoursAndMinutes(t: nat)
    ensures (t / 60) * 60 + t % 60 == t
  {
  }

  /** A draft created by a click always passes the source's `startTime < endTime` check. */
  lemma ClickTimesOrdered(y: int)
    ensures StrLess(ClickTimes(y).0, ClickTimes(y).1)
    ensures |ClickTimes(y).0| == 5 && |ClickTimes(y).1| == 5
  {
    var s, e := ClickStart(y), ClickEnd(y);
    FormatOrder(s / 60, s % 60, e / 60, e % 60);
    FormatTimeShape(s / 60, s % 60);
    FormatTimeShape(e / 60, e % 60);
  }

  /** Clicks above the canvas act like a click at its top, clicks below like one at 23:59. */
  lemma ClickClamping(y: int)
    ensures y < 0 ==> ClickTimes(y) == ClickTimes(0) == ("00:00", "01:00")
    ensures y > LastMinute ==> ClickTimes(y) == ClickTimes(LastMinute) == ("23:45", "23:59")
  {
    FormatTimeShape(0, 0);
    FormatTimeShape(1, 0);
    FormatTimeShape(23, 45);
    FormatTimeShape(23, 59);
  }

  /** On the grid, snapping changes nothing; and a click at 125 creates 02:00 to 03:00. */
  lemma ClickExamples(m: int)
    requires 0 <= m <= LastMinute
    ensures ClickStart(m) == (m / SnapStep) * SnapStep
    ensures m % SnapStep == 0 ==> ClickStart(m) == m
    ensures ClickTimes(125) == ("02:00", "03:00")
  {
    FormatTimeShape(2, 0);
    FormatTimeShape(3, 0);
  }
}
