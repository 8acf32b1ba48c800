/**
 * Duration arithmetic of the stopwatch display (`hh:mm:ss`) and of the session log
 * (`mm:ss`), and the session log's view of the last five sessions, newest first.
 *
 * `Math.floor(x / y)` with a positive integer `y` is Dafny's `x / y` (both round toward
 * negative infinity); JavaScript's `%` truncates toward zero, so it is `JsRem`.
 */
module Duration {
  import opened Wrappers
  import opened Text
  import opened Data

  /** JavaScript's `a % b` for a positive divisor: the sign follows `a`. */
  function JsRem(a: int, b: int): (r: int)
    requires b > 0
    ensures a >= 0 ==> 0 <= r < b && r == a % b
    ensures a < 0 ==> -b < r <= 0
  {
    if a >= 0 then a % b else -((-a) % b)
  }

  /** Hours, minutes and seconds of the stopwatch display for `ms` milliseconds
      (app.js `updateDisplay`).  For non-negative durations they are the usual
      decomposition of the whole seconds. */
  function ClockFields(ms: int): (f: (int, int, int))
    ensures ms >= 0 ==> f.0 >= 0 && 0 <= f.1 < 60 && 0 <= f.2 < 60
    ensures ms >= 0 ==> f.0 * 3600 + f.1 * 60 + f.2 == ms / 1000
  {
    var totalSeconds := ms / 1000;
    HoursMinutesSeconds(totalSeconds);
    (totalSeconds / 3600, JsRem(totalSeconds, 3600) / 60, JsRem(totalSeconds, 60))
  }

  /** Hours, the minutes left over, and the seconds left over add back up to `t`. */
  lemma HoursMinutesSeconds(t: int)
    ensures 0 <= (t % 3600) / 60 < 60
    ensures (t / 3600) * 3600 + ((t % 3600) / 60) * 60 + t % 60 == t
  {
    var h, r := t / 3600, t % 3600;
    assert t == h * 3600 + r;
    var m, s := r / 60, r % 60;
    assert r == m * 60 + s;
    assert t == (h * 60 + m) * 60 + s;
    assert t % 60 == s;
  }

  /** The stopwatch display text. */
  function FormatClock(ms: int): string
  {
    var (h, m, s) := ClockFields(ms);
    PadTwo(Decimal(h)) + ":" + PadTwo(Decimal(m)) + ":" + PadTwo(Decimal(s))
  }

  /** Minutes and seconds of a session log entry (app.js `renderAll`); the minutes are
      not capped at 60. */
  function LogFields(ms: int): (f: (int, int))
    ensures ms >= 0 ==> f.0 >= 0 && 0 <= f.1 < 60 && f.0 * 60 + f.1 == ms / 1000
  {
    var duration := ms / 1000;
    (duration / 60, JsRem(duration, 60))
  }

  /** The duration text of a session log entry. */
  function FormatLogDuration(ms: int): string
  {
    var (m, s) := LogFields(ms);
    PadTwo(Decimal(m)) + ":" + PadTwo(Decimal(s))
  }

  /** One line of the session log. */
  function LogLine(s: Session): string
  {
    s.name + ": " + FormatLogDuration(s.durationMs)
  }

  /** Reads a `h:m:s` text back as a number of seconds. */
  function ParseClock(t: string): Option<int>
  {
    var parts := Split(t, ':');
    if |parts| != 3 then None
    else match (ParseNat(parts[0]), ParseNat(parts[1]), ParseNat(parts[2]))
      case (Some(h), Some(m), Some(s)) => if m < 60 && s < 60 then Some(h * 3600 + m * 60 + s) else None
      case _ => None
  }

  /** Reads a `m:s` text back as a number of seconds. */
  function ParseLogDuration(t: string): Option<int>
  {
    var parts := Split(t, ':');
    if |parts| != 2 then None
    else match (ParseNat(parts[0]), ParseNat(parts[1]))
      case (Some(m), Some(s)) => if s < 60 then Some(m * 60 + s) else None
      case _ => None
  }

  lemma NoColonInPadded(n: nat)
    ensures NoSeparator(PadTwo(Decimal(n)), ':')
  {
    PaddedDecimalIsDigits(n);
  }

  lemma SplitThree(a: string, b: string, c: string)
    requires NoSeparator(a, ':') && NoSeparator(b, ':') && NoSeparator(c, ':')
    ensures Split(a + ":" + b + ":" + c, ':') == [a, b, c]
  {
    SplitNoSeparator(c, ':');
    SplitAfterField(b, ':', c);
    SplitAfterField(a, ':', b + ":" + c);
    assert a + ":" + b + ":" + c == a + [':'] + (b + [':'] + c);
  }

  /** The stopwatch display shows exactly the elapsed whole seconds. */
  lemma ClockRoundTrip(ms: int)
    requires ms >= 0
    ensures ParseClock(FormatClock(ms)) == Some(ms / 1000)
  {
    var f := ClockFields(ms);
    var a, b, c := PadTwo(Decimal(f.0)), PadTwo(Decimal(f.1)), PadTwo(Decimal(f.2));
    NoColonInPadded(f.0);
    NoColonInPadded(f.1);
    NoColonInPadded(f.2);
    SplitThree(a, b, c);
    ParsePaddedDecimal(f.0);
    ParsePaddedDecimal(f.1);
    ParsePaddedDecimal(f.2);
    assert FormatClock(ms) == a + ":" + b + ":" + c;
  }

  /** Up to 99 hours the display has the fixed shape `hh:mm:ss`. */
  lemma ClockWidth(ms: int)
    requires 0 <= ms < 100 * 3600 * 1000
    ensures |FormatClock(ms)| == 8
  {
  }

  /** A session log entry shows exactly the session's whole seconds. */
  lemma LogRoundTrip(ms: int)
    requires ms >= 0
    ensures ParseLogDuration(FormatLogDuration(ms)) == Some(ms / 1000)
  {
    var f := LogFields(ms);
    var a, b := PadTwo(Decimal(f.0)), PadTwo(Decimal(f.1));
    NoColonInPadded(f.0);
    NoColonInPadded(f.1);
    SplitNoSeparator(b, ':');
    SplitAfterField(a, ':', b);
    assert FormatLogDuration(ms) == a + [':'] + b;
    ParsePaddedDecimal(f.0);
    ParsePaddedDecimal(f.1);
  }

  function Reverse<T>(s: seq<T>): (r: seq<T>)
    ensures |r| == |s| && forall i :: 0 <= i < |s| ==> r[i] == s[|s| - 1 - i]
  {
    if s == [] then [] else Reverse(s[1..]) + [s[0]]
  }

  /** `sessions.slice(-5).reverse()`: the last five sessions (all of them when there are
      fewer), newest first. */
  function RecentSessions(sessions: seq<Session>): (r: seq<Session>)
    ensures |r| == if |sessions| < 5 then |sessions| else 5
    ensures forall i :: 0 <= i < |r| ==> r[i] == sessions[|sessions| - 1 - i]
  {
    var n := if |sessions| < 5 then |sessions| else 5;
    Reverse(sessions[|sessions| - n..])
  }

  /** The lines of the session log. */
  function SessionLog(sessions: seq<Session>): (lines: seq<string>)
    ensures |lines| == if |sessions| < 5 then |sessions| else 5
    ensures forall i :: 0 <= i < |lines| ==> lines[i] == LogLine(sessions[|sessions| - 1 - i])
  {
    var recent := RecentSessions(sessions);
    seq(|recent|, i requires 0 <= i < |recent| => LogLine(recent[i]))
  }
}
