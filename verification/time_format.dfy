/**
 * `TimeFormatter` of new_bot/plugins/regix.py: a millisecond count shown as
 * "1d, 2h, 3m, 4s, 5ms", leaving out the zero parts.
 */
module TimeFormat {
  import opened Common

  /** The days, hours, minutes, seconds and milliseconds of a duration. */
  datatype Span = Span(days: int, hours: int, minutes: int, seconds: int, millis: int)

  /** The value a span stands for, in milliseconds. */
  function Millis(p: Span): int
  {
    (((p.days * 24 + p.hours) * 60 + p.minutes) * 60 + p.seconds) * 1000 + p.millis
  }

  predicate InRange(p: Span)
  {
    0 <= p.hours < 24 && 0 <= p.minutes < 60 && 0 <= p.seconds < 60 && 0 <= p.millis < 1000
  }

  /**
   * The chain of `divmod` calls. Python's `divmod` rounds the quotient down,
   * which is what Dafny's `/` and `%` do for a positive divisor, so negative
   * counts come out as Python computes them too.
   */
  function SpanOf(ms: int): (p: Span)
    ensures InRange(p)
    ensures Millis(p) == ms
    ensures ms >= 0 ==> p.days >= 0
  {
    var seconds, millis := ms / 1000, ms % 1000;
    var minutes, secs := seconds / 60, seconds % 60;
    var hours, mins := minutes / 60, minutes % 60;
    Span(hours / 24, hours % 24, mins, secs, millis)
  }

  lemma MulAtLeast(k: int, d: int)
    requires k >= 1 && d > 0
    ensures k * d >= d
  {
    assert k * d == d + (k - 1) * d;
  }

  lemma DivModUnique(a: int, d: int, q: int, r: int)
    requires d > 0 && 0 <= r < d && a == q * d + r
    ensures q == a / d && r == a % d
  {
    var q', r' := a / d, a % d;
    assert a == q' * d + r';
    if q < q' {
      assert (q' - q) * d == q' * d - q * d;
      MulAtLeast(q' - q, d);
    } else if q > q' {
      assert (q - q') * d == q * d - q' * d;
      MulAtLeast(q - q', d);
    }
  }

  /** The divmod chain is the only in-range way to write a count as a span. */
  lemma SpanOfUnique(ms: int, p: Span)
    requires InRange(p) && Millis(p) == ms
    ensures p == SpanOf(ms)
  {
    var totalSeconds := ((p.days * 24 + p.hours) * 60 + p.minutes) * 60 + p.seconds;
    DivModUnique(ms, 1000, totalSeconds, p.millis);
    var totalMinutes := (p.days * 24 + p.hours) * 60 + p.minutes;
    DivModUnique(totalSeconds, 60, totalMinutes, p.seconds);
    var totalHours := p.days * 24 + p.hours;
    DivModUnique(totalMinutes, 60, totalHours, p.minutes);
    DivModUnique(totalHours, 24, p.days, p.hours);
  }

  /** One `(str(x) + unit + ", ") if x else ""` term of the source. */
  function Piece(v: int, unit: string): string
  {
    if v != 0 then IntToString(v) + unit + ", " else ""
  }

  /** `TimeFormatter(milliseconds)`: the terms concatenated, minus the last ", ". */
  function TimeFormatter(ms: int): string
  {
    var p := SpanOf(ms);
    var tmp := Piece(p.days, "d") + Piece(p.hours, "h") + Piece(p.minutes, "m")
      + Piece(p.seconds, "s") + Piece(p.millis, "ms");
    if |tmp| >= 2 then tmp[..|tmp| - 2] else ""
  }

  // ---------------------------------------------------------------------
  // Reference reading: the labelled non-zero parts joined by ", "
  // ---------------------------------------------------------------------

  function Labelled(v: int, unit: string): seq<string>
  {
    if v != 0 then [IntToString(v) + unit] else []
  }

  /** The non-zero parts in the order days, hours, minutes, seconds, milliseconds. */
  function Parts(p: Span): seq<string>
  {
    Labelled(p.days, "d") + Labelled(p.hours, "h") + Labelled(p.minutes, "m")
    + Labelled(p.seconds, "s") + Labelled(p.millis, "ms")
  }

  function JoinComma(parts: seq<string>): string
  {
    if |parts| == 0 then ""
    else if |parts| == 1 then parts[0]
    else parts[0] + ", " + JoinComma(parts[1..])
  }

  /** Every part followed by ", ". */
  function Terminated(parts: seq<string>): string
  {
    if |parts| == 0 then "" else parts[0] + ", " + Terminated(parts[1..])
  }

  lemma {:induction false} TerminatedAppend(a: seq<string>, b: seq<string>)
    ensures Terminated(a + b) == Terminated(a) + Terminated(b)
    decreases |a|
  {
    if |a| > 0 {
      assert (a + b)[1..] == a[1..] + b;
      TerminatedAppend(a[1..], b);
    } else {
      assert a + b == b;
    }
  }

  lemma {:induction false} TerminatedIsJoinComma(parts: seq<string>)
    requires |parts| >= 1
    ensures Terminated(parts) == JoinComma(parts) + ", "
    decreases |parts|
  {
    if |parts| > 1 {
      TerminatedIsJoinComma(parts[1..]);
    }
  }

  lemma PartsNonEmpty(p: Span)
    ensures forall i :: 0 <= i < |Parts(p)| ==> |Parts(p)[i]| >= 1
  {
  }

  lemma {:induction false} JoinCommaEmpty(parts: seq<string>)
    requires forall i :: 0 <= i < |parts| ==> |parts[i]| >= 1
    ensures JoinComma(parts) == "" <==> parts == []
  {
    if |parts| >= 1 {
      assert |parts[0]| >= 1;
    }
  }

  /**
   * What the function means: the non-zero parts of the span, each as the
   * integer and its unit, in the order days, hours, minutes, seconds,
   * milliseconds, joined by ", ".
   */
  lemma TimeFormatterListsParts(ms: int)
    ensures TimeFormatter(ms) == JoinComma(Parts(SpanOf(ms)))
  {
    var p := SpanOf(ms);
    var ds, hs, ms', ss, mss := Labelled(p.days, "d"), Labelled(p.hours, "h"),
      Labelled(p.minutes, "m"), Labelled(p.seconds, "s"), Labelled(p.millis, "ms");
    assert Terminated(ds) == Piece(p.days, "d");
    assert Terminated(hs) == Piece(p.hours, "h");
    assert Terminated(ms') == Piece(p.minutes, "m");
    assert Terminated(ss) == Piece(p.seconds, "s");
    assert Terminated(mss) == Piece(p.millis, "ms");
    TerminatedAppend(ds, hs);
    TerminatedAppend(ds + hs, ms');
    TerminatedAppend(ds + hs + ms', ss);
    TerminatedAppend(ds + hs + ms' + ss, mss);
    var tmp := Terminated(Parts(p));
    if |Parts(p)| >= 1 {
      TerminatedIsJoinComma(Parts(p));
      assert tmp[..|tmp| - 2] == JoinComma(Parts(p));
    }
  }

  /** The result is empty exactly for a zero count. */
  lemma TimeFormatterEmptyIff(ms: int)
    ensures TimeFormatter(ms) == "" <==> ms == 0
  {
    TimeFormatterListsParts(ms);
    var p := SpanOf(ms);
    PartsNonEmpty(p);
    JoinCommaEmpty(Parts(p));
    if ms == 0 {
      assert p == Span(0, 0, 0, 0, 0);
    }
    if Parts(p) == [] {
      assert p.days == 0 && p.hours == 0 && p.minutes == 0 && p.seconds == 0 && p.millis == 0;
      assert Millis(p) == 0;
    }
  }
}
