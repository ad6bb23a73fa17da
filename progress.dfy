/**
 * The frame-progress logging of the render stage: `onStart` prints one
 * line and `onFrameUpdate(f)` prints "Rendered frame f" only for every
 * tenth frame.
 */
module Progress {
  import opened Results

  /** The callbacks the foreign frame renderer makes, in the order it makes them. */
  datatype RenderEvent = Started | FrameUpdate(frame: nat)

  const StartLine: string := "Rendering frames..."
  const FramePrefix: string := "Rendered frame "

  /** A decimal digit. */
  function Digit(d: nat): char
    requires d < 10
  {
    "0123456789"[d]
  }

  /** A whole number as a template literal prints it. */
  function Decimal(n: nat): (s: string)
    ensures |s| > 0
    decreases n
  {
    if n < 10 then [Digit(n)] else Decimal(n / 10) + [Digit(n % 10)]
  }

  function DigitValue(c: char): Option<nat>
  {
    if '0' <= c <= '9' then Some(c as int - '0' as int) else None
  }

  /** Reads a string of decimal digits. */
  function ParseDecimal(s: string): Option<nat>
    decreases |s|
  {
    if |s| == 0 then None
    else
      match DigitValue(s[|s| - 1])
      case None => None
      case Some(d) =>
        if |s| == 1 then Some(d)
        else
          match ParseDecimal(s[..|s| - 1])
          case None => None
          case Some(m) => Some(m * 10 + d)
  }

  lemma {:induction false} DecimalRoundTrip(n: nat)
    ensures ParseDecimal(Decimal(n)) == Some(n)
    decreases n
  {
    if n >= 10 {
      DecimalRoundTrip(n / 10);
      var s := Decimal(n);
      assert s[..|s| - 1] == Decimal(n / 10);
      assert DigitValue(s[|s| - 1]) == Some(n % 10);
    }
  }

  /** What the `onFrameUpdate` callback prints for frame `f`. */
  function OnFrameUpdate(f: nat): (lines: seq<string>)
    ensures |lines| <= 1
    ensures |lines| == 1 <==> f % 10 == 0
  {
    if f % 10 == 0 then [FramePrefix + Decimal(f)] else []
  }

  /** Everything the render callbacks print, in order. */
  function ProgressLog(events: seq<RenderEvent>): seq<string>
  {
    if |events| == 0 then []
    else
      (match events[0]
       case Started => [StartLine]
       case FrameUpdate(f) => OnFrameUpdate(f))
      + ProgressLog(events[1..])
  }

  lemma PrefixedLinesDetermineFrame(f: nat, g: nat)
    ensures FramePrefix + Decimal(f) == FramePrefix + Decimal(g) <==> f == g
  {
    if FramePrefix + Decimal(f) == FramePrefix + Decimal(g) {
      assert Decimal(f) == (FramePrefix + Decimal(f))[|FramePrefix|..];
      assert Decimal(g) == (FramePrefix + Decimal(g))[|FramePrefix|..];
      DecimalRoundTrip(f);
      DecimalRoundTrip(g);
    }
  }

  /** The log names frame `f` exactly when the renderer reported `f` and `f` is a multiple of 10. */
  lemma {:induction false} FrameLoggedIff(events: seq<RenderEvent>, f: nat)
    ensures FramePrefix + Decimal(f) in ProgressLog(events) <==> FrameUpdate(f) in events && f % 10 == 0
    decreases |events|
  {
    if |events| > 0 {
      FrameLoggedIff(events[1..], f);
      var line := FramePrefix + Decimal(f);
      assert events == [events[0]] + events[1..];
      match events[0]
      case Started =>
        assert StartLine[6] != line[6];
      case FrameUpdate(g) =>
        PrefixedLinesDetermineFrame(f, g);
    }
  }

  /** The start line and frame lines are all the renderer callbacks print. */
  lemma {:induction false} ProgressLogLines(events: seq<RenderEvent>)
    ensures forall line <- ProgressLog(events) ::
      line == StartLine || exists f: nat :: f % 10 == 0 && FrameUpdate(f) in events && line == FramePrefix + Decimal(f)
    decreases |events|
  {
    if |events| > 0 {
      ProgressLogLines(events[1..]);
      assert events == [events[0]] + events[1..];
    }
  }
}
