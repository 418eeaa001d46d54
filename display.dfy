// Text formatting and placement for the OLED: the integer-to-text helpers
// behind the shot clock, match timer and shootout stopwatch, the region
// lookup, and the arithmetic that aligns a string inside a region. Pixels are
// not modelled; a drawing call is reduced to the rectangle or position it
// would be given.

module Display {
  import opened Wrappers

  // -----------------------------------------------------------------------
  // Decimal text
  // -----------------------------------------------------------------------

  predicate IsDigit(c: char)
  {
    '0' <= c <= '9'
  }

  predicate AllDigits(s: string)
  {
    forall i :: 0 <= i < |s| ==> IsDigit(s[i])
  }

  function DigitChar(d: int): (c: char)
    requires 0 <= d < 10
    ensures IsDigit(c) && c as int - '0' as int == d
  {
    ('0' as int + d) as char
  }

  /** The value of a string of decimal digits (the empty string reads as 0). */
  function DecimalValue(s: string): (v: nat)
    requires AllDigits(s)
    decreases |s|
  {
    if |s| == 0 then 0
    else DecimalValue(s[..|s| - 1]) * 10 + (s[|s| - 1] as int - '0' as int)
  }

  /** The decimal digits of `n`, most significant first: Python's `str` of a non-negative int. */
  function Digits(n: nat): (s: string)
    ensures 1 <= |s| && AllDigits(s)
    ensures s[0] == '0' ==> n == 0
    ensures n < 10 <==> |s| == 1
    ensures 10 <= n < 100 ==> |s| == 2
    decreases n
  {
    if n < 10 then [DigitChar(n)] else Digits(n / 10) + [DigitChar(n % 10)]
  }

  /** Reading the digits back gives the number. */
  lemma {:induction false} DigitsRoundTrip(n: nat)
    ensures DecimalValue(Digits(n)) == n
    decreases n
  {
    if n >= 10 {
      var s := Digits(n);
      assert s[..|s| - 1] == Digits(n / 10);
      DigitsRoundTrip(n / 10);
    }
  }

  /** A leading zero does not change the value read. */
  lemma {:induction false} LeadingZero(s: string)
    requires AllDigits(s)
    ensures AllDigits("0" + s) && DecimalValue("0" + s) == DecimalValue(s)
    decreases |s|
  {
    if |s| > 0 {
      var z := "0" + s;
      assert z[..|z| - 1] == "0" + s[..|s| - 1];
      LeadingZero(s[..|s| - 1]);
    }
  }

  /** Python's `str` of an int. */
  function IntToString(n: int): (s: string)
    ensures 1 <= |s|
    ensures n < 0 <==> s[0] == '-'
  {
    if n < 0 then "-" + Digits(-n) else Digits(n)
  }

  /** Reads an optional minus sign followed by digits. */
  function ParseInt(s: string): (v: Option<int>)
    ensures v.Some? ==> 1 <= |s|
  {
    if |s| > 0 && s[0] == '-' then
      if 1 < |s| && AllDigits(s[1..]) then Some(0 - (DecimalValue(s[1..]) as int)) else None
    else if 0 < |s| && AllDigits(s) then Some(DecimalValue(s))
    else None
  }

  lemma IntToStringRoundTrip(n: int)
    ensures ParseInt(IntToString(n)) == Some(n)
  {
    if n < 0 {
      var s := IntToString(n);
      assert s[1..] == Digits(-n);
      DigitsRoundTrip(-n);
    } else {
      DigitsRoundTrip(n);
    }
  }

  /**
   * `f"{n:02d}"`: at least two characters, zero-filled after the sign; a
   * negative value is already two characters wide.
   */
  function Pad2(n: int): (s: string)
    ensures 2 <= |s|
    ensures 0 <= n < 100 ==> |s| == 2
    ensures 0 <= n < 10 ==> s == ['0', DigitChar(n)]
    ensures 10 <= n ==> s == IntToString(n)
    ensures n < 0 ==> s == IntToString(n)
  {
    if n < 0 then IntToString(n)
    else if n < 10 then "0" + Digits(n)
    else Digits(n)
  }

  /** Zero padding loses nothing: a non-negative value is read back from its padded text. */
  lemma Pad2RoundTrip(n: nat)
    ensures AllDigits(Pad2(n)) && DecimalValue(Pad2(n)) == n
  {
    DigitsRoundTrip(n);
    if n < 10 {
      LeadingZero(Digits(n));
    }
  }

  // -----------------------------------------------------------------------
  // Clock texts
  // -----------------------------------------------------------------------

  /** `process_timer_duration`: the shot clock's seconds as at least two digits. */
  function ProcessTimerDuration(duration: int): (s: string)
    ensures 2 <= |s|
    ensures duration >= 0 ==> AllDigits(s) && DecimalValue(s) == duration
  {
    Pad2RoundTrip(if duration >= 0 then duration else 0);
    Pad2(duration)
  }

  /**
   * `format_match_timer`: minutes without padding, a colon, two-digit seconds.
   * Python's `divmod` by 60 floors, which for a positive divisor is Dafny's
   * `/` and `%`; the text starts with '0' only when there are no minutes.
   */
  function FormatMatchTimer(seconds: int): (s: string)
    ensures |s| >= 4 && s[|s| - 3] == ':'
    ensures s[..|s| - 3] == IntToString(seconds / 60)
    ensures s[|s| - 2..] == Pad2(seconds % 60)
    ensures s[0] == '0' ==> 0 <= seconds < 60
  {
    IntToString(seconds / 60) + ":" + Pad2(seconds % 60)
  }

  /**
   * The match timer text splits at its third-last character, a colon, into
   * the minutes and the seconds of the time shown.
   */
  lemma MatchTimerReadBack(seconds: int)
    ensures var s := FormatMatchTimer(seconds);
      && |s| >= 4 && s[|s| - 3] == ':'
      && ParseInt(s[..|s| - 3]) == Some(seconds / 60)
      && AllDigits(s[|s| - 2..]) && (seconds / 60) * 60 + DecimalValue(s[|s| - 2..]) == seconds
  {
    var m := IntToString(seconds / 60);
    var p := Pad2(seconds % 60);
    var s := FormatMatchTimer(seconds);
    assert |p| == 2;
    assert s[..|s| - 3] == m;
    assert s[|s| - 2..] == p;
    IntToStringRoundTrip(seconds / 60);
    Pad2RoundTrip(seconds % 60);
  }

  lemma MatchTimerExamples()
    ensures FormatMatchTimer(577) == "9:37"
    ensures FormatMatchTimer(0) == "0:00"
  {
    assert Digits(9) == "9";
    assert Digits(37) == Digits(3) + [DigitChar(7)];
  }

  /** `format_stopwatch`: two-digit seconds, a dot, two-digit hundredths of `ms` milliseconds. */
  function FormatStopwatch(ms: int): (s: string)
    ensures |s| >= 5 && s[|s| - 3] == '.'
    ensures s[..|s| - 3] == Pad2(ms / 1000)
    ensures s[|s| - 2..] == Pad2(ms % 1000 / 10)
  {
    Pad2(ms / 1000) + "." + Pad2(ms % 1000 / 10)
  }

  /**
   * The stopwatch text splits at its third-last character, a dot; the two
   * halves read back as the whole seconds and the hundredths, which together
   * fall short of `ms` by less than ten milliseconds.
   */
  lemma StopwatchReadBack(ms: nat)
    ensures var s := FormatStopwatch(ms);
      && |s| >= 5 && s[|s| - 3] == '.'
      && AllDigits(s[..|s| - 3]) && AllDigits(s[|s| - 2..])
      && var shown := DecimalValue(s[..|s| - 3]) * 1000 + DecimalValue(s[|s| - 2..]) * 10;
         shown <= ms < shown + 10
  {
    var a := Pad2(ms / 1000);
    var b := Pad2(ms % 1000 / 10);
    var s := FormatStopwatch(ms);
    assert |b| == 2;
    assert s[..|s| - 3] == a;
    assert s[|s| - 2..] == b;
    Pad2RoundTrip(ms / 1000);
    Pad2RoundTrip(ms % 1000 / 10);
  }

  /** Under 100 seconds the stopwatch reads exactly "SS.CC". */
  lemma StopwatchWidth(ms: nat)
    requires ms < 100000
    ensures |FormatStopwatch(ms)| == 5
  {
  }

  // -----------------------------------------------------------------------
  // Regions and text placement
  // -----------------------------------------------------------------------

  /** A screen rectangle: left, top, width, height. */
  datatype Region = Region(x: int, y: int, w: int, h: int)

  /** `get_region`: the named region, or the empty rectangle at the origin for an unknown name. */
  function GetRegion(regions: map<string, Region>, key: string): (r: Region)
    ensures key in regions ==> r == regions[key]
    ensures key !in regions ==> r == Region(0, 0, 0, 0)
  {
    if key in regions then regions[key] else Region(0, 0, 0, 0)
  }

  /** `TextOptions`; `align` is the option's text, and any value but "center" or "right" aligns left. */
  datatype TextOptions = TextOptions(
    fontSize: int, align: string, sendPayload: bool, clear: bool, xOffset: int, yOffset: int)

  const DefaultOptions := TextOptions(1, "center", false, true, 0, 0)

  /** Where `draw_text_in_region` puts a string: the rectangle it blanks first (if any) and the text's origin. */
  datatype Placement = Placement(cleared: Option<Region>, x: int, y: int)

  /**
   * The placement of `len` characters in `region`. The region is first moved
   * by the offsets; a character is `8 * fontSize` pixels wide and high.
   */
  function PlaceText(region: Region, len: nat, opts: TextOptions): (p: Placement)
    ensures var left := region.x + opts.xOffset;
            var top := region.y + opts.yOffset;
            var tw := len * 8 * opts.fontSize;
            var th := 8 * opts.fontSize;
      && p.cleared == (if opts.clear then Some(Region(left, top, region.w, region.h)) else None)
      && (opts.align == "center" ==> 0 <= (left + region.w - (p.x + tw)) - (p.x - left) <= 1)
      && (opts.align == "right" ==> p.x + tw == left + region.w)
      && (opts.align != "center" && opts.align != "right" ==> p.x == left)
      && 0 <= (top + region.h - (p.y + th)) - (p.y - top) <= 1
  {
    var x := region.x + opts.xOffset;
    var y := region.y + opts.yOffset;
    var charW := 8 * opts.fontSize;
    var textW := len * charW;
    var drawX :=
      if opts.align == "center" then x + (region.w - textW) / 2
      else if opts.align == "right" then x + region.w - textW
      else x;
    var charH := 8 * opts.fontSize;
    var drawY := y + (region.h - charH) / 2;
    Placement(if opts.clear then Some(Region(x, y, region.w, region.h)) else None, drawX, drawY)
  }

  /** `draw_text_in_region` reduced to its arithmetic: `text` in the region named `key`. */
  function DrawTextInRegion(regions: map<string, Region>, key: string, text: string, opts: TextOptions): (p: Placement)
    ensures key in regions ==> p == PlaceText(regions[key], |text|, opts)
    ensures key !in regions ==> p == PlaceText(Region(0, 0, 0, 0), |text|, opts)
  {
    PlaceText(GetRegion(regions, key), |text|, opts)
  }

  /** Offsets only move the text: placing with offsets is placing in the moved region without them. */
  lemma OffsetsMoveRegion(region: Region, len: nat, opts: TextOptions)
    ensures var moved := Region(region.x + opts.xOffset, region.y + opts.yOffset, region.w, region.h);
      PlaceText(region, len, opts) == PlaceText(moved, len, opts.(xOffset := 0, yOffset := 0))
  {
  }

  /** Centred text no wider than its region stays inside it. */
  lemma CenteredTextInside(region: Region, len: nat, opts: TextOptions)
    requires opts.align == "center" && 0 <= len * 8 * opts.fontSize <= region.w
    ensures var p := PlaceText(region, len, opts);
      region.x + opts.xOffset <= p.x && p.x + len * 8 * opts.fontSize <= region.x + opts.xOffset + region.w
  {
  }

  // -----------------------------------------------------------------------
  // Clearing
  // -----------------------------------------------------------------------

  /** The rectangles `display_clear` blanks for `keys`: the known ones, in order; unknown names are skipped. */
  function ClearedRegions(regions: map<string, Region>, keys: seq<string>): (r: seq<Region>)
    ensures |r| <= |keys|
    decreases |keys|
  {
    if |keys| == 0 then []
    else
      var rest := ClearedRegions(regions, keys[1..]);
      if keys[0] in regions then [regions[keys[0]]] + rest else rest
  }

  /** Every known region asked for is cleared, and nothing else is. */
  lemma {:induction false} ClearedRegionsExactly(regions: map<string, Region>, keys: seq<string>)
    ensures forall k :: k in keys && k in regions ==> regions[k] in ClearedRegions(regions, keys)
    ensures forall q :: q in ClearedRegions(regions, keys) ==> exists k :: k in keys && k in regions && regions[k] == q
    decreases |keys|
  {
    if |keys| > 0 {
      var tail := keys[1..];
      var rest := ClearedRegions(regions, tail);
      var r := ClearedRegions(regions, keys);
      ClearedRegionsExactly(regions, tail);
      assert r == (if keys[0] in regions then [regions[keys[0]]] + rest else rest);
      forall k | k in keys && k in regions
        ensures regions[k] in r
      {
        if k != keys[0] {
          var j :| 0 <= j < |keys| && keys[j] == k;
          assert tail[j - 1] == k;
        }
      }
      forall q | q in r
        ensures exists k :: k in keys && k in regions && regions[k] == q
      {
        if q in rest {
          assert exists k :: k in tail && k in regions && regions[k] == q;
          var k :| k in tail && k in regions && regions[k] == q;
          var j :| 0 <= j < |tail| && tail[j] == k;
          assert keys[j + 1] == k;
        } else {
          assert keys[0] in keys;
        }
      }
    }
  }

  /** `display_clear`'s loop over the requested regions, returning the rectangles it blanks. */
  method DisplayClear(regions: map<string, Region>, keys: seq<string>) returns (cleared: seq<Region>)
    ensures cleared == ClearedRegions(regions, keys)
  {
    cleared := [];
    var i := 0;
    while i < |keys|
      invariant 0 <= i <= |keys|
      invariant cleared + ClearedRegions(regions, keys[i..]) == ClearedRegions(regions, keys)
    {
      assert keys[i..][1..] == keys[i + 1..];
      if keys[i] in regions {
        cleared := cleared + [regions[keys[i]]];
      }
      i := i + 1;
    }
  }
}
