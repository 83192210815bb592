/**
 * The display helpers of the F1 service: lap, sector and gap times, and
 * the tyre age of a stint. Durations arrive as JSON numbers of seconds and
 * are handled here as thousandths, so every format is an integer rendering.
 * A non-empty string where a number is expected makes Python's `<=`, `<`
 * or `-` raise, which is modelled as `Err(TypeError)`.
 */
module Formatting {
  import opened PyValues
  import opened Decimal

  const LAP_PLACEHOLDER: string := "--:--.---"
  const SECTOR_PLACEHOLDER: string := "---.---"
  const GAP_PLACEHOLDER: string := "--"

  /** `ms` thousandths of a second as `%.3f` renders them: "s.mmm". */
  function Seconds3(ms: nat): string
  {
    NatToDecimal(ms / 1000) + "." + Fixed(ms % 1000, 3)
  }

  /** Under a minute of `ms` thousandths as `%06.3f` renders them: "ss.mmm". */
  function PaddedSeconds3(ms: nat): string
  {
    Fixed(ms / 1000, 2) + "." + Fixed(ms % 1000, 3)
  }

  /** `ms` thousandths as `f"{m}:{s:06.3f}"` renders them: "m:ss.mmm". */
  function Clock3(ms: nat): string
  {
    NatToDecimal(ms / 60000) + ":" + PaddedSeconds3(ms % 60000)
  }

  /** `%.3f` of a possibly negative number of thousandths. */
  function Signed3(ms: int): string
  {
    if ms < 0 then "-" + Seconds3(-ms) else Seconds3(ms)
  }

  /** `_format_lap_time`. */
  function FormatLapTime(seconds: Json): Result<string>
  {
    if !Truthy(seconds) then Ok(LAP_PLACEHOLDER)
    else if !IsNumber(seconds) then Err(TypeError)
    else if Milli(seconds) <= 0 then Ok(LAP_PLACEHOLDER)
    else Ok(Clock3(Milli(seconds)))
  }

  /** `_format_sector_time`. */
  function FormatSectorTime(seconds: Json): Result<string>
  {
    if !Truthy(seconds) then Ok(SECTOR_PLACEHOLDER)
    else if !IsNumber(seconds) then Err(TypeError)
    else if Milli(seconds) <= 0 then Ok(SECTOR_PLACEHOLDER)
    else Ok(Seconds3(Milli(seconds)))
  }

  /** `_format_gap`: only a falsy gap is a placeholder; a negative one is printed. */
  function FormatGap(gap: Json): Result<string>
  {
    if !Truthy(gap) then Ok(GAP_PLACEHOLDER)
    else if !IsNumber(gap) then Err(TypeError)
    else Ok(GapText(Milli(gap)))
  }

  /** The rendering of a numeric gap of `ms` thousandths. */
  function GapText(ms: int): string
  {
    if ms < 60000 then "+" + Signed3(ms) else "+" + Clock3(ms)
  }

  /** `_calculate_tyre_age`: `max(0, lap_number - lap_start + tyre_age_at_start)`. */
  function TyreAge(stint: Record, latestLap: Record): Result<Json>
  {
    if !RecordTruthy(stint) || !RecordTruthy(latestLap) then Ok(JInt(0))
    else
      var current := GetOr(latestLap, "lap_number", JInt(0));
      var start := GetOr(stint, "lap_start", JInt(0));
      var ageAtStart := GetOr(stint, "tyre_age_at_start", JInt(0));
      if !(IsNumber(current) && IsNumber(start) && IsNumber(ageAtStart)) then Err(TypeError)
      else
        var total := Milli(current) - Milli(start) + Milli(ageAtStart);
        // max(0, x) returns the int 0 itself unless x > 0
        if total <= 0 then Ok(JInt(0))
        else if current.JInt? && start.JInt? && ageAtStart.JInt? then Ok(JInt(total / 1000))
        else Ok(JReal(total))
  }

  // Reading the renderings back

  /** Reads whole seconds without a leading zero, a point and three digits. */
  function SecondsFields(whole: string, point: char, frac: string): Option<nat>
  {
    if point == '.' && Canonical(whole) && AllDigits(frac) && |frac| == 3
    then Some(DecimalValue(whole) * 1000 + DecimalValue(frac))
    else None
  }

  /** Reads "s.mmm". */
  function ParseSeconds3(s: string): Option<nat>
  {
    if |s| >= 5 then SecondsFields(s[..|s| - 4], s[|s| - 4], s[|s| - 3..]) else None
  }

  /** Reads two digits of seconds below 60, a point and three digits. */
  function PaddedFields(secs: string, point: char, frac: string): Option<nat>
  {
    if point == '.' && AllDigits(secs) && |secs| == 2 && AllDigits(frac) && |frac| == 3 && DecimalValue(secs) < 60
    then Some(DecimalValue(secs) * 1000 + DecimalValue(frac))
    else None
  }

  /** Reads "ss.mmm". */
  function ParsePaddedSeconds3(s: string): Option<nat>
  {
    if |s| == 6 then PaddedFields(s[..2], s[2], s[3..]) else None
  }

  /** Reads minutes without a leading zero, a colon and "ss.mmm". */
  function ClockFields(minutes: string, colon: char, tail: string): Option<nat>
  {
    if colon == ':' && Canonical(minutes) && ParsePaddedSeconds3(tail).Some?
    then Some(DecimalValue(minutes) * 60000 + ParsePaddedSeconds3(tail).value)
    else None
  }

  /** Reads "m:ss.mmm". */
  function ParseClock3(s: string): Option<nat>
  {
    if |s| >= 8 then ClockFields(s[..|s| - 7], s[|s| - 7], s[|s| - 6..]) else None
  }

  lemma Split<T>(a: seq<T>, x: T, b: seq<T>)
    ensures var s := a + [x] + b;
      |s| == |a| + 1 + |b| && s[..|a|] == a && s[|a|] == x && s[|a| + 1..] == b
  {
  }

  lemma Rejoin<T>(s: seq<T>, k: nat)
    requires k < |s|
    ensures s == s[..k] + [s[k]] + s[k + 1..]
  {
  }

  /** "s.mmm" reads as its whole seconds and its three decimals. */
  lemma ParseSecondsParts(whole: string, frac: string)
    requires Canonical(whole) && AllDigits(frac) && |frac| == 3
    ensures ParseSeconds3(whole + "." + frac) == SecondsFields(whole, '.', frac)
  {
    Split(whole, '.', frac);
  }

  /** "ss.mmm" reads as its two fields. */
  lemma ParsePaddedParts(secs: string, frac: string)
    requires |secs| == 2 && |frac| == 3
    ensures ParsePaddedSeconds3(secs + "." + frac) == PaddedFields(secs, '.', frac)
  {
    Split(secs, '.', frac);
  }

  /** "m:ss.mmm" reads as its minutes and its padded seconds. */
  lemma ParseClockParts(minutes: string, tail: string)
    requires |minutes| >= 1 && |tail| == 6
    ensures ParseClock3(minutes + ":" + tail) == ClockFields(minutes, ':', tail)
  {
    Split(minutes, ':', tail);
  }

  lemma Seconds3RoundTrip(ms: nat)
    ensures ParseSeconds3(Seconds3(ms)) == Some(ms)
  {
    NatToDecimalRoundTrip(ms / 1000);
    NatToDecimalCanonical(ms / 1000);
    FixedRoundTrip(ms % 1000, 3);
    ParseSecondsParts(NatToDecimal(ms / 1000), Fixed(ms % 1000, 3));
  }

  lemma PaddedSeconds3RoundTrip(ms: nat)
    requires ms < 60000
    ensures |PaddedSeconds3(ms)| == 6
    ensures ParsePaddedSeconds3(PaddedSeconds3(ms)) == Some(ms)
  {
    FixedRoundTrip(ms / 1000, 2);
    FixedRoundTrip(ms % 1000, 3);
    ParsePaddedParts(Fixed(ms / 1000, 2), Fixed(ms % 1000, 3));
  }

  lemma Clock3RoundTrip(ms: nat)
    ensures ParseClock3(Clock3(ms)) == Some(ms)
  {
    var q, r := ms / 60000, ms % 60000;
    NatToDecimalRoundTrip(q);
    NatToDecimalCanonical(q);
    PaddedSeconds3RoundTrip(r);
    ParseClockParts(NatToDecimal(q), PaddedSeconds3(r));
  }

  /** The only text "s.mmm" reads as `ms` is the rendering of `ms`. */
  lemma ParseSeconds3Canonical(t: string)
    requires ParseSeconds3(t).Some?
    ensures t == Seconds3(ParseSeconds3(t).value)
  {
    var k := |t| - 4;
    var whole, frac := t[..k], t[k + 1..];
    assert t[k + 1..] == t[|t| - 3..];
    var v := ParseSeconds3(t).value;
    DecimalValueBound(frac);
    assert Pow10(3) == 1000;
    assert v / 1000 == DecimalValue(whole) && v % 1000 == DecimalValue(frac);
    CanonicalIsNatToDecimal(whole);
    FixedRoundTrip(DecimalValue(frac), 3);
    SameLengthSameValue(Fixed(DecimalValue(frac), 3), frac);
    Rejoin(t, k);
  }

  /** The only text "ss.mmm" reads as `ms` is the padded rendering of `ms`, which is under a minute. */
  lemma ParsePaddedSeconds3Canonical(t: string)
    requires ParsePaddedSeconds3(t).Some?
    ensures ParsePaddedSeconds3(t).value < 60000
    ensures t == PaddedSeconds3(ParsePaddedSeconds3(t).value)
  {
    var secs, frac := t[..2], t[3..];
    var v := ParsePaddedSeconds3(t).value;
    DecimalValueBound(frac);
    assert Pow10(3) == 1000;
    assert v / 1000 == DecimalValue(secs) && v % 1000 == DecimalValue(frac);
    FixedRoundTrip(DecimalValue(secs), 2);
    FixedRoundTrip(DecimalValue(frac), 3);
    SameLengthSameValue(Fixed(DecimalValue(secs), 2), secs);
    SameLengthSameValue(Fixed(DecimalValue(frac), 3), frac);
    Rejoin(t, 2);
  }

  /** The only text "m:ss.mmm" reads as `ms` is the rendering of `ms`. */
  lemma ParseClock3Canonical(t: string)
    requires ParseClock3(t).Some?
    ensures t == Clock3(ParseClock3(t).value)
  {
    var k := |t| - 7;
    var minutes, tail := t[..k], t[k + 1..];
    var v := ParseClock3(t).value;
    var r := ParsePaddedSeconds3(tail).value;
    ParsePaddedSeconds3Canonical(tail);
    assert v == DecimalValue(minutes) * 60000 + r;
    assert v / 60000 == DecimalValue(minutes) && v % 60000 == r;
    CanonicalIsNatToDecimal(minutes);
    Rejoin(t, k);
  }

  lemma PlaceholdersDoNotParse()
    ensures ParseClock3(LAP_PLACEHOLDER) == None
    ensures ParseSeconds3(SECTOR_PLACEHOLDER) == None
  {
    assert !IsDigit(LAP_PLACEHOLDER[0]);
    assert !IsDigit(SECTOR_PLACEHOLDER[0]);
  }

  /**
   * A lap time raises only for a non-empty string, is the placeholder
   * exactly when the value is absent, zero or negative, and otherwise is
   * the one "m:ss.mmm" text that reads back as the lap duration.
   */
  lemma LapTimeFormat(seconds: Json)
    ensures FormatLapTime(seconds).Err? <==> seconds.JStr? && seconds.s != ""
    ensures FormatLapTime(seconds) == Ok(LAP_PLACEHOLDER) <==>
              seconds.JNull? || (IsNumber(seconds) && Milli(seconds) <= 0) || seconds == JStr("")
    ensures IsNumber(seconds) && Milli(seconds) > 0 ==>
              FormatLapTime(seconds).Ok? && ParseClock3(FormatLapTime(seconds).value) == Some(Milli(seconds))
    ensures IsNumber(seconds) && Milli(seconds) > 0 ==>
              FormatLapTime(seconds).Ok? &&
              forall t :: ParseClock3(t) == Some(Milli(seconds)) ==> t == FormatLapTime(seconds).value
  {
    PlaceholdersDoNotParse();
    if IsNumber(seconds) && Milli(seconds) > 0 {
      Clock3RoundTrip(Milli(seconds));
      forall t | ParseClock3(t) == Some(Milli(seconds)) ensures t == FormatLapTime(seconds).value {
        ParseClock3Canonical(t);
      }
    }
  }

  /** The same three cases for a sector time, which is the one "s.mmm" text reading back as the duration. */
  lemma SectorTimeFormat(seconds: Json)
    ensures FormatSectorTime(seconds).Err? <==> seconds.JStr? && seconds.s != ""
    ensures FormatSectorTime(seconds) == Ok(SECTOR_PLACEHOLDER) <==>
              seconds.JNull? || (IsNumber(seconds) && Milli(seconds) <= 0) || seconds == JStr("")
    ensures IsNumber(seconds) && Milli(seconds) > 0 ==>
              FormatSectorTime(seconds).Ok? && ParseSeconds3(FormatSectorTime(seconds).value) == Some(Milli(seconds))
    ensures IsNumber(seconds) && Milli(seconds) > 0 ==>
              FormatSectorTime(seconds).Ok? &&
              forall t :: ParseSeconds3(t) == Some(Milli(seconds)) ==> t == FormatSectorTime(seconds).value
  {
    PlaceholdersDoNotParse();
    if IsNumber(seconds) && Milli(seconds) > 0 {
      Seconds3RoundTrip(Milli(seconds));
      forall t | ParseSeconds3(t) == Some(Milli(seconds)) ensures t == FormatSectorTime(seconds).value {
        ParseSeconds3Canonical(t);
      }
    }
  }

  /** A gap raises only for a non-empty string and is the placeholder exactly when it is falsy. */
  lemma GapCases(gap: Json)
    ensures FormatGap(gap).Err? <==> gap.JStr? && gap.s != ""
    ensures FormatGap(gap) == Ok(GAP_PLACEHOLDER) <==> !Truthy(gap)
  {
    if IsNumber(gap) && Truthy(gap) {
      assert FormatGap(gap).value[0] == '+';
    }
  }

  /**
   * A numeric gap under a minute reads back from "+s.mmm" (with a '-' after
   * the '+' when negative), a longer one from "+m:ss.mmm". Since only the
   * rendering of a duration reads back as it (`ParseSeconds3Canonical`,
   * `ParseClock3Canonical`), this fixes the text.
   */
  lemma GapReadsBack(gap: Json)
    requires IsNumber(gap) && Truthy(gap)
    ensures FormatGap(gap).Ok?
    ensures var text := FormatGap(gap).value;
              |text| >= 2 && text[0] == '+' &&
              (0 <= Milli(gap) < 60000 ==> ParseSeconds3(text[1..]) == Some(Milli(gap))) &&
              (Milli(gap) < 0 ==> text[1] == '-' && ParseSeconds3(text[2..]) == Some(-Milli(gap))) &&
              (Milli(gap) >= 60000 ==> ParseClock3(text[1..]) == Some(Milli(gap)))
  {
    FormatGapIsGapText(gap);
    GapTextReadsBack(Milli(gap));
  }

  lemma FormatGapIsGapText(gap: Json)
    requires IsNumber(gap) && Truthy(gap)
    ensures FormatGap(gap) == Ok(GapText(Milli(gap)))
  {
  }

  lemma GapTextReadsBack(m: int)
    ensures var text := GapText(m);
              |text| >= 2 && text[0] == '+' &&
              (0 <= m < 60000 ==> ParseSeconds3(text[1..]) == Some(m)) &&
              (m < 0 ==> text[1] == '-' && ParseSeconds3(text[2..]) == Some(-m)) &&
              (m >= 60000 ==> ParseClock3(text[1..]) == Some(m))
  {
    var text := GapText(m);
    if m >= 60000 {
      Clock3RoundTrip(m);
      assert text[1..] == Clock3(m);
    } else if m >= 0 {
      Seconds3RoundTrip(m);
      assert text[1..] == Seconds3(m);
    } else {
      Seconds3RoundTrip(-m);
      assert text[1..] == "-" + Seconds3(-m);
      assert text[2..] == Seconds3(-m);
    }
  }

  /**
   * The tyre age is never negative: it is the clamped sum when the three
   * fields are numbers, an int when all three are ints, 0 when either record
   * is empty, and a TypeError when a field of non-empty records is not a number.
   */
  lemma TyreAgeFormula(stint: Record, latestLap: Record)
    ensures !RecordTruthy(stint) || !RecordTruthy(latestLap) ==> TyreAge(stint, latestLap) == Ok(JInt(0))
    ensures RecordTruthy(stint) && RecordTruthy(latestLap) ==>
              var current := GetOr(latestLap, "lap_number", JInt(0));
              var start := GetOr(stint, "lap_start", JInt(0));
              var ageAtStart := GetOr(stint, "tyre_age_at_start", JInt(0));
              (TyreAge(stint, latestLap).Err? <==> !(IsNumber(current) && IsNumber(start) && IsNumber(ageAtStart))) &&
              (TyreAge(stint, latestLap).Ok? ==>
                 var age := TyreAge(stint, latestLap).value;
                 var total := Milli(current) - Milli(start) + Milli(ageAtStart);
                 IsNumber(age) && Milli(age) == (if total > 0 then total else 0) &&
                 (current.JInt? && start.JInt? && ageAtStart.JInt? ==> age.JInt?))
    ensures TyreAge(stint, latestLap).Ok? ==> IsNumber(TyreAge(stint, latestLap).value) && Milli(TyreAge(stint, latestLap).value) >= 0
  {
  }

  lemma SmallDecimals()
    ensures NatToDecimal(1) == "1" && NatToDecimal(3) == "3"
    ensures NatToDecimal(15) == "15" && NatToDecimal(31) == "31"
  {
    assert NatToDecimal(1) == [DigitChar(1)];
    assert NatToDecimal(3) == [DigitChar(3)];
    assert NatToDecimal(15) == NatToDecimal(1) + [DigitChar(5)];
    assert NatToDecimal(31) == NatToDecimal(3) + [DigitChar(1)];
  }

  lemma MilliDecimals()
    ensures Fixed(200, 3) == "200" && Fixed(234, 3) == "234" && Fixed(500, 3) == "500"
  {
    assert NatToDecimal(20) == NatToDecimal(2) + [DigitChar(0)];
    assert NatToDecimal(200) == NatToDecimal(20) + [DigitChar(0)];
    assert NatToDecimal(23) == NatToDecimal(2) + [DigitChar(3)];
    assert NatToDecimal(234) == NatToDecimal(23) + [DigitChar(4)];
    assert NatToDecimal(50) == NatToDecimal(5) + [DigitChar(0)];
    assert NatToDecimal(500) == NatToDecimal(50) + [DigitChar(0)];
  }

  lemma PaddedExamples()
    ensures PaddedSeconds3(31234) == "31.234" && PaddedSeconds3(15500) == "15.500"
  {
    SmallDecimals();
    MilliDecimals();
    assert Fixed(31, 2) == "31" && Fixed(15, 2) == "15";
  }

  /** The lap-time example: 91.234 s is "1:31.234". */
  lemma LapTimeExample()
    ensures FormatLapTime(JReal(91234)) == Ok("1:31.234")
  {
    SmallDecimals();
    PaddedExamples();
    assert 91234 / 60000 == 1 && 91234 % 60000 == 31234;
    assert Clock3(91234) == NatToDecimal(1) + ":" + PaddedSeconds3(31234);
    assert Clock3(91234) == "1" + ":" + "31.234" == "1:31.234";
    assert Milli(JReal(91234)) == 91234;
  }

  /** The gap examples: 75.5 s is "+1:15.500", 3.2 s is "+3.200". */
  lemma GapExamples()
    ensures FormatGap(JReal(75500)) == Ok("+1:15.500")
    ensures FormatGap(JReal(3200)) == Ok("+3.200")
  {
    SmallDecimals();
    MilliDecimals();
    PaddedExamples();
    assert 75500 / 60000 == 1 && 75500 % 60000 == 15500;
    assert Clock3(75500) == NatToDecimal(1) + ":" + PaddedSeconds3(15500);
    assert GapText(75500) == "+" + Clock3(75500) == "+" + ("1" + ":" + "15.500") == "+1:15.500";
    assert Milli(JReal(75500)) == 75500;
    assert 3200 / 1000 == 3 && 3200 % 1000 == 200;
    assert Seconds3(3200) == NatToDecimal(3) + "." + Fixed(200, 3);
    assert GapText(3200) == "+" + Signed3(3200) == "+" + Seconds3(3200) == "+" + ("3" + "." + "200") == "+3.200";
    assert Milli(JReal(3200)) == 3200;
  }

  /** The tyre-age examples: lap 15 on a stint from lap 10 with 2 laps of age is 7; lap 8 clamps to 0. */
  lemma TyreAgeExamples()
    ensures TyreAge(map["lap_start" := JInt(10), "tyre_age_at_start" := JInt(2)], map["lap_number" := JInt(15)]) == Ok(JInt(7))
    ensures TyreAge(map["lap_start" := JInt(10), "tyre_age_at_start" := JInt(2)], map["lap_number" := JInt(8)]) == Ok(JInt(0))
  {
    var stint := map["lap_start" := JInt(10), "tyre_age_at_start" := JInt(2)];
    assert GetOr(stint, "lap_start", JInt(0)) == JInt(10);
    assert GetOr(stint, "tyre_age_at_start", JInt(0)) == JInt(2);
    assert GetOr(map["lap_number" := JInt(15)], "lap_number", JInt(0)) == JInt(15);
    assert GetOr(map["lap_number" := JInt(8)], "lap_number", JInt(0)) == JInt(8);
  }
}
