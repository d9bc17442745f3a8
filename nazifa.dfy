/** The answer conversions of cleaning_nazifa.py (the sleep-patterns
    page): its own hours table, the ISI-like index from exact answer texts,
    the index bands, the sleep-duration bands and the frequent-symptom
    flags. Header normalisation (`_norm_col`) is `Headers.Normalize`. */
module Nazifa {
  import opened Strings
  import opened Numbers
  import opened Cells
  import opened Shared

  // ---------------------------------------------------------------------
  // Hours estimate
  // ---------------------------------------------------------------------

  /** `mapping` of `_sleep_hours_to_est`, looked up by the stripped text. */
  function HoursTable(x: string): (r: Float)
    ensures r.Num? ==> 3.5 <= r.v <= 9.0
  {
    match x
    case "Less than 4 hours" => Num(3.5)
    case "4\U{2013}5 hours" => Num(4.5)
    case "4-5 hours" => Num(4.5)
    case "5\U{2013}6 hours" => Num(5.5)
    case "5-6 hours" => Num(5.5)
    case "6\U{2013}7 hours" => Num(6.5)
    case "6-7 hours" => Num(6.5)
    case "7\U{2013}8 hours" => Num(7.5)
    case "7-8 hours" => Num(7.5)
    case "8\U{2013}9 hours" => Num(8.5)
    case "8-9 hours" => Num(8.5)
    case "More than 8 hours" => Num(8.5)
    case "9 or more hours" => Num(9.0)
    case _ => NaN
  }

  /** The fallback: the decimal numbers of the text as written (no dash is
      replaced first). */
  function HoursFallback(x: string): Float {
    FromNumbers(DecimalRuns(x))
  }

  /** `_sleep_hours_to_est(val)` */
  function SleepHoursToEst(c: Cell): Float {
    if IsMissing(c) then NaN
    else
      var x := Strip(Str(c));
      if HoursTable(x).Num? then HoursTable(x) else HoursFallback(x)
  }

  /** The answers whose values differ from the other modules: "More than
      8 hours" is 8.5 here, below "9 or more hours". */
  lemma HoursTableValues()
    ensures HoursTable("Less than 4 hours") == Num(3.5)
    ensures HoursTable("More than 8 hours") == Num(8.5)
    ensures HoursTable("9 or more hours") == Num(9.0)
    ensures HoursTable("8-9 hours") == HoursTable("8\U{2013}9 hours") == Num(8.5)
  {
  }

  /** A missing answer has no estimate. */
  lemma MissingHours(c: Cell)
    requires IsMissing(c)
    ensures SleepHoursToEst(c).NaN?
  {
  }

  /** An unlisted answer has an estimate exactly when it has a digit. */
  lemma {:induction false} FallbackDefined(c: Cell)
    requires !IsMissing(c) && HoursTable(Strip(Str(c))).NaN?
    ensures SleepHoursToEst(c).NaN? <==> NoDigits(Strip(Str(c)))
  {
    DecimalRunsEmpty(Strip(Str(c)));
  }

  /** Every listed answer has a letter, a dash or a space in its second
      place. */
  lemma {:induction false} NotListed(x: string)
    requires |x| >= 2 && (IsDigit(x[1]) || x[1] == '.')
    ensures HoursTable(x).NaN?
  {
  }

  /** An unlisted answer that needs no stripping is estimated by the
      fallback. */
  lemma {:induction false} UnlistedStripped(s: string)
    requires Strip(s) == s
    requires HoursTable(s).NaN?
    ensures SleepHoursToEst(Text(s)) == HoursFallback(s)
  {
  }

  lemma {:induction false} DecimalNotListed(a: nat, d: nat)
    ensures HoursTable(ShowNat(a) + "." + ShowNat(d) + " hours").NaN?
  {
    var s := ShowNat(a) + "." + ShowNat(d) + " hours";
    if |ShowNat(a)| == 1 {
      assert s[1] == '.';
    } else {
      assert s[1] == ShowNat(a)[1];
    }
    NotListed(s);
  }

  /** A decimal answer "a.d hours" is read as the one number a.d. */
  lemma {:induction false} DecimalAnswer(a: nat, d: nat)
    ensures SleepHoursToEst(Text(ShowNat(a) + "." + ShowNat(d) + " hours"))
      == Num(a as real + FracValue(ShowNat(d)))
  {
    DecimalRuns1(a, d);
    DecimalEstimate(a, d, a as real + FracValue(ShowNat(d)));
  }

  /** The same with the value named, so that the fraction's arithmetic
      stays out of the steps. */
  lemma {:induction false} DecimalEstimate(a: nat, d: nat, v: real)
    requires DecimalRuns(ShowNat(a) + "." + ShowNat(d) + " hours") == [v]
    ensures SleepHoursToEst(Text(ShowNat(a) + "." + ShowNat(d) + " hours")) == Num(v)
  {
    DecimalNotListed(a, d);
    assert IsDigit(ShowNat(a)[0]);
    HoursAfterDigits(ShowNat(a) + "." + ShowNat(d));
    UnlistedOne(ShowNat(a) + "." + ShowNat(d) + " hours", v);
  }

  /** An unlisted answer that needs no stripping and holds one number is
      read as that number. */
  lemma {:induction false} UnlistedOne(s: string, v: real)
    requires Strip(s) == s && HoursTable(s).NaN? && DecimalRuns(s) == [v]
    ensures SleepHoursToEst(Text(s)) == Num(v)
  {
    UnlistedStripped(s);
    FallbackOne(s, v);
  }

  /** The fallback of a text that holds one number is that number. */
  lemma {:induction false} FallbackOne(s: string, v: real)
    requires DecimalRuns(s) == [v]
    ensures HoursFallback(s) == Num(v)
  {
  }

  /** The fallback of a text that holds the two numbers a and b is their
      mean. */
  lemma {:induction false} FallbackTwo(s: string, a: real, b: real)
    requires DecimalRuns(s) == [a, b]
    ensures HoursFallback(s) == Num((a + b) / 2.0)
  {
  }

  /** An unlisted range "a-b hours", with a hyphen or an en dash, is the
      midpoint of the range. */
  lemma {:induction false} RangeAnswer(a: nat, dash: char, b: nat)
    requires dash == '-' || dash == EnDash
    requires HoursTable(ShowNat(a) + [dash] + ShowNat(b) + " hours").NaN?
    ensures SleepHoursToEst(Text(ShowNat(a) + [dash] + ShowNat(b) + " hours"))
      == Num((a as real + b as real) / 2.0)
  {
    assert HoursFallback(ShowNat(a) + [dash] + ShowNat(b) + " hours") == Num((a as real + b as real) / 2.0) by {
      RangeRuns(a, dash, b);
      FallbackTwo(ShowNat(a) + [dash] + ShowNat(b) + " hours", a as real, b as real);
    }
    HoursStripped(ShowNat(a) + [dash] + ShowNat(b) + " hours");
    UnlistedStripped(ShowNat(a) + [dash] + ShowNat(b) + " hours");
  }

  // ---------------------------------------------------------------------
  // ISI-like index (0-28)
  // ---------------------------------------------------------------------

  /** `freq_map`, looked up by `astype(str)` without stripping: only
      "Never" and the en-dash spellings score; any other text is 0. */
  function FreqPoints(s: string): (r: nat)
    ensures r <= 4
  {
    match s
    case "Never" => 0
    case "Rarely (1\U{2013}2 times a week)" => 1
    case "Sometimes (3\U{2013}4 times a week)" => 2
    case "Often (5\U{2013}6 times a week)" => 3
    case "Always (every night)" => 4
    case _ => 0
  }

  /** `df[col].astype(str).map(freq_map).fillna(0)` for one cell. */
  function FreqScore(c: Cell): (r: nat)
    ensures r <= 4
  {
    FreqPoints(Str(c))
  }

  /** The hyphen spellings, which other modules accept, score nothing
      here. */
  lemma HyphenScoresZero()
    ensures FreqPoints("Rarely (1-2 times a week)") == 0
    ensures FreqPoints("Sometimes (3-4 times a week)") == 0
    ensures FreqPoints("Often (5-6 times a week)") == 0
    ensures FreqPoints("Rarely (1\U{2013}2 times a week)") == 1
    ensures FreqPoints("Often (5\U{2013}6 times a week)") == 3
  {
  }

  /** `quality_points`, looked up by the text of the cell: "1" (poor) is
      4 points down to "5" (excellent), 0; any other text is 0. */
  function QualityPoints(s: string): (r: nat)
    ensures r <= 4
  {
    match s
    case "1" => 4
    case "2" => 3
    case "3" => 2
    case "4" => 1
    case "5" => 0
    case _ => 0
  }

  function QualityScore(c: Cell): (r: nat)
    ensures r <= 4
  {
    QualityPoints(Str(c))
  }

  /** An integer rating k from 1 to 5 scores 5 - k. */
  lemma {:induction false} QualityOfInt(k: int)
    requires 1 <= k <= 5
    ensures QualityScore(Int(k)) == 5 - k
  {
    if k == 1 {
      assert Str(Int(k)) == "1";
    } else if k == 2 {
      assert Str(Int(k)) == "2";
    } else if k == 3 {
      assert Str(Int(k)) == "3";
    } else if k == 4 {
      assert Str(Int(k)) == "4";
    } else {
      assert Str(Int(k)) == "5";
    }
  }

  /** A rating read as a float ("3.0") matches no key and scores 0. */
  lemma {:induction false} QualityOfWholeReal(n: nat)
    ensures QualityScore(Real(n as real)) == 0
  {
    StrOfWholeReal(n);
    assert |Str(Real(n as real))| >= 3;
  }

  /** The raw score of one row: two frequencies and the quality points. */
  function RawScore(diff: Cell, wake: Cell, quality: Cell): (n: nat)
    ensures n <= 12
  {
    FreqScore(diff) + FreqScore(wake) + QualityScore(quality)
  }

  /** `_calculate_isi_like` for one row: `(score / 12 * 28).round(1)`. */
  function IsiLike(diff: Cell, wake: Cell, quality: Cell): (r: real)
    ensures 0.0 <= r <= 28.0
  {
    IsiScale(RawScore(diff, wake, quality) as real)
  }

  /** The index is `(70 raw + 1) / 3` tenths, so it takes only 13 values. */
  lemma {:induction false} IsiLikeTenths(diff: Cell, wake: Cell, quality: Cell)
    ensures IsiLike(diff, wake, quality) == ((70 * RawScore(diff, wake, quality) + 1) / 3) as real / 10.0
  {
    IsiScaleWhole(RawScore(diff, wake, quality));
  }

  /** "Always (every night)" twice and a rating of "1" is the top, 28. */
  lemma {:induction false} IsiLikeWorst(diff: Cell, wake: Cell, quality: Cell)
    requires Str(diff) == "Always (every night)" && Str(wake) == "Always (every night)"
    requires Str(quality) == "1"
    ensures IsiLike(diff, wake, quality) == 28.0
  {
    AlwaysFlagged(Str(diff));
    AlwaysFlagged(Str(wake));
    assert QualityPoints(Str(quality)) == 4;
    assert RawScore(diff, wake, quality) == 12;
  }

  /** Unanswered questions and a rating of "5" are the bottom, 0. */
  lemma {:induction false} IsiLikeBest(diff: Cell, wake: Cell, quality: Cell)
    requires IsMissing(diff) && IsMissing(wake) && Str(quality) == "5"
    ensures IsiLike(diff, wake, quality) == 0.0
  {
    assert RawScore(diff, wake, quality) == 0;
  }

  // ---------------------------------------------------------------------
  // Bands
  // ---------------------------------------------------------------------

  const NoInsomnia: string := "No insomnia (0\U{2013}7)"
  const Subthreshold: string := "Subthreshold (8\U{2013}14)"
  const ModerateIsi: string := "Moderate (15\U{2013}21)"
  const SevereIsi: string := "Severe (22\U{2013}28)"

  /** `_isi_category(x)`: left-closed bands at 8, 15 and 22; NaN stays
      missing. */
  function IsiCategory(x: Float): (c: Cell)
    ensures IsMissing(c) <==> x.NaN?
  {
    match x
    case NaN => Missing
    case Num(v) =>
      if v < 8.0 then Text(NoInsomnia)
      else if v < 15.0 then Text(Subthreshold)
      else if v < 22.0 then Text(ModerateIsi)
      else Text(SevereIsi)
  }

  /** The rank of a band, from 0 (none) to 3 (severe). */
  function IsiRank(c: Cell): nat {
    if c == Text(NoInsomnia) then 0
    else if c == Text(Subthreshold) then 1
    else if c == Text(ModerateIsi) then 2
    else 3
  }

  /** Each band edge opens the next band: 8 is subthreshold, 15 moderate,
      22 severe. */
  lemma IsiCategoryBoundaries(v: real)
    ensures v < 8.0 ==> IsiCategory(Num(v)) == Text(NoInsomnia)
    ensures 8.0 <= v < 15.0 ==> IsiCategory(Num(v)) == Text(Subthreshold)
    ensures 15.0 <= v < 22.0 ==> IsiCategory(Num(v)) == Text(ModerateIsi)
    ensures v >= 22.0 ==> IsiCategory(Num(v)) == Text(SevereIsi)
  {
  }

  /** A higher index never gets a milder band. */
  lemma IsiCategoryMonotone(x: real, y: real)
    requires x <= y
    ensures IsiRank(IsiCategory(Num(x))) <= IsiRank(IsiCategory(Num(y)))
  {
  }

  const ShortSleep: string := "Short (<6h)"
  const AdequateSleep: string := "Adequate (6\U{2013}8h)"
  const LongSleep: string := "Long (>8h)"

  /** `pd.cut(est, bins=[-inf, 5.99, 8.0, inf], labels=...)`: right-closed
      bands; NaN falls in no band. */
  function DurationCategory(x: Float): (c: Cell)
    ensures IsMissing(c) <==> x.NaN?
  {
    match x
    case NaN => Missing
    case Num(v) =>
      if v <= 5.99 then Text(ShortSleep)
      else if v <= 8.0 then Text(AdequateSleep)
      else Text(LongSleep)
  }

  /** 5.99 is short; 6 and 8 are adequate; above 8 is long. */
  lemma DurationBoundaries(v: real)
    ensures v <= 5.99 ==> DurationCategory(Num(v)) == Text(ShortSleep)
    ensures 5.99 < v <= 8.0 ==> DurationCategory(Num(v)) == Text(AdequateSleep)
    ensures v > 8.0 ==> DurationCategory(Num(v)) == Text(LongSleep)
  {
  }

  /** "More than 8 hours" is long sleep. */
  lemma {:induction false} MoreThanEightLong(s: string)
    requires s == "More than 8 hours"
    ensures DurationCategory(SleepHoursToEst(Text(s))) == Text(LongSleep)
  {
    assert HoursTable(s) == Num(8.5);
    StripKeeps(s);
  }

  /** "7-8 hours" is adequate sleep. */
  lemma {:induction false} SevenToEightAdequate(s: string)
    requires s == "7-8 hours"
    ensures DurationCategory(SleepHoursToEst(Text(s))) == Text(AdequateSleep)
  {
    assert HoursTable(s) == Num(7.5);
    StripKeeps(s);
  }

  // ---------------------------------------------------------------------
  // Symptom flags and bed time
  // ---------------------------------------------------------------------

  /** `astype(str).str.contains("Often|Always", na=False)` */
  function FrequentFlag(c: Cell): Cell {
    Flag(Contains(Str(c), "Often") || Contains(Str(c), "Always"))
  }

  /** On the answers of the frequency question the flag is raised exactly
      for the two answers that score 3 or more. */
  lemma {:induction false} FlagAgreesWithScore(s: string)
    requires s in {"Never", "Rarely (1\U{2013}2 times a week)", "Sometimes (3\U{2013}4 times a week)",
                   "Often (5\U{2013}6 times a week)", "Always (every night)"}
    ensures FrequentFlag(Text(s)) == Flag(FreqPoints(s) >= 3)
  {
    if s == "Often (5\U{2013}6 times a week)" {
      OftenFlagged(s);
    } else if s == "Always (every night)" {
      AlwaysFlagged(s);
    } else {
      Unflagged(s);
    }
  }

  lemma {:induction false} OftenFlagged(s: string)
    requires s == "Often (5\U{2013}6 times a week)"
    ensures Contains(s, "Often") && FreqPoints(s) == 3
  {
    assert OccursAt(s, "Often", 0);
  }

  lemma {:induction false} AlwaysFlagged(s: string)
    requires s == "Always (every night)"
    ensures Contains(s, "Always") && FreqPoints(s) == 4
  {
    assert OccursAt(s, "Always", 0);
  }

  /** The three milder answers have neither a capital O nor a capital A. */
  lemma {:induction false} Unflagged(s: string)
    requires s in {"Never", "Rarely (1\U{2013}2 times a week)", "Sometimes (3\U{2013}4 times a week)"}
    ensures !Contains(s, "Often") && !Contains(s, "Always")
  {
    // one answer at a time, so that each check reads a single text
    if s == "Never" {
      LacksCapitals(s);
    } else if s == "Rarely (1\U{2013}2 times a week)" {
      LacksCapitals(s);
    } else {
      LacksCapitals(s);
    }
  }

  /** A text with neither a capital O nor a capital A names neither
      frequency. */
  lemma {:induction false} LacksCapitals(s: string)
    requires Lacks(s, 'O') && Lacks(s, 'A')
    ensures !Contains(s, "Often") && !Contains(s, "Always")
  {
    NotContainsChar(s, "Often", 0);
    NotContainsChar(s, "Always", 0);
  }

  /** A missing answer raises no flag. */
  lemma {:induction false} FlagOfMissing(c: Cell)
    requires IsMissing(c)
    ensures FrequentFlag(c) == Flag(false)
  {
    NotContainsChar(Str(c), "Often", 0);
    NotContainsChar(Str(c), "Always", 0);
  }

  /** `astype(str).str.strip()` */
  function BedTimeCell(c: Cell): Cell {
    Text(Strip(Str(c)))
  }

  /** Cleaning a bed time twice is cleaning it once. */
  lemma {:induction false} BedTimeIdempotent(c: Cell)
    ensures BedTimeCell(BedTimeCell(c)) == BedTimeCell(c)
  {
    StripKeeps(Strip(Str(c)));
  }
}
