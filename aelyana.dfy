/** cleaning_aelyana.py: the preparation of the academic-impact page. Its
    frequency table knows bare words and monthly bands as well as the weekly
    ones, its hours table reads "More than 8 hours" as 9.0, its fallback
    reads decimal numbers, and its insomnia index is a plain 0-16 sum of four
    scores. */
module Aelyana {
  import opened Strings
  import opened Numbers
  import opened Cells
  import opened Shared

  // ---------------------------------------------------------------------
  // Frequency answers
  // ---------------------------------------------------------------------

  /** The table of `_map_freq` on the stripped text; any other text is 0. */
  function FreqPoints(s: string): (r: nat)
    ensures r <= 4
  {
    match s
    case "Never" => 0
    case "Rarely (1\U{2013}2 times a month)" => 1
    case "Rarely (1\U{2013}2 times a week)" => 1
    case "Rarely (1-2 times a month)" => 1
    case "Rarely (1-2 times a week)" => 1
    case "Rarely" => 1
    case "Occasionally" => 2
    case "Sometimes (3\U{2013}4 times a week)" => 2
    case "Sometimes (3-4 times a week)" => 2
    case "Sometimes" => 2
    case "Frequently" => 3
    case "Often (5\U{2013}6 times a week)" => 3
    case "Often (5-6 times a week)" => 3
    case "Often" => 3
    case "Always (every night)" => 4
    case "Always" => 4
    case _ => 0
  }

  /** `_map_freq(x)` */
  function MapFreq(c: Cell): (r: nat)
    ensures r <= 4
  {
    FreqPoints(Strip(Str(c)))
  }

  /** The bare word, its synonym and the banded answer score alike. */
  lemma FreqBareForms()
    ensures FreqPoints("Rarely") == FreqPoints("Rarely (1\U{2013}2 times a week)") == FreqPoints("Rarely (1-2 times a month)") == 1
    ensures FreqPoints("Sometimes") == FreqPoints("Occasionally") == FreqPoints("Sometimes (3-4 times a week)") == 2
    ensures FreqPoints("Frequently") == FreqPoints("Often") == FreqPoints("Often (5\U{2013}6 times a week)") == 3
    ensures FreqPoints("Always") == FreqPoints("Always (every night)") == 4
  {
  }

  /** A missing answer is the text "nan", which scores 0. */
  lemma MapFreqMissing(c: Cell)
    requires IsMissing(c)
    ensures MapFreq(c) == 0
  {
    MissingStripped(c);
    NanFreq(Strip(Str(c)));
  }

  lemma NanFreq(s: string)
    requires s == "nan"
    ensures FreqPoints(s) == 0
  {
  }

  // ---------------------------------------------------------------------
  // Sleep hours
  // ---------------------------------------------------------------------

  /** The answers `_sleep_hours_to_est` looks up directly, or NaN for a
      text the table does not list. */
  function HoursTable(x: string): (r: Float)
    ensures r.Num? ==> 3.5 <= r.v <= 9.0
  {
    match x
    case "Less than 4 hours" => Num(3.5)
    case "Less than 5 hours" => Num(4.5)
    case "4\U{2013}5 hours" => Num(4.5)
    case "4-5 hours" => Num(4.5)
    case "5\U{2013}6 hours" => Num(5.5)
    case "5-6 hours" => Num(5.5)
    case "6\U{2013}7 hours" => Num(6.5)
    case "6-7 hours" => Num(6.5)
    case "7\U{2013}8 hours" => Num(7.5)
    case "7-8 hours" => Num(7.5)
    case "8\U{2013}9 hours" => Num(8.5)
    case "8-9 hours" => Num(8.5)
    case "More than 8 hours" => Num(9.0)
    case "9 or more hours" => Num(9.0)
    case _ => NaN
  }

  /** The fallback: the decimal numbers of the text once the en dash is a
      hyphen; one is the estimate, two or more give the mean of the first
      two, none is NaN. */
  function HoursFallback(x: string): Float {
    FromNumbers(DecimalRuns(ReplaceChar(x, EnDash, '-')))
  }

  /** `_sleep_hours_to_est(val)` */
  function SleepHoursToEst(c: Cell): Float {
    if IsMissing(c) then NaN
    else
      var x := Strip(Str(c));
      if HoursTable(x).Num? then HoursTable(x) else HoursFallback(x)
  }

  /** Some listed answers, among them the two that both read as 9 hours. */
  lemma HoursTableValues()
    ensures HoursTable("Less than 4 hours") == Num(3.5)
    ensures HoursTable("7-8 hours") == HoursTable("7\U{2013}8 hours") == Num(7.5)
    ensures HoursTable("More than 8 hours") == Num(9.0)
    ensures HoursTable("9 or more hours") == Num(9.0)
  {
  }

  /** A listed answer, however padded, is its table value. */
  lemma ListedAnswer(s: string)
    requires HoursTable(Strip(s)).Num?
    ensures SleepHoursToEst(Text(s)) == HoursTable(Strip(s))
  {
  }

  /** Every listed answer has a letter or a dash in its second place, so
      a text whose second character is a digit or a point is not listed. */
  lemma {:induction false} NotListed(x: string)
    requires |x| >= 2 && (IsDigit(x[1]) || x[1] == '.')
    ensures HoursTable(x).NaN?
  {
  }

  /** Replacing the en dash touches neither digits nor points, so the
      fallback reads the numbers of the answer as written. */
  lemma {:induction false} DashFigures(x: string)
    ensures NoDigits(ReplaceChar(x, EnDash, '-')) <==> NoDigits(x)
    ensures DecimalRuns(ReplaceChar(x, EnDash, '-')) == DecimalRuns(x)
  {
    DecimalRunsSame(ReplaceChar(x, EnDash, '-'), x);
  }

  /** An unlisted answer has an estimate exactly when it has a digit. */
  lemma {:induction false} FallbackDefined(c: Cell)
    requires !IsMissing(c) && HoursTable(Strip(Str(c))).NaN?
    ensures SleepHoursToEst(c).NaN? <==> NoDigits(Strip(Str(c)))
  {
    var x := Strip(Str(c));
    DashFigures(x);
    DecimalRunsEmpty(ReplaceChar(x, EnDash, '-'));
  }

  /** An unlisted answer is estimated from the decimal numbers it holds. */
  lemma {:induction false} UnlistedAnswer(s: string)
    requires HoursTable(Strip(s)).NaN?
    ensures SleepHoursToEst(Text(s)) == FromNumbers(DecimalRuns(Strip(s)))
  {
    DashFigures(Strip(s));
  }

  /** An unlisted answer that needs no stripping is estimated by the
      fallback. */
  lemma {:induction false} UnlistedStripped(s: string)
    requires Strip(s) == s
    requires HoursTable(s).NaN?
    ensures SleepHoursToEst(Text(s)) == HoursFallback(s)
  {
  }

  /** The fallback of a text that holds the one number v is v. */
  lemma {:induction false} FallbackOne(s: string, v: real)
    requires DecimalRuns(s) == [v]
    ensures HoursFallback(s) == Num(v)
  {
    DashFigures(s);
  }

  /** The fallback of a text that holds the two numbers a and b is their
      mean. */
  lemma {:induction false} FallbackTwo(s: string, a: real, b: real)
    requires DecimalRuns(s) == [a, b]
    ensures HoursFallback(s) == Num((a + b) / 2.0)
  {
    DashFigures(s);
  }

  /** A decimal answer "a.d hours" is never listed, and is read as the one
      number a.d. */
  lemma {:induction false} DecimalAnswer(a: nat, d: nat)
    ensures SleepHoursToEst(Text(ShowNat(a) + "." + ShowNat(d) + " hours"))
      == Num(a as real + FracValue(ShowNat(d)))
  {
    DecimalRuns1(a, d);
    DecimalEstimate(a, d, a as real + FracValue(ShowNat(d)));
  }

  /** The same with the value named, so that the fraction's arithmetic
      stays out of the steps. */
  lemma {:induction false} DecimalEstimate(a: nat, d: nat, v: real)
    requires DecimalRuns(ShowNat(a) + "." + ShowNat(d) + " hours") == [v]
    ensures SleepHoursToEst(Text(ShowNat(a) + "." + ShowNat(d) + " hours")) == Num(v)
  {
    DecimalNotListed(a, d);
    assert IsDigit(ShowNat(a)[0]);
    HoursAfterDigits(ShowNat(a) + "." + ShowNat(d));
    UnlistedOne(ShowNat(a) + "." + ShowNat(d) + " hours", v);
  }

  /** An unlisted answer that needs no stripping and holds one number is
      read as that number. */
  lemma {:induction false} UnlistedOne(s: string, v: real)
    requires Strip(s) == s && HoursTable(s).NaN? && DecimalRuns(s) == [v]
    ensures SleepHoursToEst(Text(s)) == Num(v)
  {
    UnlistedStripped(s);
    FallbackOne(s, v);
  }

  lemma {:induction false} DecimalNotListed(a: nat, d: nat)
    ensures HoursTable(ShowNat(a) + "." + ShowNat(d) + " hours").NaN?
  {
    var s := ShowNat(a) + "." + ShowNat(d) + " hours";
    if |ShowNat(a)| == 1 {
      assert s[1] == '.';
    } else {
      assert s[1] == ShowNat(a)[1];
    }
    NotListed(s);
  }

  /** A range "a-b hours" (with a hyphen or an en dash) that the table does
      not list is the midpoint of the range. */
  lemma {:induction false} RangeAnswer(a: nat, dash: char, b: nat)
    requires dash == '-' || dash == EnDash
    requires HoursTable(ShowNat(a) + [dash] + ShowNat(b) + " hours").NaN?
    ensures SleepHoursToEst(Text(ShowNat(a) + [dash] + ShowNat(b) + " hours"))
      == Num((a as real + b as real) / 2.0)
  {
    assert HoursFallback(ShowNat(a) + [dash] + ShowNat(b) + " hours") == Num((a as real + b as real) / 2.0) by {
      RangeRuns(a, dash, b);
      FallbackTwo(ShowNat(a) + [dash] + ShowNat(b) + " hours", a as real, b as real);
    }
    HoursStripped(ShowNat(a) + [dash] + ShowNat(b) + " hours");
    UnlistedStripped(ShowNat(a) + [dash] + ShowNat(b) + " hours");
  }

  // ---------------------------------------------------------------------
  // Insomnia category
  // ---------------------------------------------------------------------

  const LowInsomnia: string := "Low / No Insomnia"
  const ModerateInsomnia: string := "Moderate Insomnia"
  const SevereInsomnia: string := "Severe Insomnia"

  /** `_categorize_insomnia(score)`: right-closed bands at 4 and 8; a NaN
      score has no category. */
  function CategorizeInsomnia(score: Float): (c: Cell)
    ensures IsMissing(c) <==> score.NaN?
  {
    match score
    case NaN => Missing
    case Num(v) =>
      if v <= 4.0 then Text(LowInsomnia)
      else if v <= 8.0 then Text(ModerateInsomnia)
      else Text(SevereInsomnia)
  }

  /** The rank of a category, from 0 (low) to 2 (severe). */
  function CategoryRank(c: Cell): nat {
    if c == Text(LowInsomnia) then 0
    else if c == Text(ModerateInsomnia) then 1
    else 2
  }

  /** Every number falls in one of the three bands. */
  lemma CategoryOfNumber(v: real)
    ensures CategorizeInsomnia(Num(v)) in {Text(LowInsomnia), Text(ModerateInsomnia), Text(SevereInsomnia)}
  {
  }

  /** The band edges belong to the milder band: 4 is low, 8 is moderate,
      and anything above 8 is severe. */
  lemma CategoryBoundaries(v: real)
    ensures CategorizeInsomnia(Num(4.0)) == Text(LowInsomnia)
    ensures CategorizeInsomnia(Num(8.0)) == Text(ModerateInsomnia)
    ensures 4.0 < v <= 8.0 ==> CategorizeInsomnia(Num(v)) == Text(ModerateInsomnia)
    ensures v > 8.0 ==> CategorizeInsomnia(Num(v)) == Text(SevereInsomnia)
  {
  }

  /** A higher score never gets a milder category. */
  lemma CategoryMonotone(x: real, y: real)
    requires x <= y
    ensures CategoryRank(CategorizeInsomnia(Num(x))) <= CategoryRank(CategorizeInsomnia(Num(y)))
  {
  }

  // ---------------------------------------------------------------------
  // Numeric features
  // ---------------------------------------------------------------------

  /** `academic_map`, looked up by the raw value: only a text answer can
      match, and a miss is NaN. */
  function AcademicNumeric(c: Cell): (r: Cell)
    ensures r.Missing? || (r.Int? && 0 <= r.i <= 5)
  {
    match c
    case Text(s) =>
      (match s
       case "Poor" => Int(0)
       case "Fair" => Int(1)
       case "Average" => Int(2)
       case "Good" => Int(3)
       case "Very good" => Int(4)
       case "Excellent" => Int(5)
       case _ => Missing)
    case _ => Missing
  }

  /** The six grades are numbered in their order. */
  lemma AcademicOrder()
    ensures AcademicNumeric(Text("Poor")).i < AcademicNumeric(Text("Fair")).i
    ensures AcademicNumeric(Text("Fair")).i < AcademicNumeric(Text("Average")).i
    ensures AcademicNumeric(Text("Average")).i < AcademicNumeric(Text("Good")).i
    ensures AcademicNumeric(Text("Good")).i < AcademicNumeric(Text("Very good")).i
    ensures AcademicNumeric(Text("Very good")).i < AcademicNumeric(Text("Excellent")).i
  {
  }

  /** `freq_simple` on the text `astype(str)` gives, with a miss as 0: the
      bare frequency words only, unstripped. */
  function FreqSimplePoints(s: string): (r: nat)
    ensures r <= 4
  {
    match s
    case "Never" => 0
    case "Rarely" => 1
    case "Sometimes" => 2
    case "Often" => 3
    case "Always" => 4
    case _ => 0
  }

  /** `DaytimeFatigue_numeric` and `ConcentrationDifficulty_numeric` for
      one cell. */
  function FreqSimple(c: Cell): (r: Cell)
    ensures r.Int? && 0 <= r.i <= 4
  {
    Int(FreqSimplePoints(Str(c)))
  }

  /** On a bare frequency word the simple table and `_map_freq` agree. */
  lemma FreqSimpleAgrees(w: string)
    requires w in {"Never", "Rarely", "Sometimes", "Often", "Always"}
    ensures FreqSimplePoints(w) == FreqPoints(w)
  {
  }

  /** On a banded answer they do not: "Often (5-6 times a week)" is 3 for
      the fatigue score and 0 for the fatigue feature. */
  lemma FreqSimpleBanded()
    ensures FreqPoints("Often (5-6 times a week)") == 3
    ensures FreqSimplePoints("Often (5-6 times a week)") == 0
  {
  }

  /** `missed_map` on the text `astype(str)` gives, with a miss as 0. */
  function MissedPoints(s: string): (r: nat)
    ensures r <= 4
  {
    match s
    case "Never" => 0
    case "Rarely (1\U{2013}2 times a month)" => 1
    case "Rarely (1-2 times a month)" => 1
    case "Sometimes (3\U{2013}4 times a month)" => 2
    case "Sometimes (3-4 times a month)" => 2
    case "Often (5\U{2013}6 times a month)" => 3
    case "Often (5-6 times a month)" => 3
    case "Always (every day)" => 4
    case _ => 0
  }

  /** `MissedClasses_numeric` for one cell. */
  function MissedNumeric(c: Cell): (r: Cell)
    ensures r.Int? && 0 <= r.i <= 4
  {
    Int(MissedPoints(Str(c)))
  }

  /** Both spellings of each monthly band score the same. */
  lemma MissedDashVariants()
    ensures MissedPoints("Rarely (1\U{2013}2 times a month)") == MissedPoints("Rarely (1-2 times a month)") == 1
    ensures MissedPoints("Sometimes (3\U{2013}4 times a month)") == MissedPoints("Sometimes (3-4 times a month)") == 2
    ensures MissedPoints("Often (5\U{2013}6 times a month)") == MissedPoints("Often (5-6 times a month)") == 3
    ensures MissedPoints("Always (every day)") == 4
  {
  }

  /** `gpa_map`, looked up by the raw value: the midpoint of each band, NaN
      on a miss. */
  function GpaNumeric(c: Cell): (r: Cell)
    ensures r.Missing? || (r.Real? && 1.5 <= r.r <= 3.85)
  {
    match c
    case Text(s) =>
      (match s
       case "Below 2.00" => Real(1.5)
       case "2.00 - 2.99" => Real(2.5)
       case "3.00 - 3.69" => Real(3.35)
       case "3.70 - 4.00" => Real(3.85)
       case _ => Missing)
    case _ => Missing
  }

  /** Higher bands get higher numbers, each inside its own band. */
  lemma GpaOrder()
    ensures GpaNumeric(Text("Below 2.00")).r < 2.0
    ensures 2.0 <= GpaNumeric(Text("2.00 - 2.99")).r <= 2.99
    ensures 3.0 <= GpaNumeric(Text("3.00 - 3.69")).r <= 3.69
    ensures 3.7 <= GpaNumeric(Text("3.70 - 4.00")).r <= 4.0
  {
  }
}

/** `prepare_aelyana_data` (cleaning_aelyana.py): the conditional rename,
    the four component scores and their 0-16 sum with its category, and the
    numeric features, added to a copy of the frame. */
module AelyanaPipeline {
  import opened Numbers
  import opened Cells
  import opened Tables
  import opened Shared
  import opened Schema
  import opened Aelyana

  // ---------------------------------------------------------------------
  // Scores and index
  // ---------------------------------------------------------------------

  /** A frequency score per row: `_map_freq` of the answer, or 0 in every
      row when the answer column is absent. */
  function FreqValues(t: Table, src: string): (r: seq<nat>)
    requires Valid(t)
    ensures |r| == t.height && forall i :: 0 <= i < |r| ==> r[i] <= 4
  {
    if src in t.columns then
      var col := Column(t, src);
      seq(t.height, i requires 0 <= i < t.height => MapFreq(col[i]))
    else
      seq(t.height, _ => 0)
  }

  /** The sleep-quality score per row: the inverted, clipped rating, or 0
      in every row when there is no rating column. */
  function QualityValues(t: Table): (r: seq<real>)
    requires Valid(t)
    ensures |r| == t.height && forall i :: 0 <= i < |r| ==> 0.0 <= r[i] <= 4.0
  {
    if "SleepQuality" in t.columns then
      var col := Column(t, "SleepQuality");
      seq(t.height, i requires 0 <= i < t.height => QualityRisk(ToNumeric(col[i])))
    else
      seq(t.height, _ => 0.0)
  }

  /** `InsomniaSeverity_index` per row: falling asleep, night wake-ups,
      quality and fatigue added up. */
  function SeverityValues(t: Table): (r: seq<real>)
    requires Valid(t)
    ensures |r| == t.height && forall i :: 0 <= i < |r| ==> 0.0 <= r[i] <= 16.0
  {
    var fall := FreqValues(t, "DifficultyFallingAsleep");
    var wake := FreqValues(t, "NightWakeups");
    var quality := QualityValues(t);
    var fatigue := FreqValues(t, "DaytimeFatigue");
    seq(t.height, i requires 0 <= i < t.height => fall[i] as real + wake[i] as real + quality[i] + fatigue[i] as real)
  }

  function Ints(ns: seq<nat>): (col: seq<Cell>)
    ensures |col| == |ns| && forall i :: 0 <= i < |ns| ==> col[i] == Int(ns[i])
  {
    seq(|ns|, i requires 0 <= i < |ns| => Int(ns[i]))
  }

  function Reals(xs: seq<real>): (col: seq<Cell>)
    ensures |col| == |xs| && forall i :: 0 <= i < |xs| ==> col[i] == Real(xs[i])
  {
    seq(|xs|, i requires 0 <= i < |xs| => Real(xs[i]))
  }

  /** `SleepQuality_Score`: floats from the rating, or the integer 0. */
  function QualityColumn(t: Table): (col: seq<Cell>)
    requires Valid(t)
    ensures |col| == t.height
  {
    if "SleepQuality" in t.columns then Reals(QualityValues(t)) else Constant(Int(0), t.height)
  }

  /** `Insomnia_Category` for the index of every row. */
  function Categories(xs: seq<real>): (col: seq<Cell>)
    ensures |col| == |xs| && forall i :: 0 <= i < |xs| ==> col[i] == CategorizeInsomnia(Num(xs[i]))
  {
    seq(|xs|, i requires 0 <= i < |xs| => CategorizeInsomnia(Num(xs[i])))
  }

  /** The six score columns, in the order the source assigns them. */
  function Scored(t: Table): (r: Table)
    requires Valid(t)
    ensures Valid(r) && r.height == t.height
  {
    var t1 := WithColumn(t, "SleepQuality_Score", QualityColumn(t));
    var t2 := WithColumn(t1, "FallingAsleep_Score", Ints(FreqValues(t, "DifficultyFallingAsleep")));
    var t3 := WithColumn(t2, "NightWakeups_Score", Ints(FreqValues(t, "NightWakeups")));
    var t4 := WithColumn(t3, "Fatigue_Score", Ints(FreqValues(t, "DaytimeFatigue")));
    var t5 := WithColumn(t4, "InsomniaSeverity_index", Reals(SeverityValues(t)));
    WithColumn(t5, "Insomnia_Category", Categories(SeverityValues(t)))
  }

  /** The labels of the scoring step. */
  predicate ScoreLabel(n: string) {
    n in {"SleepQuality_Score", "FallingAsleep_Score", "NightWakeups_Score", "Fatigue_Score",
          "InsomniaSeverity_index", "Insomnia_Category"}
  }

  /** Scoring keeps every other column as it was. */
  lemma {:induction false} ScoredKeeps(t: Table, n: string)
    requires Valid(t) && n in t.columns && !ScoreLabel(n)
    ensures n in Scored(t).columns && Column(Scored(t), n) == Column(t, n)
  {
    var t1 := WithColumn(t, "SleepQuality_Score", QualityColumn(t));
    WithColumnKeeps(t, "SleepQuality_Score", QualityColumn(t), n);
    var t2 := WithColumn(t1, "FallingAsleep_Score", Ints(FreqValues(t, "DifficultyFallingAsleep")));
    WithColumnKeeps(t1, "FallingAsleep_Score", Ints(FreqValues(t, "DifficultyFallingAsleep")), n);
    var t3 := WithColumn(t2, "NightWakeups_Score", Ints(FreqValues(t, "NightWakeups")));
    WithColumnKeeps(t2, "NightWakeups_Score", Ints(FreqValues(t, "NightWakeups")), n);
    var t4 := WithColumn(t3, "Fatigue_Score", Ints(FreqValues(t, "DaytimeFatigue")));
    WithColumnKeeps(t3, "Fatigue_Score", Ints(FreqValues(t, "DaytimeFatigue")), n);
    var t5 := WithColumn(t4, "InsomniaSeverity_index", Reals(SeverityValues(t)));
    WithColumnKeeps(t4, "InsomniaSeverity_index", Reals(SeverityValues(t)), n);
    WithColumnKeeps(t5, "Insomnia_Category", Categories(SeverityValues(t)), n);
  }

  /** Each score column holds the scores it was given: adding the later
      columns does not touch it. */
  lemma {:induction false} ScoredQuality(t: Table)
    requires Valid(t)
    ensures "SleepQuality_Score" in Scored(t).columns
    ensures Column(Scored(t), "SleepQuality_Score") == QualityColumn(t)
  {
    var n := "SleepQuality_Score";
    var t1 := WithColumn(t, "SleepQuality_Score", QualityColumn(t));
    var t2 := WithColumn(t1, "FallingAsleep_Score", Ints(FreqValues(t, "DifficultyFallingAsleep")));
    WithColumnKeeps(t1, "FallingAsleep_Score", Ints(FreqValues(t, "DifficultyFallingAsleep")), n);
    var t3 := WithColumn(t2, "NightWakeups_Score", Ints(FreqValues(t, "NightWakeups")));
    WithColumnKeeps(t2, "NightWakeups_Score", Ints(FreqValues(t, "NightWakeups")), n);
    var t4 := WithColumn(t3, "Fatigue_Score", Ints(FreqValues(t, "DaytimeFatigue")));
    WithColumnKeeps(t3, "Fatigue_Score", Ints(FreqValues(t, "DaytimeFatigue")), n);
    var t5 := WithColumn(t4, "InsomniaSeverity_index", Reals(SeverityValues(t)));
    WithColumnKeeps(t4, "InsomniaSeverity_index", Reals(SeverityValues(t)), n);
    WithColumnKeeps(t5, "Insomnia_Category", Categories(SeverityValues(t)), n);
  }

  lemma {:induction false} ScoredFalling(t: Table)
    requires Valid(t)
    ensures "FallingAsleep_Score" in Scored(t).columns
    ensures Column(Scored(t), "FallingAsleep_Score") == Ints(FreqValues(t, "DifficultyFallingAsleep"))
  {
    var n := "FallingAsleep_Score";
    var t1 := WithColumn(t, "SleepQuality_Score", QualityColumn(t));
    var t2 := WithColumn(t1, "FallingAsleep_Score", Ints(FreqValues(t, "DifficultyFallingAsleep")));
    var t3 := WithColumn(t2, "NightWakeups_Score", Ints(FreqValues(t, "NightWakeups")));
    WithColumnKeeps(t2, "NightWakeups_Score", Ints(FreqValues(t, "NightWakeups")), n);
    var t4 := WithColumn(t3, "Fatigue_Score", Ints(FreqValues(t, "DaytimeFatigue")));
    WithColumnKeeps(t3, "Fatigue_Score", Ints(FreqValues(t, "DaytimeFatigue")), n);
    var t5 := WithColumn(t4, "InsomniaSeverity_index", Reals(SeverityValues(t)));
    WithColumnKeeps(t4, "InsomniaSeverity_index", Reals(SeverityValues(t)), n);
    WithColumnKeeps(t5, "Insomnia_Category", Categories(SeverityValues(t)), n);
  }

  lemma {:induction false} ScoredWakeups(t: Table)
    requires Valid(t)
    ensures "NightWakeups_Score" in Scored(t).columns
    ensures Column(Scored(t), "NightWakeups_Score") == Ints(FreqValues(t, "NightWakeups"))
  {
    var n := "NightWakeups_Score";
    var t1 := WithColumn(t, "SleepQuality_Score", QualityColumn(t));
    var t2 := WithColumn(t1, "FallingAsleep_Score", Ints(FreqValues(t, "DifficultyFallingAsleep")));
    var t3 := WithColumn(t2, "NightWakeups_Score", Ints(FreqValues(t, "NightWakeups")));
    var t4 := WithColumn(t3, "Fatigue_Score", Ints(FreqValues(t, "DaytimeFatigue")));
    WithColumnKeeps(t3, "Fatigue_Score", Ints(FreqValues(t, "DaytimeFatigue")), n);
    var t5 := WithColumn(t4, "InsomniaSeverity_index", Reals(SeverityValues(t)));
    WithColumnKeeps(t4, "InsomniaSeverity_index", Reals(SeverityValues(t)), n);
    WithColumnKeeps(t5, "Insomnia_Category", Categories(SeverityValues(t)), n);
  }

  lemma {:induction false} ScoredFatigue(t: Table)
    requires Valid(t)
    ensures "Fatigue_Score" in Scored(t).columns
    ensures Column(Scored(t), "Fatigue_Score") == Ints(FreqValues(t, "DaytimeFatigue"))
  {
    var n := "Fatigue_Score";
    var t1 := WithColumn(t, "SleepQuality_Score", QualityColumn(t));
    var t2 := WithColumn(t1, "FallingAsleep_Score", Ints(FreqValues(t, "DifficultyFallingAsleep")));
    var t3 := WithColumn(t2, "NightWakeups_Score", Ints(FreqValues(t, "NightWakeups")));
    var t4 := WithColumn(t3, "Fatigue_Score", Ints(FreqValues(t, "DaytimeFatigue")));
    var t5 := WithColumn(t4, "InsomniaSeverity_index", Reals(SeverityValues(t)));
    WithColumnKeeps(t4, "InsomniaSeverity_index", Reals(SeverityValues(t)), n);
    WithColumnKeeps(t5, "Insomnia_Category", Categories(SeverityValues(t)), n);
  }

  lemma {:induction false} ScoredIndex(t: Table)
    requires Valid(t)
    ensures "InsomniaSeverity_index" in Scored(t).columns
    ensures Column(Scored(t), "InsomniaSeverity_index") == Reals(SeverityValues(t))
  {
  }

  lemma {:induction false} ScoredCategory(t: Table)
    requires Valid(t)
    ensures "Insomnia_Category" in Scored(t).columns
    ensures Column(Scored(t), "Insomnia_Category") == Categories(SeverityValues(t))
  {
  }

  /** The number a score cell holds. */
  function Points(c: Cell): real {
    match ToNumeric(c)
    case NaN => 0.0
    case Num(v) => v
  }

  /** `r` holds the score columns of `t`. */
  predicate HoldsScores(t: Table, r: Table)
    requires Valid(t) && Valid(r)
  {
    && "SleepQuality_Score" in r.columns && Column(r, "SleepQuality_Score") == QualityColumn(t)
    && "FallingAsleep_Score" in r.columns && Column(r, "FallingAsleep_Score") == Ints(FreqValues(t, "DifficultyFallingAsleep"))
    && "NightWakeups_Score" in r.columns && Column(r, "NightWakeups_Score") == Ints(FreqValues(t, "NightWakeups"))
    && "Fatigue_Score" in r.columns && Column(r, "Fatigue_Score") == Ints(FreqValues(t, "DaytimeFatigue"))
    && "InsomniaSeverity_index" in r.columns && Column(r, "InsomniaSeverity_index") == Reals(SeverityValues(t))
    && "Insomnia_Category" in r.columns && Column(r, "Insomnia_Category") == Categories(SeverityValues(t))
  }

  lemma {:induction false} ScoredHolds(t: Table)
    requires Valid(t)
    ensures HoldsScores(t, Scored(t))
  {
    ScoredQuality(t);
    ScoredFalling(t);
    ScoredWakeups(t);
    ScoredFatigue(t);
    ScoredIndex(t);
    ScoredCategory(t);
  }

  /** In every row the index is the sum of the four score columns beside
      it, and the category is that of the index; stated on any table that
      holds the scores of `t`, as `Scored(t)` does (`ScoredHolds`). */
  lemma {:induction false} IndexIsSum(t: Table, r: Table, i: nat)
    requires Valid(t) && Valid(r) && i < t.height && r.height == t.height
    requires HoldsScores(t, r)
    ensures Column(r, "InsomniaSeverity_index")[i] == Real(
           Points(Column(r, "FallingAsleep_Score")[i]) + Points(Column(r, "NightWakeups_Score")[i])
           + Points(Column(r, "SleepQuality_Score")[i]) + Points(Column(r, "Fatigue_Score")[i]))
    ensures Column(r, "Insomnia_Category")[i] == CategorizeInsomnia(ToNumeric(Column(r, "InsomniaSeverity_index")[i]))
  {
    QualityPointsAt(t, i);
    IntPoints(Column(r, "FallingAsleep_Score")[i], FreqValues(t, "DifficultyFallingAsleep")[i]);
    IntPoints(Column(r, "NightWakeups_Score")[i], FreqValues(t, "NightWakeups")[i]);
    IntPoints(Column(r, "Fatigue_Score")[i], FreqValues(t, "DaytimeFatigue")[i]);
    assert Column(r, "InsomniaSeverity_index")[i] == Real(SeverityValues(t)[i]);
  }

  /** An integer score cell is worth its integer. */
  lemma IntPoints(c: Cell, n: nat)
    requires c == Int(n)
    ensures Points(c) == n as real
  {
  }

  /** The quality score cell holds the quality value of its row, as a
      float or as the integer 0. */
  lemma QualityPointsAt(t: Table, i: nat)
    requires Valid(t) && i < t.height
    ensures Points(QualityColumn(t)[i]) == QualityValues(t)[i]
  {
  }

  /** Without any of the four answer columns every row scores 0 and is
      "Low / No Insomnia". */
  lemma {:induction false} NoAnswersLow(t: Table, i: nat)
    requires Valid(t) && i < t.height
    requires "DifficultyFallingAsleep" !in t.columns && "NightWakeups" !in t.columns
    requires "SleepQuality" !in t.columns && "DaytimeFatigue" !in t.columns
    ensures SeverityValues(t)[i] == 0.0
    ensures CategorizeInsomnia(Num(SeverityValues(t)[i])) == Text(LowInsomnia)
  {
  }

  // ---------------------------------------------------------------------
  // Features
  // ---------------------------------------------------------------------

  function EstimateCell(c: Cell): Cell {
    FromFloat(SleepHoursToEst(c))
  }

  /** The estimate is added only when there are hours answers and no
      estimate column yet. */
  function WithEstimate(t: Table): (r: Table)
    requires Valid(t)
    ensures Valid(r) && r.height == t.height
  {
    if "SleepHours" in t.columns && "SleepHours_est" !in t.columns then
      WithColumn(t, "SleepHours_est", MapCells(Column(t, "SleepHours"), EstimateCell))
    else t
  }

  /** The feature columns, in the order the source adds them. */
  function Featured(t: Table): (r: Table)
    requires Valid(t)
    ensures Valid(r) && r.height == t.height
  {
    var t1 := WithEstimate(t);
    var t2 := Derive(t1, "AcademicPerformance", "AcademicPerformance_numeric", AcademicNumeric);
    var t3 := Derive(t2, "DaytimeFatigue", "DaytimeFatigue_numeric", FreqSimple);
    var t4 := Derive(t3, "ConcentrationDifficulty", "ConcentrationDifficulty_numeric", FreqSimple);
    var t5 := Derive(t4, "MissedClasses", "MissedClasses_numeric", MissedNumeric);
    var t6 := Derive(t5, "GPA", "GPA_numeric", GpaNumeric);
    Derive(t6, "CGPA", "CGPA_numeric", GpaNumeric)
  }

  /** The destination labels of the feature step. */
  predicate FeatureLabel(n: string) {
    n in {"AcademicPerformance_numeric", "DaytimeFatigue_numeric", "ConcentrationDifficulty_numeric",
          "MissedClasses_numeric", "GPA_numeric", "CGPA_numeric"}
  }

  /** The six lookups touch no other column. */
  lemma {:induction false} LookupsKeep(t: Table, n: string)
    requires Valid(t) && n in t.columns && !FeatureLabel(n)
    ensures var t2 := Derive(t, "AcademicPerformance", "AcademicPerformance_numeric", AcademicNumeric);
      var t3 := Derive(t2, "DaytimeFatigue", "DaytimeFatigue_numeric", FreqSimple);
      var t4 := Derive(t3, "ConcentrationDifficulty", "ConcentrationDifficulty_numeric", FreqSimple);
      var t5 := Derive(t4, "MissedClasses", "MissedClasses_numeric", MissedNumeric);
      var t6 := Derive(t5, "GPA", "GPA_numeric", GpaNumeric);
      var r := Derive(t6, "CGPA", "CGPA_numeric", GpaNumeric);
      n in r.columns && Column(r, n) == Column(t, n)
  {
    var t2 := Derive(t, "AcademicPerformance", "AcademicPerformance_numeric", AcademicNumeric);
    DeriveKeeps(t, "AcademicPerformance", "AcademicPerformance_numeric", AcademicNumeric, n);
    var t3 := Derive(t2, "DaytimeFatigue", "DaytimeFatigue_numeric", FreqSimple);
    DeriveKeeps(t2, "DaytimeFatigue", "DaytimeFatigue_numeric", FreqSimple, n);
    var t4 := Derive(t3, "ConcentrationDifficulty", "ConcentrationDifficulty_numeric", FreqSimple);
    DeriveKeeps(t3, "ConcentrationDifficulty", "ConcentrationDifficulty_numeric", FreqSimple, n);
    var t5 := Derive(t4, "MissedClasses", "MissedClasses_numeric", MissedNumeric);
    DeriveKeeps(t4, "MissedClasses", "MissedClasses_numeric", MissedNumeric, n);
    var t6 := Derive(t5, "GPA", "GPA_numeric", GpaNumeric);
    DeriveKeeps(t5, "GPA", "GPA_numeric", GpaNumeric, n);
    DeriveKeeps(t6, "CGPA", "CGPA_numeric", GpaNumeric, n);
  }

  /** An existing `SleepHours_est` column is never overwritten. */
  lemma {:induction false} EstimateKept(t: Table)
    requires Valid(t) && "SleepHours_est" in t.columns
    ensures "SleepHours_est" in Featured(t).columns
    ensures Column(Featured(t), "SleepHours_est") == Column(t, "SleepHours_est")
  {
    LookupsKeep(WithEstimate(t), "SleepHours_est");
  }

  /** Without one, the estimate of every hours answer is added. */
  lemma {:induction false} EstimateAdded(t: Table)
    requires Valid(t) && "SleepHours" in t.columns && "SleepHours_est" !in t.columns
    ensures "SleepHours_est" in Featured(t).columns
    ensures Column(Featured(t), "SleepHours_est") == MapCells(Column(t, "SleepHours"), EstimateCell)
  {
    LookupsKeep(WithEstimate(t), "SleepHours_est");
  }

  /** The feature step keeps every answer column and every score. */
  lemma {:induction false} FeaturedKeeps(t: Table, n: string)
    requires Valid(t) && n in t.columns && !FeatureLabel(n) && n != "SleepHours_est"
    ensures n in Featured(t).columns && Column(Featured(t), n) == Column(t, n)
  {
    LookupsKeep(WithEstimate(t), n);
  }

  // ---------------------------------------------------------------------
  // The whole preparation
  // ---------------------------------------------------------------------

  /** `prepare_aelyana_data` on a non-empty table. */
  function Prepared(t: Table, cands: Candidates, toDatetime: Cell -> Cell): (r: Table)
    requires Valid(t)
    ensures Valid(r) && r.height == t.height
  {
    Featured(Scored(ParseTimestamps(Renamed(t, cands), toDatetime)))
  }

  /** The score columns, each computed from the answers as they were
      before scoring. */
  method AddScores(df: Frame)
    requires Valid(df.Value())
    modifies df
    ensures df.Value() == Scored(old(df.Value()))
  {
    var t := df.Value();
    var severity := SeverityValues(t);
    df.SetColumn("SleepQuality_Score", QualityColumn(t));
    df.SetColumn("FallingAsleep_Score", Ints(FreqValues(t, "DifficultyFallingAsleep")));
    df.SetColumn("NightWakeups_Score", Ints(FreqValues(t, "NightWakeups")));
    df.SetColumn("Fatigue_Score", Ints(FreqValues(t, "DaytimeFatigue")));
    df.SetColumn("InsomniaSeverity_index", Reals(severity));
    df.SetColumn("Insomnia_Category", Categories(severity));
  }

  /** The feature columns. */
  method AddFeatures(df: Frame)
    requires Valid(df.Value())
    modifies df
    ensures df.Value() == Featured(old(df.Value()))
  {
    if "SleepHours" in df.columns && "SleepHours_est" !in df.columns {
      df.SetColumn("SleepHours_est", MapCells(Column(df.Value(), "SleepHours"), EstimateCell));
    }
    DeriveColumn(df, "AcademicPerformance", "AcademicPerformance_numeric", AcademicNumeric);
    DeriveColumn(df, "DaytimeFatigue", "DaytimeFatigue_numeric", FreqSimple);
    DeriveColumn(df, "ConcentrationDifficulty", "ConcentrationDifficulty_numeric", FreqSimple);
    DeriveColumn(df, "MissedClasses", "MissedClasses_numeric", MissedNumeric);
    DeriveColumn(df, "GPA", "GPA_numeric", GpaNumeric);
    DeriveColumn(df, "CGPA", "CGPA_numeric", GpaNumeric);
  }

  /** `prepare_aelyana_data(df)` for any list of rename candidates: a
      missing or empty table comes back as it is; otherwise a new table
      holding the prepared copy, and the input is left untouched. */
  method PrepareWith(df: Frame?, cands: Candidates, toDatetime: Cell -> Cell) returns (out: Frame?)
    requires df != null ==> Valid(df.Value())
    ensures df == null || df.height == 0 ==> out == df
    ensures df != null && df.height > 0 ==>
      out != null && fresh(out) && out.Value() == Prepared(df.Value(), cands, toDatetime)
  {
    if df == null || df.height == 0 {
      return df;
    }
    out := df.Copy();
    PrepareInPlace(out, cands, toDatetime);
  }

  /** The steps after `df.copy()`, on the copy. */
  method PrepareInPlace(df: Frame, cands: Candidates, toDatetime: Cell -> Cell)
    requires Valid(df.Value())
    modifies df
    ensures df.Value() == Prepared(old(df.Value()), cands, toDatetime)
  {
    RenameInPlace(df, cands);
    ParseTimestampsInPlace(df, toDatetime);
    AddScores(df);
    AddFeatures(df);
  }
}

/** `prepare_aelyana_data` with its own table of rename candidates. */
module AelyanaForm {
  import opened Cells
  import opened Tables
  import opened Schema
  import opened Questions
  import opened AelyanaPipeline

  /** `rename_candidates`: the twelve questions this page reads. */
  const AelyanaCandidates: Candidates := [
    ("Timestamp", "Timestamp"),
    (DifficultyFallingAsleepQuestion, "DifficultyFallingAsleep"),
    (NightWakeupsQuestion, "NightWakeups"),
    (SleepQualityQuestion, "SleepQuality"),
    (DaytimeFatigueQuestion, "DaytimeFatigue"),
    (SleepHoursQuestion, "SleepHours"),
    (ConcentrationDifficultyQuestion, "ConcentrationDifficulty"),
    (MissedClassesQuestion, "MissedClasses"),
    (AssignmentImpactQuestion, "AssignmentImpact"),
    (AcademicPerformanceQuestion, "AcademicPerformance"),
    (GPAQuestion, "GPA"),
    (CGPAQuestion, "CGPA")
  ]

  /** A list of twelve well-formed candidates, whatever their text, is
      consistent. */
  lemma {:induction false} EntriesConsistent(
      p0: (string, string), p1: (string, string), p2: (string, string),
      p3: (string, string), p4: (string, string), p5: (string, string),
      p6: (string, string), p7: (string, string), p8: (string, string),
      p9: (string, string), p10: (string, string), p11: (string, string))
    requires WellFormed(p0)
    requires WellFormed(p1)
    requires WellFormed(p2)
    requires WellFormed(p3)
    requires WellFormed(p4)
    requires WellFormed(p5)
    requires WellFormed(p6)
    requires WellFormed(p7)
    requires WellFormed(p8)
    requires WellFormed(p9)
    requires WellFormed(p10)
    requires WellFormed(p11)
    ensures Consistent(Keyed([p0, p1, p2, p3, p4, p5, p6, p7, p8, p9, p10, p11]))
  {
    WellFormedConsistent([p0, p1, p2, p3, p4, p5, p6, p7, p8, p9, p10, p11]);
  }

  /** Every candidate of the page is a normalised question with a short name
      without whitespace, so the page's candidates are consistent. */
  lemma {:induction false} CandidatesConsistent()
    ensures Consistent(Keyed(AelyanaCandidates))
  {
    ShortWellFormed("Timestamp");
    DifficultyFallingAsleepCandidate();
    NightWakeupsCandidate();
    SleepQualityCandidate();
    DaytimeFatigueCandidate();
    SleepHoursCandidate();
    ConcentrationDifficultyCandidate();
    MissedClassesCandidate();
    AssignmentImpactCandidate();
    AcademicPerformanceCandidate();
    GPACandidate();
    CGPACandidate();
    EntriesConsistent(
      ("Timestamp", "Timestamp"),
      (DifficultyFallingAsleepQuestion, "DifficultyFallingAsleep"),
      (NightWakeupsQuestion, "NightWakeups"),
      (SleepQualityQuestion, "SleepQuality"),
      (DaytimeFatigueQuestion, "DaytimeFatigue"),
      (SleepHoursQuestion, "SleepHours"),
      (ConcentrationDifficultyQuestion, "ConcentrationDifficulty"),
      (MissedClassesQuestion, "MissedClasses"),
      (AssignmentImpactQuestion, "AssignmentImpact"),
      (AcademicPerformanceQuestion, "AcademicPerformance"),
      (GPAQuestion, "GPA"),
      (CGPAQuestion, "CGPA"));
  }

  /** The page's conditional rename, applied a second time, changes
      nothing. */
  lemma {:induction false} RenameIdempotent(cols: seq<string>)
    ensures ConditionalRename(ConditionalRename(cols, AelyanaCandidates), AelyanaCandidates)
         == ConditionalRename(cols, AelyanaCandidates)
  {
    CandidatesConsistent();
    ConditionalRenameIdempotent(cols, AelyanaCandidates);
  }

  method PrepareAelyanaData(df: Frame?, toDatetime: Cell -> Cell) returns (out: Frame?)
    requires df != null ==> Valid(df.Value())
    ensures df == null || df.height == 0 ==> out == df
    ensures df != null && df.height > 0 ==>
      out != null && fresh(out) && out.Value() == Prepared(df.Value(), AelyanaCandidates, toDatetime)
  {
    if df == null || df.height == 0 {
      return df;
    }
    out := PrepareWith(df, AelyanaCandidates, toDatetime);
  }
}
