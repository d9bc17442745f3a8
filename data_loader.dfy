/** The shared loader of data_loader.py: header clean-up, the robust rename
    to short names, and the derived columns every page reads (the sleep-hours
    estimate, the 0-28 insomnia index and the lifestyle risk). */
module Loader {
  import opened Strings
  import opened Numbers
  import opened Cells
  import opened Headers
  import opened Tables
  import opened Shared

  // ---------------------------------------------------------------------
  // Sleep-hours estimate
  // ---------------------------------------------------------------------

  /** `str(x).strip().lower().replace("–", "-")`: the text the estimate
      reads. */
  function Prepared(s: string): string {
    ReplaceChar(Lower(Strip(s)), EnDash, '-')
  }

  /** The digit runs of an answer as integers turned into numbers. */
  function AsReals(nums: seq<nat>): (r: seq<real>)
    ensures |r| == |nums| && forall i :: 0 <= i < |nums| ==> r[i] == nums[i] as real
  {
    seq(|nums|, i requires 0 <= i < |nums| => nums[i] as real)
  }

  /** The estimate from the prepared text: "more than N" is half an hour
      over N, "less than N" half an hour under it, otherwise the first
      number or the mean of the first two. */
  function HoursFromText(t: string): Float {
    var nums := DigitRuns(t);
    if Contains(t, "more than") then
      if nums == [] then NaN else Num(nums[0] as real + 0.5)
    else if Contains(t, "less than") then
      if nums == [] then NaN else Num(nums[0] as real - 0.5)
    else
      FromNumbers(AsReals(nums))
  }

  /** `_sleep_hours_to_estimate(x)` */
  function SleepHoursEstimate(c: Cell): Float {
    if IsMissing(c) then NaN else HoursFromText(Prepared(Str(c)))
  }

  /** Lower-casing and replacing the dash touch neither digits nor points,
      so the prepared text holds the numbers of the stripped answer. */
  lemma {:induction false} PreparedFigures(s: string)
    ensures SameFigures(Prepared(s), Strip(s))
    ensures NoDigits(Prepared(s)) <==> NoDigits(Strip(s))
    ensures DigitRuns(Prepared(s)) == DigitRuns(Strip(s))
  {
    DigitRunsSame(Prepared(s), Strip(s));
  }

  /** The estimate from a text is NaN exactly when the text has no digit. */
  lemma {:induction false} HoursDefined(t: string)
    ensures HoursFromText(t).NaN? <==> NoDigits(t)
  {
    DigitRunsEmpty(t);
  }

  /** A missing answer, or one without a digit, has no estimate; every
      other answer has one. */
  lemma {:induction false} EstimateDefined(c: Cell)
    ensures SleepHoursEstimate(c).NaN? <==> c.Missing? || NoDigits(Strip(Str(c)))
  {
    PreparedFigures(Str(c));
    HoursDefined(Prepared(Str(c)));
  }

  /** "more than" and a first number n give n and a half. */
  lemma {:induction false} HoursOfMore(t: string, n: nat)
    requires Contains(t, "more than") && |DigitRuns(t)| >= 1 && DigitRuns(t)[0] == n
    ensures HoursFromText(t) == Num(n as real + 0.5)
  {
  }

  /** "less than" without "more than" and a first number n give n less a
      half. */
  lemma {:induction false} HoursOfLess(t: string, n: nat)
    requires !Contains(t, "more than") && Contains(t, "less than")
    requires |DigitRuns(t)| >= 1 && DigitRuns(t)[0] == n
    ensures HoursFromText(t) == Num(n as real - 0.5)
  {
  }

  /** Without either phrase the estimate is the first number, or the mean
      of the first two. */
  lemma {:induction false} HoursPlain(t: string)
    requires !Contains(t, "more than") && !Contains(t, "less than")
    ensures HoursFromText(t) == FromNumbers(AsReals(DigitRuns(t)))
  {
  }

  /** No whitespace at either end, as `strip()` leaves a text. */
  predicate Stripped(s: string) {
    s != [] ==> !IsSpace(s[0]) && !IsSpace(s[|s| - 1])
  }

  /** A stripped answer is read lower-cased with the en dash replaced. */
  lemma {:induction false} PreparedStripped(s: string)
    requires Stripped(s)
    ensures Prepared(s) == ReplaceChar(Lower(s), EnDash, '-')
  {
    StripKeeps(s);
  }

  /** A stripped answer with neither case of the letter `x` has no `x` in
      its prepared text. */
  lemma {:induction false} PreparedLacks(s: string, x: char)
    requires Stripped(s) && 'a' <= x <= 'z'
    requires Lacks(s, x) && Lacks(s, (x as int - 32) as char)
    ensures Lacks(Prepared(s), x)
  {
    PreparedStripped(s);
    LowerLacks(s, x);
    ReplaceLacks(Lower(s), EnDash, '-', x);
  }

  /** So no phrase with that letter occurs in the prepared text. */
  lemma {:induction false} PreparedAvoids(s: string, x: char, phrase: string, j: nat)
    requires Stripped(s) && 'a' <= x <= 'z' && j < |phrase| && phrase[j] == x
    requires Lacks(s, x) && Lacks(s, (x as int - 32) as char)
    ensures !Contains(Prepared(s), phrase)
  {
    PreparedLacks(s, x);
    NotContainsChar(Prepared(s), phrase, j);
  }

  /** A phrase without an en dash found in the lower-cased answer is found
      in its prepared text. */
  lemma {:induction false} PhraseKept(s: string, phrase: string, p: nat)
    requires Stripped(s) && OccursAt(Lower(s), phrase, p) && EnDash !in phrase
    ensures Contains(Prepared(s), phrase)
  {
    PreparedStripped(s);
    ReplaceKeepsOccurrence(Lower(s), EnDash, '-', phrase, p);
    ContainsAt(ReplaceChar(Lower(s), EnDash, '-'), phrase, p);
  }

  /** An answer that lacks a letter of "more than" and a letter of "less
      than" (in either case) is estimated from its numbers alone. */
  lemma {:induction false} AnswerPlain(s: string, x: char, j: nat, y: char, k: nat)
    requires Stripped(s)
    requires 'a' <= x <= 'z' && j < 9 && "more than"[j] == x && Lacks(s, x) && Lacks(s, (x as int - 32) as char)
    requires 'a' <= y <= 'z' && k < 9 && "less than"[k] == y && Lacks(s, y) && Lacks(s, (y as int - 32) as char)
    ensures SleepHoursEstimate(Text(s)) == FromNumbers(AsReals(DigitRuns(s)))
  {
    PreparedAvoids(s, x, "more than", j);
    PreparedAvoids(s, y, "less than", k);
    PreparedFigures(s);
    StripKeeps(s);
    HoursPlain(Prepared(s));
  }

  /** An answer whose first number is n and which says "more than" (in
      any case) is half an hour over n. */
  lemma {:induction false} AnswerMoreThan(s: string, n: nat, p: nat)
    requires Stripped(s) && |DigitRuns(s)| >= 1 && DigitRuns(s)[0] == n
    requires OccursAt(Lower(s), "more than", p)
    ensures SleepHoursEstimate(Text(s)) == Num(n as real + 0.5)
  {
    PhraseKept(s, "more than", p);
    PreparedFigures(s);
    StripKeeps(s);
    HoursOfMore(Prepared(s), n);
  }

  /** An answer whose first number is n, which says "less than" (in any
      case) and has no letter m is half an hour under n. */
  lemma {:induction false} AnswerLessThan(s: string, n: nat, p: nat)
    requires Stripped(s) && |DigitRuns(s)| >= 1 && DigitRuns(s)[0] == n
    requires OccursAt(Lower(s), "less than", p) && Lacks(s, 'm') && Lacks(s, 'M')
    ensures SleepHoursEstimate(Text(s)) == Num(n as real - 0.5)
  {
    PhraseKept(s, "less than", p);
    PreparedAvoids(s, 'm', "more than", 0);
    PreparedFigures(s);
    StripKeeps(s);
    HoursOfLess(Prepared(s), n);
  }

  /** Characters of a text made of two numbers, each followed by a tail. */
  lemma {:induction false} TwoNumbersAvoid(a: nat, mid: string, b: nat, post: string, x: char)
    requires !IsDigit(x) && x !in mid && x !in post
    ensures Lacks(ShowNat(a) + mid + ShowNat(b) + post, x)
  {
    var sa, sb := ShowNat(a), ShowNat(b);
    var s := sa + mid + sb + post;
    forall i | 0 <= i < |s|
      ensures s[i] != x
    {
      if i < |sa| {
        assert s[i] == sa[i];
      } else if i < |sa| + |mid| {
        assert s[i] == mid[i - |sa|];
      } else if i < |sa| + |mid| + |sb| {
        assert s[i] == sb[i - |sa| - |mid|];
      } else {
        assert s[i] == post[i - |sa| - |mid| - |sb|];
      }
    }
  }

  /** Characters of a text made of one number between `pre` and `post`. */
  lemma {:induction false} OneNumberAvoid(pre: string, n: nat, post: string, x: char)
    requires !IsDigit(x) && x !in pre && x !in post
    ensures Lacks(pre + ShowNat(n) + post, x)
  {
    var sn := ShowNat(n);
    var s := pre + sn + post;
    forall i | 0 <= i < |s|
      ensures s[i] != x
    {
      if i < |pre| {
        assert s[i] == pre[i];
      } else if i < |pre| + |sn| {
        assert s[i] == sn[i - |pre|];
      } else {
        assert s[i] == post[i - |pre| - |sn|];
      }
    }
  }

  /** An answer with one number and no letter t (so neither phrase) is
      that number. */
  lemma {:induction false} AnswerOne(s: string, n: nat)
    requires Stripped(s) && DigitRuns(s) == [n] && Lacks(s, 't') && Lacks(s, 'T')
    ensures SleepHoursEstimate(Text(s)) == Num(n as real)
  {
    AnswerPlain(s, 't', 5, 't', 5);
  }

  /** An answer with two numbers and no letter t is their mean. */
  lemma {:induction false} AnswerTwo(s: string, a: nat, b: nat)
    requires Stripped(s) && DigitRuns(s) == [a, b] && Lacks(s, 't') && Lacks(s, 'T')
    ensures SleepHoursEstimate(Text(s)) == Num((a + b) as real / 2.0)
  {
    AnswerPlain(s, 't', 5, 't', 5);
  }

  /** The facts about "n or more hours" the estimate needs, one per
      lemma. */
  lemma {:induction false} OrMoreRuns(n: nat)
    ensures DigitRuns(ShowNat(n) + " or more hours") == [n]
  {
    assert ShowNat(n) + " or more hours" == "" + ShowNat(n) + " or more hours";
    DigitRunsOne("", n, " or more hours");
  }
  lemma {:induction false} OrMoreLacks(n: nat)
    ensures Lacks(ShowNat(n) + " or more hours", 't') && Lacks(ShowNat(n) + " or more hours", 'T')
  {
    OneNumberAvoid("", n, " or more hours", 't');
    OneNumberAvoid("", n, " or more hours", 'T');
    assert ShowNat(n) + " or more hours" == "" + ShowNat(n) + " or more hours";
  }
  lemma {:induction false} OrMoreStripped(n: nat)
    ensures Stripped(ShowNat(n) + " or more hours")
  {
    var s := ShowNat(n) + " or more hours";
    assert s[0] == ShowNat(n)[0];
  }
  /** "n or more hours" says "more" but not "more than": it is n. */
  lemma {:induction false} LoaderOrMoreAnswer(n: nat)
    ensures SleepHoursEstimate(Text(ShowNat(n) + " or more hours")) == Num(n as real)
  {
    OrMoreRuns(n);
    OrMoreLacks(n);
    OrMoreStripped(n);
    AnswerOne(ShowNat(n) + " or more hours", n);
  }

  /** The facts about "a<sep>b hours" the estimate needs, one per lemma. */
  lemma {:induction false} TwoRuns(a: nat, sep: string, b: nat)
    requires sep != [] && NoDigits(sep)
    ensures DigitRuns(ShowNat(a) + sep + ShowNat(b) + " hours") == [a, b]
  {
    assert ShowNat(a) + sep + ShowNat(b) + " hours" == "" + ShowNat(a) + sep + ShowNat(b) + " hours";
    DigitRunsTwo("", a, sep, b, " hours");
  }
  lemma {:induction false} TwoLacks(a: nat, sep: string, b: nat)
    requires 't' !in sep && 'T' !in sep
    ensures Lacks(ShowNat(a) + sep + ShowNat(b) + " hours", 't') && Lacks(ShowNat(a) + sep + ShowNat(b) + " hours", 'T')
  {
    TwoNumbersAvoid(a, sep, b, " hours", 't');
    TwoNumbersAvoid(a, sep, b, " hours", 'T');
  }
  lemma {:induction false} TwoStripped(a: nat, sep: string, b: nat)
    ensures Stripped(ShowNat(a) + sep + ShowNat(b) + " hours")
  {
    var s := ShowNat(a) + sep + ShowNat(b) + " hours";
    assert s[0] == ShowNat(a)[0];
  }
  /** "a–b hours" and "a-b hours" are both the midpoint of the range. */
  lemma {:induction false} LoaderRangeAnswer(a: nat, dash: char, b: nat)
    requires dash == '-' || dash == EnDash
    ensures SleepHoursEstimate(Text(ShowNat(a) + [dash] + ShowNat(b) + " hours"))
      == Num((a + b) as real / 2.0)
  {
    TwoRuns(a, [dash], b);
    TwoLacks(a, [dash], b);
    TwoStripped(a, [dash], b);
    AnswerTwo(ShowNat(a) + [dash] + ShowNat(b) + " hours", a, b);
  }
  /** A decimal answer such as "7.5 hours" is read as the two numbers 7
      and 5, so its estimate is their mean (6.0), not 7.5. */
  lemma {:induction false} LoaderDecimalAnswer(a: nat, d: nat)
    ensures SleepHoursEstimate(Text(ShowNat(a) + "." + ShowNat(d) + " hours"))
      == Num((a + d) as real / 2.0)
  {
    TwoRuns(a, ".", d);
    TwoLacks(a, ".", d);
    TwoStripped(a, ".", d);
    AnswerTwo(ShowNat(a) + "." + ShowNat(d) + " hours", a, d);
  }

  /** "More than n hours" is n and a half hours. */
  lemma {:induction false} LoaderMoreThanAnswer(n: nat)
    ensures SleepHoursEstimate(Text("More than " + ShowNat(n) + " hours")) == Num(n as real + 0.5)
  {
    var s := "More than " + ShowNat(n) + " hours";
    DigitRunsOne("More than ", n, " hours");
    forall k | 0 <= k < 9
      ensures Lower(s)[k] == "more than"[k]
    {
      assert s[k] == "More than "[k];
    }
    assert Lower(s)[0..9] == "more than";
    AnswerMoreThan(s, n, 0);
  }

  /** "Less than n hours" is n less half an hour. */
  lemma {:induction false} LoaderLessThanAnswer(n: nat)
    ensures SleepHoursEstimate(Text("Less than " + ShowNat(n) + " hours")) == Num(n as real - 0.5)
  {
    DigitRunsOne("Less than ", n, " hours");
    OneNumberAvoid("Less than ", n, " hours", 'm');
    OneNumberAvoid("Less than ", n, " hours", 'M');
    LessThanStripped(n);
    LessThanPhrase(n);
    AnswerLessThan("Less than " + ShowNat(n) + " hours", n, 0);
  }

  lemma {:induction false} LessThanStripped(n: nat)
    ensures Stripped("Less than " + ShowNat(n) + " hours")
  {
    var s := "Less than " + ShowNat(n) + " hours";
    assert s[0] == 'L' && s[|s| - 1] == 's';
  }

  lemma {:induction false} LessThanPhrase(n: nat)
    ensures OccursAt(Lower("Less than " + ShowNat(n) + " hours"), "less than", 0)
  {
    var s := "Less than " + ShowNat(n) + " hours";
    forall k | 0 <= k < 9
      ensures Lower(s)[k] == "less than"[k]
    {
      assert s[k] == "Less than "[k];
    }
    assert Lower(s)[0..9] == "less than";
  }

  // ---------------------------------------------------------------------
  // Insomnia severity index (0-28)
  // ---------------------------------------------------------------------

  /** `_map_frequency_to_score(x)` on the stripped text: the answers of
      the table, each written with an en dash and with a hyphen; any other
      text is 0. */
  function FrequencyPoints(s: string): (r: nat)
    ensures r <= 4
  {
    match s
    case "Never" => 0
    case "Rarely (1\U{2013}2 times a week)" => 1
    case "Rarely (1-2 times a week)" => 1
    case "Sometimes (3\U{2013}4 times a week)" => 2
    case "Sometimes (3-4 times a week)" => 2
    case "Often (5\U{2013}6 times a week)" => 3
    case "Often (5-6 times a week)" => 3
    case "Always (every night)" => 4
    case _ => 0
  }

  /** `_map_frequency_to_score(x)` on a cell. */
  function FrequencyScore(c: Cell): (r: nat)
    ensures r <= 4
  {
    FrequencyPoints(Strip(Str(c)))
  }

  /** Both spellings of each band score the same, from 1 to 3. */
  lemma FrequencyDashVariants()
    ensures FrequencyPoints("Rarely (1\U{2013}2 times a week)") == FrequencyPoints("Rarely (1-2 times a week)") == 1
    ensures FrequencyPoints("Sometimes (3\U{2013}4 times a week)") == FrequencyPoints("Sometimes (3-4 times a week)") == 2
    ensures FrequencyPoints("Often (5\U{2013}6 times a week)") == FrequencyPoints("Often (5-6 times a week)") == 3
  {
  }

  /** A missing answer is the text "nan" to the lookup, which scores 0. */
  lemma FrequencyOfMissing(c: Cell)
    requires IsMissing(c)
    ensures FrequencyScore(c) == 0
  {
    MissingStripped(c);
    NanScoresZero(Strip(Str(c)));
  }

  lemma NanScoresZero(s: string)
    requires s == "nan"
    ensures FrequencyPoints(s) == 0
  {
  }

  /** `diff + wake + quality_risk` for one row: the two frequency scores
      and the inverted sleep quality, between 0 and 12. */
  function IsiRaw(diff: Cell, wake: Cell, quality: Cell): (raw: real)
    ensures 0.0 <= raw <= 12.0
  {
    FrequencyScore(diff) as real + FrequencyScore(wake) as real + QualityRisk(ToNumeric(quality))
  }

  /** `_calculate_isi` for one row: the raw score on the 0-28 scale. */
  function IsiIndex(diff: Cell, wake: Cell, quality: Cell): (r: real)
    ensures 0.0 <= r <= 28.0
  {
    IsiScale(IsiRaw(diff, wake, quality))
  }

  /** "Always (every night)" for both questions and a sleep quality of 1 or
      less is the top of the scale. */
  lemma IsiWorst(diff: Cell, wake: Cell, quality: Cell)
    requires Strip(Str(diff)) == "Always (every night)" && Strip(Str(wake)) == "Always (every night)"
    requires ToNumeric(quality).Num? && ToNumeric(quality).v <= 1.0
    ensures IsiIndex(diff, wake, quality) == 28.0
  {
    AlwaysEveryNight(Strip(Str(diff)));
    AlwaysEveryNight(Strip(Str(wake)));
  }

  /** "Always (every night)" is the top score, 4. */
  lemma AlwaysEveryNight(s: string)
    requires s == "Always (every night)"
    ensures FrequencyPoints(s) == 4
  {
  }

  /** Unanswered questions and a sleep quality of 5 or more are the bottom
      of the scale. */
  lemma IsiBest(diff: Cell, wake: Cell, quality: Cell)
    requires IsMissing(diff) && IsMissing(wake)
    requires ToNumeric(quality).Num? && ToNumeric(quality).v >= 5.0
    ensures IsiIndex(diff, wake, quality) == 0.0
  {
    FrequencyOfMissing(diff);
    FrequencyOfMissing(wake);
  }

  /** The raw score in whole numbers when the sleep quality is a whole
      number or not a number: `clip(5 - q, 0, 4)` points, or none. */
  function WholeRaw(diff: Cell, wake: Cell, quality: Float, k: int): (n: nat)
    requires quality.NaN? || quality == Num(k as real)
    ensures n <= 12 && n as real == FrequencyScore(diff) as real + FrequencyScore(wake) as real + QualityRisk(quality)
  {
    var risk := if quality.NaN? then 0 else if 5 - k < 0 then 0 else if 5 - k > 4 then 4 else 5 - k;
    FrequencyScore(diff) + FrequencyScore(wake) + risk
  }

  /** With a whole-number sleep quality (or none) the raw score is a
      whole number, so the index is `(70 raw + 1) / 3` tenths
      (`Shared.IsiScaleWhole`). */
  lemma IsiRawWhole(diff: Cell, wake: Cell, quality: Cell, k: int)
    requires ToNumeric(quality).NaN? || ToNumeric(quality) == Num(k as real)
    ensures IsiIndex(diff, wake, quality) == IsiScale(WholeRaw(diff, wake, ToNumeric(quality), k) as real)
  {
    var n := WholeRaw(diff, wake, ToNumeric(quality), k);
    var raw := IsiRaw(diff, wake, quality);
    assert raw == n as real;
  }

  /** `{"DifficultyFallingAsleep", "NightWakeups", "SleepQuality"}.issubset(df.columns)` */
  predicate HasIsiSources(t: Table) {
    "DifficultyFallingAsleep" in t.columns && "NightWakeups" in t.columns && "SleepQuality" in t.columns
  }

  /** The index column (`_calculate_isi(df)`), one value per row. */
  function IsiColumn(t: Table): (col: seq<Cell>)
    requires Valid(t) && HasIsiSources(t)
    ensures |col| == t.height
    ensures forall i :: 0 <= i < t.height ==> col[i].Real? && 0.0 <= col[i].r <= 28.0
    ensures forall i :: 0 <= i < t.height ==>
      col[i] == Real(IsiIndex(Column(t, "DifficultyFallingAsleep")[i], Column(t, "NightWakeups")[i], Column(t, "SleepQuality")[i]))
  {
    var d, w, q := Column(t, "DifficultyFallingAsleep"), Column(t, "NightWakeups"), Column(t, "SleepQuality");
    seq(t.height, i requires 0 <= i < t.height => Real(IsiIndex(d[i], w[i], q[i])))
  }

  // ---------------------------------------------------------------------
  // Lifestyle risk (0-11)
  // ---------------------------------------------------------------------

  /** Device use and caffeine: "Always" anywhere in the answer is 3 points,
      otherwise "Often" is 2 (case-sensitive, in that order). */
  function HabitPoints(s: string): (p: nat)
    ensures Contains(s, "Always") ==> p == 3
    ensures !Contains(s, "Always") && Contains(s, "Often") ==> p == 2
    ensures !Contains(s, "Always") && !Contains(s, "Often") ==> p == 0
  {
    if Contains(s, "Always") then 3 else if Contains(s, "Often") then 2 else 0
  }

  /** Physical activity: "Never" or "Rarely" anywhere is exactly 2 points. */
  function ActivityPoints(s: string): (p: nat)
    ensures p == 2 <==> Contains(s, "Never") || Contains(s, "Rarely")
    ensures p == 0 <==> !Contains(s, "Never") && !Contains(s, "Rarely")
  {
    if Contains(s, "Never") || Contains(s, "Rarely") then 2 else 0
  }

  /** Stress: "Extremely" is 3 points, otherwise "High" is 2. */
  function StressPoints(s: string): (p: nat)
    ensures Contains(s, "Extremely") ==> p == 3
    ensures !Contains(s, "Extremely") && Contains(s, "High") ==> p == 2
    ensures !Contains(s, "Extremely") && !Contains(s, "High") ==> p == 0
  {
    if Contains(s, "Extremely") then 3 else if Contains(s, "High") then 2 else 0
  }

  /** `row_risk(row)`: the points of the four answers, each read as text. */
  function LifestyleRisk(device: Cell, caffeine: Cell, activity: Cell, stress: Cell): (r: nat)
    ensures r <= 11 && r != 1
  {
    HabitPoints(Str(device)) + HabitPoints(Str(caffeine)) + ActivityPoints(Str(activity)) + StressPoints(Str(stress))
  }

  /** Every answer at its worst is the highest risk, 11. */
  lemma LifestyleWorst(device: Cell, caffeine: Cell, activity: Cell, stress: Cell)
    requires Contains(Str(device), "Always") && Contains(Str(caffeine), "Always")
    requires Contains(Str(activity), "Never") && Contains(Str(stress), "Extremely")
    ensures LifestyleRisk(device, caffeine, activity, stress) == 11
  {
  }

  /** An answer naming both "Always" and "Often" counts as "Always", and
      one naming both "Extremely" and "High" as "Extremely". */
  lemma LifestyleFirstKeywordWins(s: string)
    requires Contains(s, "Always") && Contains(s, "Often") && Contains(s, "Extremely") && Contains(s, "High")
    ensures HabitPoints(s) == 3 && StressPoints(s) == 3
  {
  }

  /** The body of `row_risk` on the four answers read as text: `risk += ...`
      for each answer in turn. */
  method TextRisk(device: string, caffeine: string, activity: string, stress: string) returns (risk: nat)
    ensures risk == HabitPoints(device) + HabitPoints(caffeine) + ActivityPoints(activity) + StressPoints(stress)
  {
    risk := 0;
    if Contains(device, "Always") {
      risk := risk + 3;
    } else if Contains(device, "Often") {
      risk := risk + 2;
    }
    if Contains(caffeine, "Always") {
      risk := risk + 3;
    } else if Contains(caffeine, "Often") {
      risk := risk + 2;
    }
    if Contains(activity, "Never") || Contains(activity, "Rarely") {
      risk := risk + 2;
    }
    if Contains(stress, "Extremely") {
      risk := risk + 3;
    } else if Contains(stress, "High") {
      risk := risk + 2;
    }
  }

  /** `row_risk(row)`: each answer of the row as text (`str(...)`), then
      the points of the four. */
  method RowRisk(device: Cell, caffeine: Cell, activity: Cell, stress: Cell) returns (risk: nat)
    ensures risk == LifestyleRisk(device, caffeine, activity, stress)
  {
    risk := TextRisk(Str(device), Str(caffeine), Str(activity), Str(stress));
  }

  /** `{"DeviceUsage", "CaffeineConsumption", "PhysicalActivity",
      "StressLevel"}.issubset(df.columns)` */
  predicate HasLifestyleSources(t: Table) {
    && "DeviceUsage" in t.columns && "CaffeineConsumption" in t.columns
    && "PhysicalActivity" in t.columns && "StressLevel" in t.columns
  }

  /** The lifestyle risk of every row of four answer columns, as
      integers. */
  function LifestyleRisks(device: seq<Cell>, caffeine: seq<Cell>, activity: seq<Cell>, stress: seq<Cell>): (col: seq<Cell>)
    requires |caffeine| == |activity| == |stress| == |device|
    ensures |col| == |device|
    ensures forall i :: 0 <= i < |device| ==> col[i].Int? && 0 <= col[i].i <= 11 && col[i].i != 1
    ensures forall i :: 0 <= i < |device| ==> col[i] == Int(LifestyleRisk(device[i], caffeine[i], activity[i], stress[i]))
  {
    seq(|device|, i requires 0 <= i < |device| => Int(LifestyleRisk(device[i], caffeine[i], activity[i], stress[i])))
  }

  /** The lifestyle column of a table that has the four answers. */
  function LifestyleColumn(t: Table): (col: seq<Cell>)
    requires Valid(t) && HasLifestyleSources(t)
    ensures |col| == t.height
  {
    LifestyleRisks(Column(t, "DeviceUsage"), Column(t, "CaffeineConsumption"),
                   Column(t, "PhysicalActivity"), Column(t, "StressLevel"))
  }

  /** `df.apply(row_risk, axis=1)`: `row_risk` of each row in turn. */
  method ApplyRowRisk(device: seq<Cell>, caffeine: seq<Cell>, activity: seq<Cell>, stress: seq<Cell>) returns (col: seq<Cell>)
    requires |caffeine| == |activity| == |stress| == |device|
    ensures col == LifestyleRisks(device, caffeine, activity, stress)
  {
    col := [];
    var i := 0;
    while i < |device|
      invariant 0 <= i <= |device| && |col| == i
      invariant forall j :: 0 <= j < i ==> col[j] == Int(LifestyleRisk(device[j], caffeine[j], activity[j], stress[j]))
    {
      var risk := RowRisk(device[i], caffeine[i], activity[i], stress[i]);
      col := col + [Int(risk)];
      i := i + 1;
    }
  }

  /** `_calculate_lifestyle_risk(df)` */
  method CalculateLifestyleRisk(t: Table) returns (col: seq<Cell>)
    requires Valid(t) && HasLifestyleSources(t)
    ensures col == LifestyleColumn(t)
  {
    col := ApplyRowRisk(Column(t, "DeviceUsage"), Column(t, "CaffeineConsumption"),
                        Column(t, "PhysicalActivity"), Column(t, "StressLevel"));
  }

}

/** The part of `load_data` that changes the frame once the CSV is read:
    labels normalised and renamed, the timestamp parsed, and the three shared
    derived columns added one after another. */
module LoaderPipeline {
  import opened Cells
  import opened Tables
  import opened Shared
  import opened Loader
  import opened Schema
  import opened ColumnMap

  /** `df["SleepHours"].map(_sleep_hours_to_estimate)` */
  function EstimateColumn(col: seq<Cell>): (r: seq<Cell>)
    ensures |r| == |col|
    ensures forall i :: 0 <= i < |col| ==> r[i] == FromFloat(SleepHoursEstimate(col[i]))
  {
    MapCells(col, c => FromFloat(SleepHoursEstimate(c)))
  }

  /** The estimate column is added (or replaced) only when there is an
      hours answer column. */
  function WithEstimate(t: Table): (r: Table)
    requires Valid(t)
    ensures Valid(r) && r.height == t.height
  {
    if "SleepHours" in t.columns then WithColumn(t, "SleepHours_est", EstimateColumn(Column(t, "SleepHours"))) else t
  }

  /** The index when all three answers are there, NaN in every row
      otherwise. */
  function IsiOrMissing(t: Table): (col: seq<Cell>)
    requires Valid(t)
    ensures |col| == t.height
  {
    if HasIsiSources(t) then IsiColumn(t) else Constant(Missing, t.height)
  }

  /** The lifestyle risk when all four answers are there, 0 in every row
      otherwise. */
  function RiskOrZero(t: Table): (col: seq<Cell>)
    requires Valid(t)
    ensures |col| == t.height
  {
    if HasLifestyleSources(t) then LifestyleColumn(t) else Constant(Int(0), t.height)
  }

  /** The three derived columns, in the order `load_data` adds them. */
  function Derived(t: Table): (r: Table)
    requires Valid(t)
    ensures Valid(r) && r.height == t.height
  {
    var t2 := BeforeRisk(t);
    WithColumn(t2, "Lifestyle_Risk", RiskOrZero(t2))
  }

  /** The index only reads its three source columns. */
  lemma {:induction false} IsiColumnSame(t: Table, u: Table)
    requires Valid(t) && Valid(u) && HasIsiSources(t) && HasIsiSources(u) && t.height == u.height
    requires Column(t, "DifficultyFallingAsleep") == Column(u, "DifficultyFallingAsleep")
    requires Column(t, "NightWakeups") == Column(u, "NightWakeups")
    requires Column(t, "SleepQuality") == Column(u, "SleepQuality")
    ensures IsiColumn(t) == IsiColumn(u)
  {
  }

  /** Adding the estimate touches no answer column the index or the risk
      reads. */
  lemma {:induction false} WithEstimateKeeps(t: Table, n: string)
    requires Valid(t) && n in t.columns && n != "SleepHours_est"
    ensures n in WithEstimate(t).columns && Column(WithEstimate(t), n) == Column(t, n)
  {
  }

  /** `SleepHours_est` holds the estimate of every hours answer whenever
      there is an hours column. */
  lemma {:induction false} DerivedEstimate(t: Table)
    requires Valid(t) && "SleepHours" in t.columns
    ensures "SleepHours_est" in Derived(t).columns
    ensures Column(Derived(t), "SleepHours_est") == EstimateColumn(Column(t, "SleepHours"))
  {
    EstimateSurvives(t);
  }

  /** The index and risk steps leave an existing estimate column as it
      is. */
  lemma {:induction false} EstimateSurvives(t: Table)
    requires Valid(t) && "SleepHours_est" in WithEstimate(t).columns
    ensures "SleepHours_est" in Derived(t).columns
    ensures Column(Derived(t), "SleepHours_est") == Column(WithEstimate(t), "SleepHours_est")
  {
  }

  /** The index step reads the table as it was before the estimate. */
  lemma {:induction false} IsiAfterEstimate(t: Table)
    requires Valid(t)
    ensures IsiOrMissing(WithEstimate(t)) == IsiOrMissing(t)
  {
    if HasIsiSources(t) {
      IsiSourcesKept(t);
    } else {
      NoIsiSourcesAdded(t);
    }
  }

  lemma {:induction false} IsiSourcesKept(t: Table)
    requires Valid(t) && HasIsiSources(t)
    ensures HasIsiSources(WithEstimate(t)) && IsiColumn(WithEstimate(t)) == IsiColumn(t)
  {
    WithEstimateKeeps(t, "DifficultyFallingAsleep");
    WithEstimateKeeps(t, "NightWakeups");
    WithEstimateKeeps(t, "SleepQuality");
    IsiColumnSame(WithEstimate(t), t);
  }

  lemma {:induction false} NoIsiSourcesAdded(t: Table)
    requires Valid(t) && !HasIsiSources(t)
    ensures !HasIsiSources(WithEstimate(t))
  {
  }

  /** The lifestyle step does not touch the index column. */
  lemma {:induction false} DerivedIsiColumn(t: Table)
    requires Valid(t)
    ensures "InsomniaSeverity_index" in Derived(t).columns
    ensures Column(Derived(t), "InsomniaSeverity_index") == IsiOrMissing(WithEstimate(t))
  {
  }

  /** `InsomniaSeverity_index` is the index of every row when the three
      answers are all there, and NaN in every row otherwise. */
  lemma {:induction false} DerivedIsi(t: Table)
    requires Valid(t)
    ensures "InsomniaSeverity_index" in Derived(t).columns
    ensures HasIsiSources(t) ==> Column(Derived(t), "InsomniaSeverity_index") == IsiColumn(t)
    ensures !HasIsiSources(t) ==> Column(Derived(t), "InsomniaSeverity_index") == Constant(Missing, t.height)
  {
    DerivedIsiColumn(t);
    IsiAfterEstimate(t);
  }

  /** The table the risk step reads: the estimate and the index added. */
  function BeforeRisk(t: Table): (r: Table)
    requires Valid(t)
    ensures Valid(r) && r.height == t.height
  {
    var t1 := WithEstimate(t);
    WithColumn(t1, "InsomniaSeverity_index", IsiOrMissing(t1))
  }

  /** The risk step reads the table as it was before the estimate and the
      index. */
  lemma {:induction false} RiskAfterIndex(t: Table)
    requires Valid(t)
    ensures RiskOrZero(BeforeRisk(t)) == RiskOrZero(t)
  {
    if HasLifestyleSources(t) {
      RiskSourcesKept(t);
    } else {
      NoRiskSourcesAdded(t);
    }
  }

  lemma {:induction false} RiskSourcesKept(t: Table)
    requires Valid(t) && HasLifestyleSources(t)
    ensures HasLifestyleSources(BeforeRisk(t)) && LifestyleColumn(BeforeRisk(t)) == LifestyleColumn(t)
  {
    var t1 := WithEstimate(t);
    WithEstimateKeeps(t, "DeviceUsage");
    WithEstimateKeeps(t, "CaffeineConsumption");
    WithEstimateKeeps(t, "PhysicalActivity");
    WithEstimateKeeps(t, "StressLevel");
    WithColumnKeeps(t1, "InsomniaSeverity_index", IsiOrMissing(t1), "DeviceUsage");
    WithColumnKeeps(t1, "InsomniaSeverity_index", IsiOrMissing(t1), "CaffeineConsumption");
    WithColumnKeeps(t1, "InsomniaSeverity_index", IsiOrMissing(t1), "PhysicalActivity");
    WithColumnKeeps(t1, "InsomniaSeverity_index", IsiOrMissing(t1), "StressLevel");
  }

  lemma {:induction false} NoRiskSourcesAdded(t: Table)
    requires Valid(t) && !HasLifestyleSources(t)
    ensures !HasLifestyleSources(BeforeRisk(t))
  {
    BeforeRiskLabels(t);
  }

  lemma {:induction false} BeforeRiskLabels(t: Table)
    requires Valid(t)
    ensures forall n :: n in BeforeRisk(t).columns ==> n in t.columns || n == "SleepHours_est" || n == "InsomniaSeverity_index"
  {
    EstimateLabels(t);
  }

  lemma {:induction false} EstimateLabels(t: Table)
    requires Valid(t)
    ensures forall n :: n in WithEstimate(t).columns ==> n in t.columns || n == "SleepHours_est"
  {
  }

  /** `Lifestyle_Risk` is the risk of every row when the four answers are
      all there, and 0 in every row otherwise. */
  lemma {:induction false} DerivedRisk(t: Table)
    requires Valid(t)
    ensures "Lifestyle_Risk" in Derived(t).columns
    ensures HasLifestyleSources(t) ==> Column(Derived(t), "Lifestyle_Risk") == LifestyleColumn(t)
    ensures !HasLifestyleSources(t) ==> Column(Derived(t), "Lifestyle_Risk") == Constant(Int(0), t.height)
  {
    RiskAfterIndex(t);
  }

  /** Every other column keeps its label and its cells. */
  lemma {:induction false} DerivedKeeps(t: Table, n: string)
    requires Valid(t) && n in t.columns
    requires n != "SleepHours_est" && n != "InsomniaSeverity_index" && n != "Lifestyle_Risk"
    ensures n in Derived(t).columns && Column(Derived(t), n) == Column(t, n)
  {
    WithEstimateKeeps(t, n);
  }

  /** The table after `_clean_columns` and the robust rename with
      `cands` as `col_map`: only the labels change. */
  function Named(t: Table, cands: Candidates): (r: Table)
    requires Valid(t)
    ensures Valid(r) && r.height == t.height && r.data == t.data
  {
    t.(columns := RenameAll(NormalizeLabels(t.columns), cands))
  }

  /** The table `load_data` returns for the table the CSV held, with
      `cands` as `col_map`. */
  function Loaded(t: Table, cands: Candidates, toDatetime: Cell -> Cell): (r: Table)
    requires Valid(t)
    ensures Valid(r) && r.height == t.height
  {
    Derived(ParseTimestamps(Named(t, cands), toDatetime))
  }

  /** The derived columns, added to the frame one after another. */
  method AddDerivedColumns(df: Frame)
    requires Valid(df.Value())
    modifies df
    ensures df.Value() == Derived(old(df.Value()))
  {
    if "SleepHours" in df.columns {
      df.SetColumn("SleepHours_est", EstimateColumn(Column(df.Value(), "SleepHours")));
    }
    if HasIsiSources(df.Value()) {
      df.SetColumn("InsomniaSeverity_index", IsiColumn(df.Value()));
    } else {
      df.SetColumn("InsomniaSeverity_index", Constant(Missing, df.height));
    }
    if HasLifestyleSources(df.Value()) {
      var risk := CalculateLifestyleRisk(df.Value());
      df.SetColumn("Lifestyle_Risk", risk);
    } else {
      df.SetColumn("Lifestyle_Risk", Constant(Int(0), df.height));
    }
  }

  /** `load_data()` from `_clean_columns` on, with its own `col_map`. */
  method LoadData(df: Frame, toDatetime: Cell -> Cell)
    requires Valid(df.Value())
    modifies df
    ensures df.Value() == Loaded(old(df.Value()), ColMap, toDatetime)
  {
    LoadWith(df, ColMap, toDatetime);
  }

  /** The steps of `load_data` for any `col_map`. */
  method LoadWith(df: Frame, cands: Candidates, toDatetime: Cell -> Cell)
    requires Valid(df.Value())
    modifies df
    ensures df.Value() == Loaded(old(df.Value()), cands, toDatetime)
  {
    NameColumns(df, cands);
    ParseTimestampsInPlace(df, toDatetime);
    AddDerivedColumns(df);
  }

  /** `_clean_columns(df)`, then the robust rename. */
  method NameColumns(df: Frame, cands: Candidates)
    requires Valid(df.Value())
    modifies df
    ensures df.Value() == Named(old(df.Value()), cands)
  {
    NormalizeColumns(df);
    var colMapNorm := NormMap(cands);
    var renames := PresentRenames(df.columns, colMapNorm);
    df.RenameColumns(renames);
  }
}
