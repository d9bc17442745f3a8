/** Pieces that the three modules of the pipeline write out identically:
    the inverted sleep-quality risk, the "average the first two numbers"
    fallback of the hours estimate, and the timestamp step. */
module Shared {
  import opened Strings
  import opened Numbers
  import opened Cells
  import opened Tables

  /** `(5 - q).clip(lower=0, upper=4).fillna(0)` for one value: 5 (excellent)
      is no risk, 1 (poor) or less is the most, a non-number is none. */
  function QualityRisk(q: Float): (r: real)
    ensures 0.0 <= r <= 4.0
    ensures q.NaN? ==> r == 0.0
    ensures q.Num? && 1.0 <= q.v <= 5.0 ==> r == 5.0 - q.v
    ensures q.Num? && q.v <= 1.0 ==> r == 4.0
    ensures q.Num? && q.v >= 5.0 ==> r == 0.0
  {
    match q
    case NaN => 0.0
    case Num(v) => if 5.0 - v < 0.0 then 0.0 else if 5.0 - v > 4.0 then 4.0 else 5.0 - v
  }

  /** The last step of the hours estimate: one number found is the
      estimate, two or more give the mean of the first two, none is NaN. */
  function FromNumbers(nums: seq<real>): (r: Float)
    ensures r.NaN? <==> nums == []
    ensures |nums| == 1 ==> r == Num(nums[0])
    ensures |nums| >= 2 ==> r.Num? && r.v + r.v == nums[0] + nums[1]
  {
    if |nums| == 1 then Num(nums[0])
    else if |nums| >= 2 then Num((nums[0] + nums[1]) / 2.0)
    else NaN
  }

  /** `if "Timestamp" in df.columns: df["Timestamp"] = pd.to_datetime(...)`.
      The date parser is a parameter: any cell-to-cell conversion. */
  function ParseTimestamps(t: Table, toDatetime: Cell -> Cell): (r: Table)
    requires Valid(t)
    ensures Valid(r) && r.columns == t.columns && r.height == t.height
    ensures forall n :: n in t.columns && n != "Timestamp" ==> Column(r, n) == Column(t, n)
  {
    if "Timestamp" in t.columns then WithColumn(t, "Timestamp", MapCells(Column(t, "Timestamp"), toDatetime))
    else t
  }

  /** The timestamp step in place. */
  method ParseTimestampsInPlace(df: Frame, toDatetime: Cell -> Cell)
    requires Valid(df.Value())
    modifies df
    ensures df.Value() == ParseTimestamps(old(df.Value()), toDatetime)
  {
    if "Timestamp" in df.columns {
      df.SetColumn("Timestamp", MapCells(Column(df.Value(), "Timestamp"), toDatetime));
    }
  }

  /** `(raw / 12 * 28).round(1)`: a 0-12 raw score put on the 0-28 scale of
      the Insomnia Severity Index, to one decimal. */
  function IsiScale(raw: real): (r: real)
    requires 0.0 <= raw <= 12.0
    ensures 0.0 <= r <= 28.0
    ensures raw == 0.0 ==> r == 0.0
    ensures raw == 12.0 ==> r == 28.0
  {
    Round1Monotone(0.0, raw / 12.0 * 28.0);
    Round1Monotone(raw / 12.0 * 28.0, 28.0);
    Round1Tenths(0);
    Round1Tenths(280);
    Round1(raw / 12.0 * 28.0)
  }

  /** Rounding a third of a number of tenths: `round(m / 3)` tenths is
      `(m + 1) / 3` tenths, because a third never ends in exactly a half. */
  lemma {:induction false} Round1Thirds(m: nat)
    ensures Round1(m as real / 30.0) == ((m + 1) / 3) as real / 10.0
  {
    var q := (m + 1) / 3;
    var x := m as real / 30.0 * 10.0 + 0.5;
    assert x == (2 * m + 3) as real / 6.0;
    assert 3 * q <= m + 1 < 3 * q + 3;
    assert q as real <= x < q as real + 1.0;
    assert x.Floor == q;
  }

  /** For a whole raw score n the index is `(70n + 1) / 3` tenths. */
  lemma {:induction false} IsiScaleWhole(n: nat)
    requires n <= 12
    ensures IsiScale(n as real) == ((70 * n + 1) / 3) as real / 10.0
  {
    assert n as real / 12.0 * 28.0 == (70 * n) as real / 30.0;
    Round1Thirds(70 * n);
  }

  /** The decimal numbers of "a.d hours": the one number a.d. */
  lemma {:induction false} DecimalRuns1(a: nat, d: nat)
    ensures DecimalRuns(ShowNat(a) + "." + ShowNat(d) + " hours") == [a as real + FracValue(ShowNat(d))]
  {
    DecimalRunsFraction(ShowNat(a), ShowNat(d), " hours");
    DecimalRunsEmpty(" hours");
    ShowNatRoundTrip(a);
  }

  /** The decimal numbers of "a-b hours", with a hyphen or an en dash:
      a and b. */
  lemma {:induction false} RangeRuns(a: nat, dash: char, b: nat)
    requires dash == '-' || dash == EnDash
    ensures DecimalRuns(ShowNat(a) + [dash] + ShowNat(b) + " hours") == [a as real, b as real]
  {
    assert ShowNat(a) + [dash] + ShowNat(b) + " hours" == "" + ShowNat(a) + [dash] + ShowNat(b) + " hours";
    DecimalRunsTwo("", a, [dash], b, " hours");
  }

  /** An answer that starts with a digit and ends in "hours" is its own
      stripped text. */
  lemma {:induction false} HoursStripped(s: string)
    requires |s| >= 6 && IsDigit(s[0]) && s[|s| - 6..] == " hours"
    ensures Strip(s) == s
  {
    assert s[|s| - 1] == " hours"[5];
    StripKeeps(s);
  }

  /** The same, for an answer written as its leading text followed by
      " hours". */
  lemma {:induction false} HoursAfterDigits(p: string)
    requires p != [] && IsDigit(p[0])
    ensures Strip(p + " hours") == p + " hours"
  {
    assert (p + " hours")[0] == p[0];
    assert (p + " hours")[|p + " hours"| - 6..] == " hours";
    HoursStripped(p + " hours");
  }
}
