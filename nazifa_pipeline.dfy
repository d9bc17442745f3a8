/** `prepare_nazifa_data` (cleaning_nazifa.py): the header lines shared
    with the other page, then nine engineered columns added one after the
    other, each computed from the table as it stands at that point. */
module NazifaPipeline {
  import opened Strings
  import opened Numbers
  import opened Cells
  import opened Tables
  import opened Shared
  import opened Schema
  import opened Nazifa

  // ---------------------------------------------------------------------
  // One cell at a time
  // ---------------------------------------------------------------------

  /** `_sleep_hours_to_est` stored in the table: NaN is a missing cell. */
  function EstimateCell(c: Cell): Cell {
    FromFloat(SleepHoursToEst(c))
  }

  /** `pd.to_numeric(..., errors="coerce")` stored in the table. */
  function NumericCell(c: Cell): Cell {
    FromFloat(ToNumeric(c))
  }

  /** `pd.cut` of one estimate cell. */
  function DurationCell(c: Cell): Cell {
    DurationCategory(ToNumeric(c))
  }

  /** `_isi_category` applied to one index cell. */
  function CategoryCell(c: Cell): Cell {
    IsiCategory(ToNumeric(c))
  }

  /** The categories of `BedTime_order`, earliest first. */
  const BedTimeOrder: seq<string> := ["9\U{2013}10 PM", "10\U{2013}11 PM", "11 PM\U{2013}12 AM", "After 12 AM"]

  /** `pd.Categorical(bed_time, categories=bedtime_order)` for one cell: a
      value outside the categories becomes NaN. */
  function BedTimeOrderCell(c: Cell): (r: Cell)
    ensures r.Missing? || (r.Text? && r.s in BedTimeOrder)
    ensures c.Text? && c.s in BedTimeOrder ==> r == c
  {
    if c.Text? && c.s in BedTimeOrder then c else Missing
  }

  // ---------------------------------------------------------------------
  // The engineered columns
  // ---------------------------------------------------------------------

  /** `SleepHours_est`: the estimate of each hours answer, or NaN in every
      row when there are no hours answers. */
  function EstimateColumn(t: Table): (col: seq<Cell>)
    requires Valid(t)
    ensures |col| == t.height
  {
    if "SleepHours" in t.columns then MapCells(Column(t, "SleepHours"), EstimateCell)
    else Constant(Missing, t.height)
  }

  /** `SleepQuality_num`: each rating as a number, or NaN throughout. */
  function QualityNumColumn(t: Table): (col: seq<Cell>)
    requires Valid(t)
    ensures |col| == t.height
  {
    if "SleepQuality" in t.columns then MapCells(Column(t, "SleepQuality"), NumericCell)
    else Constant(Missing, t.height)
  }

  /** `BedTime`: each answer as stripped text, or NaN throughout. */
  function BedTimeColumn(t: Table): (col: seq<Cell>)
    requires Valid(t)
    ensures |col| == t.height
  {
    if "BedTime" in t.columns then MapCells(Column(t, "BedTime"), BedTimeCell)
    else Constant(Missing, t.height)
  }

  /** A symptom flag: whether the answer names "Often" or "Always", or
      False in every row when the question is absent. */
  function FlagColumn(t: Table, src: string): (col: seq<Cell>)
    requires Valid(t)
    ensures |col| == t.height
  {
    if src in t.columns then MapCells(Column(t, src), FrequentFlag)
    else Constant(Flag(false), t.height)
  }

  /** The three answers the ISI-like index reads are all present. */
  predicate HasIsiSources(t: Table) {
    "DifficultyFallingAsleep" in t.columns && "NightWakeups" in t.columns && "SleepQuality" in t.columns
  }

  /** `_calculate_isi_like` on three answer columns. */
  function IsiLikeColumn(diff: seq<Cell>, wake: seq<Cell>, quality: seq<Cell>): (col: seq<Cell>)
    requires |wake| == |diff| && |quality| == |diff|
    ensures |col| == |diff|
  {
    seq(|diff|, i requires 0 <= i < |diff| => Real(IsiLike(diff[i], wake[i], quality[i])))
  }

  /** `InsomniaSeverity_index`: the ISI-like index, or NaN throughout when
      one of its three answers is absent. */
  function IndexColumn(t: Table): (col: seq<Cell>)
    requires Valid(t)
    ensures |col| == t.height
  {
    if HasIsiSources(t) then
      IsiLikeColumn(Column(t, "DifficultyFallingAsleep"), Column(t, "NightWakeups"), Column(t, "SleepQuality"))
    else Constant(Missing, t.height)
  }

  /** `score += points` on whole columns. */
  function AddPoints(score: seq<nat>, points: seq<nat>): (r: seq<nat>)
    requires |points| == |score|
    ensures |r| == |score| && forall i :: 0 <= i < |r| ==> r[i] == score[i] + points[i]
  {
    seq(|score|, i requires 0 <= i < |score| => score[i] + points[i])
  }

  /** `_calculate_isi_like(df)`: a zero score, the two frequency scores and
      the quality points added to it, then the score put on the 0-28
      scale. Every row is the index of its own three answers. */
  method CalculateIsiLike(diff: seq<Cell>, wake: seq<Cell>, quality: seq<Cell>) returns (index: seq<Cell>)
    requires |wake| == |diff| && |quality| == |diff|
    ensures |index| == |diff|
    ensures forall i :: 0 <= i < |diff| ==> index[i] == Real(IsiLike(diff[i], wake[i], quality[i]))
  {
    var n := |diff|;
    var score: seq<nat> := seq(n, _ => 0);
    score := AddPoints(score, seq(n, i requires 0 <= i < n => FreqScore(diff[i])));
    score := AddPoints(score, seq(n, i requires 0 <= i < n => FreqScore(wake[i])));
    score := AddPoints(score, seq(n, i requires 0 <= i < n => QualityScore(quality[i])));
    assert forall i :: 0 <= i < n ==> score[i] == RawScore(diff[i], wake[i], quality[i]);
    index := seq(n, i requires 0 <= i < n => Real(IsiScale(score[i] as real)));
  }

  // ---------------------------------------------------------------------
  // The whole chain
  // ---------------------------------------------------------------------

  /** The first five columns: the hours estimate, the numeric rating, the
      duration band and the bed time twice. */
  function SleepColumns(t: Table): (r: Table)
    requires Valid(t)
    ensures Valid(r) && r.height == t.height
  {
    var t1 := WithColumn(t, "SleepHours_est", EstimateColumn(t));
    var t2 := WithColumn(t1, "SleepQuality_num", QualityNumColumn(t1));
    var t3 := WithColumn(t2, "SleepDurationCategory", MapCells(Column(t2, "SleepHours_est"), DurationCell));
    var t4 := WithColumn(t3, "BedTime", BedTimeColumn(t3));
    WithColumn(t4, "BedTime_order", MapCells(Column(t4, "BedTime"), BedTimeOrderCell))
  }

  /** The last four: the two symptom flags, the index and its band. */
  function SymptomColumns(t: Table): (r: Table)
    requires Valid(t)
    ensures Valid(r) && r.height == t.height
  {
    var t6 := WithColumn(t, "FrequentDifficultyFallingAsleep", FlagColumn(t, "DifficultyFallingAsleep"));
    var t7 := WithColumn(t6, "FrequentNightWakeups", FlagColumn(t6, "NightWakeups"));
    var t8 := WithColumn(t7, "InsomniaSeverity_index", IndexColumn(t7));
    WithColumn(t8, "ISI_Category", MapCells(Column(t8, "InsomniaSeverity_index"), CategoryCell))
  }

  /** The nine columns in the order the source assigns them; each reads the
      table as the previous assignments left it. */
  function Enriched(t: Table): (r: Table)
    requires Valid(t)
    ensures Valid(r) && r.height == t.height
  {
    SymptomColumns(SleepColumns(t))
  }

  /** The labels the chain assigns. */
  predicate SleepLabel(n: string) {
    n in {"SleepHours_est", "SleepQuality_num", "SleepDurationCategory", "BedTime", "BedTime_order"}
  }

  predicate SymptomLabel(n: string) {
    n in {"FrequentDifficultyFallingAsleep", "FrequentNightWakeups", "InsomniaSeverity_index", "ISI_Category"}
  }

  /** `r` has a column `n` exactly when `t` has one, holding the same cells. */
  predicate Same(t: Table, r: Table, n: string)
    requires Valid(t) && Valid(r)
  {
    (n in r.columns <==> n in t.columns) && (n in t.columns ==> Column(r, n) == Column(t, n))
  }

  /** One assignment leaves every other label as it was. */
  lemma WithColumnSame(t: Table, name: string, col: seq<Cell>, n: string)
    requires Valid(t) && |col| == t.height && n != name
    ensures Same(t, WithColumn(t, name, col), n)
  {
  }

  lemma {:induction false} SleepColumnsKeep(t: Table, n: string)
    requires Valid(t) && !SleepLabel(n)
    ensures Same(t, SleepColumns(t), n)
  {
    var t1 := WithColumn(t, "SleepHours_est", EstimateColumn(t));
    WithColumnSame(t, "SleepHours_est", EstimateColumn(t), n);
    var t2 := WithColumn(t1, "SleepQuality_num", QualityNumColumn(t1));
    WithColumnSame(t1, "SleepQuality_num", QualityNumColumn(t1), n);
    var t3 := WithColumn(t2, "SleepDurationCategory", MapCells(Column(t2, "SleepHours_est"), DurationCell));
    WithColumnSame(t2, "SleepDurationCategory", MapCells(Column(t2, "SleepHours_est"), DurationCell), n);
    var t4 := WithColumn(t3, "BedTime", BedTimeColumn(t3));
    WithColumnSame(t3, "BedTime", BedTimeColumn(t3), n);
    WithColumnSame(t4, "BedTime_order", MapCells(Column(t4, "BedTime"), BedTimeOrderCell), n);
  }

  lemma {:induction false} SymptomColumnsKeep(t: Table, n: string)
    requires Valid(t) && !SymptomLabel(n)
    ensures Same(t, SymptomColumns(t), n)
  {
    var t6 := WithColumn(t, "FrequentDifficultyFallingAsleep", FlagColumn(t, "DifficultyFallingAsleep"));
    WithColumnSame(t, "FrequentDifficultyFallingAsleep", FlagColumn(t, "DifficultyFallingAsleep"), n);
    var t7 := WithColumn(t6, "FrequentNightWakeups", FlagColumn(t6, "NightWakeups"));
    WithColumnSame(t6, "FrequentNightWakeups", FlagColumn(t6, "NightWakeups"), n);
    var t8 := WithColumn(t7, "InsomniaSeverity_index", IndexColumn(t7));
    WithColumnSame(t7, "InsomniaSeverity_index", IndexColumn(t7), n);
    WithColumnSame(t8, "ISI_Category", MapCells(Column(t8, "InsomniaSeverity_index"), CategoryCell), n);
  }

  /** The chain neither adds, drops nor changes any column but its own. */
  lemma {:induction false} EnrichedKeeps(t: Table, n: string)
    requires Valid(t) && !SleepLabel(n) && !SymptomLabel(n)
    ensures Same(t, Enriched(t), n)
  {
    SleepColumnsKeep(t, n);
    SymptomColumnsKeep(SleepColumns(t), n);
  }

  // ---------------------------------------------------------------------
  // What the new columns hold
  // ---------------------------------------------------------------------

  /** `r` holds the first five columns computed from the answers of `t`. */
  predicate HoldsSleep(t: Table, r: Table)
    requires Valid(t) && Valid(r)
  {
    && "SleepHours_est" in r.columns && Column(r, "SleepHours_est") == EstimateColumn(t)
    && "SleepQuality_num" in r.columns && Column(r, "SleepQuality_num") == QualityNumColumn(t)
    && "SleepDurationCategory" in r.columns
    && Column(r, "SleepDurationCategory") == MapCells(EstimateColumn(t), DurationCell)
    && "BedTime" in r.columns && Column(r, "BedTime") == BedTimeColumn(t)
    && "BedTime_order" in r.columns && Column(r, "BedTime_order") == MapCells(BedTimeColumn(t), BedTimeOrderCell)
  }

  /** `r` holds the last four columns computed from the answers of `t`. */
  predicate HoldsSymptoms(t: Table, r: Table)
    requires Valid(t) && Valid(r)
  {
    && "FrequentDifficultyFallingAsleep" in r.columns
    && Column(r, "FrequentDifficultyFallingAsleep") == FlagColumn(t, "DifficultyFallingAsleep")
    && "FrequentNightWakeups" in r.columns
    && Column(r, "FrequentNightWakeups") == FlagColumn(t, "NightWakeups")
    && "InsomniaSeverity_index" in r.columns && Column(r, "InsomniaSeverity_index") == IndexColumn(t)
    && "ISI_Category" in r.columns && Column(r, "ISI_Category") == MapCells(IndexColumn(t), CategoryCell)
  }

  /** Each of the first five columns reads its answers from the input:
      the columns added before it do not shadow them. */
  lemma {:induction false} SleepColumnsHold(t: Table)
    requires Valid(t)
    ensures HoldsSleep(t, SleepColumns(t))
  {
    var t1 := WithColumn(t, "SleepHours_est", EstimateColumn(t));
    WithColumnSame(t, "SleepHours_est", EstimateColumn(t), "SleepQuality");
    WithColumnSame(t, "SleepHours_est", EstimateColumn(t), "BedTime");
    var t2 := WithColumn(t1, "SleepQuality_num", QualityNumColumn(t1));
    WithColumnSame(t1, "SleepQuality_num", QualityNumColumn(t1), "SleepHours_est");
    WithColumnSame(t1, "SleepQuality_num", QualityNumColumn(t1), "BedTime");
    var t3 := WithColumn(t2, "SleepDurationCategory", MapCells(Column(t2, "SleepHours_est"), DurationCell));
    SleepColumnsLater(t2, t3);
    var t4 := WithColumn(t3, "BedTime", BedTimeColumn(t3));
    WithColumnSame(t3, "BedTime", BedTimeColumn(t3), "SleepHours_est");
    WithColumnSame(t3, "BedTime", BedTimeColumn(t3), "SleepQuality_num");
    WithColumnSame(t3, "BedTime", BedTimeColumn(t3), "SleepDurationCategory");
    var t5 := WithColumn(t4, "BedTime_order", MapCells(Column(t4, "BedTime"), BedTimeOrderCell));
    WithColumnSame(t4, "BedTime_order", MapCells(Column(t4, "BedTime"), BedTimeOrderCell), "SleepHours_est");
    WithColumnSame(t4, "BedTime_order", MapCells(Column(t4, "BedTime"), BedTimeOrderCell), "SleepQuality_num");
    WithColumnSame(t4, "BedTime_order", MapCells(Column(t4, "BedTime"), BedTimeOrderCell), "SleepDurationCategory");
    WithColumnSame(t4, "BedTime_order", MapCells(Column(t4, "BedTime"), BedTimeOrderCell), "BedTime");
  }

  /** The duration step keeps the estimate, the rating and the bed time. */
  lemma SleepColumnsLater(t2: Table, t3: Table)
    requires Valid(t2) && "SleepHours_est" in t2.columns
    requires t3 == WithColumn(t2, "SleepDurationCategory", MapCells(Column(t2, "SleepHours_est"), DurationCell))
    ensures Same(t2, t3, "SleepHours_est") && Same(t2, t3, "SleepQuality_num") && Same(t2, t3, "BedTime")
  {
    WithColumnSame(t2, "SleepDurationCategory", MapCells(Column(t2, "SleepHours_est"), DurationCell), "SleepHours_est");
    WithColumnSame(t2, "SleepDurationCategory", MapCells(Column(t2, "SleepHours_est"), DurationCell), "SleepQuality_num");
    WithColumnSame(t2, "SleepDurationCategory", MapCells(Column(t2, "SleepHours_est"), DurationCell), "BedTime");
  }

  /** Each of the last four columns reads its answers from the input. */
  lemma {:induction false} SymptomColumnsHold(t: Table)
    requires Valid(t)
    ensures HoldsSymptoms(t, SymptomColumns(t))
  {
    var t6 := WithColumn(t, "FrequentDifficultyFallingAsleep", FlagColumn(t, "DifficultyFallingAsleep"));
    var t7 := WithColumn(t6, "FrequentNightWakeups", FlagColumn(t6, "NightWakeups"));
    FlagsHold(t, t6, t7);
    var t8 := WithColumn(t7, "InsomniaSeverity_index", IndexColumn(t7));
    IndexStepsKeep(t7, t8, "FrequentDifficultyFallingAsleep");
    IndexStepsKeep(t7, t8, "FrequentNightWakeups");
    WithColumnSame(t8, "ISI_Category", MapCells(Column(t8, "InsomniaSeverity_index"), CategoryCell), "InsomniaSeverity_index");
  }

  /** The index and its band leave the flags as they were. */
  lemma IndexStepsKeep(t7: Table, t8: Table, n: string)
    requires Valid(t7) && t8 == WithColumn(t7, "InsomniaSeverity_index", IndexColumn(t7))
    requires n != "InsomniaSeverity_index" && n != "ISI_Category"
    ensures Same(t7, WithColumn(t8, "ISI_Category", MapCells(Column(t8, "InsomniaSeverity_index"), CategoryCell)), n)
  {
    WithColumnSame(t7, "InsomniaSeverity_index", IndexColumn(t7), n);
    WithColumnSame(t8, "ISI_Category", MapCells(Column(t8, "InsomniaSeverity_index"), CategoryCell), n);
  }

  /** After the two flag assignments both flags are those of the input's
      answers, and the answers are untouched. */
  lemma {:induction false} FlagsHold(t: Table, t6: Table, t7: Table)
    requires Valid(t)
    requires t6 == WithColumn(t, "FrequentDifficultyFallingAsleep", FlagColumn(t, "DifficultyFallingAsleep"))
    requires t7 == WithColumn(t6, "FrequentNightWakeups", FlagColumn(t6, "NightWakeups"))
    ensures "FrequentDifficultyFallingAsleep" in t7.columns
    ensures Column(t7, "FrequentDifficultyFallingAsleep") == FlagColumn(t, "DifficultyFallingAsleep")
    ensures "FrequentNightWakeups" in t7.columns
    ensures Column(t7, "FrequentNightWakeups") == FlagColumn(t, "NightWakeups")
    ensures FlagColumn(t7, "DifficultyFallingAsleep") == FlagColumn(t, "DifficultyFallingAsleep")
    ensures FlagColumn(t7, "NightWakeups") == FlagColumn(t, "NightWakeups")
    ensures IndexColumn(t7) == IndexColumn(t)
  {
    WithColumnSame(t, "FrequentDifficultyFallingAsleep", FlagColumn(t, "DifficultyFallingAsleep"), "DifficultyFallingAsleep");
    WithColumnSame(t, "FrequentDifficultyFallingAsleep", FlagColumn(t, "DifficultyFallingAsleep"), "NightWakeups");
    WithColumnSame(t, "FrequentDifficultyFallingAsleep", FlagColumn(t, "DifficultyFallingAsleep"), "SleepQuality");
    SourcesSame(t, t6);
    WithColumnSame(t6, "FrequentNightWakeups", FlagColumn(t6, "NightWakeups"), "DifficultyFallingAsleep");
    WithColumnSame(t6, "FrequentNightWakeups", FlagColumn(t6, "NightWakeups"), "NightWakeups");
    WithColumnSame(t6, "FrequentNightWakeups", FlagColumn(t6, "NightWakeups"), "SleepQuality");
    WithColumnSame(t6, "FrequentNightWakeups", FlagColumn(t6, "NightWakeups"), "FrequentDifficultyFallingAsleep");
    SourcesSame(t6, t7);
  }

  /** A step that keeps the three answers of the index computes the same
      flags and the same index. */
  lemma SourcesSame(t: Table, s: Table)
    requires Valid(t) && Valid(s) && s.height == t.height && KeepsSources(t, s)
    ensures FlagColumn(s, "DifficultyFallingAsleep") == FlagColumn(t, "DifficultyFallingAsleep")
    ensures FlagColumn(s, "NightWakeups") == FlagColumn(t, "NightWakeups")
    ensures IndexColumn(s) == IndexColumn(t)
  {
  }

  /** `r` holds all nine columns computed from the answers of `t`. */
  predicate HoldsEnriched(t: Table, r: Table)
    requires Valid(t) && Valid(r)
  {
    HoldsSleep(t, r) && HoldsSymptoms(t, r)
  }

  /** The whole chain computes every new column from the input's answers. */
  lemma {:induction false} EnrichedHolds(t: Table)
    requires Valid(t)
    ensures HoldsEnriched(t, Enriched(t))
  {
    EnrichedSleep(t);
    EnrichedSymptoms(t);
  }

  /** `r` keeps the five sleep columns of `s`. */
  predicate KeepsSleep(s: Table, r: Table)
    requires Valid(s) && Valid(r)
  {
    && Same(s, r, "SleepHours_est") && Same(s, r, "SleepQuality_num") && Same(s, r, "SleepDurationCategory")
    && Same(s, r, "BedTime") && Same(s, r, "BedTime_order")
  }

  /** `r` keeps the three answers the index reads. */
  predicate KeepsSources(s: Table, r: Table)
    requires Valid(s) && Valid(r)
  {
    Same(s, r, "DifficultyFallingAsleep") && Same(s, r, "NightWakeups") && Same(s, r, "SleepQuality")
  }

  lemma StepKeepsSleep(x: Table, name: string, col: seq<Cell>)
    requires Valid(x) && |col| == x.height && !SleepLabel(name)
    ensures KeepsSleep(x, WithColumn(x, name, col))
  {
    WithColumnSame(x, name, col, "SleepHours_est");
    WithColumnSame(x, name, col, "SleepQuality_num");
    WithColumnSame(x, name, col, "SleepDurationCategory");
    WithColumnSame(x, name, col, "BedTime");
    WithColumnSame(x, name, col, "BedTime_order");
  }

  lemma KeepsSleepTrans(a: Table, b: Table, c: Table)
    requires Valid(a) && Valid(b) && Valid(c) && KeepsSleep(a, b) && KeepsSleep(b, c)
    ensures KeepsSleep(a, c)
  {
  }

  lemma StepKeepsSources(x: Table, name: string, col: seq<Cell>)
    requires Valid(x) && |col| == x.height
    requires name != "DifficultyFallingAsleep" && name != "NightWakeups" && name != "SleepQuality"
    ensures KeepsSources(x, WithColumn(x, name, col))
  {
    WithColumnSame(x, name, col, "DifficultyFallingAsleep");
    WithColumnSame(x, name, col, "NightWakeups");
    WithColumnSame(x, name, col, "SleepQuality");
  }

  lemma KeepsSourcesTrans(a: Table, b: Table, c: Table)
    requires Valid(a) && Valid(b) && Valid(c) && KeepsSources(a, b) && KeepsSources(b, c)
    ensures KeepsSources(a, c)
  {
  }

  /** The two flag assignments keep the sleep columns. */
  lemma {:induction false} FlagsKeepSleep(s: Table)
    requires Valid(s)
    ensures var t6 := WithColumn(s, "FrequentDifficultyFallingAsleep", FlagColumn(s, "DifficultyFallingAsleep"));
      KeepsSleep(s, WithColumn(t6, "FrequentNightWakeups", FlagColumn(t6, "NightWakeups")))
  {
    var t6 := WithColumn(s, "FrequentDifficultyFallingAsleep", FlagColumn(s, "DifficultyFallingAsleep"));
    StepKeepsSleep(s, "FrequentDifficultyFallingAsleep", FlagColumn(s, "DifficultyFallingAsleep"));
    var t7 := WithColumn(t6, "FrequentNightWakeups", FlagColumn(t6, "NightWakeups"));
    StepKeepsSleep(t6, "FrequentNightWakeups", FlagColumn(t6, "NightWakeups"));
    KeepsSleepTrans(s, t6, t7);
  }

  /** The index and its band keep the sleep columns. */
  lemma {:induction false} IndexKeepsSleep(t7: Table)
    requires Valid(t7)
    ensures var t8 := WithColumn(t7, "InsomniaSeverity_index", IndexColumn(t7));
      KeepsSleep(t7, WithColumn(t8, "ISI_Category", MapCells(Column(t8, "InsomniaSeverity_index"), CategoryCell)))
  {
    var t8 := WithColumn(t7, "InsomniaSeverity_index", IndexColumn(t7));
    StepKeepsSleep(t7, "InsomniaSeverity_index", IndexColumn(t7));
    var r := WithColumn(t8, "ISI_Category", MapCells(Column(t8, "InsomniaSeverity_index"), CategoryCell));
    StepKeepsSleep(t8, "ISI_Category", MapCells(Column(t8, "InsomniaSeverity_index"), CategoryCell));
    KeepsSleepTrans(t7, t8, r);
  }

  /** The last four assignments keep the sleep columns. */
  lemma {:induction false} SymptomColumnsKeepSleep(s: Table)
    requires Valid(s)
    ensures KeepsSleep(s, SymptomColumns(s))
  {
    var t6 := WithColumn(s, "FrequentDifficultyFallingAsleep", FlagColumn(s, "DifficultyFallingAsleep"));
    var t7 := WithColumn(t6, "FrequentNightWakeups", FlagColumn(t6, "NightWakeups"));
    FlagsKeepSleep(s);
    IndexKeepsSleep(t7);
    KeepsSleepTrans(s, t7, SymptomColumns(s));
  }

  /** The first five assignments keep the answers the index reads. */
  lemma {:induction false} SleepColumnsKeepSources(t: Table)
    requires Valid(t)
    ensures KeepsSources(t, SleepColumns(t))
  {
    var t1 := WithColumn(t, "SleepHours_est", EstimateColumn(t));
    StepKeepsSources(t, "SleepHours_est", EstimateColumn(t));
    var t2 := WithColumn(t1, "SleepQuality_num", QualityNumColumn(t1));
    StepKeepsSources(t1, "SleepQuality_num", QualityNumColumn(t1));
    KeepsSourcesTrans(t, t1, t2);
    var t3 := WithColumn(t2, "SleepDurationCategory", MapCells(Column(t2, "SleepHours_est"), DurationCell));
    StepKeepsSources(t2, "SleepDurationCategory", MapCells(Column(t2, "SleepHours_est"), DurationCell));
    KeepsSourcesTrans(t, t2, t3);
    var t4 := WithColumn(t3, "BedTime", BedTimeColumn(t3));
    StepKeepsSources(t3, "BedTime", BedTimeColumn(t3));
    KeepsSourcesTrans(t, t3, t4);
    var r := WithColumn(t4, "BedTime_order", MapCells(Column(t4, "BedTime"), BedTimeOrderCell));
    StepKeepsSources(t4, "BedTime_order", MapCells(Column(t4, "BedTime"), BedTimeOrderCell));
    KeepsSourcesTrans(t, t4, r);
  }

  /** The first five columns survive the last four assignments. */
  lemma {:induction false} EnrichedSleep(t: Table)
    requires Valid(t)
    ensures HoldsSleep(t, Enriched(t))
  {
    SleepColumnsHold(t);
    SleepSurvives(t, SleepColumns(t));
  }

  lemma {:induction false} SleepSurvives(t: Table, s: Table)
    requires Valid(t) && Valid(s) && HoldsSleep(t, s)
    ensures HoldsSleep(t, SymptomColumns(s))
  {
    SymptomColumnsKeepSleep(s);
    SleepTransfer(t, s, SymptomColumns(s));
  }

  lemma SleepTransfer(t: Table, s: Table, r: Table)
    requires Valid(t) && Valid(s) && Valid(r) && HoldsSleep(t, s) && KeepsSleep(s, r)
    ensures HoldsSleep(t, r)
  {
  }

  /** The last four read the answers the first five leave untouched. */
  lemma {:induction false} EnrichedSymptoms(t: Table)
    requires Valid(t)
    ensures HoldsSymptoms(t, Enriched(t))
  {
    SleepColumnsKeepSources(t);
    SymptomsFromSources(t, SleepColumns(t));
  }

  lemma {:induction false} SymptomsFromSources(t: Table, s: Table)
    requires Valid(t) && Valid(s) && s.height == t.height && KeepsSources(t, s)
    ensures HoldsSymptoms(t, SymptomColumns(s))
  {
    SymptomColumnsHold(s);
    SourcesSame(t, s);
  }

  // ---------------------------------------------------------------------
  // Row by row
  // ---------------------------------------------------------------------

  /** Each row's duration band is the band of that row's estimate. With
      hours answers the estimate is that of the row's answer; without them
      both are NaN in every row. */
  lemma {:induction false} DurationRow(t: Table, r: Table, i: nat)
    requires Valid(t) && Valid(r) && r.height == t.height && i < t.height && HoldsSleep(t, r)
    ensures Column(r, "SleepDurationCategory")[i] == DurationCategory(ToNumeric(Column(r, "SleepHours_est")[i]))
    ensures "SleepHours" in t.columns ==>
      && Column(r, "SleepHours_est")[i] == FromFloat(SleepHoursToEst(Column(t, "SleepHours")[i]))
      && Column(r, "SleepDurationCategory")[i] == DurationCategory(SleepHoursToEst(Column(t, "SleepHours")[i]))
    ensures "SleepHours" !in t.columns ==>
      IsMissing(Column(r, "SleepHours_est")[i]) && IsMissing(Column(r, "SleepDurationCategory")[i])
  {
    if "SleepHours" in t.columns {
      NumericOfFloat(SleepHoursToEst(Column(t, "SleepHours")[i]));
    }
  }

  /** The numeric rating is the rating read as a number, or NaN when there
      is no rating column. */
  lemma {:induction false} QualityNumRow(t: Table, r: Table, i: nat)
    requires Valid(t) && Valid(r) && r.height == t.height && i < t.height && HoldsSleep(t, r)
    ensures "SleepQuality" in t.columns ==>
      ToNumeric(Column(r, "SleepQuality_num")[i]) == ToNumeric(Column(t, "SleepQuality")[i])
    ensures "SleepQuality" !in t.columns ==> IsMissing(Column(r, "SleepQuality_num")[i])
  {
    if "SleepQuality" in t.columns {
      NumericOfFloat(ToNumeric(Column(t, "SleepQuality")[i]));
    }
  }

  /** The bed time is the answer's stripped text, or NaN without a bed-time
      column; its order cell is that text when it is one of the four
      categories and NaN otherwise. */
  lemma {:induction false} BedTimeRow(t: Table, r: Table, i: nat)
    requires Valid(t) && Valid(r) && r.height == t.height && i < t.height && HoldsSleep(t, r)
    ensures "BedTime" in t.columns ==> Column(r, "BedTime")[i] == Text(Strip(Str(Column(t, "BedTime")[i])))
    ensures "BedTime" !in t.columns ==> IsMissing(Column(r, "BedTime")[i]) && IsMissing(Column(r, "BedTime_order")[i])
    ensures var bed, order := Column(r, "BedTime")[i], Column(r, "BedTime_order")[i];
      (bed.Text? && bed.s in BedTimeOrder ==> order == bed)
      && (!(bed.Text? && bed.s in BedTimeOrder) ==> IsMissing(order))
  {
  }

  /** A flag is whether that row's answer names "Often" or "Always", and
      False in every row when the question is absent. */
  lemma {:induction false} FlagsRow(t: Table, r: Table, i: nat)
    requires Valid(t) && Valid(r) && r.height == t.height && i < t.height && HoldsSymptoms(t, r)
    ensures "DifficultyFallingAsleep" in t.columns ==>
      Column(r, "FrequentDifficultyFallingAsleep")[i] == FrequentFlag(Column(t, "DifficultyFallingAsleep")[i])
    ensures "DifficultyFallingAsleep" !in t.columns ==> Column(r, "FrequentDifficultyFallingAsleep")[i] == Flag(false)
    ensures "NightWakeups" in t.columns ==>
      Column(r, "FrequentNightWakeups")[i] == FrequentFlag(Column(t, "NightWakeups")[i])
    ensures "NightWakeups" !in t.columns ==> Column(r, "FrequentNightWakeups")[i] == Flag(false)
  {
  }

  /** With its three answers present, each row's index is the ISI-like
      index of that row's answers and its band is the band of that index;
      with one missing, both are NaN in every row. */
  lemma {:induction false} IndexRow(t: Table, r: Table, i: nat)
    requires Valid(t) && Valid(r) && r.height == t.height && i < t.height && HoldsSymptoms(t, r)
    ensures Column(r, "ISI_Category")[i] == IsiCategory(ToNumeric(Column(r, "InsomniaSeverity_index")[i]))
    ensures HasIsiSources(t) ==>
      var x := IsiLike(Column(t, "DifficultyFallingAsleep")[i], Column(t, "NightWakeups")[i], Column(t, "SleepQuality")[i]);
      Column(r, "InsomniaSeverity_index")[i] == Real(x) && Column(r, "ISI_Category")[i] == IsiCategory(Num(x))
    ensures !HasIsiSources(t) ==>
      IsMissing(Column(r, "InsomniaSeverity_index")[i]) && IsMissing(Column(r, "ISI_Category")[i])
  {
  }

  /** The first five assignments in place. */
  method AddSleepColumns(df: Frame)
    requires Valid(df.Value())
    modifies df
    ensures df.Value() == SleepColumns(old(df.Value()))
  {
    df.SetColumn("SleepHours_est", EstimateColumn(df.Value()));
    df.SetColumn("SleepQuality_num", QualityNumColumn(df.Value()));
    df.SetColumn("SleepDurationCategory", MapCells(Column(df.Value(), "SleepHours_est"), DurationCell));
    df.SetColumn("BedTime", BedTimeColumn(df.Value()));
    df.SetColumn("BedTime_order", MapCells(Column(df.Value(), "BedTime"), BedTimeOrderCell));
  }

  /** The last four in place; the index is computed by `CalculateIsiLike`
      when its answers are present. */
  method AddSymptomColumns(df: Frame)
    requires Valid(df.Value())
    modifies df
    ensures df.Value() == SymptomColumns(old(df.Value()))
  {
    df.SetColumn("FrequentDifficultyFallingAsleep", FlagColumn(df.Value(), "DifficultyFallingAsleep"));
    df.SetColumn("FrequentNightWakeups", FlagColumn(df.Value(), "NightWakeups"));
    var t := df.Value();
    var index: seq<Cell>;
    if HasIsiSources(t) {
      index := CalculateIsiLike(Column(t, "DifficultyFallingAsleep"), Column(t, "NightWakeups"), Column(t, "SleepQuality"));
    } else {
      index := Constant(Missing, t.height);
    }
    assert index == IndexColumn(t);
    df.SetColumn("InsomniaSeverity_index", index);
    df.SetColumn("ISI_Category", MapCells(Column(df.Value(), "InsomniaSeverity_index"), CategoryCell));
  }

  /** The whole chain in place. */
  method EnrichInPlace(df: Frame)
    requires Valid(df.Value())
    modifies df
    ensures df.Value() == Enriched(old(df.Value()))
  {
    AddSleepColumns(df);
    AddSymptomColumns(df);
  }

  // ---------------------------------------------------------------------
  // The whole preparation
  // ---------------------------------------------------------------------

  /** `prepare_nazifa_data` on a non-empty table. */
  function Prepared(t: Table, cands: Candidates, toDatetime: Cell -> Cell): (r: Table)
    requires Valid(t)
    ensures Valid(r) && r.height == t.height
  {
    Enriched(ParseTimestamps(Renamed(t, cands), toDatetime))
  }

  /** The steps after `df.copy()`, on the copy. */
  method PrepareInPlace(df: Frame, cands: Candidates, toDatetime: Cell -> Cell)
    requires Valid(df.Value())
    modifies df
    ensures df.Value() == Prepared(old(df.Value()), cands, toDatetime)
  {
    RenameInPlace(df, cands);
    ParseTimestampsInPlace(df, toDatetime);
    EnrichInPlace(df);
  }

  /** `prepare_nazifa_data(df)` for any list of rename candidates: a
      missing or empty table comes back as it is; otherwise a new table
      holding the prepared copy, and the input is left untouched. */
  method PrepareWith(df: Frame?, cands: Candidates, toDatetime: Cell -> Cell) returns (out: Frame?)
    requires df != null ==> Valid(df.Value())
    ensures df == null || df.height == 0 ==> out == df
    ensures df != null && df.height > 0 ==>
      out != null && fresh(out) && out.Value() == Prepared(df.Value(), cands, toDatetime)
  {
    if df == null || df.height == 0 {
      return df;
    }
    out := df.Copy();
    PrepareInPlace(out, cands, toDatetime);
  }
}

/** `prepare_nazifa_data` with its own table of rename candidates. */
module NazifaForm {
  import opened Cells
  import opened Tables
  import opened Schema
  import opened Questions
  import opened NazifaPipeline

  /** `rename_candidates`: the eleven questions this page reads. */
  const NazifaCandidates: Candidates := [
    ("Timestamp", "Timestamp"),
    (GenderQuestion, "Gender"),
    (AgeGroupQuestion, "AgeGroup"),
    (YearOfStudyQuestion, "YearOfStudy"),
    (FacultyQuestion, "Faculty"),
    (DifficultyFallingAsleepQuestion, "DifficultyFallingAsleep"),
    (SleepHoursQuestion, "SleepHours"),
    (NightWakeupsQuestion, "NightWakeups"),
    (SleepQualityQuestion, "SleepQuality"),
    (BedTimeQuestion, "BedTime"),
    (DayNapQuestion, "DayNap")
  ]

  /** A list of eleven well-formed candidates, whatever their text, is
      consistent. */
  lemma {:induction false} EntriesConsistent(
      p0: (string, string), p1: (string, string), p2: (string, string),
      p3: (string, string), p4: (string, string), p5: (string, string),
      p6: (string, string), p7: (string, string), p8: (string, string),
      p9: (string, string), p10: (string, string))
    requires WellFormed(p0)
    requires WellFormed(p1)
    requires WellFormed(p2)
    requires WellFormed(p3)
    requires WellFormed(p4)
    requires WellFormed(p5)
    requires WellFormed(p6)
    requires WellFormed(p7)
    requires WellFormed(p8)
    requires WellFormed(p9)
    requires WellFormed(p10)
    ensures Consistent(Keyed([p0, p1, p2, p3, p4, p5, p6, p7, p8, p9, p10]))
  {
    WellFormedConsistent([p0, p1, p2, p3, p4, p5, p6, p7, p8, p9, p10]);
  }

  /** Every candidate of the page is a normalised question with a short name
      without whitespace, so the page's candidates are consistent. */
  lemma {:induction false} CandidatesConsistent()
    ensures Consistent(Keyed(NazifaCandidates))
  {
    ShortWellFormed("Timestamp");
    GenderCandidate();
    AgeGroupCandidate();
    YearOfStudyCandidate();
    FacultyCandidate();
    DifficultyFallingAsleepCandidate();
    SleepHoursCandidate();
    NightWakeupsCandidate();
    SleepQualityCandidate();
    BedTimeCandidate();
    DayNapCandidate();
    EntriesConsistent(
      ("Timestamp", "Timestamp"),
      (GenderQuestion, "Gender"),
      (AgeGroupQuestion, "AgeGroup"),
      (YearOfStudyQuestion, "YearOfStudy"),
      (FacultyQuestion, "Faculty"),
      (DifficultyFallingAsleepQuestion, "DifficultyFallingAsleep"),
      (SleepHoursQuestion, "SleepHours"),
      (NightWakeupsQuestion, "NightWakeups"),
      (SleepQualityQuestion, "SleepQuality"),
      (BedTimeQuestion, "BedTime"),
      (DayNapQuestion, "DayNap"));
  }

  /** The page's conditional rename, applied a second time, changes
      nothing. */
  lemma {:induction false} RenameIdempotent(cols: seq<string>)
    ensures ConditionalRename(ConditionalRename(cols, NazifaCandidates), NazifaCandidates)
         == ConditionalRename(cols, NazifaCandidates)
  {
    CandidatesConsistent();
    ConditionalRenameIdempotent(cols, NazifaCandidates);
  }

  method PrepareNazifaData(df: Frame?, toDatetime: Cell -> Cell) returns (out: Frame?)
    requires df != null ==> Valid(df.Value())
    ensures df == null || df.height == 0 ==> out == df
    ensures df != null && df.height > 0 ==>
      out != null && fresh(out) && out.Value() == Prepared(df.Value(), NazifaCandidates, toDatetime)
  {
    if df == null || df.height == 0 {
      return df;
    }
    out := PrepareWith(df, NazifaCandidates, toDatetime);
  }
}
