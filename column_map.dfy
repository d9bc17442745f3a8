/** The robust rename of data_loader.py (`col_map`, `col_map_norm` and the
    rename of `load_data`): every label that is the normalised text of a
    question of the form becomes its short name, unconditionally. */
module ColumnMap {
  import opened Headers
  import opened Tables
  import opened Questions
  import opened Schema

  /** `col_map`: each question of the form with its short name, in the
      order of the dictionary literal. */
  const ColMap: Candidates := [
    ("Timestamp", "Timestamp"),
    (GenderQuestion, "Gender"),
    (AgeGroupQuestion, "AgeGroup"),
    (YearOfStudyQuestion, "YearOfStudy"),
    (FacultyQuestion, "Faculty"),
    (DifficultyFallingAsleepQuestion, "DifficultyFallingAsleep"),
    (SleepHoursQuestion, "SleepHours"),
    (NightWakeupsQuestion, "NightWakeups"),
    (SleepQualityQuestion, "SleepQuality"),
    (BedTimeQuestion, "BedTime"),
    (DayNapQuestion, "DayNap"),
    (ConcentrationDifficultyQuestion, "ConcentrationDifficulty"),
    (DaytimeFatigueQuestion, "DaytimeFatigue"),
    (MissedClassesQuestion, "MissedClasses"),
    (AssignmentImpactQuestion, "AssignmentImpact"),
    (ExamSleepChangeQuestion, "ExamSleepChange"),
    (AcademicPerformanceQuestion, "AcademicPerformance"),
    (GPAQuestion, "GPA"),
    (CGPAQuestion, "CGPA"),
    (DeviceUsageQuestion, "DeviceUsage"),
    (CaffeineConsumptionQuestion, "CaffeineConsumption"),
    (PhysicalActivityQuestion, "PhysicalActivity"),
    (StressLevelQuestion, "StressLevel"),
    (SleepMethodsQuestion, "SleepMethods")
  ]

  /** A dictionary built from pairs in order: a later pair with the same key
      overwrites an earlier one. */
  function ToMap(ks: Candidates): (m: map<string, string>)
    decreases |ks|
  {
    if ks == [] then map[] else ToMap(ks[..|ks| - 1])[ks[|ks| - 1].0 := ks[|ks| - 1].1]
  }

  /** The dictionary holds exactly the keys of the pairs, and each key is
      mapped to the short name of the last pair with that key. */
  lemma {:induction false} ToMapSpec(ks: Candidates)
    ensures forall k :: k in ToMap(ks) <==> exists i :: 0 <= i < |ks| && ks[i].0 == k
    ensures forall k :: k in ToMap(ks) ==>
      exists i :: 0 <= i < |ks| && ks[i] == (k, ToMap(ks)[k]) && forall j :: i < j < |ks| ==> ks[j].0 != k
    decreases |ks|
  {
    if ks != [] {
      var n := |ks| - 1;
      var init := ks[..n];
      ToMapSpec(init);
      assert forall i :: 0 <= i < n ==> init[i] == ks[i];
      var m := ToMap(ks);
      forall k | k in m
        ensures exists i :: 0 <= i < |ks| && ks[i] == (k, m[k]) && forall j :: i < j < |ks| ==> ks[j].0 != k
      {
        if k == ks[n].0 {
          assert ks[n] == (k, m[k]);
        } else {
          assert k in ToMap(init);
          var i :| 0 <= i < n && init[i] == (k, ToMap(init)[k]) && forall j :: i < j < n ==> init[j].0 != k;
          assert ks[i] == (k, m[k]);
        }
      }
    }
  }

  /** `col_map_norm = {_norm_header(k): v for k, v in col_map.items()}` */
  function NormMap(cands: Candidates): map<string, string> {
    ToMap(Keyed(cands))
  }

  /** `{c: col_map_norm[c] for c in df.columns if c in col_map_norm}` */
  function PresentRenames(cols: seq<string>, m: map<string, string>): (d: map<string, string>)
    ensures forall c :: c in d <==> c in cols && c in m
    ensures forall c :: c in d ==> d[c] == m[c]
  {
    map c | c in cols && c in m :: m[c]
  }

  /** The labels after the robust rename with `cands` as `col_map`: a label
      that is a key of the normalised map becomes its short name, every
      other label stays, and no label is added or dropped. */
  function RenameAll(cols: seq<string>, cands: Candidates): (r: seq<string>)
    ensures |r| == |cols|
  {
    RenameLabels(cols, PresentRenames(cols, NormMap(cands)))
  }

  lemma RenameAllLabels(cols: seq<string>, cands: Candidates)
    ensures forall p :: 0 <= p < |cols| && cols[p] !in NormMap(cands) ==> RenameAll(cols, cands)[p] == cols[p]
    ensures forall p :: 0 <= p < |cols| && cols[p] in NormMap(cands) ==> RenameAll(cols, cands)[p] == NormMap(cands)[cols[p]]
  {
  }

  /** Which labels the rename touches: exactly the normalised questions,
      each turned into the short name of the last pair listing it. */
  lemma {:induction false} RenameAllSpec(cols: seq<string>, cands: Candidates, p: nat)
    requires p < |cols|
    ensures cols[p] in NormMap(cands) <==> exists i :: 0 <= i < |cands| && Normalize(cands[i].0) == cols[p]
    ensures cols[p] in NormMap(cands) ==>
      exists i :: 0 <= i < |cands| && Normalize(cands[i].0) == cols[p] && RenameAll(cols, cands)[p] == cands[i].1
        && forall j :: i < j < |cands| ==> Normalize(cands[j].0) != cols[p]
  {
    ToMapSpec(Keyed(cands));
    RenameAllLabels(cols, cands);
  }

  /** A raw header that differs from a question only in its whitespace
      (extra, no-break, newline or tab) is renamed once the labels are
      normalised, whatever short name other columns have. */
  lemma {:induction false} RawHeaderRenamed(raw: seq<string>, cands: Candidates, p: nat, i: nat)
    requires p < |raw| && i < |cands| && Normalize(raw[p]) == Normalize(cands[i].0)
    ensures exists j :: (i <= j < |cands| && Normalize(cands[j].0) == Normalize(raw[p])
      && RenameAll(NormalizeLabels(raw), cands)[p] == cands[j].1)
  {
    var cols := NormalizeLabels(raw);
    RenameAllSpec(cols, cands, p);
    var j :| 0 <= j < |cands| && Normalize(cands[j].0) == cols[p] && RenameAll(cols, cands)[p] == cands[j].1
      && forall k :: j < k < |cands| ==> Normalize(cands[k].0) != cols[p];
    assert i <= j;
  }

  /** Unlike the conditional rename of the cleaning modules, this rename
      happens even when the short name is already a column: a table with
      both the question and its short name ends with two columns of that
      name (the conditional rename leaves it alone:
      `ConditionalKeepsDuplicate`). */
  lemma {:induction false} RenameAllDuplicates(cols: seq<string>, cands: Candidates)
    requires |cands| == 1 && Normalize(cands[0].0) == cands[0].0
    requires cols == [cands[0].0, cands[0].1] && cands[0].0 != cands[0].1
    ensures RenameAll(cols, cands) == [cands[0].1, cands[0].1]
  {
    OneEntry(cands);
    RenameTwo(cols, NormMap(cands));
    RenameAllLabels(cols, cands);
  }

  /** One pair whose question is normalised makes a one-entry
      dictionary. */
  lemma {:induction false} OneEntry(cands: Candidates)
    requires |cands| == 1 && Normalize(cands[0].0) == cands[0].0
    ensures forall k :: k in NormMap(cands) <==> k == cands[0].0
    ensures NormMap(cands)[cands[0].0] == cands[0].1
  {
    var ks := Keyed(cands);
    assert ks[0] == cands[0];
    assert ks[..0] == [];
    assert NormMap(cands) == ToMap(ks[..0])[ks[0].0 := ks[0].1];
  }

  lemma {:induction false} RenameTwo(cols: seq<string>, m: map<string, string>)
    requires |cols| == 2 && cols[0] != cols[1]
    requires forall k :: k in m <==> k == cols[0]
    requires m[cols[0]] == cols[1]
    ensures RenameLabels(cols, PresentRenames(cols, m)) == [cols[1], cols[1]]
  {
    var d := PresentRenames(cols, m);
    assert cols[0] in d && d[cols[0]] == cols[1];
    assert cols[1] !in d;
  }

  lemma {:induction false} ConditionalKeepsDuplicate(cols: seq<string>, cands: Candidates)
    requires |cands| == 1 && Normalize(cands[0].0) == cands[0].0
    requires cols == [cands[0].0, cands[0].1] && cands[0].0 != cands[0].1
    ensures ConditionalRename(cols, cands) == cols
  {
    ShortPresent(cols, Keyed(cands));
  }

  lemma {:induction false} ShortPresent(cols: seq<string>, ks: Candidates)
    requires |ks| == 1 && ks[0].1 in cols
    ensures RenameDict(cols, ks) == map[]
  {
    assert ks[..0] == [];
  }
}
