/** The questions of the sleep survey form, as they head the columns of a
    raw export. Each is written as its list of words: joined by single
    spaces they give the header text, and the word list makes the header's
    normalised shape and its difference from every other header provable. */
module Questions {
  import opened Strings
  import opened Headers
  import opened Schema

  const GenderWords: seq<string> := ["What", "is", "your", "gender?"]
  const GenderQuestion: string := Sentence(GenderWords)

  const AgeGroupWords: seq<string> := ["What", "is", "your", "age", "group?"]
  const AgeGroupQuestion: string := Sentence(AgeGroupWords)

  const YearOfStudyWords: seq<string> := ["What", "is", "your", "year", "of", "study?"]
  const YearOfStudyQuestion: string := Sentence(YearOfStudyWords)

  const FacultyWords: seq<string> := ["Which", "faculty", "are", "you", "currently", "enrolled", "in?"]
  const FacultyQuestion: string := Sentence(FacultyWords)

  const DifficultyFallingAsleepWords: seq<string> := ["How", "often", "do", "you", "have", "difficulty", "falling", "asleep", "at", "night?"]
  const DifficultyFallingAsleepQuestion: string := Sentence(DifficultyFallingAsleepWords)

  const SleepHoursWords: seq<string> := ["On", "average,", "how", "many", "hours", "of", "sleep", "do", "you", "get", "on", "a", "typical", "day?"]
  const SleepHoursQuestion: string := Sentence(SleepHoursWords)

  const NightWakeupsWords: seq<string> := ["How", "often", "do", "you", "wake", "up", "during", "the", "night", "and", "have", "trouble", "falling", "back", "asleep?"]
  const NightWakeupsQuestion: string := Sentence(NightWakeupsWords)

  const SleepQualityWords: seq<string> := ["How", "would", "you", "rate", "the", "overall", "quality", "of", "your", "sleep?"]
  const SleepQualityQuestion: string := Sentence(SleepQualityWords)

  const BedTimeWords: seq<string> := ["At", "what", "time", "do", "you", "usually", "go", "to", "bed", "on", "weekdays?"]
  const BedTimeQuestion: string := Sentence(BedTimeWords)

  const DayNapWords: seq<string> := ["Do", "you", "usually", "nap", "during", "the", "day?"]
  const DayNapQuestion: string := Sentence(DayNapWords)

  const ConcentrationDifficultyWords: seq<string> := ["How", "often", "do", "you", "experience", "difficulty", "concentrating", "during", "lectures", "or", "studying", "due", "to", "lack", "of", "sleep?"]
  const ConcentrationDifficultyQuestion: string := Sentence(ConcentrationDifficultyWords)

  const DaytimeFatigueWords: seq<string> := ["How", "often", "do", "you", "feel", "fatigued", "during", "the", "day,", "affecting", "your", "ability", "to", "study", "or", "attend", "classes?"]
  const DaytimeFatigueQuestion: string := Sentence(DaytimeFatigueWords)

  const MissedClassesWords: seq<string> := ["How", "often", "do", "you", "miss", "or", "skip", "classes", "due", "to", "sleep-related", "issues", "(e.g.,", "insomnia,", "feeling", "tired)?"]
  const MissedClassesQuestion: string := Sentence(MissedClassesWords)

  const AssignmentImpactWords: seq<string> := ["How", "would", "you", "describe", "the", "impact", "of", "insufficient", "sleep", "on", "your", "ability", "to", "complete", "assignments", "and", "meet", "deadlines?"]
  const AssignmentImpactQuestion: string := Sentence(AssignmentImpactWords)

  const ExamSleepChangeWords: seq<string> := ["During", "exam", "periods,", "how", "much", "does", "your", "sleep", "pattern", "change?"]
  const ExamSleepChangeQuestion: string := Sentence(ExamSleepChangeWords)

  const AcademicPerformanceWords: seq<string> := ["How", "would", "you", "rate", "your", "overall", "academic", "performance", "(GPA", "or", "grades)", "in", "the", "past", "semester?"]
  const AcademicPerformanceQuestion: string := Sentence(AcademicPerformanceWords)

  const GPAWords: seq<string> := ["What", "is", "your", "GPA", "range", "for", "the", "most", "recent", "semester?"]
  const GPAQuestion: string := Sentence(GPAWords)

  const CGPAWords: seq<string> := ["What", "is", "your", "CGPA", "range", "for", "the", "most", "recent", "semester?"]
  const CGPAQuestion: string := Sentence(CGPAWords)

  const DeviceUsageWords: seq<string> := ["How", "often", "do", "you", "use", "electronic", "devices", "(e.g.,", "phone,", "computer)", "before", "going", "to", "sleep?"]
  const DeviceUsageQuestion: string := Sentence(DeviceUsageWords)

  const CaffeineConsumptionWords: seq<string> := ["How", "often", "do", "you", "consume", "caffeine", "(coffee,", "energy", "drinks)", "to", "stay", "awake", "or", "alert?"]
  const CaffeineConsumptionQuestion: string := Sentence(CaffeineConsumptionWords)

  const PhysicalActivityWords: seq<string> := ["How", "often", "do", "you", "engage", "in", "physical", "activity", "or", "exercise?"]
  const PhysicalActivityQuestion: string := Sentence(PhysicalActivityWords)

  const StressLevelWords: seq<string> := ["How", "would", "you", "describe", "your", "stress", "levels", "related", "to", "academic", "workload?"]
  const StressLevelQuestion: string := Sentence(StressLevelWords)

  const SleepMethodsWords: seq<string> := ["Do", "you", "use", "any", "methods", "to", "help", "you", "sleep?"]
  const SleepMethodsQuestion: string := Sentence(SleepMethodsWords)

  // The questions the two pages rename, each with its short name, are
  // well-formed rename candidates.

  lemma {:induction false} DifficultyFallingAsleepQuestionWords()
    ensures |DifficultyFallingAsleepWords| >= 2 && Words(DifficultyFallingAsleepWords)
  {
    assert forall k :: 0 <= k < |DifficultyFallingAsleepWords| ==> DifficultyFallingAsleepWords[k] != [] && Printable(DifficultyFallingAsleepWords[k]);
    PrintableWords(DifficultyFallingAsleepWords);
  }

  lemma {:induction false} DifficultyFallingAsleepCandidate()
    ensures WellFormed((DifficultyFallingAsleepQuestion, "DifficultyFallingAsleep"))
  {
    DifficultyFallingAsleepQuestionWords();
    PrintableNoSpace("DifficultyFallingAsleep");
    QuestionWellFormed(DifficultyFallingAsleepWords, "DifficultyFallingAsleep");
  }

  lemma {:induction false} NightWakeupsQuestionWords()
    ensures |NightWakeupsWords| >= 2 && Words(NightWakeupsWords)
  {
    assert forall k :: 0 <= k < |NightWakeupsWords| ==> NightWakeupsWords[k] != [] && Printable(NightWakeupsWords[k]);
    PrintableWords(NightWakeupsWords);
  }

  lemma {:induction false} NightWakeupsCandidate()
    ensures WellFormed((NightWakeupsQuestion, "NightWakeups"))
  {
    NightWakeupsQuestionWords();
    PrintableNoSpace("NightWakeups");
    QuestionWellFormed(NightWakeupsWords, "NightWakeups");
  }

  lemma {:induction false} SleepQualityQuestionWords()
    ensures |SleepQualityWords| >= 2 && Words(SleepQualityWords)
  {
    assert forall k :: 0 <= k < |SleepQualityWords| ==> SleepQualityWords[k] != [] && Printable(SleepQualityWords[k]);
    PrintableWords(SleepQualityWords);
  }

  lemma {:induction false} SleepQualityCandidate()
    ensures WellFormed((SleepQualityQuestion, "SleepQuality"))
  {
    SleepQualityQuestionWords();
    PrintableNoSpace("SleepQuality");
    QuestionWellFormed(SleepQualityWords, "SleepQuality");
  }

  lemma {:induction false} DaytimeFatigueQuestionWords()
    ensures |DaytimeFatigueWords| >= 2 && Words(DaytimeFatigueWords)
  {
    assert forall k :: 0 <= k < |DaytimeFatigueWords| ==> DaytimeFatigueWords[k] != [] && Printable(DaytimeFatigueWords[k]);
    PrintableWords(DaytimeFatigueWords);
  }

  lemma {:induction false} DaytimeFatigueCandidate()
    ensures WellFormed((DaytimeFatigueQuestion, "DaytimeFatigue"))
  {
    DaytimeFatigueQuestionWords();
    PrintableNoSpace("DaytimeFatigue");
    QuestionWellFormed(DaytimeFatigueWords, "DaytimeFatigue");
  }

  lemma {:induction false} SleepHoursQuestionWords()
    ensures |SleepHoursWords| >= 2 && Words(SleepHoursWords)
  {
    assert forall k :: 0 <= k < |SleepHoursWords| ==> SleepHoursWords[k] != [] && Printable(SleepHoursWords[k]);
    PrintableWords(SleepHoursWords);
  }

  lemma {:induction false} SleepHoursCandidate()
    ensures WellFormed((SleepHoursQuestion, "SleepHours"))
  {
    SleepHoursQuestionWords();
    PrintableNoSpace("SleepHours");
    QuestionWellFormed(SleepHoursWords, "SleepHours");
  }

  lemma {:induction false} ConcentrationDifficultyQuestionWords()
    ensures |ConcentrationDifficultyWords| >= 2 && Words(ConcentrationDifficultyWords)
  {
    assert forall k :: 0 <= k < |ConcentrationDifficultyWords| ==> ConcentrationDifficultyWords[k] != [] && Printable(ConcentrationDifficultyWords[k]);
    PrintableWords(ConcentrationDifficultyWords);
  }

  lemma {:induction false} ConcentrationDifficultyCandidate()
    ensures WellFormed((ConcentrationDifficultyQuestion, "ConcentrationDifficulty"))
  {
    ConcentrationDifficultyQuestionWords();
    PrintableNoSpace("ConcentrationDifficulty");
    QuestionWellFormed(ConcentrationDifficultyWords, "ConcentrationDifficulty");
  }

  lemma {:induction false} MissedClassesQuestionWords()
    ensures |MissedClassesWords| >= 2 && Words(MissedClassesWords)
  {
    assert forall k :: 0 <= k < |MissedClassesWords| ==> MissedClassesWords[k] != [] && Printable(MissedClassesWords[k]);
    PrintableWords(MissedClassesWords);
  }

  lemma {:induction false} MissedClassesCandidate()
    ensures WellFormed((MissedClassesQuestion, "MissedClasses"))
  {
    MissedClassesQuestionWords();
    PrintableNoSpace("MissedClasses");
    QuestionWellFormed(MissedClassesWords, "MissedClasses");
  }

  lemma {:induction false} AssignmentImpactQuestionWords()
    ensures |AssignmentImpactWords| >= 2 && Words(AssignmentImpactWords)
  {
    assert forall k :: 0 <= k < |AssignmentImpactWords| ==> AssignmentImpactWords[k] != [] && Printable(AssignmentImpactWords[k]);
    PrintableWords(AssignmentImpactWords);
  }

  lemma {:induction false} AssignmentImpactCandidate()
    ensures WellFormed((AssignmentImpactQuestion, "AssignmentImpact"))
  {
    AssignmentImpactQuestionWords();
    PrintableNoSpace("AssignmentImpact");
    QuestionWellFormed(AssignmentImpactWords, "AssignmentImpact");
  }

  lemma {:induction false} AcademicPerformanceQuestionWords()
    ensures |AcademicPerformanceWords| >= 2 && Words(AcademicPerformanceWords)
  {
    assert forall k :: 0 <= k < |AcademicPerformanceWords| ==> AcademicPerformanceWords[k] != [] && Printable(AcademicPerformanceWords[k]);
    PrintableWords(AcademicPerformanceWords);
  }

  lemma {:induction false} AcademicPerformanceCandidate()
    ensures WellFormed((AcademicPerformanceQuestion, "AcademicPerformance"))
  {
    AcademicPerformanceQuestionWords();
    PrintableNoSpace("AcademicPerformance");
    QuestionWellFormed(AcademicPerformanceWords, "AcademicPerformance");
  }

  lemma {:induction false} GPAQuestionWords()
    ensures |GPAWords| >= 2 && Words(GPAWords)
  {
    assert forall k :: 0 <= k < |GPAWords| ==> GPAWords[k] != [] && Printable(GPAWords[k]);
    PrintableWords(GPAWords);
  }

  lemma {:induction false} GPACandidate()
    ensures WellFormed((GPAQuestion, "GPA"))
  {
    GPAQuestionWords();
    PrintableNoSpace("GPA");
    QuestionWellFormed(GPAWords, "GPA");
  }

  lemma {:induction false} CGPAQuestionWords()
    ensures |CGPAWords| >= 2 && Words(CGPAWords)
  {
    assert forall k :: 0 <= k < |CGPAWords| ==> CGPAWords[k] != [] && Printable(CGPAWords[k]);
    PrintableWords(CGPAWords);
  }

  lemma {:induction false} CGPACandidate()
    ensures WellFormed((CGPAQuestion, "CGPA"))
  {
    CGPAQuestionWords();
    PrintableNoSpace("CGPA");
    QuestionWellFormed(CGPAWords, "CGPA");
  }

  lemma {:induction false} GenderQuestionWords()
    ensures |GenderWords| >= 2 && Words(GenderWords)
  {
    assert forall k :: 0 <= k < |GenderWords| ==> GenderWords[k] != [] && Printable(GenderWords[k]);
    PrintableWords(GenderWords);
  }

  lemma {:induction false} GenderCandidate()
    ensures WellFormed((GenderQuestion, "Gender"))
  {
    GenderQuestionWords();
    PrintableNoSpace("Gender");
    QuestionWellFormed(GenderWords, "Gender");
  }

  lemma {:induction false} AgeGroupQuestionWords()
    ensures |AgeGroupWords| >= 2 && Words(AgeGroupWords)
  {
    assert forall k :: 0 <= k < |AgeGroupWords| ==> AgeGroupWords[k] != [] && Printable(AgeGroupWords[k]);
    PrintableWords(AgeGroupWords);
  }

  lemma {:induction false} AgeGroupCandidate()
    ensures WellFormed((AgeGroupQuestion, "AgeGroup"))
  {
    AgeGroupQuestionWords();
    PrintableNoSpace("AgeGroup");
    QuestionWellFormed(AgeGroupWords, "AgeGroup");
  }

  lemma {:induction false} YearOfStudyQuestionWords()
    ensures |YearOfStudyWords| >= 2 && Words(YearOfStudyWords)
  {
    assert forall k :: 0 <= k < |YearOfStudyWords| ==> YearOfStudyWords[k] != [] && Printable(YearOfStudyWords[k]);
    PrintableWords(YearOfStudyWords);
  }

  lemma {:induction false} YearOfStudyCandidate()
    ensures WellFormed((YearOfStudyQuestion, "YearOfStudy"))
  {
    YearOfStudyQuestionWords();
    PrintableNoSpace("YearOfStudy");
    QuestionWellFormed(YearOfStudyWords, "YearOfStudy");
  }

  lemma {:induction false} FacultyQuestionWords()
    ensures |FacultyWords| >= 2 && Words(FacultyWords)
  {
    assert forall k :: 0 <= k < |FacultyWords| ==> FacultyWords[k] != [] && Printable(FacultyWords[k]);
    PrintableWords(FacultyWords);
  }

  lemma {:induction false} FacultyCandidate()
    ensures WellFormed((FacultyQuestion, "Faculty"))
  {
    FacultyQuestionWords();
    PrintableNoSpace("Faculty");
    QuestionWellFormed(FacultyWords, "Faculty");
  }

  lemma {:induction false} BedTimeQuestionWords()
    ensures |BedTimeWords| >= 2 && Words(BedTimeWords)
  {
    assert forall k :: 0 <= k < |BedTimeWords| ==> BedTimeWords[k] != [] && Printable(BedTimeWords[k]);
    PrintableWords(BedTimeWords);
  }

  lemma {:induction false} BedTimeCandidate()
    ensures WellFormed((BedTimeQuestion, "BedTime"))
  {
    BedTimeQuestionWords();
    PrintableNoSpace("BedTime");
    QuestionWellFormed(BedTimeWords, "BedTime");
  }

  lemma {:induction false} DayNapQuestionWords()
    ensures |DayNapWords| >= 2 && Words(DayNapWords)
  {
    assert forall k :: 0 <= k < |DayNapWords| ==> DayNapWords[k] != [] && Printable(DayNapWords[k]);
    PrintableWords(DayNapWords);
  }

  lemma {:induction false} DayNapCandidate()
    ensures WellFormed((DayNapQuestion, "DayNap"))
  {
    DayNapQuestionWords();
    PrintableNoSpace("DayNap");
    QuestionWellFormed(DayNapWords, "DayNap");
  }
}
