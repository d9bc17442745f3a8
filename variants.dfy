/** How the three copies of the answer conversions (data_loader.py,
    cleaning_aelyana.py and cleaning_nazifa.py) agree and where they part:
    the hours tables differ on two answers only, the two page fallbacks read
    the same numbers, and the frequency tables nest inside one another. */
module Variants {
  import opened Strings
  import opened Cells
  import opened Numbers
  import Loader
  import Aelyana
  import Nazifa

  // ---------------------------------------------------------------------
  // Sleep hours
  // ---------------------------------------------------------------------

  /** The two page tables list the same answers with the same values,
      except "Less than 5 hours", which only the academic page lists, and
      "More than 8 hours", read as 9.0 there and as 8.5 on the sleep page. */
  lemma {:induction false} HoursTablesAgree(x: string)
    requires x != "Less than 5 hours" && x != "More than 8 hours"
    ensures Aelyana.HoursTable(x) == Nazifa.HoursTable(x)
  {
  }

  /** Replacing the en dash before reading the numbers changes nothing:
      the two page fallbacks agree on every text. */
  lemma {:induction false} FallbacksAgree(x: string)
    ensures Aelyana.HoursFallback(x) == Nazifa.HoursFallback(x)
  {
    Aelyana.DashFigures(x);
  }

  /** So the two page estimates agree on every answer but the two above. */
  lemma {:induction false} PageEstimatesAgree(c: Cell)
    requires Strip(Str(c)) != "Less than 5 hours" && Strip(Str(c)) != "More than 8 hours"
    ensures Aelyana.SleepHoursToEst(c) == Nazifa.SleepHoursToEst(c)
  {
    HoursTablesAgree(Strip(Str(c)));
    FallbacksAgree(Strip(Str(c)));
  }

  /** "More than 8 hours" is 9.0 on the academic page. */
  lemma {:induction false} MoreThanEightAcademic(s: string)
    requires s == "More than 8 hours"
    ensures Aelyana.SleepHoursToEst(Text(s)) == Num(9.0)
  {
    assert Aelyana.HoursTable(s) == Num(9.0);
    StripKeeps(s);
  }

  /** "More than 8 hours" is 8.5 on the sleep page. */
  lemma {:induction false} MoreThanEightSleep(s: string)
    requires s == "More than 8 hours"
    ensures Nazifa.SleepHoursToEst(Text(s)) == Num(8.5)
  {
    assert Nazifa.HoursTable(s) == Num(8.5);
    StripKeeps(s);
  }

  /** "More than 8 hours" is 8.5 to the loader, by its "more than" rule. */
  lemma {:induction false} MoreThanEightLoader(s: string)
    requires s == "More than 8 hours"
    ensures Loader.SleepHoursEstimate(Text(s)) == Num(8.5)
  {
    assert ShowNat(8) == "8";
    assert s == "More than " + ShowNat(8) + " hours";
    Loader.LoaderMoreThanAnswer(8);
  }

  /** The answer on which the three estimates do not all agree: the loader
      and the sleep page read it alike, the academic page does not. */
  lemma {:induction false} MoreThanEightDiffers(s: string)
    requires s == "More than 8 hours"
    ensures Loader.SleepHoursEstimate(Text(s)) == Nazifa.SleepHoursToEst(Text(s))
    ensures Aelyana.SleepHoursToEst(Text(s)) != Nazifa.SleepHoursToEst(Text(s))
  {
    MoreThanEightAcademic(s);
    MoreThanEightSleep(s);
    MoreThanEightLoader(s);
  }

  // ---------------------------------------------------------------------
  // Frequency answers
  // ---------------------------------------------------------------------

  /** Every answer the sleep page scores, the loader scores the same. */
  lemma {:induction false} SleepPageWithinLoader(s: string)
    ensures Nazifa.FreqPoints(s) > 0 ==> Loader.FrequencyPoints(s) == Nazifa.FreqPoints(s)
  {
  }

  /** Every answer the loader scores, the academic page scores the same. */
  lemma {:induction false} LoaderWithinAcademic(s: string)
    ensures Loader.FrequencyPoints(s) > 0 ==> Aelyana.FreqPoints(s) == Loader.FrequencyPoints(s)
  {
  }

  /** The hyphen spelling of a band: the loader and the academic page
      score it like the en-dash spelling, the sleep page gives it 0. */
  lemma {:induction false} HyphenBand(s: string, n: nat)
    requires (s == "Rarely (1-2 times a week)" && n == 1)
          || (s == "Sometimes (3-4 times a week)" && n == 2)
          || (s == "Often (5-6 times a week)" && n == 3)
    ensures Loader.FrequencyPoints(s) == n
    ensures Aelyana.FreqPoints(s) == n
    ensures Nazifa.FreqPoints(s) == 0
  {
  }
}
