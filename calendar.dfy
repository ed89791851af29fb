/**
 The year of a day number in the proleptic Gregorian calendar, which is what
 `LocalDate.getYear()` returns.
 */
module Calendar {

  /** Days in one 400-year cycle of the Gregorian calendar. */
  const DaysPerEra: int := 146097

  /** Day number of 0000-03-01 counted back from 1970-01-01. */
  const EpochShift: int := 719468

  /**
   The civil year of `day`. Years are counted as starting on March 1 while the
   day of the cycle is found, and January and February are moved to the next
   year at the end.
   */
  function YearOf(day: int): int {
    var z := day + EpochShift;
    var era := z / DaysPerEra;
    var dayOfEra := z - era * DaysPerEra;
    var yearOfEra := (dayOfEra - dayOfEra / 1460 + dayOfEra / 36524 - dayOfEra / 146096) / 365;
    var dayOfYear := dayOfEra - (365 * yearOfEra + yearOfEra / 4 - yearOfEra / 100);
    var shiftedMonth := (5 * dayOfYear + 2) / 153;
    var marchYear := yearOfEra + era * 400;
    if shiftedMonth >= 10 then marchYear + 1 else marchYear
  }

  /** The calendar repeats every 400 years: moving a date by one cycle moves its year by 400. */
  lemma YearOfNextEra(day: int)
    ensures YearOf(day + DaysPerEra) == YearOf(day) + 400
  {
    var z := day + EpochShift;
    assert (z + DaysPerEra) / DaysPerEra == z / DaysPerEra + 1;
  }

  /** Fixed points of the day numbering: the epoch and the turn of 2024 into 2025. */
  lemma YearOfKnownDays()
    ensures YearOf(0) == 1970 && YearOf(-1) == 1969
    ensures YearOf(20088) == 2024 && YearOf(20089) == 2025
    ensures YearOf(11016) == 2000
  {
  }
}
