/**
 A holiday and the window of dates around it during which prices are watched
 for manipulation.
 */
module Holidays {
  import opened Types
  import Calendar

  /** Days watched before the holiday date by default. */
  const DefaultDaysBefore: int := 14

  /** Days watched after the holiday date by default. */
  const DefaultDaysAfter: int := 7

  /** Every date from `first` to `last`, both included: one per day, and none when `last` comes first. */
  function DaysBetween(first: Date, last: Date): (days: set<Date>)
    ensures forall d :: d in days <==> first <= d <= last
    ensures |days| == if first <= last then last - first + 1 else 0
    decreases last - first
  {
    if last < first then {} else DaysBetween(first, last - 1) + {last}
  }

  /** The dates a monitoring window covers: none at all when either bound is unset. */
  function MonitoringDays(start: Option<Date>, end: Option<Date>): (days: set<Date>)
    ensures start.None? || end.None? ==> days == {}
    ensures start.Some? && end.Some? ==> forall d :: d in days <==> start.value <= d <= end.value
  {
    if start.Some? && end.Some? then DaysBetween(start.value, end.value) else {}
  }

  /** A window whose start lies after its end covers no date. */
  lemma InvertedWindowIsEmpty(start: Date, end: Date)
    requires end < start
    ensures MonitoringDays(Some(start), Some(end)) == {}
  {
  }

  /** The default window holds the holiday itself and exactly 22 dates. */
  lemma DefaultWindowHas22Days(holidayDate: Date)
    ensures var days := MonitoringDays(Some(holidayDate - DefaultDaysBefore), Some(holidayDate + DefaultDaysAfter));
      holidayDate in days && |days| == 22
  {
  }

  class Holiday {
    var name: string
    var holidayDate: Date
    var monitoringStartDate: Option<Date>
    var monitoringEndDate: Option<Date>
    var year: int
    var isActive: bool

    /** `createWithDefaultMonitoring`: the window runs from `DefaultDaysBefore` days before to `DefaultDaysAfter` days after the holiday. */
    constructor CreateWithDefaultMonitoring(name: string, holidayDate: Date)
      ensures this.name == name && this.holidayDate == holidayDate
      ensures monitoringStartDate == Some(holidayDate - DefaultDaysBefore)
      ensures monitoringEndDate == Some(holidayDate + DefaultDaysAfter)
      ensures year == Calendar.YearOf(holidayDate)
      ensures isActive
    {
      this.name := name;
      this.holidayDate := holidayDate;
      monitoringStartDate := Some(holidayDate - DefaultDaysBefore);
      monitoringEndDate := Some(holidayDate + DefaultDaysAfter);
      year := Calendar.YearOf(holidayDate);
      isActive := true;
    }

    /** Whether `date` lies in the monitoring window, both bounds included. */
    predicate IsInMonitoringPeriod(date: Date)
      reads this
      ensures IsInMonitoringPeriod(date) <==> date in MonitoringDays(monitoringStartDate, monitoringEndDate)
    {
      if monitoringStartDate.None? || monitoringEndDate.None? then false
      else !(date < monitoringStartDate.value) && !(date > monitoringEndDate.value)
    }

    /** Replaces both bounds, without checking them against each other or against the holiday. */
    method UpdateMonitoringPeriod(startDate: Option<Date>, endDate: Option<Date>)
      modifies this
      ensures monitoringStartDate == startDate && monitoringEndDate == endDate
      ensures name == old(name) && holidayDate == old(holidayDate)
      ensures year == old(year) && isActive == old(isActive)
    {
      monitoringStartDate := startDate;
      monitoringEndDate := endDate;
    }

    method Deactivate()
      modifies this
      ensures !isActive
      ensures name == old(name) && holidayDate == old(holidayDate) && year == old(year)
      ensures monitoringStartDate == old(monitoringStartDate) && monitoringEndDate == old(monitoringEndDate)
    {
      isActive := false;
    }

    method Activate()
      modifies this
      ensures isActive
      ensures name == old(name) && holidayDate == old(holidayDate) && year == old(year)
      ensures monitoringStartDate == old(monitoringStartDate) && monitoringEndDate == old(monitoringEndDate)
    {
      isActive := true;
    }
  }

  /** A holiday made with the default window watches its own date and 22 dates in all. */
  lemma DefaultHolidayWindow(h: Holiday)
    requires h.monitoringStartDate == Some(h.holidayDate - DefaultDaysBefore)
    requires h.monitoringEndDate == Some(h.holidayDate + DefaultDaysAfter)
    ensures h.IsInMonitoringPeriod(h.holidayDate)
    ensures |MonitoringDays(h.monitoringStartDate, h.monitoringEndDate)| == 22
    ensures forall d :: h.IsInMonitoringPeriod(d) <==> h.holidayDate - DefaultDaysBefore <= d <= h.holidayDate + DefaultDaysAfter
  {
    DefaultWindowHas22Days(h.holidayDate);
  }
}
