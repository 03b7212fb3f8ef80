/**
 * ScheduledPaymentUtil: the recurrence calculator and the three due-order
 * predicates. "Today" (LocalDate.now() in the source) is a parameter.
 */
module ScheduledPaymentUtil {
  import opened Wrappers
  import opened Dates
  import opened PaymentModel

  /**
   * The date the next occurrence is measured from: the recorded
   * originalExecutionDate addition (the natural date of the previous
   * occurrence, before a non-working-day shift) when there is one, else today.
   */
  function CurrentExecutionDate(order: ScheduledOrder, today: LocalDate): (r: LocalDate)
    ensures order.additions.originalExecutionDate.Some? ==> r == order.additions.originalExecutionDate.value
    ensures order.additions.originalExecutionDate.None? ==> r == today
  {
    match order.additions.originalExecutionDate
    case Some(original) => original
    case None => today
  }

  /** The frequency-dependent offset from the current execution date. */
  function NextDateFrom(current: LocalDate, frequency: Option<Frequency>, every: nat): (r: LocalDate)
    ensures every > 0 ==> IsBefore(current, r)
  {
    if frequency == Some(Daily) then PlusDays(current, every)
    else if frequency == Some(Weekly) then PlusWeeks(current, every)
    else if frequency == Some(Biweekly) then PlusWeeks(current, 2 * every)
    else if frequency == Some(Monthly) then PlusMonths(current, every)
    else if frequency == Some(Quarterly) then PlusMonths(current, 3 * every)
    else PlusYears(current, every)
  }

  /** The calendar unit of one occurrence: a number of days or of months. */
  datatype Step = DaySteps(days: nat) | MonthSteps(months: nat)

  /** One occurrence of each frequency; a missing frequency falls into the yearly branch. */
  function StepOf(frequency: Option<Frequency>): Step {
    match frequency
    case Some(Daily) => DaySteps(1)
    case Some(Weekly) => DaySteps(7)
    case Some(Biweekly) => DaySteps(14)
    case Some(Monthly) => MonthSteps(1)
    case Some(Quarterly) => MonthSteps(3)
    case _ => MonthSteps(12)
  }

  function Advance(current: LocalDate, step: Step, every: nat): LocalDate {
    match step
    case DaySteps(n) => PlusDays(current, n * every)
    case MonthSteps(n) => PlusMonths(current, n * every)
  }

  /**
   * Every frequency moves the date by `every` occurrences of its unit:
   * 1, 7 or 14 days, or 1, 3 or 12 months.
   */
  lemma NextDateFromIsStepMultiple(current: LocalDate, frequency: Option<Frequency>, every: nat)
    ensures NextDateFrom(current, frequency, every) == Advance(current, StepOf(frequency), every)
  {
    match frequency
    case Some(Biweekly) =>
      assert 7 * (2 * every) == 14 * every;
    case Some(Daily) =>
    case Some(Weekly) =>
    case Some(Monthly) =>
    case Some(Quarterly) =>
    case _ =>
      PlusYearsIsTwelveMonths(current, every);
  }

  /**
   * calculateNextExecutionDate(order): the natural next date, or None
   * (the recurrence has ended) when the schedule's end date is before it.
   */
  function CalculateNextExecutionDate(order: ScheduledOrder, today: LocalDate): (r: Option<LocalDate>)
    requires order.schedule.Some? && order.schedule.value.every.Some?
    ensures var s := order.schedule.value;
            var natural := NextDateFrom(CurrentExecutionDate(order, today), s.transferFrequency, s.every.value);
            && (r.None? <==> s.endDate.Some? && IsBefore(s.endDate.value, natural))
            && (r.Some? ==> r.value == natural)
    ensures var s := order.schedule.value;
            && (r.Some? && s.endDate.Some? ==> !IsBefore(s.endDate.value, r.value))
            && (s.endDate.None? ==> r.Some?)
            && (r.Some? && s.every.value > 0 ==> IsBefore(CurrentExecutionDate(order, today), r.value))
  {
    var s := order.schedule.value;
    var next := NextDateFrom(CurrentExecutionDate(order, today), s.transferFrequency, s.every.value);
    if s.endDate.Some? && IsBefore(s.endDate.value, next) then None else Some(next)
  }

  /** An end date on the computed date itself keeps that date. */
  lemma EndDateOnNextDateKeepsIt(order: ScheduledOrder, today: LocalDate)
    requires order.schedule.Some? && order.schedule.value.every.Some?
    requires var s := order.schedule.value;
             s.endDate == Some(NextDateFrom(CurrentExecutionDate(order, today), s.transferFrequency, s.every.value))
    ensures CalculateNextExecutionDate(order, today) == order.schedule.value.endDate
  {
  }

  /** isEndDateInThePast: the schedule ends strictly before today. */
  function IsEndDateInThePast(order: ScheduledOrder, today: LocalDate): (r: bool)
    ensures order.schedule.None? || order.schedule.value.endDate.None? ==> !r
    ensures order.schedule.Some? && order.schedule.value.endDate.Some? ==>
              (r <==> IsBefore(order.schedule.value.endDate.value, today))
  {
    match order.schedule
    case None => false
    case Some(s) =>
      match s.endDate
      case None => false
      case Some(end) => IsBefore(end, today)
  }

  /**
   * An order whose end date is already past, measured from today, is
   * ended by the calculator as well: the two end-of-recurrence tests agree.
   */
  lemma EndDateInThePastEndsRecurrence(order: ScheduledOrder, today: LocalDate)
    requires order.schedule.Some? && order.schedule.value.every.Some?
    requires order.schedule.value.every.value > 0
    requires !IsBefore(CurrentExecutionDate(order, today), today)
    requires IsEndDateInThePast(order, today)
    ensures CalculateNextExecutionDate(order, today).None?
  {
    var s := order.schedule.value;
    var base := CurrentExecutionDate(order, today);
    var next := NextDateFrom(base, s.transferFrequency, s.every.value);
    IsBeforeTrichotomy(base, today);
    assert IsBefore(s.endDate.value, base) by {
      if base != today {
        IsBeforeTransitive(s.endDate.value, today, base);
      }
    }
    IsBeforeTransitive(s.endDate.value, base, next);
  }

  /**
   * isPaymentScheduledForToday: the next execution date or the start date is
   * today. The source dereferences the schedule, and the start date unless
   * the next execution date already matched, so both must be there.
   */
  function IsPaymentScheduledForToday(order: ScheduledOrder, today: LocalDate): (r: bool)
    requires order.schedule.Some?
    requires order.schedule.value.nextExecutionDate == Some(today) || order.schedule.value.startDate.Some?
    ensures r <==> order.schedule.value.nextExecutionDate == Some(today) || order.schedule.value.startDate == Some(today)
  {
    var s := order.schedule.value;
    (s.nextExecutionDate.Some? && s.nextExecutionDate.value == today) || s.startDate.value == today
  }

  /** isRepeatCountMet: both counts are present and equal. */
  function IsRepeatCountMet(order: ScheduledOrder): (r: bool)
    ensures r <==> order.schedule.Some? && order.schedule.value.repeat.Some?
                   && order.additions.executionCount == order.schedule.value.repeat
  {
    match order.schedule
    case None => false
    case Some(s) =>
      s.repeat.Some? && order.additions.executionCount.Some?
      && s.repeat.value == order.additions.executionCount.value
  }
}
