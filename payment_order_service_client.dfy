/**
 * PaymentOrderServiceClient: after an order was submitted, build the
 * update request that advances its schedule (status, execution count,
 * next execution date under the non-working-day policy, and the
 * originalExecutionDate addition) and send it to the order service.
 */
module PaymentOrderServiceClient {
  import opened Wrappers
  import opened Dates
  import opened PaymentModel
  import opened ScheduledPaymentUtil
  import opened Collaborators
  import PaymentOrderOutboundClient

  const INTERNAL_ID: string := "INTERNALID"
  const READY_BANK_STATUS: string := "READY"
  const AUDIT_USER: string := "SYSTEM-SCHEDULER"

  /** isNonWorkingDateExecutionStrategyDefined: a strategy other than NONE is set. */
  function IsNonWorkingDateExecutionStrategyDefined(strategy: Option<NonWorkingDayExecutionStrategy>): (r: bool)
    ensures r <==> strategy == Some(Before) || strategy == Some(After)
  {
    strategy.Some? && strategy.value != NoneStrategy
  }

  /** isValidExecutionDate: the validator answered OK. */
  function IsValidExecutionDate(response: ValidationResponse): bool {
    response.status == Some(Ok)
  }

  /**
   * getNextAvailableExecutionDate: the date before when the date is
   * restricted, the strategy is BEFORE and a date before is offered;
   * otherwise the date after (possibly absent).
   */
  function GetNextAvailableExecutionDate(response: ValidationResponse,
                                         strategy: Option<NonWorkingDayExecutionStrategy>): (r: Option<LocalDate>)
    ensures r == response.nextAvailableExecutionDateBefore || r == response.nextAvailableExecutionDateAfter
    ensures r != response.nextAvailableExecutionDateAfter ==>
              strategy == Some(Before) && response.status == Some(RestrictedDateDetected)
              && response.nextAvailableExecutionDateBefore.Some?
    ensures strategy == Some(Before) && response.status == Some(RestrictedDateDetected)
            && response.nextAvailableExecutionDateBefore.Some? ==>
              r == response.nextAvailableExecutionDateBefore
  {
    if response.status == Some(RestrictedDateDetected) && strategy == Some(Before)
       && response.nextAvailableExecutionDateBefore.Some?
    then response.nextAvailableExecutionDateBefore
    else response.nextAvailableExecutionDateAfter
  }

  /**
   * validateExecutionDate, once the validator has answered: the adjustment
   * table of the non-working-day policy.
   */
  function ValidateExecutionDate(response: ValidationResponse,
                                 strategy: Option<NonWorkingDayExecutionStrategy>): (r: Option<LocalDate>)
    ensures r == response.originalExecutionDate || r == response.nextAvailableExecutionDateBefore
            || r == response.nextAvailableExecutionDateAfter
    ensures (strategy.None? || strategy == Some(NoneStrategy) || response.status == Some(Ok)) ==>
              r == response.originalExecutionDate
    ensures strategy == Some(Before) && response.status == Some(RestrictedDateDetected)
            && response.nextAvailableExecutionDateBefore.Some? ==>
              r == response.nextAvailableExecutionDateBefore
    ensures strategy == Some(Before) && response.status != Some(Ok)
            && (response.status != Some(RestrictedDateDetected) || response.nextAvailableExecutionDateBefore.None?) ==>
              r == response.nextAvailableExecutionDateAfter
    ensures strategy == Some(After) && response.status != Some(Ok) ==>
              r == response.nextAvailableExecutionDateAfter
  {
    if !IsNonWorkingDateExecutionStrategyDefined(strategy) || IsValidExecutionDate(response) then
      response.originalExecutionDate
    else
      GetNextAvailableExecutionDate(response, strategy)
  }

  /** Java's int addition: the sum wrapped into the 32-bit range. */
  function WrapInt32(x: int): Int32 {
    (x - INT_MIN) % 0x1_0000_0000 + INT_MIN
  }

  /** The executions recorded so far; a missing count means none. */
  function PriorExecutions(additions: Additions): int {
    match additions.executionCount
    case Some(count) => count
    case None => 0
  }

  /** incrementExecutionCount: one more than the recorded count, or 1 when there is none. */
  function IncrementExecutionCount(additions: Additions): (r: Int32)
    ensures r == WrapInt32(PriorExecutions(additions) + 1)
    ensures additions.executionCount.None? ==> r == 1
    ensures additions.executionCount.Some? && additions.executionCount.value < INT_MAX ==>
              r == additions.executionCount.value + 1
  {
    match additions.executionCount
    case Some(count) => if count == INT_MAX then INT_MIN else count + 1
    case None => 1
  }

  /**
   * What updateNextExecutionDate dereferences: the schedule and its
   * multiplier, and those only when the next date is computed here.
   */
  predicate CanBuildUpdate(execution: ExecutionResponse) {
    var order := execution.originalScheduledPaymentOrder;
    execution.paymentOrdersPostResponseBody.nextExecutionDate.None? ==>
      order.schedule.Some? && order.schedule.value.every.Some?
  }

  /** The update request updateNextExecutionDate sends for an executed order. */
  function UpdateRequest(execution: ExecutionResponse, today: LocalDate,
                         validator: LocalDate -> ValidationResponse): (r: PutRequest)
    requires CanBuildUpdate(execution)
    ensures r.status == Ready && r.bankStatus == READY_BANK_STATUS && r.auditUser == AUDIT_USER
    ensures r.executionCount == IncrementExecutionCount(execution.originalScheduledPaymentOrder.additions)
    ensures execution.paymentOrdersPostResponseBody.nextExecutionDate.Some? ==>
              r.nextExecutionDate == execution.paymentOrdersPostResponseBody.nextExecutionDate
              && r.originalExecutionDate == Untouched
    ensures execution.paymentOrdersPostResponseBody.nextExecutionDate.None? ==>
              var order := execution.originalScheduledPaymentOrder;
              var next := CalculateNextExecutionDate(order, today);
              && (next.None? ==> r.nextExecutionDate.None? && r.originalExecutionDate == Untouched)
              && (next.Some? ==>
                    && r.nextExecutionDate == ValidateExecutionDate(validator(next.value),
                                                                   order.schedule.value.nonWorkingDayExecutionStrategy)
                    && (r.nextExecutionDate == next <==> r.originalExecutionDate == Cleared)
                    && (r.nextExecutionDate != next <==> r.originalExecutionDate == Recorded(next.value)))
  {
    var order := execution.originalScheduledPaymentOrder;
    var count := IncrementExecutionCount(order.additions);
    var body := execution.paymentOrdersPostResponseBody;
    if body.nextExecutionDate.Some? then
      PutRequest(Ready, READY_BANK_STATUS, AUDIT_USER, body.nextExecutionDate, count, Untouched)
    else
      match CalculateNextExecutionDate(order, today)
      case None => PutRequest(Ready, READY_BANK_STATUS, AUDIT_USER, None, count, Untouched)
      case Some(next) =>
        var suggested := ValidateExecutionDate(validator(next), order.schedule.value.nonWorkingDayExecutionStrategy);
        if suggested == Some(next) then PutRequest(Ready, READY_BANK_STATUS, AUDIT_USER, suggested, count, Cleared)
        else PutRequest(Ready, READY_BANK_STATUS, AUDIT_USER, suggested, count, Recorded(next))
  }

  /** The validator calls updateNextExecutionDate makes: the computed date, when one is computed. */
  function ValidationCalls(execution: ExecutionResponse, today: LocalDate): (calls: seq<RemoteCall>)
    requires CanBuildUpdate(execution)
    ensures |calls| <= 1
    ensures calls != [] <==> execution.paymentOrdersPostResponseBody.nextExecutionDate.None?
                             && CalculateNextExecutionDate(execution.originalScheduledPaymentOrder, today).Some?
    ensures calls != [] ==>
              calls[0] == DateValidated(CalculateNextExecutionDate(execution.originalScheduledPaymentOrder, today).value)
  {
    if execution.paymentOrdersPostResponseBody.nextExecutionDate.Some? then []
    else
      match CalculateNextExecutionDate(execution.originalScheduledPaymentOrder, today)
      case None => []
      case Some(next) => [DateValidated(next)]
  }

  /**
   * updateNextExecutionDate: build the request step by step, consulting the
   * validator only for a computed date, then update the order once, by its
   * internal id.
   */
  method UpdateNextExecutionDate(backend: Backend, execution: ExecutionResponse, today: LocalDate)
    requires CanBuildUpdate(execution)
    modifies backend
    ensures backend.fetched == old(backend.fetched)
    ensures backend.calls == old(backend.calls) + ValidationCalls(execution, today)
              + [OrderUpdated(execution.originalScheduledPaymentOrder.id, INTERNAL_ID,
                              UpdateRequest(execution, today, backend.validator))]
  {
    var order := execution.originalScheduledPaymentOrder;
    var body := execution.paymentOrdersPostResponseBody;
    var request := PutRequest(Ready, READY_BANK_STATUS, AUDIT_USER, None, IncrementExecutionCount(order.additions), Untouched);
    if body.nextExecutionDate.Some? {
      request := request.(nextExecutionDate := body.nextExecutionDate);
    } else {
      var next := CalculateNextExecutionDate(order, today);
      if next.Some? {
        var response := backend.ValidateNextExecutionDate(next.value);
        var suggested := ValidateExecutionDate(response, order.schedule.value.nonWorkingDayExecutionStrategy);
        if next == suggested {
          request := request.(nextExecutionDate := next);
          request := request.(originalExecutionDate := Cleared);
        } else {
          request := request.(nextExecutionDate := suggested);
          request := request.(originalExecutionDate := Recorded(next.value));
        }
      }
    }
    backend.UpdatePaymentOrder(order.id, INTERNAL_ID, request);
  }

  /**
   * The additions the order holds once the order service has stored an
   * update request: the new count, and the originalExecutionDate entry put,
   * cleared or left as it was.
   */
  function StoredAdditions(additions: Additions, request: PutRequest): Additions {
    Additions(
      Some(request.executionCount),
      match request.originalExecutionDate
      case Untouched => additions.originalExecutionDate
      case Cleared => None
      case Recorded(date) => Some(date))
  }

  /**
   * No drift: when the order next runs, on the date the request set, the
   * following occurrence is measured from the natural date computed now,
   * whether or not the non-working-day policy moved it.
   */
  lemma NextRunMeasuresFromNaturalDate(execution: ExecutionResponse, today: LocalDate,
                                       validator: LocalDate -> ValidationResponse)
    requires CanBuildUpdate(execution)
    requires execution.paymentOrdersPostResponseBody.nextExecutionDate.None?
    requires CalculateNextExecutionDate(execution.originalScheduledPaymentOrder, today).Some?
    requires UpdateRequest(execution, today, validator).nextExecutionDate.Some?
    ensures var order := execution.originalScheduledPaymentOrder;
            var request := UpdateRequest(execution, today, validator);
            var stored := order.(additions := StoredAdditions(order.additions, request));
            CurrentExecutionDate(stored, request.nextExecutionDate.value)
              == CalculateNextExecutionDate(order, today).value
  {
  }

  /**
   * Once the request's next date is stored on the schedule, the today
   * filter picks the order up again exactly on that date, or on its start
   * date.
   */
  lemma StoredOrderComesDueOnItsNextDate(execution: ExecutionResponse, today: LocalDate,
                                         validator: LocalDate -> ValidationResponse, day: LocalDate)
    requires CanBuildUpdate(execution)
    requires execution.originalScheduledPaymentOrder.schedule.Some?
    requires execution.originalScheduledPaymentOrder.schedule.value.startDate.Some?
    requires UpdateRequest(execution, today, validator).nextExecutionDate.Some?
    ensures var order := execution.originalScheduledPaymentOrder;
            var request := UpdateRequest(execution, today, validator);
            var stored := order.(schedule := Some(order.schedule.value.(nextExecutionDate := request.nextExecutionDate)),
                                 additions := StoredAdditions(order.additions, request));
            (IsPaymentScheduledForToday(stored, day)
             <==> day == request.nextExecutionDate.value || order.schedule.value.startDate == Some(day))
  {
  }

  /** The count after k stored updates of an order that started without one. */
  function CountAfterRuns(k: nat): Option<Int32> {
    if k == 0 then None
    else Some(IncrementExecutionCount(Additions(CountAfterRuns(k - 1), None)))
  }

  lemma {:induction false} CountAfterRunsIsK(k: nat)
    requires k <= INT_MAX
    ensures k > 0 ==> CountAfterRuns(k) == Some(k)
    ensures k == 0 ==> CountAfterRuns(k).None?
  {
    if k > 1 {
      CountAfterRunsIsK(k - 1);
    }
  }

  /**
   * With repeat R >= 1, an order that started without a count is due again
   * after k runs exactly while k != R: the repeat filter lets it run R times.
   */
  lemma RepeatCountMetExactlyAfterRepeatRuns(order: ScheduledOrder, k: nat)
    requires order.schedule.Some? && order.schedule.value.repeat.Some?
    requires order.schedule.value.repeat.value >= 1
    requires k <= INT_MAX
    requires order.additions.executionCount == CountAfterRuns(k)
    ensures IsRepeatCountMet(order) <==> k == order.schedule.value.repeat.value
  {
    CountAfterRunsIsK(k);
  }

  /**
   * A first run of a monthly order with every = 1 and strategy NONE, whose
   * validator accepts the computed date: count 1, next date one month on,
   * and the originalExecutionDate addition cleared.
   */
  lemma FirstMonthlyRun(order: ScheduledOrder, body: OutboundResponse, today: LocalDate,
                        validator: LocalDate -> ValidationResponse)
    requires order.schedule.Some?
    requires var s := order.schedule.value;
             s.transferFrequency == Some(Monthly) && s.every == Some(1) && s.endDate.None?
             && s.nonWorkingDayExecutionStrategy == Some(NoneStrategy)
    requires order.additions == Additions(None, None) && body.nextExecutionDate.None?
    requires validator(PlusMonths(today, 1)).originalExecutionDate == Some(PlusMonths(today, 1))
    ensures var r := UpdateRequest(ExecutionResponse(order, body), today, validator);
            r.executionCount == 1 && r.nextExecutionDate == Some(PlusMonths(today, 1))
            && r.originalExecutionDate == Cleared && r.status == Ready
    ensures ValidationCalls(ExecutionResponse(order, body), today) == [DateValidated(PlusMonths(today, 1))]
  {
  }

  /**
   * The same first monthly run against a validator that answers OK with
   * some fixed originalExecutionDate d, whatever it is asked: the date one
   * month on is the one validated, d is the date sent, and unless d is that
   * date the computed date is kept as the originalExecutionDate addition.
   */
  lemma FirstMonthlyRunFixedAnswer(order: ScheduledOrder, body: OutboundResponse, today: LocalDate,
                                   validator: LocalDate -> ValidationResponse, d: LocalDate)
    requires order.schedule.Some?
    requires var s := order.schedule.value;
             s.transferFrequency == Some(Monthly) && s.every == Some(1) && s.endDate.None?
             && s.nonWorkingDayExecutionStrategy == Some(NoneStrategy)
    requires order.additions == Additions(None, None) && body.nextExecutionDate.None?
    requires validator(PlusMonths(today, 1)) == ValidationResponse(Some(Ok), Some(d), None, None)
    ensures ValidationCalls(ExecutionResponse(order, body), today) == [DateValidated(PlusMonths(today, 1))]
    ensures var r := UpdateRequest(ExecutionResponse(order, body), today, validator);
            && r.executionCount == 1 && r.nextExecutionDate == Some(d) && r.status == Ready
            && r.originalExecutionDate == if d == PlusMonths(today, 1) then Cleared else Recorded(PlusMonths(today, 1))
  {
  }

  /**
   * A submission that ended in the recovery's REJECTED answer still
   * advances the schedule: the answer carries no next date, so the date is
   * computed and validated here.
   */
  lemma RejectedSubmissionStillAdvances(order: ScheduledOrder, message: Option<string>, today: LocalDate,
                                        validator: LocalDate -> ValidationResponse)
    requires order.schedule.Some? && order.schedule.value.every.Some?
    requires CalculateNextExecutionDate(order, today).Some?
    ensures var execution := ExecutionResponse(order, PaymentOrderOutboundClient.Recover(message));
            var next := CalculateNextExecutionDate(order, today).value;
            && ValidationCalls(execution, today) == [DateValidated(next)]
            && UpdateRequest(execution, today, validator).nextExecutionDate
               == ValidateExecutionDate(validator(next), order.schedule.value.nonWorkingDayExecutionStrategy)
  {
  }
}
