/**
 * The values the recurring-payment executor reads and writes: scheduled
 * orders with their schedule and additions, outbound responses, date
 * validation responses, order update requests, pages of the order source,
 * the scheduler's configuration and the calls made to remote services.
 */
module PaymentModel {
  import opened Wrappers
  import opened Dates

  const INT_MIN: int := -0x8000_0000
  const INT_MAX: int := 0x7FFF_FFFF

  /** Java's 32-bit int. */
  type Int32 = x: int | INT_MIN <= x <= INT_MAX

  /** SimpleSchedule.TransferFrequencyEnum. */
  datatype Frequency = Daily | Weekly | Biweekly | Monthly | Quarterly | Yearly

  /** SimpleSchedule.NonWorkingDayExecutionStrategyEnum; NoneStrategy is its NONE value. */
  datatype NonWorkingDayExecutionStrategy = NoneStrategy | Before | After

  /** The recurrence definition of an order; every reference field may be null. */
  datatype Schedule = Schedule(
    transferFrequency: Option<Frequency>,
    every: Option<nat>,
    startDate: Option<LocalDate>,
    endDate: Option<LocalDate>,
    repeat: Option<Int32>,
    nonWorkingDayExecutionStrategy: Option<NonWorkingDayExecutionStrategy>,
    nextExecutionDate: Option<LocalDate>)

  /**
   * The two engine-owned additions of an order, already parsed: the
   * "executionCount" and "originalExecutionDate" entries. A missing map and
   * a missing key are both None.
   */
  datatype Additions = Additions(executionCount: Option<Int32>, originalExecutionDate: Option<LocalDate>)

  datatype ScheduledOrder = ScheduledOrder(id: string, schedule: Option<Schedule>, additions: Additions)

  /** PaymentOrdersPostResponseBody: what the outbound service answers. */
  datatype OutboundResponse = OutboundResponse(
    bankStatus: Option<string>,
    reasonCode: Option<string>,
    reasonText: Option<string>,
    errorDescription: Option<string>,
    nextExecutionDate: Option<LocalDate>)

  /** A thrown Java exception: its runtime class name and getMessage(). */
  datatype JavaException = JavaException(className: string, message: Option<string>)

  /** One call of the outbound API: it returns a response or throws. */
  datatype ApiResult = Returned(response: OutboundResponse) | Threw(exception: JavaException)

  /** PaymentOrderExecutionResponse: an order paired with its outbound response. */
  datatype ExecutionResponse = ExecutionResponse(
    originalScheduledPaymentOrder: ScheduledOrder,
    paymentOrdersPostResponseBody: OutboundResponse)

  /** ValidateExecutionDateResponse.StatusEnum. */
  datatype DateStatus = Ok | RestrictedDateDetected

  /** ValidateExecutionDateResponse: the date validator's answer. */
  datatype ValidationResponse = ValidationResponse(
    status: Option<DateStatus>,
    originalExecutionDate: Option<LocalDate>,
    nextAvailableExecutionDateBefore: Option<LocalDate>,
    nextAvailableExecutionDateAfter: Option<LocalDate>)

  /** The payment order status the executor puts back on an order: READY. */
  datatype PaymentStatus = Ready

  /**
   * What an update request does to one addition key: leaves it out of the
   * request, puts it with a null value, or puts a date.
   */
  datatype AdditionEntry = Untouched | Cleared | Recorded(date: LocalDate)

  /** PaymentOrderPutRequest, with the audit timestamp left out. */
  datatype PutRequest = PutRequest(
    status: PaymentStatus,
    bankStatus: string,
    auditUser: string,
    nextExecutionDate: Option<LocalDate>,
    executionCount: Int32,
    originalExecutionDate: AdditionEntry)

  /** PaymentOrderPostFilterResponse: one page of the order source. */
  datatype Page = Page(totalElements: int, paymentOrders: seq<ScheduledOrder>)

  /** PaymentSchedulerProperties, with the retry settings of the outbound client. */
  datatype SchedulerProperties = SchedulerProperties(
    pageSize: int,
    retryMaxAttempts: int,
    retryErrorCodes: Option<seq<string>>,
    retryExceptionClasses: seq<string>)

  /** A call the executor makes to a remote service, in the order made. */
  datatype RemoteCall =
    | FetchPage(from: int, size: int)
    | OutboundSubmission(order: ScheduledOrder, attempts: nat)
    | TransactionPosted(execution: ExecutionResponse)
    | DateValidated(date: LocalDate)
    | OrderUpdated(id: string, idType: string, request: PutRequest)
}
