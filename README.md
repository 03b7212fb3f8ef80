# Scheduled payment order executor: a Dafny model

This project models the core of a recurring-payment executor. A scheduled run
works in four stages:

- It drains a paging cursor over the bank's scheduled payment orders.
- It keeps the orders that are due today: scheduled for today, not past their
  end date, and without a met repeat count.
- It submits each kept order to an outbound payment service. A bounded retry
  and a recovery fallback wrap the submission.
- It records the transaction, then moves the order's schedule to its next
  execution date.

Moving the schedule has two parts. A recurrence calculator gives the natural
next date from the frequency and the multiplier. A non-working-day policy
(NONE, BEFORE or AFTER) may then replace that date with one suggested by a date
validator. When the date is replaced, the natural date is kept in the order's
additions, so the next occurrence is measured from it.

Files and modules:

- `dates.dfy` (`Dates`): a proleptic Gregorian calendar date.
  - `PlusDays`, `PlusWeeks`, `PlusMonths` and `PlusYears` behave as
    `java.time.LocalDate` does.
  - A month step clamps the day to the length of the target month.
- `payment_model.dfy` (`PaymentModel`): the data.
  - Schedules, order additions, outbound responses, validator answers and
    update requests.
  - The log of remote calls a run makes.
- `collaborators.dfy` (`Collaborators`): the remote services, as one
  `Backend` object.
  - The order source answers page request i with the i-th scripted page, and
    with an empty page after the script ends.
  - The date validator and the outbound service are functions.
  - Every call is appended to the `calls` log.
- `scheduled_payment_util.dfy` (`ScheduledPaymentUtil`): the recurrence
  calculator and the three due-order predicates.
- `payment_order_service_client.dfy` (`PaymentOrderServiceClient`): how the
  update request is built in `updateNextExecutionDate`, and its decision
  helpers.
- `scheduled_payment_order_iterator.dfy` (`ScheduledPaymentOrderIterator`):
  the paging cursor, as a class whose `Next` method updates its fields.
- `payment_order_outbound_client.dfy` (`PaymentOrderOutboundClient`): failure
  classification of one submission, and the `@Retryable`/`@Recover` pair as a
  method with an explicit, bounded attempt loop.
- `scheduled_payment_executor_service.dfy` (`ScheduledPaymentExecutorService`):
  `execute`, `executePayments` and `executePayment`, as methods on the
  `Backend`. The call log they produce is given by the functions `OrderCalls`,
  `BatchCalls`, `PageCalls` and `RunCalls`.
- `run_log.dfy` (`RunLog`): what a batch and a page do to the orders. It
  projects the call log onto submissions and order updates.

"Today" (`LocalDate.now()`) is a parameter, and one run uses a single value.

## Model

| member | source | states |
|---|---|---|
| ScheduledPaymentUtil.NextDateFrom | src/main/java/com/backbase/accelerators/payment/util/ScheduledPaymentUtil.java:63-87 | the frequency table; with a positive multiplier the result is strictly after the base date |
| ScheduledPaymentUtil.NextDateFromIsStepMultiple | src/main/java/com/backbase/accelerators/payment/util/ScheduledPaymentUtil.java:72-84 | DAILY, WEEKLY and BIWEEKLY move by every·1, every·7 and every·14 days; MONTHLY, QUARTERLY and any other frequency (YEARLY) move by every·1, every·3 and every·12 months |
| Dates.PlusDays | src/main/java/com/backbase/accelerators/payment/util/ScheduledPaymentUtil.java:73 | a positive day count gives a strictly later date |
| Dates.PlusWeeks | src/main/java/com/backbase/accelerators/payment/util/ScheduledPaymentUtil.java:75-77 | a positive week count gives a strictly later date |
| Dates.PlusYears | src/main/java/com/backbase/accelerators/payment/util/ScheduledPaymentUtil.java:83 | the year moves by the count and the month is kept; the day is kept, except that Feb 29 becomes Feb 28 in a non-leap target year; a positive count gives a strictly later date |
| Dates.PlusYearsIsTwelveMonths | src/main/java/com/backbase/accelerators/payment/util/ScheduledPaymentUtil.java:83 | adding n years is adding 12·n months, with the same clamping of Feb 29 |
| Dates.PlusMonths | src/main/java/com/backbase/accelerators/payment/util/ScheduledPaymentUtil.java:79 | the month index moves by the month count; the day is clamped to the target month's length, so a day up to 28 is kept; the result is later for a positive count |
| ScheduledPaymentUtil.CurrentExecutionDate | src/main/java/com/backbase/accelerators/payment/util/ScheduledPaymentUtil.java:49-61 | the base date is the stored original execution date when the additions carry one, and today otherwise |
| ScheduledPaymentUtil.CalculateNextExecutionDate | src/main/java/com/backbase/accelerators/payment/util/ScheduledPaymentUtil.java:24-47 | requires the schedule and `every`; the result is None exactly when an end date is set and is strictly before the natural date (measured from the stored original date, else today); otherwise it is the natural date, which is not after the end date and is after the base date |
| ScheduledPaymentUtil.EndDateOnNextDateKeepsIt | src/main/java/com/backbase/accelerators/payment/util/ScheduledPaymentUtil.java:36-46 | an end date equal to the computed date keeps that date |
| ScheduledPaymentUtil.IsEndDateInThePast | src/main/java/com/backbase/accelerators/payment/util/ScheduledPaymentUtil.java:89-106 | false without a schedule or an end date; otherwise true exactly when the end date is before today |
| ScheduledPaymentUtil.EndDateInThePastEndsRecurrence | src/main/java/com/backbase/accelerators/payment/util/ScheduledPaymentUtil.java:89-106 | when the base date is not before today, an end date in the past also makes the calculator end the recurrence |
| ScheduledPaymentUtil.IsPaymentScheduledForToday | src/main/java/com/backbase/accelerators/payment/util/ScheduledPaymentUtil.java:108-115 | requires what the source dereferences; true exactly when the next execution date is today or the start date is today |
| ScheduledPaymentUtil.IsRepeatCountMet | src/main/java/com/backbase/accelerators/payment/util/ScheduledPaymentUtil.java:117-134 | true exactly when the schedule has a repeat count and the execution count is present and equal to it |
| PaymentOrderServiceClient.IsNonWorkingDateExecutionStrategyDefined | src/main/java/com/backbase/accelerators/payment/client/PaymentOrderServiceClient.java:162-164 | true exactly for BEFORE and AFTER |
| PaymentOrderServiceClient.GetNextAvailableExecutionDate | src/main/java/com/backbase/accelerators/payment/client/PaymentOrderServiceClient.java:143-156 | the date after, unless the date is restricted, the strategy is BEFORE and a date before is offered, in which case the date before |
| PaymentOrderServiceClient.ValidateExecutionDate | src/main/java/com/backbase/accelerators/payment/client/PaymentOrderServiceClient.java:126-141 | the adjustment table: with no strategy, NONE, or an OK status the validator's date unchanged; BEFORE on a restricted date with a date before gives that date; every other BEFORE or AFTER case gives the date after |
| PaymentOrderServiceClient.IncrementExecutionCount | src/main/java/com/backbase/accelerators/payment/client/PaymentOrderServiceClient.java:166-174 | one more than the stored count in 32-bit arithmetic, or 1 when no count is stored |
| PaymentOrderServiceClient.UpdateRequest | src/main/java/com/backbase/accelerators/payment/client/PaymentOrderServiceClient.java:74-115 | status READY, bank status "READY", audit user, incremented count; an outbound next date is used verbatim and the original date is left alone; an ended recurrence sends no date and leaves it alone; otherwise the validated date is sent, and the original date is cleared when that equals the computed date and set to the computed date when it does not |
| PaymentOrderServiceClient.ValidationCalls | src/main/java/com/backbase/accelerators/payment/client/PaymentOrderServiceClient.java:93-102 | the validator is called at most once, exactly when no outbound date came and a date was computed, and with that computed date |
| PaymentOrderServiceClient.UpdateNextExecutionDate | src/main/java/com/backbase/accelerators/payment/client/PaymentOrderServiceClient.java:74-124 | the request built step by step is UpdateRequest; the log grows by the validation call, if any, then one update of the order's id with id type "INTERNALID" |
| PaymentOrderServiceClient.NextRunMeasuresFromNaturalDate | src/main/java/com/backbase/accelerators/payment/client/PaymentOrderServiceClient.java:104-113 | once the request is stored, the next run measures from the natural date computed now, whether the policy moved the date or not |
| PaymentOrderServiceClient.StoredOrderComesDueOnItsNextDate | src/main/java/com/backbase/accelerators/payment/util/ScheduledPaymentUtil.java:108-115 | once the update's next date is stored on the schedule, the today filter picks the order up exactly on that date or on its start date |
| PaymentOrderServiceClient.CountAfterRunsIsK | src/main/java/com/backbase/accelerators/payment/client/PaymentOrderServiceClient.java:166-174 | after k stored updates of an order that started without a count, the count is k |
| PaymentOrderServiceClient.RepeatCountMetExactlyAfterRepeatRuns | src/main/java/com/backbase/accelerators/payment/util/ScheduledPaymentUtil.java:117-134 | requires a repeat count R of at least 1; the repeat filter then excludes the order after exactly R runs and after no other number of runs (with R = 0 the execution count, 1 after the first run, never equals R, so that filter never ends the order) |
| PaymentOrderServiceClient.FirstMonthlyRun | src/main/java/com/backbase/accelerators/payment/client/PaymentOrderServiceClient.java:93-113 | for a validator that answers the date one month on with that same date: a first monthly run with policy NONE validates today plus one month, and sends count 1, that date and a cleared original date |
| PaymentOrderServiceClient.FirstMonthlyRunFixedAnswer | src/test/java/com/backbase/accelerators/payment/client/PaymentOrderServiceClientTest.java:100-115 | with the test's validator stub (status OK and a fixed originalExecutionDate d): today plus one month is validated; count 1 and d are sent; the computed date is recorded as the original date unless d equals it, in which case the original date is cleared |
| PaymentOrderServiceClient.RejectedSubmissionStillAdvances | src/main/java/com/backbase/accelerators/payment/client/PaymentOrderServiceClient.java:85-102 | a recovered REJECTED answer carries no date, so the schedule is still advanced through the validator |
| PaymentOrderOutboundClient.IsPaymentRejected | src/main/java/com/backbase/accelerators/payment/client/PaymentOrderOutboundClient.java:79-82 | true exactly when the bank status is present and equals REJECTED ignoring case |
| PaymentOrderOutboundClient.RejectedIsNotBlank | src/main/java/com/backbase/accelerators/payment/client/PaymentOrderOutboundClient.java:80 | a status equal to REJECTED ignoring case is never blank, so the blank test changes nothing |
| PaymentOrderOutboundClient.RejectedInAnyCase | src/main/java/com/backbase/accelerators/payment/client/PaymentOrderOutboundClient.java:79-82 | "rejected" and "Rejected" count as rejected; " REJECTED", "PROCESSED" and no status do not |
| PaymentOrderOutboundClient.IsRetryableResponse | src/main/java/com/backbase/accelerators/payment/client/PaymentOrderOutboundClient.java:84-90 | true exactly when the code list is configured and contains the reason code |
| PaymentOrderOutboundClient.RejectionResponse | src/main/java/com/backbase/accelerators/payment/client/PaymentOrderOutboundClient.java:73-76 | bank status REJECTED, the fixed reason text, the error's message as description, no code and no next date |
| PaymentOrderOutboundClient.HandleException | src/main/java/com/backbase/accelerators/payment/client/PaymentOrderOutboundClient.java:68-77 | a retryable failure exactly when the class name is configured, wrapping the exception's text; otherwise the REJECTED answer with the exception's message |
| PaymentOrderOutboundClient.SendToPaymentOrderOutboundService | src/main/java/com/backbase/accelerators/payment/client/PaymentOrderOutboundClient.java:31-45 | a response that is not both rejected and retryable is returned unchanged; anything thrown in the try block, including validateResponse's exception, goes through handleException; the attempt is retryable exactly when the thrown class is configured |
| PaymentOrderOutboundClient.RetryableResponseNeedsExceptionClass | src/main/java/com/backbase/accelerators/payment/client/PaymentOrderOutboundClient.java:62-66 | a rejected response with a retryable code is retried exactly when RetryablePaymentOrderException's class name is configured; otherwise it becomes an immediate REJECTED answer |
| PaymentOrderOutboundClient.Recover | src/main/java/com/backbase/accelerators/payment/client/PaymentOrderOutboundClient.java:47-60 | a REJECTED answer with the fixed reason text and the last failure's message |
| PaymentOrderOutboundClient.SubmissionFrom | src/main/java/com/backbase/accelerators/payment/client/PaymentOrderOutboundClient.java:27-30 | the number of attempts made is more than the first attempt's index and at most the configured maximum |
| PaymentOrderOutboundClient.SubmitWithRetry | src/main/java/com/backbase/accelerators/payment/client/PaymentOrderOutboundClient.java:27-45 | between 1 and the maximum attempts; every attempt before the last failed retryably; the answer is the last attempt's response, or the recovery when the last allowed attempt failed; it agrees with SubmissionFrom |
| PaymentOrderOutboundClient.ExhaustedAttemptsRecover | src/main/java/com/backbase/accelerators/payment/client/PaymentOrderOutboundClient.java:47-60 | when every remaining attempt fails retryably, the maximum is used and the answer is the recovery of the last failure, a rejection |
| PaymentOrderOutboundClient.FirstCompletionWins | src/main/java/com/backbase/accelerators/payment/client/PaymentOrderOutboundClient.java:27-30 | the first attempt that completes decides the answer and the attempt count |
| PaymentOrderOutboundClient.SuccessOnThirdAttempt | src/main/java/com/backbase/accelerators/payment/client/PaymentOrderOutboundClient.java:27-30 | with three attempts allowed, two retryable failures then a success give that success after three attempts |
| ScheduledPaymentOrderIterator.ScheduledPaymentOrderIterator.constructor | src/main/java/com/backbase/accelerators/payment/iterator/ScheduledPaymentOrderIterator.java:25-32 | starts with more elements, at position 0, with no total |
| ScheduledPaymentOrderIterator.ScheduledPaymentOrderIterator.HasNext | src/main/java/com/backbase/accelerators/payment/iterator/ScheduledPaymentOrderIterator.java:30-32 | true exactly while no page has ended the iteration |
| ScheduledPaymentOrderIterator.ScheduledPaymentOrderIterator.Next | src/main/java/com/backbase/accelerators/payment/iterator/ScheduledPaymentOrderIterator.java:35-54 | on an exhausted cursor, the NoSuchElementException outcome (None) with nothing fetched or changed; otherwise one fetch of page currentPosition with the configured size; a zero total or empty page makes it exhausted and returns an empty list without moving; any other page is returned unchanged, its total recorded and the position moved by one; the position stays the count of non-empty pages returned |
| ScheduledPaymentOrderIterator.TwoPageScenario | src/test/java/com/backbase/accelerators/payment/iterator/ScheduledPaymentOrderIteratorTest.java:34-48 | ten orders and then a zero total: the drain loop calls next() twice, collects the ten orders and requests pages 0 and 1 of size 5 |
| ScheduledPaymentExecutorService.FilterDue | src/main/java/com/backbase/accelerators/payment/service/impl/ScheduledPaymentExecutorServiceImpl.java:52-57 | requires only what the three filters dereference; an order is kept exactly when it is in the batch, scheduled for today, not past its end date and without a met repeat count; the result is no longer than the batch |
| ScheduledPaymentExecutorService.FilterDueOfAppend | src/main/java/com/backbase/accelerators/payment/service/impl/ScheduledPaymentExecutorServiceImpl.java:52-57 | filtering keeps the batch order: the due orders of a concatenation are those of the first part followed by those of the second |
| ScheduledPaymentExecutorService.FilterDueOfOne | src/main/java/com/backbase/accelerators/payment/service/impl/ScheduledPaymentExecutorServiceImpl.java:52-57 | a one-order batch keeps that order exactly when it is due |
| ScheduledPaymentExecutorService.FilterDueCounts | src/main/java/com/backbase/accelerators/payment/service/impl/ScheduledPaymentExecutorServiceImpl.java:52-57 | a due order occurs in the result as often as in the batch; an order that is not due does not occur |
| ScheduledPaymentExecutorService.ExecutePayment | src/main/java/com/backbase/accelerators/payment/service/impl/ScheduledPaymentExecutorServiceImpl.java:65-75 | pairs the unmodified order with the retried submission's answer, and logs one submission with its attempt count |
| ScheduledPaymentExecutorService.ExecutePayments | src/main/java/com/backbase/accelerators/payment/service/impl/ScheduledPaymentExecutorServiceImpl.java:51-63 | the log grows by the submit, record and update calls of each due order of the batch, one order after the other, in batch order |
| ScheduledPaymentExecutorService.FetchStep | src/main/java/com/backbase/accelerators/payment/service/impl/ScheduledPaymentExecutorServiceImpl.java:45 | next() on a cursor with more elements fetches one page and returns its orders, or an empty list for a page that ends the iteration |
| ScheduledPaymentExecutorService.ExecutePage | src/main/java/com/backbase/accelerators/payment/service/impl/ScheduledPaymentExecutorServiceImpl.java:47 | one fetch followed by executePayments on what it returned extends the run's log by that page's calls |
| ScheduledPaymentExecutorService.DrainStep | src/main/java/com/backbase/accelerators/payment/service/impl/ScheduledPaymentExecutorServiceImpl.java:44-48 | one turn of the drain loop keeps the invariants: the position counts the non-empty pages, a cursor that stops was answered by an exhausted page, and the log is the run's log so far |
| ScheduledPaymentExecutorService.Drain | src/main/java/com/backbase/accelerators/payment/service/impl/ScheduledPaymentExecutorServiceImpl.java:44-48 | the while loop on a cursor not yet asked for a page: ends after the first exhausted page, every earlier page was not, and the log grew by the run's calls |
| ScheduledPaymentExecutorService.Execute | src/main/java/com/backbase/accelerators/payment/service/impl/ScheduledPaymentExecutorServiceImpl.java:40-48 | requires of every order the source can hand out only what filtering dereferences, and for due orders what the update dereferences; a fresh cursor at position 0 is drained without reaching the exhaustion error; the run ends at the first page that has a zero total or is empty; every page before it was not; the log is the run's calls, the final empty batch included |
| ScheduledPaymentExecutorService.ExhaustedPagesImposeNothing | src/main/java/com/backbase/accelerators/payment/iterator/ScheduledPaymentOrderIterator.java:44-47 | a script whose every page has a zero total or an empty list is well formed whatever orders those pages carry, since the cursor hands none of them out |
| ScheduledPaymentExecutorService.NonEmptyPagesMeaning | src/main/java/com/backbase/accelerators/payment/iterator/ScheduledPaymentOrderIterator.java:44-53 | the run's page invariant holds exactly when each page it read kept the iteration going |
| RunLog.OrderBlockTouches | src/main/java/com/backbase/accelerators/payment/service/impl/ScheduledPaymentExecutorServiceImpl.java:59-62 | the calls for one order submit it once and then update it once |
| RunLog.BatchCallsTouchEachDueOrderOnce | src/main/java/com/backbase/accelerators/payment/service/impl/ScheduledPaymentExecutorServiceImpl.java:59-62 | executePayments submits and then updates each due order exactly once, in batch order, and touches no other order |
| RunLog.PageCallsTouchEachDueOrderOnce | src/main/java/com/backbase/accelerators/payment/service/impl/ScheduledPaymentExecutorServiceImpl.java:45-47 | a page's calls submit and update exactly its due orders; the final empty batch touches none |
| RunLog.PageSubmitsExactlyTheDueOrders | src/main/java/com/backbase/accelerators/payment/service/impl/ScheduledPaymentExecutorServiceImpl.java:51-62 | an order is submitted for a page exactly when it is on that page and passes the three filters |

## Left out

- The HTTP plumbing of `getScheduledPaymentOrders` (PaymentOrderServiceClient.java:43-72) is left out, along with the generated API clients and the API configuration classes. The order source is the scripted `Backend.PageAt`.
- `ScheduledPaymentOrderServiceClient` is modelled only by the two calls the executor makes, date validation and transaction creation. The transaction call returns the execution unchanged.
- `LimitServiceClient` is left out because the executor never calls it.
- The mapper `PaymentOrderMapper` is taken as the identity, because its implementation is generated. A fetched order is already a scheduled order, and the outbound request is the order itself.
- `parallelStream` is modelled sequentially, in list order. The concurrent interleaving of the per-order pipelines is not modelled.
- The retry backoff delay and its timing are left out. Only the attempt bound and the recovery are modelled.
- The retried submission requires `retryMaxAttempts >= 1`: a maximum below 1 is excluded as a misconfiguration.
- The audit timestamp (`OffsetDateTime.now()`) and all logging are left out.
- `Integer.parseInt` and `LocalDate.parse` failures on the additions map are left out. The additions are typed as an optional count and an optional date.
- `totalElements` is an integer, so the scale sensitivity of `BigDecimal.equals` is not modelled.
- `every` is a natural number rather than the generated `EveryEnum`.
- Dates are not limited to the year range of `java.time`.
- `Dates.PlusMonths`: states day clamping and month arithmetic, not the full `java.time` implementation.
- `IsBlank`, `EqualsIgnoreCase` and whitespace are modelled for ASCII case folding and whitespace below U+0080 only.
- Null dereferences in the source become preconditions, each only where the source reaches it. `Filterable`: the three filters dereference the schedule, and also `startDate` when the next execution date is not today. `CanBuildUpdate`: the update dereferences `every` only when the outbound answer carries no next date. `Executable` applies `CanBuildUpdate` to the answer an order's submission gets. `ScriptWellFormed` asks, of every order on a scripted page that does not end the iteration, `Filterable`, and `Executable` of the due ones; a page with a zero total or an empty list is handed out as an empty list, so nothing is asked of its orders.
- `ScriptWellFormed` also constrains the pages after the first page that ends a run. One run does not read them, but the order source keeps its position, so a later run on the same backend does.
- The cursor's `currentPosition` overflow at 2^31 pages is not modelled.
- Exceptions from the order update, the transaction record and the validator are not modelled. The source does not isolate per-order faults; a thrown exception would abort the rest of the batch.
- `updatePaymentOrder`'s response is left out, because it is unused.
- Run-level projection: the touches of a whole run are stated only per page and per batch (RunLog). `Execute` states the run's whole log as `RunCalls`.
- A rejected response with a retryable reason code is retried only when the exception class is configured. The `RetryablePaymentOrderException` thrown by `validateResponse` is caught by the `catch (Exception e)` of the same method. It is then classified by its class name, so it is retried only when that class name is listed in `retryExceptionClasses` (RetryableResponseNeedsExceptionClass).
- `from` is a page index: the cursor passes `currentPosition`, the count of non-empty pages read, as `from`.
- `IsValidExecutionDate` has no contract of its own. It is the one-line OK test used by `ValidateExecutionDate`, whose contract states the table.
