/**
 * PaymentOrderOutboundClient: one submission to the outbound service with
 * its failure classification, and the bounded retry with a recovery
 * fallback that the @Retryable/@Recover pair adds around it.
 */
module PaymentOrderOutboundClient {
  import opened Wrappers
  import opened PaymentModel

  const REJECTED: string := "REJECTED"
  const RETRYABLE_EXCEPTION_CLASS: string := "com.backbase.accelerators.payment.exception.RetryablePaymentOrderException"
  const RECOVERY_REASON: string := "Could not process scheduled payment"

  /** Character.isWhitespace on the characters below U+0080. */
  predicate IsWhitespace(c: char) {
    c == ' ' || c == '\t' || c == '\n' || c == '\U{000B}' || c == '\U{000C}' || c == '\r'
    || ('\U{001C}' <= c <= '\U{001F}')
  }

  /** StringUtils.isBlank on a non-null string: empty or whitespace only. */
  predicate IsBlank(s: string) {
    forall i :: 0 <= i < |s| ==> IsWhitespace(s[i])
  }

  function ToUpperAscii(c: char): char {
    if 'a' <= c <= 'z' then (c as int - 32) as char else c
  }

  /** String.equalsIgnoreCase, with case folding of ASCII letters. */
  predicate EqualsIgnoreCase(a: string, b: string) {
    |a| == |b| && forall i :: 0 <= i < |a| ==> ToUpperAscii(a[i]) == ToUpperAscii(b[i])
  }

  /**
   * isPaymentRejected: the bank status is not blank and is REJECTED in any
   * letter case. The blank test adds nothing to the case-insensitive match.
   */
  function IsPaymentRejected(response: OutboundResponse): (r: bool)
    ensures r <==> response.bankStatus.Some? && EqualsIgnoreCase(response.bankStatus.value, REJECTED)
  {
    match response.bankStatus
    case None => false
    case Some(status) =>
      RejectedIsNotBlank(status);
      !IsBlank(status) && EqualsIgnoreCase(status, REJECTED)
  }

  /** A string equal to REJECTED ignoring case starts with a letter, so it is not blank. */
  lemma RejectedIsNotBlank(s: string)
    ensures EqualsIgnoreCase(s, REJECTED) ==> !IsBlank(s)
  {
    if EqualsIgnoreCase(s, REJECTED) {
      assert ToUpperAscii(s[0]) == 'R';
      assert !IsWhitespace(s[0]);
    }
  }

  lemma RejectedInAnyCase()
    ensures IsPaymentRejected(OutboundResponse(Some("rejected"), None, None, None, None))
    ensures IsPaymentRejected(OutboundResponse(Some("Rejected"), None, None, None, None))
    ensures !IsPaymentRejected(OutboundResponse(Some(" REJECTED"), None, None, None, None))
    ensures !IsPaymentRejected(OutboundResponse(Some("PROCESSED"), None, None, None, None))
    ensures !IsPaymentRejected(OutboundResponse(None, None, None, None, None))
  {
    assert ' ' != 'R';
    assert ToUpperAscii('P') != ToUpperAscii('R');
  }

  /** isRetryable(response): the configured code list exists and holds the reason code. */
  function IsRetryableResponse(response: OutboundResponse, retryErrorCodes: Option<seq<string>>): (r: bool)
    ensures r <==> retryErrorCodes.Some? && response.reasonCode.Some? && response.reasonCode.value in retryErrorCodes.value
  {
    match retryErrorCodes
    case None => false
    case Some(codes) => response.reasonCode.Some? && response.reasonCode.value in codes
  }

  /** Throwable.toString: the class name, then ": " and the message when there is one. */
  function ThrowableToString(e: JavaException): string {
    match e.message
    case Some(m) => e.className + ": " + m
    case None => e.className
  }

  /** The synthesised terminal answer: REJECTED with a fixed reason and the error's message. */
  function RejectionResponse(errorDescription: Option<string>): (r: OutboundResponse)
    ensures IsPaymentRejected(r) && r.bankStatus == Some(REJECTED)
    ensures r.reasonText == Some(RECOVERY_REASON) && r.errorDescription == errorDescription
    ensures r.reasonCode.None? && r.nextExecutionDate.None?
  {
    OutboundResponse(Some(REJECTED), None, Some(RECOVERY_REASON), errorDescription, None)
  }

  /**
   * How one call of sendToPaymentOrderOutboundService ends: it returns a
   * response, or it throws a RetryablePaymentOrderException with a message.
   */
  datatype AttemptOutcome = Completed(response: OutboundResponse) | RetryableFailure(message: Option<string>)

  /** handleException: rethrow wrapped when the class is configured as retryable, else reject. */
  function HandleException(e: JavaException, config: SchedulerProperties): (r: AttemptOutcome)
    ensures r.RetryableFailure? <==> e.className in config.retryExceptionClasses
    ensures r.RetryableFailure? ==> r.message == Some(ThrowableToString(e))
    ensures r.Completed? ==> r.response == RejectionResponse(e.message)
  {
    if e.className in config.retryExceptionClasses then RetryableFailure(Some(ThrowableToString(e)))
    else Completed(RejectionResponse(e.message))
  }

  /**
   * The class name of what the try block throws, if it throws: the API's
   * own exception, or the RetryablePaymentOrderException of validateResponse.
   */
  function ThrownInTry(result: ApiResult, config: SchedulerProperties): Option<JavaException> {
    match result
    case Threw(e) => Some(e)
    case Returned(response) =>
      if IsPaymentRejected(response) && IsRetryableResponse(response, config.retryErrorCodes)
      then Some(JavaException(RETRYABLE_EXCEPTION_CLASS, response.reasonText))
      else None
  }

  /**
   * sendToPaymentOrderOutboundService, one invocation. Whatever the try
   * block throws, including validateResponse's own exception, is caught
   * and classified by handleException.
   */
  function SendToPaymentOrderOutboundService(result: ApiResult, config: SchedulerProperties): (r: AttemptOutcome)
    ensures ThrownInTry(result, config).None? ==> r == Completed(result.response)
    ensures ThrownInTry(result, config).Some? ==>
              r == HandleException(ThrownInTry(result, config).value, config)
    ensures r.RetryableFailure? <==>
              ThrownInTry(result, config).Some? && ThrownInTry(result, config).value.className in config.retryExceptionClasses
  {
    match result
    case Returned(response) =>
      if IsPaymentRejected(response) && IsRetryableResponse(response, config.retryErrorCodes) then
        HandleException(JavaException(RETRYABLE_EXCEPTION_CLASS, response.reasonText), config)
      else
        Completed(response)
    case Threw(e) => HandleException(e, config)
  }

  /**
   * A rejected response with a retryable code is retried only when the
   * RetryablePaymentOrderException class itself is configured as retryable;
   * otherwise it becomes an immediate REJECTED answer carrying its reason text.
   */
  lemma RetryableResponseNeedsExceptionClass(response: OutboundResponse, config: SchedulerProperties)
    requires IsPaymentRejected(response) && IsRetryableResponse(response, config.retryErrorCodes)
    ensures SendToPaymentOrderOutboundService(Returned(response), config).RetryableFailure?
            <==> RETRYABLE_EXCEPTION_CLASS in config.retryExceptionClasses
    ensures RETRYABLE_EXCEPTION_CLASS !in config.retryExceptionClasses ==>
              SendToPaymentOrderOutboundService(Returned(response), config) == Completed(RejectionResponse(response.reasonText))
  {
  }

  /** recover: the terminal REJECTED answer once the attempts are used up. */
  function Recover(message: Option<string>): (r: OutboundResponse)
    ensures IsPaymentRejected(r) && r.reasonText == Some(RECOVERY_REASON) && r.errorDescription == message
  {
    RejectionResponse(message)
  }

  datatype SubmissionResult = SubmissionResult(response: OutboundResponse, attempts: nat)

  /**
   * The retried submission from attempt k on (attempts count from 0): stop at
   * the first attempt that returns, recover after the last allowed one.
   */
  function SubmissionFrom(outbound: (ScheduledOrder, nat) -> ApiResult, order: ScheduledOrder,
                          config: SchedulerProperties, k: nat): (r: SubmissionResult)
    requires k < config.retryMaxAttempts
    ensures k < r.attempts <= config.retryMaxAttempts
    decreases config.retryMaxAttempts - k
  {
    match SendToPaymentOrderOutboundService(outbound(order, k), config)
    case Completed(response) => SubmissionResult(response, k + 1)
    case RetryableFailure(message) =>
      if k + 1 == config.retryMaxAttempts then SubmissionResult(Recover(message), k + 1)
      else SubmissionFrom(outbound, order, config, k + 1)
  }

  /**
   * The @Retryable proxy around sendToPaymentOrderOutboundService: at most
   * retryMaxAttempts attempts, every one but the last a retryable failure,
   * and the answer is the last attempt's or the recovery's.
   */
  method SubmitWithRetry(outbound: (ScheduledOrder, nat) -> ApiResult, order: ScheduledOrder,
                         config: SchedulerProperties) returns (response: OutboundResponse, attempts: nat)
    requires config.retryMaxAttempts >= 1
    ensures 1 <= attempts <= config.retryMaxAttempts
    ensures forall i :: 0 <= i < attempts - 1 ==>
              SendToPaymentOrderOutboundService(outbound(order, i), config).RetryableFailure?
    ensures var last := SendToPaymentOrderOutboundService(outbound(order, attempts - 1), config);
            || last == Completed(response)
            || (last.RetryableFailure? && attempts == config.retryMaxAttempts && response == Recover(last.message))
    ensures SubmissionResult(response, attempts) == SubmissionFrom(outbound, order, config, 0)
  {
    var outcome := SendToPaymentOrderOutboundService(outbound(order, 0), config);
    attempts := 1;
    while outcome.RetryableFailure? && attempts < config.retryMaxAttempts
      invariant 1 <= attempts <= config.retryMaxAttempts
      invariant outcome == SendToPaymentOrderOutboundService(outbound(order, attempts - 1), config)
      invariant forall i :: 0 <= i < attempts - 1 ==>
                  SendToPaymentOrderOutboundService(outbound(order, i), config).RetryableFailure?
      invariant SubmissionFrom(outbound, order, config, 0) == SubmissionFrom(outbound, order, config, attempts - 1)
      decreases config.retryMaxAttempts - attempts
    {
      outcome := SendToPaymentOrderOutboundService(outbound(order, attempts), config);
      attempts := attempts + 1;
    }
    response := if outcome.Completed? then outcome.response else Recover(outcome.message);
  }

  /** When every remaining attempt fails retryably, the answer is the recovery of the last one. */
  lemma {:induction false} ExhaustedAttemptsRecover(outbound: (ScheduledOrder, nat) -> ApiResult, order: ScheduledOrder,
                                                    config: SchedulerProperties, k: nat)
    requires k < config.retryMaxAttempts
    requires forall i :: k <= i < config.retryMaxAttempts ==>
               SendToPaymentOrderOutboundService(outbound(order, i), config).RetryableFailure?
    ensures var last := SendToPaymentOrderOutboundService(outbound(order, config.retryMaxAttempts - 1), config);
            SubmissionFrom(outbound, order, config, k) == SubmissionResult(Recover(last.message), config.retryMaxAttempts)
    ensures IsPaymentRejected(SubmissionFrom(outbound, order, config, k).response)
    decreases config.retryMaxAttempts - k
  {
    assert SendToPaymentOrderOutboundService(outbound(order, k), config).RetryableFailure?;
    if k + 1 < config.retryMaxAttempts {
      ExhaustedAttemptsRecover(outbound, order, config, k + 1);
    }
  }

  /** The first attempt that returns within the bound decides the answer. */
  lemma {:induction false} FirstCompletionWins(outbound: (ScheduledOrder, nat) -> ApiResult, order: ScheduledOrder,
                                               config: SchedulerProperties, k: nat, j: nat)
    requires k <= j < config.retryMaxAttempts
    requires forall i :: k <= i < j ==> SendToPaymentOrderOutboundService(outbound(order, i), config).RetryableFailure?
    requires SendToPaymentOrderOutboundService(outbound(order, j), config).Completed?
    ensures SubmissionFrom(outbound, order, config, k)
            == SubmissionResult(SendToPaymentOrderOutboundService(outbound(order, j), config).response, j + 1)
    decreases j - k
  {
    if k < j {
      assert SendToPaymentOrderOutboundService(outbound(order, k), config).RetryableFailure?;
      FirstCompletionWins(outbound, order, config, k + 1, j);
    }
  }

  /**
   * Two retryable rejections followed by a success, with three attempts
   * allowed: the success is the answer and three attempts were made.
   */
  lemma SuccessOnThirdAttempt(outbound: (ScheduledOrder, nat) -> ApiResult, order: ScheduledOrder,
                              config: SchedulerProperties, success: OutboundResponse)
    requires config.retryMaxAttempts == 3
    requires SendToPaymentOrderOutboundService(outbound(order, 0), config).RetryableFailure?
    requires SendToPaymentOrderOutboundService(outbound(order, 1), config).RetryableFailure?
    requires outbound(order, 2) == Returned(success) && !IsPaymentRejected(success)
    ensures SubmissionFrom(outbound, order, config, 0) == SubmissionResult(success, 3)
  {
    FirstCompletionWins(outbound, order, config, 0, 2);
  }
}
