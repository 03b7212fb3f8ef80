/**
 * What one batch and one page of a run do to the orders: the call log of
 * executePayments, projected onto its submissions and its order updates,
 * is each due order submitted and then updated, once and in batch order.
 */
module RunLog {
  import opened Wrappers
  import opened Dates
  import opened PaymentModel
  import opened Collaborators
  import opened PaymentOrderOutboundClient
  import opened PaymentOrderServiceClient
  import opened ScheduledPaymentOrderIterator
  import opened ScheduledPaymentExecutorService

  /** What a call does to an order: submits it, or updates the order with that id. */
  datatype Touch = Submitted(order: ScheduledOrder) | Updated(id: string)

  /** The touch of one call, if any. */
  function TouchOf(call: RemoteCall): seq<Touch> {
    match call
    case OutboundSubmission(order, _) => [Submitted(order)]
    case OrderUpdated(id, _, _) => [Updated(id)]
    case _ => []
  }

  /** The pieces f(x) of the elements x of a sequence, concatenated in order. */
  function Concat<A, B>(f: A -> seq<B>, xs: seq<A>): seq<B> {
    if |xs| == 0 then [] else Concat(f, xs[..|xs| - 1]) + f(xs[|xs| - 1])
  }

  lemma ConcatOfSnoc<A, B>(f: A -> seq<B>, xs: seq<A>, x: A)
    ensures Concat(f, xs + [x]) == Concat(f, xs) + f(x)
  {
    assert (xs + [x])[..|xs|] == xs;
  }

  lemma {:induction false} ConcatOfAppend<A, B>(f: A -> seq<B>, xs: seq<A>, ys: seq<A>)
    ensures Concat(f, xs + ys) == Concat(f, xs) + Concat(f, ys)
    decreases |ys|
  {
    if |ys| == 0 {
      assert xs + ys == xs;
    } else {
      var front := ys[..|ys| - 1];
      var last := ys[|ys| - 1];
      assert ys == front + [last];
      assert xs + ys == (xs + front) + [last];
      ConcatOfAppend(f, xs, front);
      ConcatOfSnoc(f, xs + front, last);
      ConcatOfSnoc(f, front, last);
    }
  }

  /** The submissions and updates of a call log, in log order. */
  function Touches(calls: seq<RemoteCall>): seq<Touch> {
    Concat(TouchOf, calls)
  }

  /** An order submitted and then updated. */
  function SubmitUpdate(order: ScheduledOrder): seq<Touch> {
    [Submitted(order), Updated(order.id)]
  }

  /** Each order of the list submitted and then updated, one order after the other. */
  function SubmitThenUpdate(orders: seq<ScheduledOrder>): seq<Touch> {
    Concat(SubmitUpdate, orders)
  }

  /** The four-part log of one order touches it twice: submitted, then updated. */
  lemma OrderBlockTouches(order: ScheduledOrder, attempts: nat, execution: ExecutionResponse,
                          validations: seq<RemoteCall>, idType: string, request: PutRequest)
    requires |validations| <= 1 && (validations != [] ==> validations[0].DateValidated?)
    ensures Touches([OutboundSubmission(order, attempts)] + [TransactionPosted(execution)] + validations
                    + [OrderUpdated(order.id, idType, request)])
            == [Submitted(order), Updated(order.id)]
  {
    var submitted := [OutboundSubmission(order, attempts)];
    assert submitted == [] + [OutboundSubmission(order, attempts)];
    ConcatOfSnoc(TouchOf, [], OutboundSubmission(order, attempts));
    var transacted := submitted + [TransactionPosted(execution)];
    ConcatOfSnoc(TouchOf, submitted, TransactionPosted(execution));
    var validated := transacted + validations;
    if |validations| == 0 {
      assert validated == transacted;
    } else {
      assert validations == [validations[0]];
      ConcatOfSnoc(TouchOf, transacted, validations[0]);
    }
    ConcatOfSnoc(TouchOf, validated, OrderUpdated(order.id, idType, request));
  }

  /** executePayments submits and then updates every due order of a batch exactly once, in batch order, and no other. */
  lemma {:induction false} BatchCallsTouchEachDueOrderOnce(outbound: (ScheduledOrder, nat) -> ApiResult,
                                                           validator: LocalDate -> ValidationResponse,
                                                           config: SchedulerProperties, due: seq<ScheduledOrder>,
                                                           today: LocalDate)
    requires config.retryMaxAttempts >= 1 && forall o :: o in due ==> Executable(outbound, config, o)
    ensures Touches(BatchCalls(outbound, validator, config, due, today)) == SubmitThenUpdate(due)
    decreases |due|
  {
    if due != [] {
      var prefix := due[..|due| - 1];
      var last := due[|due| - 1];
      assert last in due;
      BatchCallsTouchEachDueOrderOnce(outbound, validator, config, prefix, today);
      var submission := SubmissionFrom(outbound, last, config, 0);
      var execution := ExecutionResponse(last, submission.response);
      OrderBlockTouches(last, submission.attempts, execution, ValidationCalls(execution, today), INTERNAL_ID,
                        UpdateRequest(execution, today, validator));
      ConcatOfAppend(TouchOf, BatchCalls(outbound, validator, config, prefix, today),
                     OrderCalls(outbound, validator, config, last, today));
    }
  }

  /** The due orders of page request k: none when its answer ends the iteration. */
  function PageDue(backend: Backend, config: SchedulerProperties, k: nat, today: LocalDate): seq<ScheduledOrder>
    requires config.retryMaxAttempts >= 1 && ScriptWellFormed(backend, config, today)
  {
    PageWellFormed(backend, config, today, k);
    if IsExhaustedPage(backend.PageAt(k)) then [] else FilterDue(backend.PageAt(k).paymentOrders, today)
  }

  lemma PageCallsTouchEachDueOrderOnce(backend: Backend, config: SchedulerProperties, k: nat, n: nat, today: LocalDate)
    requires config.retryMaxAttempts >= 1 && ScriptWellFormed(backend, config, today)
    ensures Touches(PageCalls(backend, config, k, n, today)) == SubmitThenUpdate(PageDue(backend, config, k, today))
  {
    PageWellFormed(backend, config, today, k);
    var fetch := [FetchPage(n, config.pageSize)];
    assert fetch == [] + [FetchPage(n, config.pageSize)];
    ConcatOfSnoc(TouchOf, [], FetchPage(n, config.pageSize));
    if IsExhaustedPage(backend.PageAt(k)) {
      ConcatOfAppend(TouchOf, fetch, []);
    } else {
      var due := FilterDue(backend.PageAt(k).paymentOrders, today);
      BatchCallsTouchEachDueOrderOnce(backend.outbound, backend.validator, config, due, today);
      ConcatOfAppend(TouchOf, fetch, BatchCalls(backend.outbound, backend.validator, config, due, today));
    }
  }

  /** An order is submitted in SubmitThenUpdate(orders) exactly when it is one of the orders. */
  lemma {:induction false} SubmittedIffListed(orders: seq<ScheduledOrder>, o: ScheduledOrder)
    ensures Submitted(o) in SubmitThenUpdate(orders) <==> o in orders
    decreases |orders|
  {
    if orders != [] {
      var prefix := orders[..|orders| - 1];
      SubmittedIffListed(prefix, o);
      assert orders == prefix + [orders[|orders| - 1]];
    }
  }

  /**
   * Within one page, an order is submitted iff it is on the page and passes
   * the three filters: filtered-out orders are never submitted.
   */
  lemma PageSubmitsExactlyTheDueOrders(backend: Backend, config: SchedulerProperties, k: nat, n: nat,
                                       today: LocalDate, o: ScheduledOrder)
    requires config.retryMaxAttempts >= 1 && ScriptWellFormed(backend, config, today)
    requires !IsExhaustedPage(backend.PageAt(k))
    ensures Submitted(o) in Touches(PageCalls(backend, config, k, n, today))
            <==> o in backend.PageAt(k).paymentOrders && Filterable(o, today) && IsDue(o, today)
  {
    PageWellFormed(backend, config, today, k);
    PageCallsTouchEachDueOrderOnce(backend, config, k, n, today);
    SubmittedIffListed(PageDue(backend, config, k, today), o);
  }
}
