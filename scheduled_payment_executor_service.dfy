/**
 * ScheduledPaymentExecutorServiceImpl: one run of the executor. A fresh
 * cursor is drained page by page; each page is filtered down to the orders
 * due today, and each of those is submitted, recorded as a transaction
 * and has its schedule advanced.
 */
module ScheduledPaymentExecutorService {
  import opened Wrappers
  import opened Dates
  import opened PaymentModel
  import opened Collaborators
  import opened ScheduledPaymentUtil
  import opened PaymentOrderOutboundClient
  import opened PaymentOrderServiceClient
  import opened ScheduledPaymentOrderIterator

  /**
   * What the filters of executePayments dereference: the schedule, and its
   * start date unless the next execution date is already today.
   */
  predicate Filterable(order: ScheduledOrder, today: LocalDate) {
    order.schedule.Some?
    && (order.schedule.value.nextExecutionDate == Some(today) || order.schedule.value.startDate.Some?)
  }

  /** The three filters of executePayments. */
  predicate IsDue(order: ScheduledOrder, today: LocalDate)
    requires Filterable(order, today)
  {
    IsPaymentScheduledForToday(order, today) && !IsEndDateInThePast(order, today) && !IsRepeatCountMet(order)
  }

  /** The elements of xs that satisfy keep, in the order of xs. */
  function Filter<T>(keep: T -> bool, xs: seq<T>): seq<T> {
    if |xs| == 0 then [] else Filter(keep, xs[..|xs| - 1]) + (if keep(xs[|xs| - 1]) then [xs[|xs| - 1]] else [])
  }

  lemma {:induction false} FilterLength<T>(keep: T -> bool, xs: seq<T>)
    ensures |Filter(keep, xs)| <= |xs|
    decreases |xs|
  {
    if |xs| > 0 {
      FilterLength(keep, xs[..|xs| - 1]);
    }
  }

  lemma {:induction false} FilterMembers<T>(keep: T -> bool, xs: seq<T>, x: T)
    ensures x in Filter(keep, xs) <==> x in xs && keep(x)
    decreases |xs|
  {
    if |xs| > 0 {
      var front := xs[..|xs| - 1];
      assert xs == front + [xs[|xs| - 1]];
      FilterMembers(keep, front, x);
    }
  }

  lemma {:induction false} FilterOfAppend<T>(keep: T -> bool, xs: seq<T>, ys: seq<T>)
    ensures Filter(keep, xs + ys) == Filter(keep, xs) + Filter(keep, ys)
    decreases |ys|
  {
    if |ys| == 0 {
      assert xs + ys == xs;
    } else {
      var front := ys[..|ys| - 1];
      var last := ys[|ys| - 1];
      var tail := if keep(last) then [last] else [];
      var all := xs + ys;
      assert all[..|all| - 1] == xs + front && all[|all| - 1] == last;
      assert Filter(keep, all) == Filter(keep, xs + front) + tail;
      assert Filter(keep, ys) == Filter(keep, front) + tail;
      FilterOfAppend(keep, xs, front);
      assert (Filter(keep, xs) + Filter(keep, front)) + tail == Filter(keep, xs) + (Filter(keep, front) + tail);
    }
  }

  lemma FilterOfOne<T>(keep: T -> bool, x: T)
    ensures Filter(keep, [x]) == if keep(x) then [x] else []
  {
    assert [x][..0] == [];
  }

  lemma {:induction false} FilterCounts<T>(keep: T -> bool, xs: seq<T>, x: T)
    ensures multiset(Filter(keep, xs))[x] == if keep(x) then multiset(xs)[x] else 0
    decreases |xs|
  {
    if |xs| > 0 {
      var front := xs[..|xs| - 1];
      assert xs == front + [xs[|xs| - 1]];
      FilterCounts(keep, front, x);
    }
  }

  /** The orders of a batch that survive the filters, in batch order. */
  function FilterDue(batch: seq<ScheduledOrder>, today: LocalDate): (due: seq<ScheduledOrder>)
    requires forall o :: o in batch ==> Filterable(o, today)
    ensures |due| <= |batch|
    ensures forall o :: o in due <==> o in batch && IsDue(o, today)
  {
    var keep := o => Filterable(o, today) && IsDue(o, today);
    assert forall o :: o in Filter(keep, batch) <==> o in batch && IsDue(o, today) by {
      forall o {
        FilterMembers(keep, batch, o);
      }
    }
    FilterLength(keep, batch);
    Filter(keep, batch)
  }

  /** Filtering keeps the batch order: the due orders of a concatenation are those of each part, in turn. */
  lemma FilterDueOfAppend(xs: seq<ScheduledOrder>, ys: seq<ScheduledOrder>, today: LocalDate)
    requires forall o :: o in xs ==> Filterable(o, today)
    requires forall o :: o in ys ==> Filterable(o, today)
    ensures FilterDue(xs + ys, today) == FilterDue(xs, today) + FilterDue(ys, today)
  {
    FilterOfAppend(o => Filterable(o, today) && IsDue(o, today), xs, ys);
  }

  /** A single order is kept exactly when it is due. */
  lemma FilterDueOfOne(o: ScheduledOrder, today: LocalDate)
    requires Filterable(o, today)
    ensures FilterDue([o], today) == if IsDue(o, today) then [o] else []
  {
    FilterOfOne(o => Filterable(o, today) && IsDue(o, today), o);
  }

  /** A due order is kept as many times as the batch holds it, any other order not at all. */
  lemma FilterDueCounts(batch: seq<ScheduledOrder>, today: LocalDate, o: ScheduledOrder)
    requires forall o :: o in batch ==> Filterable(o, today)
    requires Filterable(o, today)
    ensures multiset(FilterDue(batch, today))[o] == if IsDue(o, today) then multiset(batch)[o] else 0
  {
    FilterCounts(o => Filterable(o, today) && IsDue(o, today), batch, o);
  }

  /**
   * What updateNextExecutionDate dereferences for an order, given the answer
   * its retried submission ends with.
   */
  predicate Executable(outbound: (ScheduledOrder, nat) -> ApiResult, config: SchedulerProperties, order: ScheduledOrder)
    requires config.retryMaxAttempts >= 1
  {
    CanBuildUpdate(ExecutionResponse(order, SubmissionFrom(outbound, order, config, 0).response))
  }

  /** An order executePayments handles without a null dereference: it can be filtered, and executed if due. */
  predicate Processable(outbound: (ScheduledOrder, nat) -> ApiResult, config: SchedulerProperties,
                        order: ScheduledOrder, today: LocalDate)
    requires config.retryMaxAttempts >= 1
  {
    Filterable(order, today) && (IsDue(order, today) ==> Executable(outbound, config, order))
  }

  /**
   * The calls made for one due order: its submission with the number of
   * attempts, the transaction carrying the order and the final outbound
   * answer, then the schedule update.
   */
  function OrderCalls(outbound: (ScheduledOrder, nat) -> ApiResult, validator: LocalDate -> ValidationResponse,
                      config: SchedulerProperties, order: ScheduledOrder, today: LocalDate): seq<RemoteCall>
    requires config.retryMaxAttempts >= 1 && Executable(outbound, config, order)
  {
    var submission := SubmissionFrom(outbound, order, config, 0);
    var execution := ExecutionResponse(order, submission.response);
    [OutboundSubmission(order, submission.attempts)] + [TransactionPosted(execution)]
    + ValidationCalls(execution, today)
    + [OrderUpdated(order.id, INTERNAL_ID, UpdateRequest(execution, today, validator))]
  }

  /** The calls made for a list of due orders, one after the other. */
  function BatchCalls(outbound: (ScheduledOrder, nat) -> ApiResult, validator: LocalDate -> ValidationResponse,
                      config: SchedulerProperties, due: seq<ScheduledOrder>, today: LocalDate): seq<RemoteCall>
    requires config.retryMaxAttempts >= 1 && forall o :: o in due ==> Executable(outbound, config, o)
  {
    if |due| == 0 then []
    else BatchCalls(outbound, validator, config, due[..|due| - 1], today)
         + OrderCalls(outbound, validator, config, due[|due| - 1], today)
  }

  lemma BatchCallsStep(outbound: (ScheduledOrder, nat) -> ApiResult, validator: LocalDate -> ValidationResponse,
                       config: SchedulerProperties, due: seq<ScheduledOrder>, i: nat, today: LocalDate)
    requires config.retryMaxAttempts >= 1 && forall o :: o in due ==> Executable(outbound, config, o)
    requires i < |due|
    ensures BatchCalls(outbound, validator, config, due[..i + 1], today)
            == BatchCalls(outbound, validator, config, due[..i], today) + OrderCalls(outbound, validator, config, due[i], today)
  {
    assert due[..i + 1][..i] == due[..i];
  }

  /**
   * Every order of one page is processable on that day, unless the page
   * ends the iteration: then the cursor hands out none of its orders.
   */
  predicate PageProcessable(outbound: (ScheduledOrder, nat) -> ApiResult, config: SchedulerProperties,
                            page: Page, today: LocalDate)
    requires config.retryMaxAttempts >= 1
  {
    !IsExhaustedPage(page) ==> forall o :: o in page.paymentOrders ==> Processable(outbound, config, o, today)
  }

  /** Every order the backend's order source can hand out is processable on that day. */
  predicate ScriptWellFormed(backend: Backend, config: SchedulerProperties, today: LocalDate)
    requires config.retryMaxAttempts >= 1
  {
    forall k {:trigger PageProcessable(backend.outbound, config, backend.pages[k], today)} ::
      0 <= k < |backend.pages| ==> PageProcessable(backend.outbound, config, backend.pages[k], today)
  }

  lemma PageWellFormed(backend: Backend, config: SchedulerProperties, today: LocalDate, k: nat)
    requires config.retryMaxAttempts >= 1 && ScriptWellFormed(backend, config, today)
    ensures !IsExhaustedPage(backend.PageAt(k)) ==>
              forall o :: o in backend.PageAt(k).paymentOrders ==> Filterable(o, today)
    ensures !IsExhaustedPage(backend.PageAt(k)) ==>
              forall o :: o in backend.PageAt(k).paymentOrders && IsDue(o, today) ==> Executable(backend.outbound, config, o)
  {
    forall o | !IsExhaustedPage(backend.PageAt(k)) && o in backend.PageAt(k).paymentOrders
      ensures Filterable(o, today) && (IsDue(o, today) ==> Executable(backend.outbound, config, o))
    {
      assert k < |backend.pages| && o in backend.pages[k].paymentOrders;
      assert PageProcessable(backend.outbound, config, backend.pages[k], today);
    }
  }

  /**
   * A script of pages that each end the iteration (a zero total or an
   * empty list) asks nothing of the orders on them, whatever they are.
   */
  lemma ExhaustedPagesImposeNothing(backend: Backend, config: SchedulerProperties, today: LocalDate)
    requires config.retryMaxAttempts >= 1
    requires forall k :: 0 <= k < |backend.pages| ==> IsExhaustedPage(backend.pages[k])
    ensures ScriptWellFormed(backend, config, today)
  {
    forall k | 0 <= k < |backend.pages|
      ensures PageProcessable(backend.outbound, config, backend.pages[k], today)
    {
      assert IsExhaustedPage(backend.pages[k]);
    }
  }

  /**
   * The calls made for the page request k of the backend when it is the
   * n-th of the run: the fetch of page n, then, unless the answer ends the
   * iteration, the handling of its due orders.
   */
  function PageCalls(backend: Backend, config: SchedulerProperties, k: nat, n: nat, today: LocalDate): seq<RemoteCall>
    requires config.retryMaxAttempts >= 1 && ScriptWellFormed(backend, config, today)
  {
    PageWellFormed(backend, config, today, k);
    [FetchPage(n, config.pageSize)]
    + (if IsExhaustedPage(backend.PageAt(k)) then []
       else BatchCalls(backend.outbound, backend.validator, config,
                       FilterDue(backend.PageAt(k).paymentOrders, today), today))
  }

  /** The calls made for the first n page requests of a run that starts at request `start`. */
  function RunCalls(backend: Backend, config: SchedulerProperties, start: nat, n: nat, today: LocalDate): seq<RemoteCall>
    requires config.retryMaxAttempts >= 1 && ScriptWellFormed(backend, config, today)
  {
    if n == 0 then []
    else RunCalls(backend, config, start, n - 1, today) + PageCalls(backend, config, start + n - 1, n - 1, today)
  }

  /** The four calls made for one order, appended one by one, are its OrderCalls. */
  lemma OrderLogged(prior: seq<RemoteCall>, submitted: seq<RemoteCall>, transacted: seq<RemoteCall>, now: seq<RemoteCall>,
                    outbound: (ScheduledOrder, nat) -> ApiResult, validator: LocalDate -> ValidationResponse,
                    config: SchedulerProperties, order: ScheduledOrder, today: LocalDate)
    requires config.retryMaxAttempts >= 1 && Executable(outbound, config, order)
    requires var submission := SubmissionFrom(outbound, order, config, 0);
             var execution := ExecutionResponse(order, submission.response);
             && submitted == prior + [OutboundSubmission(order, submission.attempts)]
             && transacted == submitted + [TransactionPosted(execution)]
             && now == transacted + ValidationCalls(execution, today)
                       + [OrderUpdated(order.id, INTERNAL_ID, UpdateRequest(execution, today, validator))]
    ensures now == prior + OrderCalls(outbound, validator, config, order, today)
  {
    var submission := SubmissionFrom(outbound, order, config, 0);
    var execution := ExecutionResponse(order, submission.response);
    var a := [OutboundSubmission(order, submission.attempts)];
    var b := [TransactionPosted(execution)];
    var c := ValidationCalls(execution, today);
    var d := [OrderUpdated(order.id, INTERNAL_ID, UpdateRequest(execution, today, validator))];
    AppendAssociative(prior, a, b);
    AppendAssociative(prior, a + b, c);
    AppendAssociative(prior, a + b + c, d);
  }

  lemma AppendAssociative<T>(a: seq<T>, b: seq<T>, c: seq<T>)
    ensures (a + b) + c == a + (b + c)
  {
  }

  /** A log that held `initial + x` and then got `y` holds `initial + (x + y)`. */
  lemma ExtendLog<T>(initial: seq<T>, prior: seq<T>, now: seq<T>, x: seq<T>, y: seq<T>)
    requires prior == initial + x && now == prior + y
    ensures now == initial + (x + y)
  {
    AppendAssociative(initial, x, y);
  }

  /** executePayment: submit with retry and pair the unmodified order with the final answer. */
  method ExecutePayment(backend: Backend, config: SchedulerProperties, order: ScheduledOrder)
    returns (execution: ExecutionResponse)
    requires config.retryMaxAttempts >= 1
    modifies backend
    ensures execution == ExecutionResponse(order, SubmissionFrom(backend.outbound, order, config, 0).response)
    ensures backend.fetched == old(backend.fetched)
    ensures backend.calls == old(backend.calls)
              + [OutboundSubmission(order, SubmissionFrom(backend.outbound, order, config, 0).attempts)]
  {
    var response, attempts := SubmitWithRetry(backend.outbound, order, config);
    backend.RecordSubmission(order, attempts);
    execution := ExecutionResponse(order, response);
  }

  /** executePayments: filter the batch, then run submit, record and update for each survivor. */
  method ExecutePayments(backend: Backend, config: SchedulerProperties, batch: seq<ScheduledOrder>, today: LocalDate)
    requires config.retryMaxAttempts >= 1
    requires forall o :: o in batch ==> Filterable(o, today)
    requires forall o :: o in batch && IsDue(o, today) ==> Executable(backend.outbound, config, o)
    modifies backend
    ensures backend.fetched == old(backend.fetched)
    ensures backend.calls == old(backend.calls)
              + BatchCalls(backend.outbound, backend.validator, config, FilterDue(batch, today), today)
  {
    var due := FilterDue(batch, today);
    for i := 0 to |due|
      invariant backend.fetched == old(backend.fetched)
      invariant backend.calls == old(backend.calls) + BatchCalls(backend.outbound, backend.validator, config, due[..i], today)
    {
      ghost var prior := backend.calls;
      assert due[i] in due;
      var execution := ExecutePayment(backend, config, due[i]);
      ghost var submitted := backend.calls;
      var recorded := backend.CreateScheduledPaymentOrderTransaction(execution);
      ghost var transacted := backend.calls;
      UpdateNextExecutionDate(backend, recorded, today);
      OrderLogged(prior, submitted, transacted, backend.calls, backend.outbound, backend.validator, config, due[i], today);
      BatchCallsStep(backend.outbound, backend.validator, config, due, i, today);
      ExtendLog(old(backend.calls), prior, backend.calls,
                BatchCalls(backend.outbound, backend.validator, config, due[..i], today),
                OrderCalls(backend.outbound, backend.validator, config, due[i], today));
    }
    assert due[..|due|] == due;
  }

  /** The scripted pages the order source has not handed out yet. */
  function Remaining(backend: Backend): nat
    reads backend
  {
    if backend.fetched < |backend.pages| then |backend.pages| - backend.fetched else 0
  }

  /**
   * A log that held the first `steps` page requests' calls and got those
   * of the next one holds the first `next` = `steps + 1`'s.
   */
  lemma RunCallsStep(initial: seq<RemoteCall>, prior: seq<RemoteCall>, now: seq<RemoteCall>,
                     backend: Backend, config: SchedulerProperties, start: nat, steps: nat, today: LocalDate)
    returns (next: nat)
    requires config.retryMaxAttempts >= 1 && ScriptWellFormed(backend, config, today)
    requires prior == initial + RunCalls(backend, config, start, steps, today)
    requires now == prior + PageCalls(backend, config, start + steps, steps, today)
    ensures next == steps + 1
    ensures now == initial + RunCalls(backend, config, start, next, today)
  {
    ExtendLog(initial, prior, now, RunCalls(backend, config, start, steps, today),
              PageCalls(backend, config, start + steps, steps, today));
    next := steps + 1;
  }

  /** The page requests start .. start + n - 1 were all answered by pages that keep the iteration going. */
  predicate NonEmptyPages(backend: Backend, start: nat, n: nat) {
    n == 0 || (NonEmptyPages(backend, start, n - 1) && !IsExhaustedPage(backend.PageAt(start + n - 1)))
  }

  lemma {:induction false} NonEmptyPagesMeaning(backend: Backend, start: nat, n: nat)
    ensures NonEmptyPages(backend, start, n) <==> forall k :: start <= k < start + n ==> !IsExhaustedPage(backend.PageAt(k))
  {
    if n > 0 {
      NonEmptyPagesMeaning(backend, start, n - 1);
    }
  }

  lemma NonEmptyPagesStep(backend: Backend, start: nat, n: nat)
    requires NonEmptyPages(backend, start, n) && !IsExhaustedPage(backend.PageAt(start + n))
    ensures NonEmptyPages(backend, start, n + 1)
  {
  }

  /** The fetch of a page followed by the handling of what next() returned for it are its PageCalls. */
  lemma PageLogged(initial: seq<RemoteCall>, afterFetch: seq<RemoteCall>, now: seq<RemoteCall>,
                   backend: Backend, config: SchedulerProperties, k: nat, n: nat, batch: seq<ScheduledOrder>,
                   today: LocalDate)
    requires config.retryMaxAttempts >= 1 && ScriptWellFormed(backend, config, today)
    requires batch == if IsExhaustedPage(backend.PageAt(k)) then [] else backend.PageAt(k).paymentOrders
    requires forall o :: o in batch ==> Filterable(o, today)
    requires forall o :: o in batch && IsDue(o, today) ==> Executable(backend.outbound, config, o)
    requires afterFetch == initial + [FetchPage(n, config.pageSize)]
    requires now == afterFetch + BatchCalls(backend.outbound, backend.validator, config, FilterDue(batch, today), today)
    ensures now == initial + PageCalls(backend, config, k, n, today)
  {
    ExtendLog(initial, afterFetch, now, [FetchPage(n, config.pageSize)],
              BatchCalls(backend.outbound, backend.validator, config, FilterDue(batch, today), today));
  }

  /**
   * The next() half of a turn of the drain loop: page request
   * `start + pagesRead` is made for page `pagesRead`, and the cursor either
   * moves on or stops at an answer that ends the iteration.
   */
  method FetchStep(cursor: ScheduledPaymentOrderIterator, ghost config: SchedulerProperties, ghost today: LocalDate,
                   ghost start: nat, ghost pagesRead: nat)
    returns (batch: seq<ScheduledOrder>, ghost pagesRead': nat)
    requires config.retryMaxAttempts >= 1 && ScriptWellFormed(cursor.client, config, today)
    requires cursor.Valid() && cursor.hasMoreElements
    requires cursor.currentPosition == pagesRead && cursor.client.fetched == start + pagesRead
    requires NonEmptyPages(cursor.client, start, pagesRead)
    modifies cursor, cursor.client
    ensures cursor.Valid() && cursor.currentPosition == pagesRead'
    ensures pagesRead' == if cursor.hasMoreElements then pagesRead + 1 else pagesRead
    ensures cursor.client.fetched == start + pagesRead + 1
    ensures NonEmptyPages(cursor.client, start, pagesRead')
    ensures !cursor.hasMoreElements ==> IsExhaustedPage(cursor.client.PageAt(start + pagesRead'))
    ensures cursor.hasMoreElements ==> Remaining(cursor.client) < old(Remaining(cursor.client))
    ensures batch == if IsExhaustedPage(cursor.client.PageAt(start + pagesRead)) then []
                     else cursor.client.PageAt(start + pagesRead).paymentOrders
    ensures forall o :: o in batch ==> Filterable(o, today)
    ensures forall o :: o in batch && IsDue(o, today) ==> Executable(cursor.client.outbound, config, o)
    ensures cursor.client.calls == old(cursor.client.calls) + [FetchPage(pagesRead, cursor.pageSize)]
  {
    PageWellFormed(cursor.client, config, today, cursor.client.fetched);
    var next := cursor.Next();
    batch := next.value;
    if cursor.hasMoreElements {
      NonEmptyPagesStep(cursor.client, start, pagesRead);
      pagesRead' := pagesRead + 1;
    } else {
      pagesRead' := pagesRead;
    }
  }

  /**
   * The executePayments half of a turn of the drain loop: the batch that
   * next() returned for page request `start + steps` is handled, which
   * completes that request's calls.
   */
  method ExecutePage(backend: Backend, config: SchedulerProperties, batch: seq<ScheduledOrder>, today: LocalDate,
                     ghost start: nat, ghost initial: seq<RemoteCall>, ghost prior: seq<RemoteCall>, ghost steps: nat)
    returns (ghost steps': nat)
    requires config.retryMaxAttempts >= 1 && ScriptWellFormed(backend, config, today)
    requires batch == if IsExhaustedPage(backend.PageAt(start + steps)) then []
                      else backend.PageAt(start + steps).paymentOrders
    requires forall o :: o in batch ==> Filterable(o, today)
    requires forall o :: o in batch && IsDue(o, today) ==> Executable(backend.outbound, config, o)
    requires prior == initial + RunCalls(backend, config, start, steps, today)
    requires backend.calls == prior + [FetchPage(steps, config.pageSize)]
    modifies backend
    ensures backend.fetched == old(backend.fetched)
    ensures steps' == steps + 1
    ensures backend.calls == initial + RunCalls(backend, config, start, steps', today)
  {
    ghost var afterFetch := backend.calls;
    ExecutePayments(backend, config, batch, today);
    PageLogged(prior, afterFetch, backend.calls, backend, config, start + steps, steps, batch, today);
    steps' := RunCallsStep(initial, prior, backend.calls, backend, config, start, steps, today);
  }

  /**
   * The state of the drain loop after `steps` page requests of a run that
   * started at request `start` with the log `initial`: `pagesRead` of them
   * were answered by non-empty pages, and once the cursor has stopped the
   * last answer is the one that ended the iteration.
   */
  ghost predicate Draining(cursor: ScheduledPaymentOrderIterator, config: SchedulerProperties, today: LocalDate,
                           start: nat, initial: seq<RemoteCall>, steps: nat, pagesRead: nat)
    requires config.retryMaxAttempts >= 1 && ScriptWellFormed(cursor.client, config, today)
    reads cursor, cursor.client
  {
    && cursor.Valid() && cursor.pageSize == config.pageSize
    && cursor.currentPosition == pagesRead
    && NonEmptyPages(cursor.client, start, pagesRead)
    && steps == (if cursor.hasMoreElements then pagesRead else pagesRead + 1)
    && cursor.client.fetched == start + steps
    && (!cursor.hasMoreElements ==> IsExhaustedPage(cursor.client.PageAt(start + pagesRead)))
    && cursor.client.calls == initial + RunCalls(cursor.client, config, start, steps, today)
  }

  /**
   * One turn of the drain loop: next(), then executePayments on whatever
   * it returned. It makes one more page request and keeps the drain loop's
   * state.
   */
  method DrainStep(cursor: ScheduledPaymentOrderIterator, config: SchedulerProperties, today: LocalDate,
                   ghost start: nat, ghost initial: seq<RemoteCall>, ghost steps: nat, ghost pagesRead: nat)
    returns (ghost steps': nat, ghost pagesRead': nat)
    requires config.retryMaxAttempts >= 1 && ScriptWellFormed(cursor.client, config, today)
    requires Draining(cursor, config, today, start, initial, steps, pagesRead) && cursor.hasMoreElements
    modifies cursor, cursor.client
    ensures Draining(cursor, config, today, start, initial, steps', pagesRead') && steps' == steps + 1
    ensures cursor.hasMoreElements ==> Remaining(cursor.client) < old(Remaining(cursor.client))
  {
    ghost var prior := cursor.client.calls;
    var batch;
    batch, pagesRead' := FetchStep(cursor, config, today, start, steps);
    steps' := ExecutePage(cursor.client, config, batch, today, start, initial, prior, steps);
  }

  /** A cursor that has not been asked for a page yet is at the start of the drain loop. */
  lemma DrainingStart(cursor: ScheduledPaymentOrderIterator, config: SchedulerProperties, today: LocalDate)
    requires config.retryMaxAttempts >= 1 && ScriptWellFormed(cursor.client, config, today)
    requires cursor.Valid() && cursor.hasMoreElements && cursor.currentPosition == 0
    requires cursor.pageSize == config.pageSize
    ensures Draining(cursor, config, today, cursor.client.fetched, cursor.client.calls, 0, 0)
  {
    assert cursor.client.calls + RunCalls(cursor.client, config, cursor.client.fetched, 0, today) == cursor.client.calls;
  }

  /** Once the cursor has stopped, the drain loop has made one request beyond the non-empty pages. */
  lemma DrainingDone(cursor: ScheduledPaymentOrderIterator, config: SchedulerProperties, today: LocalDate,
                     start: nat, initial: seq<RemoteCall>, steps: nat, pagesRead: nat)
    requires config.retryMaxAttempts >= 1 && ScriptWellFormed(cursor.client, config, today)
    requires Draining(cursor, config, today, start, initial, steps, pagesRead) && !cursor.hasMoreElements
    ensures cursor.client.fetched == start + pagesRead + 1
    ensures NonEmptyPages(cursor.client, start, pagesRead)
    ensures IsExhaustedPage(cursor.client.PageAt(start + pagesRead))
    ensures cursor.client.calls == initial + RunCalls(cursor.client, config, start, pagesRead + 1, today)
  {
  }

  /**
   * The drain loop of execute, on a cursor that has not been asked for a
   * page yet. `pagesRead` counts the non-empty pages: the page requests
   * from the backend's current position up to the first answer that ends
   * the iteration.
   */
  method Drain(cursor: ScheduledPaymentOrderIterator, config: SchedulerProperties, today: LocalDate)
    returns (ghost pagesRead: nat)
    requires config.retryMaxAttempts >= 1 && ScriptWellFormed(cursor.client, config, today)
    requires cursor.Valid() && cursor.hasMoreElements && cursor.currentPosition == 0
    requires cursor.pageSize == config.pageSize
    modifies cursor, cursor.client
    ensures cursor.client.fetched == old(cursor.client.fetched) + pagesRead + 1
    ensures NonEmptyPages(cursor.client, old(cursor.client.fetched), pagesRead)
    ensures IsExhaustedPage(cursor.client.PageAt(old(cursor.client.fetched) + pagesRead))
    ensures cursor.client.calls
            == old(cursor.client.calls) + RunCalls(cursor.client, config, old(cursor.client.fetched), pagesRead + 1, today)
  {
    ghost var start := cursor.client.fetched;
    ghost var initial := cursor.client.calls;
    ghost var steps := 0;
    pagesRead := 0;
    DrainingStart(cursor, config, today);
    while cursor.HasNext()
      invariant Draining(cursor, config, today, start, initial, steps, pagesRead)
      decreases (if cursor.hasMoreElements then 1 else 0), Remaining(cursor.client)
    {
      steps, pagesRead := DrainStep(cursor, config, today, start, initial, steps, pagesRead);
    }
    DrainingDone(cursor, config, today, start, initial, steps, pagesRead);
  }

  /** execute: drain a fresh cursor; every page, the final empty one included, goes through executePayments. */
  method Execute(backend: Backend, config: SchedulerProperties, today: LocalDate)
    returns (ghost pagesRead: nat)
    requires config.retryMaxAttempts >= 1
    requires ScriptWellFormed(backend, config, today)
    modifies backend
    ensures backend.fetched == old(backend.fetched) + pagesRead + 1
    ensures NonEmptyPages(backend, old(backend.fetched), pagesRead)
    ensures IsExhaustedPage(backend.PageAt(old(backend.fetched) + pagesRead))
    ensures backend.calls == old(backend.calls) + RunCalls(backend, config, old(backend.fetched), pagesRead + 1, today)
  {
    var cursor := new ScheduledPaymentOrderIterator(backend, config.pageSize);
    pagesRead := Drain(cursor, config, today);
  }

}
