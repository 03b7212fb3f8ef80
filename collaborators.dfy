/**
 * The remote services the executor talks to, as one object: the order
 * source answers the i-th page request with the i-th scripted page (an
 * empty page once the script is used up), the date validator and the
 * outbound API are fixed functions, and every call is appended to a log.
 */
module Collaborators {
  import opened Dates
  import opened PaymentModel

  class Backend {
    /** Successive answers of the order source. */
    const pages: seq<Page>
    /** The date validation endpoint. */
    const validator: LocalDate -> ValidationResponse
    /** The outbound endpoint: the answer to the given attempt (from 0) for an order. */
    const outbound: (ScheduledOrder, nat) -> ApiResult
    /** Number of page requests answered so far. */
    var fetched: nat
    /** Every call made so far, oldest first. */
    var calls: seq<RemoteCall>

    constructor (pages: seq<Page>, validator: LocalDate -> ValidationResponse,
                 outbound: (ScheduledOrder, nat) -> ApiResult)
      ensures this.pages == pages && this.validator == validator && this.outbound == outbound
      ensures fetched == 0 && calls == []
    {
      this.pages := pages;
      this.validator := validator;
      this.outbound := outbound;
      fetched := 0;
      calls := [];
    }

    /** The answer to the k-th page request. */
    function PageAt(k: nat): Page {
      if k < |pages| then pages[k] else Page(0, [])
    }

    /** PaymentOrderServiceClient.getScheduledPaymentOrders. */
    method FetchScheduledPaymentOrders(from: int, size: int) returns (page: Page)
      modifies this
      ensures page == PageAt(old(fetched)) && fetched == old(fetched) + 1
      ensures calls == old(calls) + [FetchPage(from, size)]
    {
      page := PageAt(fetched);
      fetched := fetched + 1;
      calls := calls + [FetchPage(from, size)];
    }

    /** ScheduledPaymentOrderServiceClient.validateNextExecutionDate. */
    method ValidateNextExecutionDate(date: LocalDate) returns (response: ValidationResponse)
      modifies this
      ensures response == validator(date) && fetched == old(fetched)
      ensures calls == old(calls) + [DateValidated(date)]
    {
      response := validator(date);
      calls := calls + [DateValidated(date)];
    }

    /** ScheduledPaymentOrderServiceClient.createScheduledPaymentOrderTransaction: records and hands back. */
    method CreateScheduledPaymentOrderTransaction(execution: ExecutionResponse) returns (same: ExecutionResponse)
      modifies this
      ensures same == execution && fetched == old(fetched)
      ensures calls == old(calls) + [TransactionPosted(execution)]
    {
      same := execution;
      calls := calls + [TransactionPosted(execution)];
    }

    /** PaymentOrdersApi.updatePaymentOrder. */
    method UpdatePaymentOrder(id: string, idType: string, request: PutRequest)
      modifies this
      ensures fetched == old(fetched)
      ensures calls == old(calls) + [OrderUpdated(id, idType, request)]
    {
      calls := calls + [OrderUpdated(id, idType, request)];
    }

    /** Records one submission of an order to the outbound API with its number of attempts. */
    method RecordSubmission(order: ScheduledOrder, attempts: nat)
      modifies this
      ensures fetched == old(fetched)
      ensures calls == old(calls) + [OutboundSubmission(order, attempts)]
    {
      calls := calls + [OutboundSubmission(order, attempts)];
    }
  }
}
