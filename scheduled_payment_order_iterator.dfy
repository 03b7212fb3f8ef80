/**
 * ScheduledPaymentOrderIterator: a cursor over the pages of scheduled
 * orders. It asks for page `currentPosition`, stops for good on a page
 * whose total is zero or whose list is empty, and otherwise moves on by one.
 */
module ScheduledPaymentOrderIterator {
  import opened Wrappers
  import opened Dates
  import opened PaymentModel
  import opened Collaborators

  /** A page that ends the iteration. */
  predicate IsExhaustedPage(page: Page) {
    page.totalElements == 0 || |page.paymentOrders| == 0
  }

  class ScheduledPaymentOrderIterator {
    /** The order source (PaymentOrderServiceClient.getScheduledPaymentOrders). */
    const client: Backend
    /** The configured iterator page size. */
    const pageSize: int

    var hasMoreElements: bool
    /** The last non-empty page's total; null until one arrives. */
    var totalElements: Option<int>
    var currentPosition: nat

    /** The non-empty pages handed out so far, oldest first. */
    ghost var returned: seq<seq<ScheduledOrder>>

    /** currentPosition counts the non-empty pages handed out. */
    ghost predicate Valid()
      reads this
    {
      currentPosition == |returned| && forall i :: 0 <= i < |returned| ==> |returned[i]| > 0
    }

    constructor (client: Backend, pageSize: int)
      ensures Valid()
      ensures this.client == client && this.pageSize == pageSize
      ensures hasMoreElements && currentPosition == 0 && totalElements.None? && returned == []
    {
      this.client := client;
      this.pageSize := pageSize;
      hasMoreElements := true;
      totalElements := None;
      currentPosition := 0;
      returned := [];
    }

    /** hasNext: true until a page has ended the iteration. */
    predicate HasNext(): (r: bool)
      reads this
      ensures r <==> hasMoreElements
    {
      hasMoreElements
    }

    /**
     * next(): None stands for the NoSuchElementException thrown once the
     * iterator is exhausted, in which case nothing is fetched. Otherwise
     * page `currentPosition` is fetched with the configured size; an
     * exhausted page ends the iteration and yields an empty list, any other
     * page is handed out unchanged and moves the cursor by one.
     */
    method Next() returns (batch: Option<seq<ScheduledOrder>>)
      requires Valid()
      modifies this, client
      ensures Valid()
      ensures !old(hasMoreElements) ==>
                batch.None? && !hasMoreElements && currentPosition == old(currentPosition)
                && totalElements == old(totalElements) && returned == old(returned)
                && client.calls == old(client.calls) && client.fetched == old(client.fetched)
      ensures old(hasMoreElements) ==>
                var page := client.PageAt(old(client.fetched));
                && client.calls == old(client.calls) + [FetchPage(old(currentPosition), pageSize)]
                && client.fetched == old(client.fetched) + 1
                && (IsExhaustedPage(page) ==>
                      batch == Some([]) && !hasMoreElements && currentPosition == old(currentPosition)
                      && totalElements == old(totalElements) && returned == old(returned))
                && (!IsExhaustedPage(page) ==>
                      batch == Some(page.paymentOrders) && hasMoreElements
                      && currentPosition == old(currentPosition) + 1
                      && totalElements == Some(page.totalElements)
                      && returned == old(returned) + [page.paymentOrders])
    {
      if !HasNext() {
        return None;
      }
      var response := client.FetchScheduledPaymentOrders(currentPosition, pageSize);
      if response.totalElements == 0 || |response.paymentOrders| == 0 {
        hasMoreElements := false;
        return Some([]);
      }
      totalElements := Some(response.totalElements);
      currentPosition := currentPosition + 1;
      returned := returned + [response.paymentOrders];
      batch := Some(response.paymentOrders);
    }
  }

  /** The decimal digits of n, as String.valueOf writes them. */
  function DecimalString(n: nat): string {
    if n < 10 then [('0' as int + n) as char] else DecimalString(n / 10) + [('0' as int + n % 10) as char]
  }

  /** Orders with ids "1".."n", in that order, on no schedule. */
  function NumberedOrders(n: nat): (orders: seq<ScheduledOrder>)
    ensures |orders| == n
  {
    if n == 0 then [] else NumberedOrders(n - 1) + [ScheduledOrder(DecimalString(n), None, Additions(None, None))]
  }

  /**
   * A page of ten orders followed by a page with total zero: the drain
   * loop calls next() twice, collects the ten orders and asks for pages 0
   * and 1 with size 5.
   */
  method TwoPageScenario(validator: LocalDate -> ValidationResponse, outbound: (ScheduledOrder, nat) -> ApiResult)
    returns (nextCalls: nat, collected: seq<ScheduledOrder>, calls: seq<RemoteCall>)
    ensures nextCalls == 2
    ensures collected == NumberedOrders(10)
    ensures calls == [FetchPage(0, 5), FetchPage(1, 5)]
  {
    var backend := new Backend([Page(10, NumberedOrders(10)), Page(0, [])], validator, outbound);
    var cursor := new ScheduledPaymentOrderIterator(backend, 5);
    nextCalls := 0;
    collected := [];
    while cursor.HasNext()
      invariant cursor.Valid() && cursor.client == backend && cursor.pageSize == 5
      invariant backend.pages == [Page(10, NumberedOrders(10)), Page(0, [])]
      invariant nextCalls == backend.fetched <= 2
      invariant nextCalls == 0 ==> cursor.hasMoreElements && cursor.currentPosition == 0 && collected == [] && backend.calls == []
      invariant nextCalls == 1 ==> cursor.hasMoreElements && cursor.currentPosition == 1
                                   && collected == NumberedOrders(10) && backend.calls == [FetchPage(0, 5)]
      invariant nextCalls == 2 ==> !cursor.hasMoreElements && collected == NumberedOrders(10)
                                   && backend.calls == [FetchPage(0, 5), FetchPage(1, 5)]
      decreases 2 - nextCalls
    {
      var batch := cursor.Next();
      collected := collected + batch.value;
      nextCalls := nextCalls + 1;
    }
    calls := backend.calls;
  }
}
