/** StockUpdateService: turns a transaction's line items into a request to
    the inventory service and turns a refusal into a StockUpdateException. */
module StockUpdates {
  import opened Decimal
  import opened Collections
  import opened Types
  import opened Entity
  import opened Gateways

  /** One InventoryItem per line item: its productId and quantity. */
  function ItemOf(d: SalesDetails): InventoryItem
  {
    InventoryItem(d.productId, d.quantity)
  }

  /** createStockUpdateRequest: the business entity and one item per value
      of the line-item map. */
  function CreateStockUpdateRequest(businessEntityId: int, details: map<int, SalesDetails>): (r: InventoryRequest)
    ensures r.businessEntityId == businessEntityId
    ensures |r.items| == |details|
  {
    ValuesSpec(details);
    InventoryRequest(businessEntityId, MapSeq(ItemOf, Values(details)))
  }

  /** The i-th item describes the line under the i-th smallest productId. */
  lemma ItemAt(businessEntityId: int, details: map<int, SalesDetails>, i: nat)
    requires KeyedByProduct(details)
    requires i < |details|
    ensures var items := CreateStockUpdateRequest(businessEntityId, details).items;
      && items[i].productId == SortedKeys(details)[i]
      && items[i].productId in details
      && items[i] == ItemOf(details[items[i].productId])
      && forall j :: 0 <= j < i ==> items[j].productId < items[i].productId
  {
    var vs := Values(details);
    var items := MapSeq(ItemOf, vs);
    KeyedValues(details);
    assert items[i] == ItemOf(vs[i]);
    forall j | 0 <= j < i
      ensures items[j].productId < items[i].productId
    {
      assert items[j] == ItemOf(vs[j]);
    }
  }

  /** The request names every line exactly once, with the line's quantity,
      and nothing else. */
  lemma StockRequestItems(businessEntityId: int, details: map<int, SalesDetails>)
    requires KeyedByProduct(details)
    ensures var items := CreateStockUpdateRequest(businessEntityId, details).items;
      && (forall i :: 0 <= i < |items| ==>
            items[i].productId in details && items[i].quantity == details[items[i].productId].quantity)
      && (forall k :: k in details ==> exists i :: 0 <= i < |items| && items[i].productId == k)
      && (forall i, j :: 0 <= i < j < |items| ==> items[i].productId != items[j].productId)
  {
    var items := CreateStockUpdateRequest(businessEntityId, details).items;
    KeyedValues(details);
    forall i | 0 <= i < |items|
      ensures items[i].productId in details && items[i].quantity == details[items[i].productId].quantity
    {
      ItemAt(businessEntityId, details, i);
    }
    forall k | k in details
      ensures exists i :: 0 <= i < |items| && items[i].productId == k
    {
      var i := IndexOfKey(SortedKeys(details), k);
      ItemAt(businessEntityId, details, i);
    }
    forall i, j | 0 <= i < j < |items|
      ensures items[i].productId != items[j].productId
    {
      ItemAt(businessEntityId, details, j);
    }
  }

  /** String.valueOf on the transaction's Long id; an unsaved transaction
      has a null id. */
  function IdText(id: Option<int>): string
  {
    match id
    case None => "null"
    case Some(n) => Format(OfInt(n))
  }

  /** The message of the StockUpdateException updateStocks throws. */
  function StockFailureMessage(id: Option<int>, message: string): string
  {
    "Failed to update stock for sale transaction " + IdText(id) + ": " + message
  }

  /** The check updateStocks makes on the inventory service's answer: a
      response with success set is handed back, one without it becomes a
      StockUpdateException, and a failed call passes through. */
  function CheckResponse(id: Option<int>, answer: Result<InventoryResponse>): (r: Result<InventoryResponse>)
    ensures r.Success? <==> answer.Success? && answer.value.success
    ensures r.Success? ==> r == answer
    ensures answer.Success? && !answer.value.success ==>
      r == Failure(StockUpdate(StockFailureMessage(id, answer.value.message)))
    ensures answer.Failure? ==> r == answer
  {
    match answer
    case Failure(e) => Failure(e)
    case Success(response) =>
      if response.success then answer
      else Failure(StockUpdate(StockFailureMessage(id, response.message)))
  }

  /** A refusal is always reported as a StockUpdateException, never as a
      BusinessException. */
  lemma CheckResponseErrors(id: Option<int>, answer: Result<InventoryResponse>)
    requires answer.Failure? ==> answer.error == Transport
    ensures CheckResponse(id, answer).Failure? ==>
      CheckResponse(id, answer).error.StockUpdate? || CheckResponse(id, answer).error == Transport
  {
  }

  class StockUpdateService {
    const client: InventoryServiceClient

    constructor (client: InventoryServiceClient)
      ensures this.client == client
    {
      this.client := client;
    }

    /** updateStocks. The service hands it a transaction's id,
        businessEntityId and a line-item map; the inventory service is
        called exactly once with the request built from them. */
    method UpdateStocks(transactionId: Option<int>, businessEntityId: int, details: map<int, SalesDetails>)
      returns (r: Result<InventoryResponse>, ghost answer: Result<InventoryResponse>)
      modifies client.journal
      ensures client.journal.events
        == old(client.journal.events) + [InventoryCalled(CreateStockUpdateRequest(businessEntityId, details), answer)]
      ensures answer.Failure? ==> answer.error == Transport
      ensures r == CheckResponse(transactionId, answer)
    {
      var request := CreateStockUpdateRequest(businessEntityId, details);
      var response := client.UpdateStocks(request);
      answer := response;
      if response.Failure? {
        return response, answer;
      }
      if !response.value.success {
        r := Failure(StockUpdate(StockFailureMessage(transactionId, response.value.message)));
        return r, answer;
      }
      r := response;
    }
  }
}
