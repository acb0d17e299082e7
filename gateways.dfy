/** The collaborators the services call but whose code lies outside this
    model: the inventory and payment services, the two repositories, and
    the suspended-transaction registry. A remote call's outcome is not
    known in advance, so it is chosen nondeterministically; each call that
    reaches the outside world is recorded in a shared ghost journal, which
    is how the services' contracts speak about call order. */
module Gateways {
  import opened Decimal
  import opened Types
  import opened Entity

  // ------------------------------------------------------------ wire forms

  /** InventoryUpdateRequestDto.InventoryItem */
  datatype InventoryItem = InventoryItem(productId: int, quantity: Int32)

  /** InventoryUpdateRequestDto */
  datatype InventoryRequest = InventoryRequest(businessEntityId: int, items: seq<InventoryItem>)

  /** InventoryUpdateResponseDto.ItemStatus */
  datatype ItemStatus = ItemStatus(productId: int, updated: bool, reason: string)

  /** InventoryUpdateResponseDto */
  datatype InventoryResponse = InventoryResponse(success: bool, itemStatuses: seq<ItemStatus>, message: string)

  /** PaymentRequestDto. The amount is the BigDecimal total the service
      converts with doubleValue(); the conversion itself is not modelled. */
  datatype PaymentRequest = PaymentRequest(
    transactionId: int,
    description: string,
    amount: Dec,
    currency: string,
    customerEmail: string,
    paymentType: string)

  /** PaymentResponseDto */
  datatype PaymentResponse = PaymentResponse(clientSecret: string, paymentIntentId: string)

  // ------------------------------------------------------------ journal

  /** One observable effect on the outside world; a remote call is
      recorded together with what it answered. */
  datatype Event =
    | TaxSaved(tax: SalesTax)
    | InventoryCalled(stockRequest: InventoryRequest, answer: Result<InventoryResponse>)
    | TransactionSaved(id: int, rec: TransactionRecord, flushed: bool)
    | PaymentCalled(paymentRequest: PaymentRequest, outcome: Result<PaymentResponse>)
    | StatusUpdateRequested(transactionId: Option<int>, status: TransactionStatus, date: Instant)

  /** The effects performed so far, oldest first. */
  class Journal {
    ghost var events: seq<Event>

    constructor ()
      ensures events == []
    {
      events := [];
    }
  }

  // ------------------------------------------------------------ remote services

  /** The inventory service. Its Feign interface declares no call that
      returns a response; the call StockUpdateService makes is taken to
      send the request and return the service's answer, or fail in transit. */
  class InventoryServiceClient {
    const journal: Journal

    constructor (journal: Journal)
      ensures this.journal == journal
    {
      this.journal := journal;
    }

    method UpdateStocks(request: InventoryRequest) returns (r: Result<InventoryResponse>)
      modifies journal
      ensures journal.events == old(journal.events) + [InventoryCalled(request, r)]
      ensures r.Failure? ==> r.error == Transport
    {
      var answered: bool := *;
      if answered {
        var response: InventoryResponse := *;
        r := Success(response);
      } else {
        r := Failure(Transport);
      }
      journal.events := journal.events + [InventoryCalled(request, r)];
    }
  }

  /** PaymentServiceClient.createPaymentIntent: answers with a payment
      intent or fails in transit. */
  class PaymentServiceClient {
    const journal: Journal

    constructor (journal: Journal)
      ensures this.journal == journal
    {
      this.journal := journal;
    }

    method CreatePaymentIntent(request: PaymentRequest) returns (r: Result<PaymentResponse>)
      modifies journal
      ensures journal.events == old(journal.events) + [PaymentCalled(request, r)]
      ensures r.Failure? ==> r.error == Transport
    {
      var answered: bool := *;
      if answered {
        var response: PaymentResponse := *;
        r := Success(response);
      } else {
        r := Failure(Transport);
      }
      journal.events := journal.events + [PaymentCalled(request, r)];
    }
  }

  // ------------------------------------------------------------ repositories

  /** SalesTaxRepository, holding at most the one GST record. */
  class SalesTaxRepository {
    const journal: Journal
    var gst: Option<SalesTax>

    constructor (journal: Journal, gst: Option<SalesTax>)
      ensures this.journal == journal && this.gst == gst
    {
      this.journal := journal;
      this.gst := gst;
    }

    method FindSalesTaxByTaxType(taxType: TaxType) returns (r: Option<SalesTax>)
      ensures r == gst
    {
      r := gst;
    }

    method Save(tax: SalesTax) returns (saved: SalesTax)
      modifies this, journal
      ensures saved == tax && gst == Some(tax)
      ensures journal.events == old(journal.events) + [TaxSaved(tax)]
    {
      gst := Some(tax);
      journal.events := journal.events + [TaxSaved(tax)];
      saved := tax;
    }

    /** The end of a transaction that threw. */
    method Rollback(saved: Option<SalesTax>)
      modifies this
      ensures gst == saved
    {
      gst := saved;
    }
  }

  /** Rows below the next identity, each stored under its own id and, the
      date column being NOT NULL, each with a date. */
  ghost predicate ValidRows(rows: map<int, TransactionRecord>, nextId: int)
  {
    forall id :: id in rows ==> id < nextId && rows[id].id == Some(id) && rows[id].transactionDate.Some?
  }

  /** SalesTransactionRepository: rows by id, identities handed out in
      increasing order, and the creation timestamp set on first insert.
      Identities are never reused, not even after a rollback. */
  class SalesTransactionRepository {
    const journal: Journal
    var rows: map<int, TransactionRecord>
    var nextId: int

    ghost predicate Valid()
      reads this
    {
      ValidRows(rows, nextId)
    }

    constructor (journal: Journal)
      ensures this.journal == journal && rows == map[] && Valid()
    {
      this.journal := journal;
      rows := map[];
      nextId := 1;
    }

    /** JpaRepository.save: a transaction without an id is inserted under a
        new id and stamped with the clock reading; one with an id is
        overwritten. The entity passed in is the one returned. An entity
        with an id but no date would break the NOT NULL date column; callers
        never pass one. */
    method Save(t: SalesTransaction, now: Instant) returns (saved: SalesTransaction)
      requires Valid()
      requires t.id.Some? ==> t.transactionDate.Some?
      modifies this, journal, t
      ensures Valid() && saved == t && t.id.Some? && nextId >= old(nextId)
      ensures old(t.id).None? ==> t.Record() == old(t.Record()).(id := Some(old(nextId)), transactionDate := Some(now))
      ensures old(t.id).Some? ==> t.Record() == old(t.Record())
      ensures rows == old(rows)[t.id.value := t.Record()]
      ensures journal.events == old(journal.events) + [TransactionSaved(t.id.value, t.Record(), false)]
    {
      Store(t, now, false);
      saved := t;
    }

    /** JpaRepository.saveAndFlush: save, then write through at once. */
    method SaveAndFlush(t: SalesTransaction, now: Instant) returns (saved: SalesTransaction)
      requires Valid()
      requires t.id.Some? ==> t.transactionDate.Some?
      modifies this, journal, t
      ensures Valid() && saved == t && t.id.Some? && nextId >= old(nextId)
      ensures old(t.id).None? ==> t.Record() == old(t.Record()).(id := Some(old(nextId)), transactionDate := Some(now))
      ensures old(t.id).Some? ==> t.Record() == old(t.Record())
      ensures rows == old(rows)[t.id.value := t.Record()]
      ensures journal.events == old(journal.events) + [TransactionSaved(t.id.value, t.Record(), true)]
    {
      Store(t, now, true);
      saved := t;
    }

    method Store(t: SalesTransaction, now: Instant, flushed: bool)
      requires Valid()
      requires t.id.Some? ==> t.transactionDate.Some?
      modifies this, journal, t
      ensures Valid() && t.id.Some? && nextId >= old(nextId)
      ensures old(t.id).None? ==> t.Record() == old(t.Record()).(id := Some(old(nextId)), transactionDate := Some(now))
      ensures old(t.id).Some? ==> t.Record() == old(t.Record())
      ensures rows == old(rows)[t.id.value := t.Record()]
      ensures journal.events == old(journal.events) + [TransactionSaved(t.id.value, t.Record(), flushed)]
    {
      if t.id.None? {
        t.id := Some(nextId);
        t.transactionDate := Some(now);
        nextId := nextId + 1;
      } else if t.id.value >= nextId {
        nextId := t.id.value + 1;
      }
      rows := rows[t.id.value := t.Record()];
      journal.events := journal.events + [TransactionSaved(t.id.value, t.Record(), flushed)];
    }

    /** The end of a transaction that threw: every row goes back to the
        state it was in when the transaction began. */
    method Rollback(saved: map<int, TransactionRecord>)
      requires ValidRows(saved, nextId)
      modifies this
      ensures rows == saved && nextId == old(nextId) && Valid()
    {
      rows := saved;
    }

    /** JpaRepository.findById: a new entity loaded from the row, if any. */
    method FindById(id: int) returns (r: Option<SalesTransaction>)
      ensures r.Some? <==> id in rows
      ensures r.Some? ==> fresh(r.value) && r.value.Record() == rows[id]
    {
      if id in rows {
        var t := new SalesTransaction.Load(rows[id]);
        r := Some(t);
      } else {
        r := None;
      }
    }
  }

  // ------------------------------------------------------------ suspended registry

  /** SalesTransactionHistory is not part of this model. It is taken to be
      a registry of parked mementos, per business entity and then per
      memento transactionId; both operations hand back the business
      entity's bucket as it is afterwards. */
  class SalesTransactionHistory {
    var suspended: map<int, map<int, Memento>>

    constructor ()
      ensures suspended == map[]
    {
      suspended := map[];
    }

    function Bucket(businessEntityId: int): map<int, Memento>
      reads this
    {
      if businessEntityId in suspended then suspended[businessEntityId] else map[]
    }

    method AddTransaction(businessEntityId: int, memento: Memento) returns (bucket: map<int, Memento>)
      modifies this
      ensures bucket == old(Bucket(businessEntityId))[memento.transactionId := memento]
      ensures suspended == old(suspended)[businessEntityId := bucket]
    {
      bucket := Bucket(businessEntityId)[memento.transactionId := memento];
      suspended := suspended[businessEntityId := bucket];
    }

    method DeleteTransaction(businessEntityId: int, transactionId: int) returns (bucket: map<int, Memento>)
      modifies this
      ensures bucket == old(Bucket(businessEntityId)) - {transactionId}
      ensures suspended == old(suspended)[businessEntityId := bucket]
    {
      bucket := Bucket(businessEntityId) - {transactionId};
      suspended := suspended[businessEntityId := bucket];
    }
  }
}
