/** SalesTransactionService: the steps each operation takes against the
    repositories, the inventory and payment services and the suspended
    registry, in the order the service takes them. createSalesTransaction
    and updateSalesTransaction run inside one database transaction each, so
    an exception escaping them undoes their database writes; the remote
    calls they made stay made. */
module Service {
  import opened Decimal
  import opened Collections
  import opened Types
  import opened Entity
  import opened Gateways
  import opened StockUpdates
  import opened ServiceLogic
  import opened UpdateDelta
  import opened TransactionViews

  /** SalesTransactionRequestDto; its taxAmount and totalAmount are never
      read. An absent list stands for null. */
  datatype SaleRequest = SaleRequest(businessEntityId: int, salesDetails: Option<seq<SalesDetailsDto>>)

  /** CreateTransactionResponseDto */
  datatype CreateResponse = CreateResponse(transaction: TransactionView, payment: PaymentResponse)

  /** A null or empty list of request lines. */
  predicate NoLines(lines: Option<seq<SalesDetailsDto>>)
  {
    lines.None? || |lines.value| == 0
  }

  /** The lines of a request that has some. */
  function LinesOf(lines: Option<seq<SalesDetailsDto>>): seq<SalesDetailsDto>
  {
    if lines.Some? then lines.value else []
  }

  /** The GST record written by the get-or-create lookup, if it writes one. */
  function TaxLog(stored: Option<SalesTax>): seq<Event>
  {
    if stored.Some? then [] else [TaxSaved(SalesTax(GST, DefaultGstRate))]
  }

  /** The payment intent requested for a saved transaction. */
  function PaymentFor(transactionId: int, total: Dec): PaymentRequest
  {
    PaymentRequest(transactionId, "RetailPulse Payment", total, "SGD", "pos@retailpulse.com", "card")
  }

  /** The transaction createSalesTransaction saves: the lines and their
      amounts, the next identity and the clock reading. */
  function SoldRecord(businessEntityId: int, tax: SalesTax, details: map<int, SalesDetails>, id: int, now: Instant)
    : (rec: TransactionRecord)
    ensures Totalled(rec) && Viewable(rec) && rec.id == Some(id) && rec.salesDetailEntities == details
  {
    WithDetailsSpec(NewRecord(businessEntityId, tax), details);
    WithDetails(NewRecord(businessEntityId, tax), details).(id := Some(id), transactionDate := Some(now))
  }

  /** What a sale leaves once its lines are collected, given the journal
      before and the answers of the inventory and payment services. The
      stock check decides: a refused or failed stock call ends the sale
      with that exception and nothing follows it; an accepted one is
      followed by the save under the next identity and the payment
      request, and then the payment answer decides the result. */
  ghost predicate SaleOutcome(before: seq<Event>, businessEntityId: int, tax: SalesTax, details: map<int, SalesDetails>,
                              id: int, now: Instant, formatDate: Instant -> string,
                              answer: Result<InventoryResponse>, paid: Result<PaymentResponse>,
                              after: seq<Event>, r: Result<CreateResponse>)
  {
    var saved := SoldRecord(businessEntityId, tax, details, id, now);
    var stocked := CheckResponse(None, answer);
    var called := before + [InventoryCalled(CreateStockUpdateRequest(businessEntityId, details), answer)];
    && (answer.Failure? ==> answer.error == Transport)
    && (stocked.Failure? ==> after == called && r == Failure(stocked.error))
    && (stocked.Success? ==>
          after == called + [TransactionSaved(id, saved, false), PaymentCalled(PaymentFor(id, saved.total.value), paid)]
          && PaidOutcome(ViewOf(saved, formatDate), paid, r))
  }

  /** The end of createSalesTransaction once the payment service has
      answered: a failed call becomes PAYMENT_SERVICE_ERROR, an answer is
      handed back beside the saved transaction's view. */
  predicate PaidOutcome(view: TransactionView, paid: Result<PaymentResponse>, r: Result<CreateResponse>)
  {
    && (paid.Failure? ==> paid.error == Transport && r == Failure(Business("PAYMENT_SERVICE_ERROR")))
    && (paid.Success? ==> r == Success(CreateResponse(view, paid.value)))
  }

  /** What createSalesTransaction leaves behind for a non-empty list of
      lines, given the journal, rows, next identity and GST record before:
      a malformed price throws after the GST lookup; otherwise the sale
      goes one of its two ways. A failure leaves the rows and the GST record
      as they were; a success adds the sold transaction under the next
      identity and keeps the GST record the call used. */
  ghost predicate CreateOutcome(before: seq<Event>, rows: map<int, TransactionRecord>, nextId: int, gst: Option<SalesTax>,
                                businessEntityId: int, dtos: seq<SalesDetailsDto>, now: Instant,
                                formatDate: Instant -> string,
                                answer: Result<InventoryResponse>, paid: Result<PaymentResponse>,
                                after: seq<Event>, rowsAfter: map<int, TransactionRecord>, gstAfter: Option<SalesTax>,
                                r: Result<CreateResponse>)
  {
    var looked := before + TaxLog(gst);
    && (r.Failure? ==> rowsAfter == rows && gstAfter == gst)
    && (ParseDetails(dtos).Failure? ==> r == Failure(NumberFormat) && after == looked)
    && (ParseDetails(dtos).Success? ==>
          var details := ParseDetails(dtos).value;
          && SaleOutcome(looked, businessEntityId, GstOf(gst), details, nextId, now, formatDate, answer, paid, after, r)
          && (r.Success? ==>
                gstAfter == Some(GstOf(gst))
                && rowsAfter == rows[nextId := SoldRecord(businessEntityId, GstOf(gst), details, nextId, now)]))
  }

  /** What suspendTransaction leaves behind for a non-empty list of
      lines, given the journal, the GST record, the registry and the
      business entity's bucket before: the GST lookup always happens; a
      malformed price then throws with the registry unchanged; otherwise
      the new transaction's memento is filed under the clock reading and
      the whole bucket comes back rebuilt with the GST record of the call. */
  ghost predicate SuspendOutcome(before: seq<Event>, gst: Option<SalesTax>, suspended: map<int, map<int, Memento>>,
                                 bucket: map<int, Memento>, businessEntityId: int, dtos: seq<SalesDetailsDto>,
                                 nowMillis: int, nowText: string,
                                 parseDate: string -> Option<Instant>, formatDate: Instant -> string,
                                 after: seq<Event>, gstAfter: Option<SalesTax>,
                                 suspendedAfter: map<int, map<int, Memento>>, r: Result<seq<TransactionView>>)
  {
    && after == before + TaxLog(gst) && gstAfter == Some(GstOf(gst))
    && (ParseDetails(dtos).Failure? ==> r == Failure(NumberFormat) && suspendedAfter == suspended)
    && (ParseDetails(dtos).Success? ==>
          KeyedByProduct(ParseDetails(dtos).value) &&
          ParkedOutcome(suspended, bucket, businessEntityId, GstOf(gst), ParseDetails(dtos).value,
                        nowMillis, nowText, parseDate, formatDate, suspendedAfter, r))
  }

  /** What parking a new transaction with the given lines leaves: its
      amounts are those of its lines, its memento is filed in the bucket
      under the clock reading, and the whole bucket comes back rebuilt with
      the given tax. */
  ghost predicate ParkedOutcome(suspended: map<int, map<int, Memento>>, bucket: map<int, Memento>,
                                businessEntityId: int, tax: SalesTax, details: map<int, SalesDetails>,
                                nowMillis: int, nowText: string,
                                parseDate: string -> Option<Instant>, formatDate: Instant -> string,
                                suspendedAfter: map<int, map<int, Memento>>, r: Result<seq<TransactionView>>)
  {
    var rec := WithDetails(NewRecord(businessEntityId, tax), details);
    var parked := bucket[nowMillis := MementoOf(rec, nowMillis, nowText)];
    && Totalled(rec)
    && suspendedAfter == suspended[businessEntityId := parked]
    && r == RebuildAll(Values(parked), Some(tax), parseDate, formatDate)
  }

  /** What an update leaves once its delta is built, given the journal
      before and the inventory service's answer. The stock check decides:
      a refused or failed stock call ends the update with that exception
      and nothing is saved; an accepted one is followed by the save and
      flush of the transaction with its lines replaced, whose view is
      handed back. */
  ghost predicate UpdateOutcome(before: seq<Event>, existing: TransactionRecord, dtos: seq<SalesDetailsDto>,
                                formatDate: Instant -> string, answer: Result<InventoryResponse>,
                                after: seq<Event>, r: Result<TransactionView>)
    requires existing.id.Some?
    requires DeltaMap(existing.salesDetailEntities, dtos).Success?
  {
    DeltaMapSpec(existing.salesDetailEntities, dtos);
    var delta := DeltaMap(existing.salesDetailEntities, dtos).value;
    var updated := ReplacedDetails(existing, CollectStrict(dtos).value);
    var stocked := CheckResponse(existing.id, answer);
    var called := before + [InventoryCalled(CreateStockUpdateRequest(existing.businessEntityId, delta), answer)];
    && (answer.Failure? ==> answer.error == Transport)
    && (stocked.Failure? ==> after == called && r == Failure(stocked.error))
    && (stocked.Success? ==>
          after == called + [TransactionSaved(existing.id.value, updated, true)]
          && Viewable(updated) && r == Success(ViewOf(updated, formatDate)))
  }

  /** A sale succeeds exactly when the stock service accepts and the
      payment service answers; its answer is the one handed back, and the
      transaction is saved exactly when the stock service accepts. */
  lemma SaleDecided(before: seq<Event>, businessEntityId: int, tax: SalesTax, details: map<int, SalesDetails>,
                    id: int, now: Instant, formatDate: Instant -> string,
                    answer: Result<InventoryResponse>, paid: Result<PaymentResponse>,
                    after: seq<Event>, r: Result<CreateResponse>)
    requires SaleOutcome(before, businessEntityId, tax, details, id, now, formatDate, answer, paid, after, r)
    ensures r.Success? <==> CheckResponse(None, answer).Success? && paid.Success?
    ensures r.Success? ==> r.value.payment == paid.value
    ensures |before| <= |after|
    ensures TransactionSaved(id, SoldRecord(businessEntityId, tax, details, id, now), false) in after[|before|..]
            <==> CheckResponse(None, answer).Success?
  {
    var saved := SoldRecord(businessEntityId, tax, details, id, now);
    var called := [InventoryCalled(CreateStockUpdateRequest(businessEntityId, details), answer)];
    if CheckResponse(None, answer).Success? {
      assert after[|before|..] == called + [TransactionSaved(id, saved, false), PaymentCalled(PaymentFor(id, saved.total.value), paid)];
    } else {
      assert after[|before|..] == called;
    }
  }

  /** An update succeeds exactly when the stock service accepts its delta,
      and only then is the transaction flushed. */
  lemma UpdateDecided(before: seq<Event>, existing: TransactionRecord, dtos: seq<SalesDetailsDto>,
                      formatDate: Instant -> string, answer: Result<InventoryResponse>,
                      after: seq<Event>, r: Result<TransactionView>)
    requires existing.id.Some?
    requires DeltaMap(existing.salesDetailEntities, dtos).Success?
    requires UpdateOutcome(before, existing, dtos, formatDate, answer, after, r)
    ensures r.Success? <==> CheckResponse(existing.id, answer).Success?
    ensures |before| <= |after|
    ensures TransactionSaved(existing.id.value, ReplacedDetails(existing, CollectStrict(dtos).value), true) in after[|before|..]
            <==> CheckResponse(existing.id, answer).Success?
  {
    DeltaMapSpec(existing.salesDetailEntities, dtos);
    var delta := DeltaMap(existing.salesDetailEntities, dtos).value;
    var updated := ReplacedDetails(existing, CollectStrict(dtos).value);
    var called := [InventoryCalled(CreateStockUpdateRequest(existing.businessEntityId, delta), answer)];
    var flushed := [TransactionSaved(existing.id.value, updated, true)];
    if CheckResponse(existing.id, answer).Success? {
      assert after == before + (called + flushed);
      assert after[|before|..] == called + flushed;
    } else {
      assert after == before + called;
      assert after[|before|..] == called;
    }
  }

  class SalesTransactionService {
    const transactions: SalesTransactionRepository
    const taxes: SalesTaxRepository
    const history: SalesTransactionHistory
    const stock: StockUpdateService
    const payments: PaymentServiceClient
    const journal: Journal

    /** Every collaborator reports to the same journal, and the rows are valid. */
    ghost predicate Wired()
      reads this, transactions
    {
      transactions.journal == journal && taxes.journal == journal
        && stock.client.journal == journal && payments.journal == journal
        && transactions.Valid()
    }

    constructor (transactions: SalesTransactionRepository, taxes: SalesTaxRepository,
                 history: SalesTransactionHistory, stock: StockUpdateService,
                 payments: PaymentServiceClient, journal: Journal)
      requires transactions.Valid()
      requires transactions.journal == journal && taxes.journal == journal
      requires stock.client.journal == journal && payments.journal == journal
      ensures Wired()
      ensures this.transactions == transactions && this.taxes == taxes && this.history == history
      ensures this.stock == stock && this.payments == payments && this.journal == journal
    {
      this.transactions := transactions;
      this.taxes := taxes;
      this.history := history;
      this.stock := stock;
      this.payments := payments;
      this.journal := journal;
    }

    /** findSalesTaxByTaxType(GST).orElseGet(save GST at 0.09). */
    method ResolveGst() returns (tax: SalesTax)
      requires Wired()
      modifies taxes, journal
      ensures Wired()
      ensures tax == GstOf(old(taxes.gst)) && taxes.gst == Some(tax)
      ensures journal.events == old(journal.events) + TaxLog(old(taxes.gst))
    {
      var found := taxes.FindSalesTaxByTaxType(GST);
      if found.Some? {
        tax := found.value;
      } else {
        tax := taxes.Save(SalesTax(GST, DefaultGstRate));
      }
    }

    /** The database writes of a transaction that threw are undone. */
    method RollBack(rows: map<int, TransactionRecord>, gst: Option<SalesTax>)
      requires Wired() && ValidRows(rows, transactions.nextId)
      modifies transactions, taxes
      ensures Wired()
      ensures transactions.rows == rows && taxes.gst == gst
    {
      transactions.Rollback(rows);
      taxes.Rollback(gst);
    }

    /** calculateSalesTax: the subtotal is computed before the GST lookup,
        so a malformed price throws before anything is read or written. */
    method CalculateSalesTax(dtos: seq<SalesDetailsDto>) returns (r: Result<TaxResult>)
      requires Wired()
      modifies taxes, journal
      ensures Wired()
      ensures r == Quote(dtos, GstOf(old(taxes.gst)))
      ensures ParseAll(dtos).Failure? ==> taxes.gst == old(taxes.gst) && journal.events == old(journal.events)
      ensures ParseAll(dtos).Success? ==>
        taxes.gst == Some(GstOf(old(taxes.gst))) && journal.events == old(journal.events) + TaxLog(old(taxes.gst))
    {
      var lines := ParseAll(dtos);
      if lines.Failure? {
        return Failure(lines.error);
      }
      var tax := ResolveGst();
      r := Success(TaxResultOf(dtos, lines.value, tax));
    }

    /** createSalesTransaction: an empty sale is rejected before anything
        is read or written. */
    method CreateSalesTransaction(request: SaleRequest, now: Instant, formatDate: Instant -> string)
      returns (r: Result<CreateResponse>, ghost answer: Result<InventoryResponse>, ghost paid: Result<PaymentResponse>)
      requires Wired()
      modifies transactions, taxes, journal
      ensures Wired()
      ensures NoLines(request.salesDetails) ==>
        r == Failure(Business("EMPTY_SALE")) && journal.events == old(journal.events)
        && transactions.rows == old(transactions.rows) && taxes.gst == old(taxes.gst)
      ensures !NoLines(request.salesDetails) ==>
        CreateOutcome(old(journal.events), old(transactions.rows), old(transactions.nextId), old(taxes.gst),
                      request.businessEntityId, LinesOf(request.salesDetails), now, formatDate,
                      answer, paid, journal.events, transactions.rows, taxes.gst, r)
    {
      answer, paid := Failure(Transport), Failure(Transport);  // placeholders until a gateway answers
      if request.salesDetails.None? || |request.salesDetails.value| == 0 {
        r := Failure(Business("EMPTY_SALE"));
        return;
      }
      r, answer, paid := CreateFromLines(request.businessEntityId, request.salesDetails.value, now, formatDate);
    }

    /** The rest of createSalesTransaction, one database transaction:
        resolve the GST record, collect the lines last-wins, then sell them;
        any exception rolls the database writes back. */
    method CreateFromLines(businessEntityId: int, dtos: seq<SalesDetailsDto>, now: Instant, formatDate: Instant -> string)
      returns (r: Result<CreateResponse>, ghost answer: Result<InventoryResponse>, ghost paid: Result<PaymentResponse>)
      requires Wired()
      modifies transactions, taxes, journal
      ensures Wired()
      ensures CreateOutcome(old(journal.events), old(transactions.rows), old(transactions.nextId), old(taxes.gst),
                            businessEntityId, dtos, now, formatDate, answer, paid,
                            journal.events, transactions.rows, taxes.gst, r)
    {
      answer, paid := Failure(Transport), Failure(Transport);  // placeholders until a gateway answers
      var rows0, gst0 := transactions.rows, taxes.gst;
      var tax := ResolveGst();
      var details := ParseDetails(dtos);
      ParseDetailsError(dtos);
      if details.Failure? {
        RollBack(rows0, gst0);
        r := Failure(details.error);
        return;
      }
      r, answer, paid := Sell(businessEntityId, tax, details.value, now, formatDate);
      if r.Failure? {
        RollBack(rows0, gst0);
      }
    }

    /** The steps of createSalesTransaction once the lines are collected:
        a new transaction holding them, the stock update, the save, the
        payment intent. A stock failure ends the call before the save and
        the payment request; a payment failure ends it after both. */
    method Sell(businessEntityId: int, tax: SalesTax, details: map<int, SalesDetails>, now: Instant,
                formatDate: Instant -> string)
      returns (r: Result<CreateResponse>, ghost answer: Result<InventoryResponse>, ghost paid: Result<PaymentResponse>)
      requires Wired()
      modifies transactions, journal
      ensures Wired() && transactions.nextId >= old(transactions.nextId)
      ensures SaleOutcome(old(journal.events), businessEntityId, tax, details, old(transactions.nextId), now, formatDate,
                          answer, paid, journal.events, r)
      ensures r.Success? ==>
        transactions.rows == old(transactions.rows)[old(transactions.nextId) := SoldRecord(businessEntityId, tax, details, old(transactions.nextId), now)]
    {
      paid := Failure(Transport);  // placeholder until the payment gateway answers
      var transaction := new SalesTransaction(businessEntityId, tax);
      transaction.AddSalesDetails(details);
      WithDetailsSpec(NewRecord(businessEntityId, tax), details);
      var stocked;
      stocked, answer := stock.UpdateStocks(None, businessEntityId, details);
      if stocked.Failure? {
        r := Failure(stocked.error);
        return;
      }
      r, paid := SaveAndPay(transaction, now, formatDate);
    }

    /** The save and the payment intent of createSalesTransaction: the new
        transaction gets the next identity and the clock reading, and its
        total is the amount asked for. */
    method SaveAndPay(transaction: SalesTransaction, now: Instant, formatDate: Instant -> string)
      returns (r: Result<CreateResponse>, ghost paid: Result<PaymentResponse>)
      requires Wired()
      requires transaction.id.None? && Totalled(transaction.Record())
      modifies transactions, journal, transaction
      ensures Wired() && transactions.nextId >= old(transactions.nextId)
      ensures var id, saved := old(transactions.nextId), old(transaction.Record()).(id := Some(old(transactions.nextId)), transactionDate := Some(now));
        && Viewable(saved)
        && transactions.rows == old(transactions.rows)[id := saved]
        && journal.events == old(journal.events) + [TransactionSaved(id, saved, false), PaymentCalled(PaymentFor(id, saved.total.value), paid)]
        && PaidOutcome(ViewOf(saved, formatDate), paid, r)
    {
      var saved := transactions.Save(transaction, now);
      // the entity's total is always set here, so TRANSACTION_TOTAL_NULL is never thrown
      assert saved.total.Some?;
      var payment := payments.CreatePaymentIntent(PaymentFor(saved.id.value, saved.total.value));
      paid := payment;
      if payment.Failure? {
        r := Failure(Business("PAYMENT_SERVICE_ERROR"));
        return;
      }
      r := Success(CreateResponse(ViewOf(saved.Record(), formatDate), payment.value));
    }

    /** updateSalesTransaction: reject an empty list, load the transaction,
        build the stock delta and the new line map, then apply them. */
    method UpdateSalesTransaction(transactionId: int, dtos: Option<seq<SalesDetailsDto>>, now: Instant,
                                  formatDate: Instant -> string)
      returns (r: Result<TransactionView>, ghost answer: Result<InventoryResponse>)
      requires Wired()
      modifies transactions, journal
      ensures Wired()
      ensures r.Failure? ==> transactions.rows == old(transactions.rows)
      ensures NoLines(dtos) ==> r == Failure(Business("EMPTY_UPDATE")) && journal.events == old(journal.events)
      ensures !NoLines(dtos) && transactionId !in old(transactions.rows) ==>
        r == Failure(Business("NOT_FOUND")) && journal.events == old(journal.events)
      ensures !NoLines(dtos) && transactionId in old(transactions.rows)
              && DeltaMap(old(transactions.rows)[transactionId].salesDetailEntities, LinesOf(dtos)).Failure? ==>
        r == Failure(CollectStrict(LinesOf(dtos)).error) && journal.events == old(journal.events)
      ensures !NoLines(dtos) && transactionId in old(transactions.rows)
              && DeltaMap(old(transactions.rows)[transactionId].salesDetailEntities, LinesOf(dtos)).Success? ==>
        UpdateOutcome(old(journal.events), old(transactions.rows)[transactionId], LinesOf(dtos), formatDate,
                      answer, journal.events, r)
      ensures r.Success? ==>
        transactions.rows == old(transactions.rows)[transactionId :=
          ReplacedDetails(old(transactions.rows)[transactionId], CollectStrict(LinesOf(dtos)).value)]
    {
      answer := Failure(Transport);  // placeholder until the inventory gateway answers
      if dtos.None? || |dtos.value| == 0 {
        r := Failure(Business("EMPTY_UPDATE"));
        return;
      }
      var found := transactions.FindById(transactionId);
      if found.None? {
        r := Failure(Business("NOT_FOUND"));
        return;
      }
      var existing := found.value;
      var delta := DeltaMap(existing.salesDetailEntities, dtos.value);
      DeltaMapSpec(existing.salesDetailEntities, dtos.value);
      if delta.Failure? {
        r := Failure(delta.error);
        return;
      }
      r, answer := ApplyUpdate(existing, CollectStrict(dtos.value).value, delta.value, now, formatDate);
    }

    /** The steps of updateSalesTransaction once the delta is built: replace
        the lines, update the stock with the delta, and save and flush only
        if the stock update went through. */
    method ApplyUpdate(existing: SalesTransaction, newDetails: map<int, SalesDetails>,
                       delta: map<int, SalesDetails>, now: Instant, formatDate: Instant -> string)
      returns (r: Result<TransactionView>, ghost answer: Result<InventoryResponse>)
      requires Wired()
      requires existing.id.Some? && existing.id.value in transactions.rows
      requires existing.Record() == transactions.rows[existing.id.value]
      modifies existing, transactions, journal
      ensures Wired()
      ensures var updated := ReplacedDetails(old(existing.Record()), newDetails);
        var stocked := CheckResponse(updated.id, answer);
        var called := old(journal.events) + [InventoryCalled(CreateStockUpdateRequest(updated.businessEntityId, delta), answer)];
        && (answer.Failure? ==> answer.error == Transport)
        && (stocked.Failure? ==>
              journal.events == called && r == Failure(stocked.error) && transactions.rows == old(transactions.rows))
        && (stocked.Success? ==>
              journal.events == called + [TransactionSaved(updated.id.value, updated, true)]
              && Viewable(updated)
              && transactions.rows == old(transactions.rows)[updated.id.value := updated]
              && r == Success(ViewOf(updated, formatDate)))
    {
      ghost var rec0 := existing.Record();
      ghost var updated := ReplacedDetails(rec0, newDetails);
      ghost var before := journal.events;
      RowDated(transactions.rows, transactions.nextId, existing.id.value);
      existing.UpdateSalesDetails(newDetails);
      ReplacedDetailsSpec(rec0, newDetails);
      assert existing.Record() == updated && existing.transactionDate.Some?;
      var stocked;
      stocked, answer := stock.UpdateStocks(existing.id, existing.businessEntityId, delta);
      ghost var called := before + [InventoryCalled(CreateStockUpdateRequest(rec0.businessEntityId, delta), answer)];
      assert journal.events == called;
      if stocked.Failure? {
        r := Failure(stocked.error);
        return;
      }
      var view := Flush(existing, now, formatDate);
      assert journal.events == called + [TransactionSaved(updated.id.value, updated, true)];
      r := Success(view);
    }

    /** The saveAndFlush of updateSalesTransaction and the view of what it
        stored: a transaction already saved keeps its identity and date. */
    method Flush(transaction: SalesTransaction, now: Instant, formatDate: Instant -> string)
      returns (view: TransactionView)
      requires Wired()
      requires transaction.id.Some? && transaction.transactionDate.Some? && Totalled(transaction.Record())
      modifies transactions, journal, transaction
      ensures Wired()
      ensures var rec := old(transaction.Record());
        && Viewable(rec)
        && transactions.rows == old(transactions.rows)[rec.id.value := rec]
        && journal.events == old(journal.events) + [TransactionSaved(rec.id.value, rec, true)]
        && view == ViewOf(rec, formatDate)
    {
      var saved := transactions.SaveAndFlush(transaction, now);
      view := ViewOf(saved.Record(), formatDate);
    }

    /** suspendTransaction: an empty sale is rejected before anything is
        read or written. */
    method SuspendTransaction(businessEntityId: int, dtos: Option<seq<SalesDetailsDto>>,
                              nowMillis: int, nowText: string,
                              parseDate: string -> Option<Instant>, formatDate: Instant -> string)
      returns (r: Result<seq<TransactionView>>)
      requires Wired()
      modifies taxes, journal, history
      ensures Wired()
      ensures NoLines(dtos) ==>
        r == Failure(Business("EMPTY_SALE")) && journal.events == old(journal.events)
        && taxes.gst == old(taxes.gst) && history.suspended == old(history.suspended)
      ensures !NoLines(dtos) ==>
        SuspendOutcome(old(journal.events), old(taxes.gst), old(history.suspended), old(history.Bucket(businessEntityId)),
                       businessEntityId, LinesOf(dtos), nowMillis, nowText, parseDate, formatDate,
                       journal.events, taxes.gst, history.suspended, r)
    {
      if dtos.None? || |dtos.value| == 0 {
        return Failure(Business("EMPTY_SALE"));
      }
      r := SuspendLines(businessEntityId, dtos.value, nowMillis, nowText, parseDate, formatDate);
    }

    /** The rest of suspendTransaction: resolve the GST record, build the
        transaction, park its memento, and hand back every parked
        transaction of the business entity rebuilt from its memento. */
    method SuspendLines(businessEntityId: int, dtos: seq<SalesDetailsDto>,
                        nowMillis: int, nowText: string,
                        parseDate: string -> Option<Instant>, formatDate: Instant -> string)
      returns (r: Result<seq<TransactionView>>)
      requires Wired()
      modifies taxes, journal, history
      ensures Wired()
      ensures SuspendOutcome(old(journal.events), old(taxes.gst), old(history.suspended), old(history.Bucket(businessEntityId)),
                             businessEntityId, dtos, nowMillis, nowText, parseDate, formatDate,
                             journal.events, taxes.gst, history.suspended, r)
    {
      var tax := ResolveGst();
      var details := ParseDetails(dtos);
      ParseDetailsError(dtos);
      if details.Failure? {
        return Failure(details.error);
      }
      ParseDetailsKeyed(dtos);
      r := Park(businessEntityId, tax, details.value, nowMillis, nowText, parseDate, formatDate);
    }

    /** The rest of suspendTransaction: a new transaction gets the lines,
        its memento goes into the business entity's bucket, and the bucket
        comes back rebuilt with the tax of the call. */
    method Park(businessEntityId: int, tax: SalesTax,
                details: map<int, SalesDetails>, nowMillis: int, nowText: string,
                parseDate: string -> Option<Instant>, formatDate: Instant -> string)
      returns (r: Result<seq<TransactionView>>)
      modifies history
      ensures ParkedOutcome(old(history.suspended), old(history.Bucket(businessEntityId)), businessEntityId, tax, details,
                            nowMillis, nowText, parseDate, formatDate, history.suspended, r)
    {
      var transaction := new SalesTransaction(businessEntityId, tax);
      WithDetailsSpec(transaction.Record(), details);
      transaction.AddSalesDetails(details);
      var memento := transaction.SaveToMemento(nowMillis, nowText);
      var bucket := history.AddTransaction(transaction.businessEntityId, memento);
      r := RebuildBucket(Values(bucket), Some(transaction.salesTax), parseDate, formatDate);
    }

    /** restoreTransaction: take the memento out of the business entity's
        bucket and hand back the ones left, each rebuilt with the tax its
        memento names. */
    method RestoreTransaction(businessEntityId: int, transactionId: int,
                              parseDate: string -> Option<Instant>, formatDate: Instant -> string)
      returns (r: Result<seq<TransactionView>>)
      modifies history
      ensures history.suspended == old(history.suspended)[businessEntityId := old(history.Bucket(businessEntityId)) - {transactionId}]
      ensures r == RebuildAll(Values(old(history.Bucket(businessEntityId)) - {transactionId}), None, parseDate, formatDate)
    {
      var bucket := history.DeleteTransaction(businessEntityId, transactionId);
      r := RebuildBucket(Values(bucket), None, parseDate, formatDate);
    }

    /** updateTransactionStatus is called by the payment event listener but
        is not declared by the service; it is taken to request the status
        change and to end normally or with an exception. */
    method UpdateTransactionStatus(transactionId: Option<int>, status: TransactionStatus, date: Instant)
      returns (error: Option<Error>)
      requires Wired()
      modifies journal
      ensures Wired()
      ensures journal.events == old(journal.events) + [StatusUpdateRequested(transactionId, status, date)]
    {
      journal.events := journal.events + [StatusUpdateRequested(transactionId, status, date)];
      error := *;
    }
  }

  /** The stream over a bucket's entries: for each memento a new
      transaction, restored from the memento and mapped to its view; the
      first exception ends the stream. */
  method RebuildBucket(ms: seq<Memento>, tax: Option<SalesTax>,
                       parseDate: string -> Option<Instant>, formatDate: Instant -> string)
    returns (r: Result<seq<TransactionView>>)
    ensures r == RebuildAll(ms, tax, parseDate, formatDate)
  {
    ghost var rs := Rebuilds(ms, tax, parseDate, formatDate);
    var views: seq<TransactionView> := [];
    var i := 0;
    while i < |ms|
      invariant 0 <= i <= |ms|
      invariant Sequenced(rs[..i]) == Success(views)
    {
      var view := RebuildEntry(ms[i], tax, parseDate, formatDate);
      if view.Failure? {
        RebuildStops(rs, i, views);
        return Failure(view.error);
      }
      SequencedExtend(rs, i, views);
      views := views + [view.value];
      i := i + 1;
    }
    assert rs[..i] == rs;
    r := Success(views);
  }

  /** One entry of the stream: the tax to start from, a new transaction
      restored from the memento, and its view. */
  method RebuildEntry(m: Memento, tax: Option<SalesTax>,
                      parseDate: string -> Option<Instant>, formatDate: Instant -> string)
    returns (r: Result<TransactionView>)
    ensures r == RebuildOne(m, tax, parseDate, formatDate)
  {
    var base: SalesTax;
    if tax.Some? {
      base := tax.value;
    } else {
      var restoredTax := RestoredTax(m);
      if restoredTax.Failure? {
        return Failure(restoredTax.error);
      }
      base := restoredTax.value;
    }
    var transaction := new SalesTransaction(m.businessEntityId, base);
    var restored := transaction.RestoreFromMemento(m, parseDate);
    if restored.Failure? {
      return Failure(restored.error);
    }
    RestoreRecomputes(NewRecord(m.businessEntityId, base), m, parseDate);
    r := Success(ViewOf(transaction.Record(), formatDate));
  }

  /** A stored row carries its date. */
  lemma RowDated(rows: map<int, TransactionRecord>, nextId: int, id: int)
    requires ValidRows(rows, nextId) && id in rows
    ensures rows[id].transactionDate.Some?
  {
  }

  lemma RebuildStops(rs: seq<Result<TransactionView>>, i: nat, views: seq<TransactionView>)
    requires i < |rs| && Sequenced(rs[..i]) == Success(views) && rs[i].Failure?
    ensures Sequenced(rs) == Failure(rs[i].error)
  {
    assert rs[..i + 1][..i] == rs[..i];
    SequencedStops(rs, i + 1);
  }
}
