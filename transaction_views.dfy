/** The response forms SalesTransactionService hands back
    (SalesTransactionResponseDto and TransientSalesTransactionDto, which
    carry the same fields), and the rebuilding of parked transactions into
    such views after a suspend or a restore. */
module TransactionViews {
  import opened Decimal
  import opened Collections
  import opened Types
  import opened Entity

  /** A transaction as the service's responses show it: amounts as strings,
      the lines in wire form and the date formatted. */
  datatype TransactionView = TransactionView(
    transactionId: Option<int>,
    businessEntityId: int,
    subTotal: string,
    taxType: string,
    taxRate: string,
    taxAmount: string,
    totalAmount: string,
    salesDetails: seq<SalesDetailsDto>,
    transactionDateTime: string)

  /** A state every field of which a view can read. */
  predicate Viewable(rec: TransactionRecord)
  {
    rec.subtotal.Some? && rec.salesTaxAmount.Some? && rec.total.Some? && rec.transactionDate.Some?
  }

  /** mapToResponseDto and mapToTransientDto; DateUtil's formatter is an
      input. */
  function ViewOf(rec: TransactionRecord, formatDate: Instant -> string): (v: TransactionView)
    requires Viewable(rec)
    ensures v.transactionId == rec.id && v.businessEntityId == rec.businessEntityId
    ensures v.transactionDateTime == formatDate(rec.transactionDate.value)
    ensures |v.salesDetails| == |rec.salesDetailEntities|
  {
    ValuesSpec(rec.salesDetailEntities);
    TransactionView(
      rec.id,
      rec.businessEntityId,
      Format(rec.subtotal.value),
      TaxTypeName(rec.salesTax.taxType),
      Format(rec.salesTax.taxRate),
      Format(rec.salesTaxAmount.value),
      Format(rec.total.value),
      MapSeq(DetailDto, Values(rec.salesDetailEntities)),
      formatDate(rec.transactionDate.value))
  }

  /** A view loses nothing but the date's representation: its strings parse
      back to the transaction's tax, amounts and line items. */
  lemma ViewReadsBack(rec: TransactionRecord, formatDate: Instant -> string)
    requires Viewable(rec) && KeyedByProduct(rec.salesDetailEntities)
    ensures var v := ViewOf(rec, formatDate);
      && TaxTypeValueOf(v.taxType) == Success(rec.salesTax.taxType)
      && Parse(v.taxRate) == Some(rec.salesTax.taxRate)
      && Parse(v.subTotal) == rec.subtotal
      && Parse(v.taxAmount) == rec.salesTaxAmount
      && Parse(v.totalAmount) == rec.total
      && ParseDetails(v.salesDetails) == Success(rec.salesDetailEntities)
  {
    TaxTypeNames(rec.salesTax.taxType, "");
    ParseFormat(rec.salesTax.taxRate);
    ParseFormat(rec.subtotal.value);
    ParseFormat(rec.salesTaxAmount.value);
    ParseFormat(rec.total.value);
    MementoLinesBack(rec, 0, "");
  }

  // ------------------------------------------------------------ rebuilding

  /** new SalesTax(TaxType.valueOf(m.taxType()), new BigDecimal(m.taxRate())),
      built by restoreTransaction before each restore. */
  function RestoredTax(m: Memento): (r: Result<SalesTax>)
    ensures r.Success? <==> TaxTypeValueOf(m.taxType).Success? && Parse(m.taxRate).Some?
    ensures r.Success? ==> TaxTypeValueOf(m.taxType) == Success(r.value.taxType) && Parse(m.taxRate) == Some(r.value.taxRate)
    ensures r.Failure? ==> r.error == IllegalArgument || r.error == NumberFormat
  {
    match TaxTypeValueOf(m.taxType)
    case Failure(e) => Failure(e)
    case Success(t) =>
      match Parse(m.taxRate)
      case None => Failure(NumberFormat)
      case Some(rate) => Success(SalesTax(t, rate))
  }

  /** One entry of the suspended bucket turned into a view: a new
      transaction for the memento's business entity, restored from the
      memento. After a suspend its tax is the GST record of the call
      (Some); after a restore it is rebuilt from the memento (None). */
  function RebuildOne(m: Memento, tax: Option<SalesTax>, parseDate: string -> Option<Instant>,
                      formatDate: Instant -> string): (r: Result<TransactionView>)
    ensures r.Success? ==> r.value.transactionId == Some(m.transactionId) && r.value.businessEntityId == m.businessEntityId
  {
    var base := if tax.Some? then Success(tax.value) else RestoredTax(m);
    match base
    case Failure(e) => Failure(e)
    case Success(t) =>
      var out := Restored(NewRecord(m.businessEntityId, t), m, parseDate);
      if out.error.Some? then Failure(out.error.value)
      else
        RestoreRecomputes(NewRecord(m.businessEntityId, t), m, parseDate);
        Success(ViewOf(out.rec, formatDate))
  }

  /** Each memento of a bucket rebuilt on its own. */
  function Rebuilds(ms: seq<Memento>, tax: Option<SalesTax>, parseDate: string -> Option<Instant>,
                    formatDate: Instant -> string): (rs: seq<Result<TransactionView>>)
    ensures |rs| == |ms|
    ensures forall i :: 0 <= i < |ms| ==> rs[i] == RebuildOne(ms[i], tax, parseDate, formatDate)
  {
    seq(|ms|, i requires 0 <= i < |ms| => RebuildOne(ms[i], tax, parseDate, formatDate))
  }

  /** The stream over the bucket's entries: each memento rebuilt in turn,
      the first exception ending the call. */
  function RebuildAll(ms: seq<Memento>, tax: Option<SalesTax>, parseDate: string -> Option<Instant>,
                      formatDate: Instant -> string): Result<seq<TransactionView>>
  {
    Sequenced(Rebuilds(ms, tax, parseDate, formatDate))
  }

  /** Rebuilding succeeds exactly when every memento rebuilds, and then
      gives one view per memento in order; otherwise it fails with the
      exception of the first memento that does not rebuild. */
  lemma RebuildAllSpec(ms: seq<Memento>, tax: Option<SalesTax>, parseDate: string -> Option<Instant>,
                       formatDate: Instant -> string)
    ensures var r, rs := RebuildAll(ms, tax, parseDate, formatDate), Rebuilds(ms, tax, parseDate, formatDate);
      && (r.Success? <==> forall i :: 0 <= i < |ms| ==> rs[i].Success?)
      && (r.Success? ==> |r.value| == |ms| && forall i :: 0 <= i < |ms| ==> rs[i] == Success(r.value[i]))
      && (r.Failure? ==>
            exists i :: 0 <= i < |ms| && rs[i] == Failure(r.error) && forall j :: 0 <= j < i ==> rs[j].Success?)
  {
    SequencedSpec(Rebuilds(ms, tax, parseDate, formatDate));
  }

  /** A memento saved from a transaction whose amounts are those of its
      lines rebuilds, whichever tax the new transaction starts from, into
      the view of that same transaction under the clock reading id and the
      parsed date. */
  lemma SuspendedView(rec: TransactionRecord, nowMillis: int, nowText: string, tax: Option<SalesTax>,
                      parseDate: string -> Option<Instant>, formatDate: Instant -> string)
    requires Totalled(rec) && KeyedByProduct(rec.salesDetailEntities)
    requires parseDate(nowText).Some?
    ensures var parked := rec.(id := Some(nowMillis), transactionDate := parseDate(nowText));
      && Viewable(parked)
      && RebuildOne(MementoOf(rec, nowMillis, nowText), tax, parseDate, formatDate) == Success(ViewOf(parked, formatDate))
  {
    var m := MementoOf(rec, nowMillis, nowText);
    TaxTypeNames(rec.salesTax.taxType, m.taxType);
    ParseFormat(rec.salesTax.taxRate);
    var t := if tax.Some? then tax.value else SalesTax(rec.salesTax.taxType, rec.salesTax.taxRate);
    assert (if tax.Some? then Success(tax.value) else RestoredTax(m)) == Success(t);
    MementoRoundTrip(rec, NewRecord(m.businessEntityId, t), nowMillis, nowText, parseDate);
  }

  // ------------------------------------------------------------ buckets

  /** Each parked memento is filed under its own transactionId. */
  predicate BucketKeyed(bucket: map<int, Memento>)
  {
    forall k :: k in bucket ==> bucket[k].transactionId == k
  }

  /** The list a suspend hands back shows the transaction just parked. */
  lemma SuspendShowsParked(bucket: map<int, Memento>, rec: TransactionRecord, nowMillis: int, nowText: string,
                           tax: Option<SalesTax>, parseDate: string -> Option<Instant>, formatDate: Instant -> string)
    requires Totalled(rec) && KeyedByProduct(rec.salesDetailEntities)
    requires parseDate(nowText).Some?
    requires RebuildAll(Values(bucket[nowMillis := MementoOf(rec, nowMillis, nowText)]), tax, parseDate, formatDate).Success?
    ensures var parked := rec.(id := Some(nowMillis), transactionDate := parseDate(nowText));
      var views := RebuildAll(Values(bucket[nowMillis := MementoOf(rec, nowMillis, nowText)]), tax, parseDate, formatDate).value;
      Viewable(parked) && exists i :: 0 <= i < |views| && views[i] == ViewOf(parked, formatDate)
  {
    var m := MementoOf(rec, nowMillis, nowText);
    var after := bucket[nowMillis := m];
    var ms := Values(after);
    ValuesSpec(after);
    var i := IndexOfKey(SortedKeys(after), nowMillis);
    assert ms[i] == m;
    RebuildAllSpec(ms, tax, parseDate, formatDate);
    SuspendedView(rec, nowMillis, nowText, tax, parseDate, formatDate);
  }

  /** The list a restore hands back no longer shows the transaction taken
      out of the bucket, and shows every other one that was parked. */
  lemma RestoreDropsRestored(bucket: map<int, Memento>, transactionId: int, tax: Option<SalesTax>,
                             parseDate: string -> Option<Instant>, formatDate: Instant -> string)
    requires BucketKeyed(bucket)
    requires RebuildAll(Values(bucket - {transactionId}), tax, parseDate, formatDate).Success?
    ensures var views := RebuildAll(Values(bucket - {transactionId}), tax, parseDate, formatDate).value;
      && (forall i :: 0 <= i < |views| ==> views[i].transactionId != Some(transactionId))
      && (forall k :: k in bucket && k != transactionId ==>
            exists i :: 0 <= i < |views| && views[i].transactionId == Some(k))
  {
    var after := bucket - {transactionId};
    var ms := Values(after);
    ValuesSpec(after);
    RebuildAllSpec(ms, tax, parseDate, formatDate);
    var views := RebuildAll(ms, tax, parseDate, formatDate).value;
    forall i | 0 <= i < |views|
      ensures views[i].transactionId != Some(transactionId)
    {
      assert RebuildOne(ms[i], tax, parseDate, formatDate) == Success(views[i]);
    }
    forall k | k in bucket && k != transactionId
      ensures exists i :: 0 <= i < |views| && views[i].transactionId == Some(k)
    {
      var i := IndexOfKey(SortedKeys(after), k);
      assert RebuildOne(ms[i], tax, parseDate, formatDate) == Success(views[i]);
    }
  }

}
