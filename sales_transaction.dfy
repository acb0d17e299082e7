/** The SalesTransaction aggregate: a map from productId to line item and
    three derived amounts that every change of the map recomputes, plus the
    memento that the suspend/restore feature turns it into and back. */
module Entity {
  import opened Decimal
  import opened Collections
  import opened Types

  // ------------------------------------------------------------ amounts

  /** The three amounts recalculateTotal derives from the line items. */
  datatype Amounts = Amounts(subtotal: Dec, salesTaxAmount: Dec, total: Dec)

  function LineSubtotals(ds: seq<SalesDetails>): seq<Dec>
  {
    MapSeq(LineSubtotal, ds)
  }

  /** recalculateTotal: the line subtotals summed exactly and rounded once
      to two places; the tax from that subtotal; the total rounded again. */
  function Recalculate(details: map<int, SalesDetails>, tax: SalesTax): (a: Amounts)
    ensures a.subtotal.scale == 2 && a.salesTaxAmount.scale == 2 && a.total.scale == 2
  {
    var subtotal := Round2(Sum(LineSubtotals(Values(details))));
    var taxAmount := CalculateTax(tax, subtotal);
    Amounts(subtotal, taxAmount, Round2(Add(subtotal, taxAmount)))
  }

  /** The order in which the HashMap hands out its line items does not
      matter: any arrangement of them gives the same subtotal. */
  lemma RecalculateAnyOrder(details: map<int, SalesDetails>, tax: SalesTax, ds: seq<SalesDetails>)
    requires multiset(ds) == multiset(Values(details))
    ensures Recalculate(details, tax).subtotal == Round2(Sum(LineSubtotals(ds)))
  {
    MapSeqPermutation(LineSubtotal, ds, Values(details));
    SumPermutation(LineSubtotals(ds), LineSubtotals(Values(details)));
  }

  /** The exact value of price × quantity summed over the lines. */
  ghost function ExactTotal(ds: seq<SalesDetails>): real
  {
    if |ds| == 0 then 0.0
    else ExactTotal(ds[..|ds| - 1]) + Value(ds[|ds| - 1].salesPricePerUnit) * ds[|ds| - 1].quantity as real
  }

  /** Before the final rounding nothing is lost: the sum of the line
      subtotals is the exact sum of price × quantity. */
  lemma {:induction false} SumOfLinesIsExact(ds: seq<SalesDetails>)
    ensures Value(Sum(LineSubtotals(ds))) == ExactTotal(ds)
  {
    if |ds| > 0 {
      var n := |ds|;
      var init := ds[..n - 1];
      var last := ds[n - 1];
      assert LineSubtotals(ds)[..n - 1] == LineSubtotals(init);
      var a := Sum(LineSubtotals(init));
      var l := LineSubtotal(last);
      assert Sum(LineSubtotals(ds)) == Add(a, l);
      SumOfLinesIsExact(init);
      AddValue(a, l);
      LineSubtotalValue(last);
      assert ExactTotal(ds) == ExactTotal(init) + Value(last.salesPricePerUnit) * last.quantity as real;
    }
  }

  /** The stored subtotal is within half a cent of the exact line total. */
  lemma SubtotalRounding(details: map<int, SalesDetails>, tax: SalesTax)
    ensures var err := Value(Recalculate(details, tax).subtotal) - ExactTotal(Values(details));
      -0.005 <= err <= 0.005
  {
    SumOfLinesIsExact(Values(details));
    Round2Value(Sum(LineSubtotals(Values(details))));
  }

  // ------------------------------------------------------------ state

  /** Every field of the entity, as one value. */
  datatype TransactionRecord = TransactionRecord(
    id: Option<int>,
    businessEntityId: int,
    salesTax: SalesTax,
    salesTaxAmount: Option<Dec>,
    subtotal: Option<Dec>,
    total: Option<Dec>,
    transactionDate: Option<Instant>,
    salesDetailEntities: map<int, SalesDetails>)

  /** The state new SalesTransaction(businessEntityId, salesTax) leaves. */
  function NewRecord(businessEntityId: int, salesTax: SalesTax): TransactionRecord
  {
    TransactionRecord(None, businessEntityId, salesTax, None, None, None, None, map[])
  }

  /** The invariant every mutation re-establishes: the amounts are present
      and are the ones recalculateTotal derives from the current lines. */
  predicate Totalled(rec: TransactionRecord)
  {
    var a := Recalculate(rec.salesDetailEntities, rec.salesTax);
    rec.subtotal == Some(a.subtotal) && rec.salesTaxAmount == Some(a.salesTaxAmount) && rec.total == Some(a.total)
  }

  /** Each line item is filed under its own productId. */
  predicate KeyedByProduct(details: map<int, SalesDetails>)
  {
    forall k :: k in details ==> details[k].productId == k
  }

  /** Two states that agree on every field but the line items and amounts. */
  predicate SameHeader(a: TransactionRecord, b: TransactionRecord)
  {
    a.id == b.id && a.businessEntityId == b.businessEntityId && a.salesTax == b.salesTax
      && a.transactionDate == b.transactionDate
  }

  /** recalculateTotal applied to a state. */
  function Recalculated(rec: TransactionRecord): TransactionRecord
  {
    var a := Recalculate(rec.salesDetailEntities, rec.salesTax);
    rec.(subtotal := Some(a.subtotal), salesTaxAmount := Some(a.salesTaxAmount), total := Some(a.total))
  }

  /** Recomputing the amounts of a state whose amounts are already those
      of its lines changes nothing. */
  lemma RecalculateTotalled(rec: TransactionRecord)
    ensures Totalled(Recalculated(rec))
    ensures Totalled(rec) <==> Recalculated(rec) == rec
  {
  }

  /** The state addSalesDetails(details) leaves. */
  function WithDetails(rec: TransactionRecord, details: map<int, SalesDetails>): TransactionRecord
  {
    Recalculated(rec.(salesDetailEntities := rec.salesDetailEntities + details))
  }

  /** addSalesDetails inserts or overwrites the given keys, leaves every
      other key untouched, recomputes the amounts and changes nothing else. */
  lemma WithDetailsSpec(rec: TransactionRecord, details: map<int, SalesDetails>)
    ensures var r := WithDetails(rec, details);
      && r.salesDetailEntities.Keys == rec.salesDetailEntities.Keys + details.Keys
      && (forall k :: k in details ==> r.salesDetailEntities[k] == details[k])
      && (forall k :: k in rec.salesDetailEntities && k !in details ==>
            r.salesDetailEntities[k] == rec.salesDetailEntities[k])
      && Totalled(r) && SameHeader(r, rec)
  {
  }

  /** The state updateSalesDetails(details) leaves. */
  function ReplacedDetails(rec: TransactionRecord, details: map<int, SalesDetails>): TransactionRecord
  {
    WithDetails(rec.(salesDetailEntities := map[]), details)
  }

  /** updateSalesDetails leaves exactly the given lines, nothing from
      before, and the amounts recomputed from them. */
  lemma ReplacedDetailsSpec(rec: TransactionRecord, details: map<int, SalesDetails>)
    ensures var r := ReplacedDetails(rec, details);
      r.salesDetailEntities == details && Totalled(r) && SameHeader(r, rec)
  {
    assert map[] + details == details;
  }

  // ------------------------------------------------------------ toMap

  /** Collectors.toMap keyed by productId with (old, replacement) -> replacement. */
  function ToMapLastWins(ds: seq<SalesDetails>): map<int, SalesDetails>
  {
    if |ds| == 0 then map[]
    else ToMapLastWins(ds[..|ds| - 1])[ds[|ds| - 1].productId := ds[|ds| - 1]]
  }

  /** The last line carrying a productId, among the lines before hi. */
  predicate LastWith(ds: seq<SalesDetails>, i: int, hi: int)
    requires 0 <= i < hi <= |ds|
  {
    forall j :: i < j < hi ==> ds[j].productId != ds[i].productId
  }

  lemma {:induction false} ToMapHas(ds: seq<SalesDetails>, i: nat)
    requires i < |ds|
    ensures ds[i].productId in ToMapLastWins(ds)
  {
    var n := |ds|;
    if i < n - 1 {
      var init := ds[..n - 1];
      assert init[i] == ds[i];
      ToMapHas(init, i);
    }
  }

  lemma {:induction false} ToMapSource(ds: seq<SalesDetails>, k: int) returns (i: nat)
    requires k in ToMapLastWins(ds)
    ensures i < |ds| && ds[i] == ToMapLastWins(ds)[k] && ds[i].productId == k
  {
    var n := |ds|;
    if k == ds[n - 1].productId {
      i := n - 1;
    } else {
      var init := ds[..n - 1];
      i := ToMapSource(init, k);
      assert init[i] == ds[i];
    }
  }

  lemma {:induction false} ToMapLast(ds: seq<SalesDetails>, i: nat)
    requires i < |ds| && LastWith(ds, i, |ds|)
    ensures ds[i].productId in ToMapLastWins(ds) && ToMapLastWins(ds)[ds[i].productId] == ds[i]
  {
    var n := |ds|;
    ToMapHas(ds, i);
    if i < n - 1 {
      var init := ds[..n - 1];
      assert init[i] == ds[i];
      assert LastWith(init, i, n - 1) by {
        forall j | i < j < n - 1
          ensures init[j].productId != init[i].productId
        {
          assert init[j] == ds[j];
        }
      }
      ToMapLast(init, i);
    }
  }

  /** Every productId gets a key, every value is one of the lines, each is
      filed under its own productId, and the last line carrying a productId
      is the one kept. */
  lemma ToMapLastWinsSpec(ds: seq<SalesDetails>)
    ensures forall i :: 0 <= i < |ds| ==> ds[i].productId in ToMapLastWins(ds)
    ensures forall k :: k in ToMapLastWins(ds) ==> exists i :: 0 <= i < |ds| && ds[i] == ToMapLastWins(ds)[k]
    ensures KeyedByProduct(ToMapLastWins(ds))
    ensures forall i :: 0 <= i < |ds| && LastWith(ds, i, |ds|) ==>
      ds[i].productId in ToMapLastWins(ds) && ToMapLastWins(ds)[ds[i].productId] == ds[i]
  {
    var m := ToMapLastWins(ds);
    forall i | 0 <= i < |ds|
      ensures ds[i].productId in m
    {
      ToMapHas(ds, i);
    }
    forall k | k in m
      ensures (exists i :: 0 <= i < |ds| && ds[i] == m[k]) && m[k].productId == k
    {
      var i := ToMapSource(ds, k);
    }
    forall i | 0 <= i < |ds| && LastWith(ds, i, |ds|)
      ensures m[ds[i].productId] == ds[i]
    {
      ToMapLast(ds, i);
    }
  }

  /** Parses each line's price in order; the first malformed one fails. */
  function ParseAll(dtos: seq<SalesDetailsDto>): Result<seq<SalesDetails>>
  {
    if |dtos| == 0 then Success([])
    else
      match ParseAll(dtos[..|dtos| - 1])
      case Failure(e) => Failure(e)
      case Success(ds) =>
        match ParseDetail(dtos[|dtos| - 1])
        case Failure(e) => Failure(e)
        case Success(d) => Success(ds + [d])
  }

  /** The collection succeeds exactly when every price parses, and then
      holds the parsed lines in order; its only failure is NumberFormat. */
  lemma {:induction false} ParseAllSpec(dtos: seq<SalesDetailsDto>)
    ensures ParseAll(dtos).Success? <==> forall i :: 0 <= i < |dtos| ==> ParseDetail(dtos[i]).Success?
    ensures ParseAll(dtos).Success? ==> |ParseAll(dtos).value| == |dtos|
    ensures ParseAll(dtos).Success? ==>
      forall i :: 0 <= i < |dtos| ==> ParseDetail(dtos[i]) == Success(ParseAll(dtos).value[i])
    ensures ParseAll(dtos).Failure? ==> ParseAll(dtos).error == NumberFormat
  {
    if |dtos| > 0 {
      var n := |dtos|;
      var init := dtos[..n - 1];
      ParseAllSpec(init);
      assert forall i :: 0 <= i < n - 1 ==> init[i] == dtos[i];
      var last := ParseDetail(dtos[n - 1]);
      match ParseAll(init)
      case Failure(e) =>
        assert ParseAll(dtos) == Failure(e);
        var i :| 0 <= i < n - 1 && ParseDetail(init[i]).Failure?;
        assert ParseDetail(dtos[i]).Failure?;
      case Success(ds) =>
        if last.Success? {
          var all := ds + [last.value];
          assert ParseAll(dtos) == Success(all);
          forall i | 0 <= i < n
            ensures ParseDetail(dtos[i]) == Success(all[i])
          {
            if i < n - 1 {
              assert all[i] == ds[i];
            }
          }
        } else {
          assert ParseAll(dtos) == Failure(last.error);
        }
    }
  }

  /** The details map built from request lines with the last-wins merge. */
  function ParseDetails(dtos: seq<SalesDetailsDto>): Result<map<int, SalesDetails>>
  {
    match ParseAll(dtos)
    case Failure(e) => Failure(e)
    case Success(ds) => Success(ToMapLastWins(ds))
  }

  /** A malformed price is the only way the last-wins collection fails. */
  lemma ParseDetailsError(dtos: seq<SalesDetailsDto>)
    ensures ParseDetails(dtos).Failure? ==> ParseDetails(dtos).error == NumberFormat
  {
    ParseAllSpec(dtos);
  }

  /** The last-wins collection files each line under its own productId. */
  lemma ParseDetailsKeyed(dtos: seq<SalesDetailsDto>)
    requires ParseDetails(dtos).Success?
    ensures KeyedByProduct(ParseDetails(dtos).value)
  {
    ToMapLastWinsSpec(ParseAll(dtos).value);
  }

  predicate DistinctIds(dtos: seq<SalesDetailsDto>)
  {
    forall i, j :: 0 <= i < j < |dtos| ==> dtos[i].productId != dtos[j].productId
  }

  /** Collectors.toMap keyed by productId without a merge function: each
      element's price is parsed and then a repeated productId throws
      IllegalStateException, so the first offending element decides. */
  function CollectStrict(dtos: seq<SalesDetailsDto>): Result<map<int, SalesDetails>>
  {
    if |dtos| == 0 then Success(map[])
    else
      match CollectStrict(dtos[..|dtos| - 1])
      case Failure(e) => Failure(e)
      case Success(m) =>
        match ParseDetail(dtos[|dtos| - 1])
        case Failure(e) => Failure(e)
        case Success(d) =>
          if d.productId in m then Failure(IllegalState) else Success(m[d.productId := d])
  }

  /** The strict collection succeeds exactly when every price parses and no
      productId repeats; it then agrees with the last-wins collection and
      has one key per line. */
  lemma CollectStrictSpec(dtos: seq<SalesDetailsDto>)
    ensures CollectStrict(dtos).Success? <==> ParseAll(dtos).Success? && DistinctIds(dtos)
    ensures CollectStrict(dtos).Success? ==> ParseDetails(dtos) == CollectStrict(dtos)
    ensures CollectStrict(dtos).Success? ==>
      CollectStrict(dtos).value.Keys == set i | 0 <= i < |dtos| :: dtos[i].productId
    ensures CollectStrict(dtos).Failure? ==>
      CollectStrict(dtos).error == NumberFormat || CollectStrict(dtos).error == IllegalState
  {
    CollectStrictSucceeds(dtos);
    CollectStrictAgrees(dtos);
    CollectStrictKeys(dtos);
    CollectStrictErrors(dtos);
  }

  lemma {:induction false} CollectStrictSucceeds(dtos: seq<SalesDetailsDto>)
    ensures CollectStrict(dtos).Success? <==> ParseAll(dtos).Success? && DistinctIds(dtos)
  {
    if |dtos| > 0 {
      var n := |dtos|;
      var init := dtos[..n - 1];
      CollectStrictSucceeds(init);
      CollectStrictKeys(init);
      assert forall i :: 0 <= i < n - 1 ==> init[i] == dtos[i];
      var last := ParseDetail(dtos[n - 1]);
      if CollectStrict(init).Failure? {
        if ParseAll(init).Success? {
          var i, j :| 0 <= i < j < n - 1 && init[i].productId == init[j].productId;
          assert dtos[i].productId == dtos[j].productId;
        }
      } else if last.Success? {
        var m := CollectStrict(init).value;
        if last.value.productId in m {
          var i :| 0 <= i < n - 1 && init[i].productId == last.value.productId;
          assert dtos[i].productId == dtos[n - 1].productId;
        } else {
          forall i, j | 0 <= i < j < n
            ensures dtos[i].productId != dtos[j].productId
          {
            if j == n - 1 {
              assert dtos[i].productId in m;
            } else {
              assert init[i] == dtos[i] && init[j] == dtos[j];
            }
          }
        }
      }
    }
  }

  lemma {:induction false} CollectStrictAgrees(dtos: seq<SalesDetailsDto>)
    ensures CollectStrict(dtos).Success? ==> ParseDetails(dtos) == CollectStrict(dtos)
  {
    if |dtos| > 0 && CollectStrict(dtos).Success? {
      var n := |dtos|;
      var init := dtos[..n - 1];
      CollectStrictAgrees(init);
      var ds := ParseAll(init).value;
      var d := ParseDetail(dtos[n - 1]).value;
      assert ParseAll(dtos) == Success(ds + [d]);
      assert (ds + [d])[..|ds|] == ds;
    }
  }

  lemma {:induction false} CollectStrictKeys(dtos: seq<SalesDetailsDto>)
    ensures CollectStrict(dtos).Success? ==>
      CollectStrict(dtos).value.Keys == set i | 0 <= i < |dtos| :: dtos[i].productId
  {
    if |dtos| > 0 && CollectStrict(dtos).Success? {
      var n := |dtos|;
      var init := dtos[..n - 1];
      CollectStrictKeys(init);
      assert forall i :: 0 <= i < n - 1 ==> init[i] == dtos[i];
      var d := ParseDetail(dtos[n - 1]).value;
      var all := set i | 0 <= i < n :: dtos[i].productId;
      var before := set i | 0 <= i < n - 1 :: init[i].productId;
      forall k | k in all
        ensures k in before + {d.productId}
      {
        var i :| 0 <= i < n && dtos[i].productId == k;
        if i < n - 1 {
          assert init[i] == dtos[i];
        }
      }
      forall k | k in before
        ensures k in all
      {
        var i :| 0 <= i < n - 1 && init[i].productId == k;
        assert dtos[i] == init[i];
      }
      assert dtos[n - 1].productId in all;
      assert all == before + {d.productId};
    }
  }

  lemma {:induction false} CollectStrictErrors(dtos: seq<SalesDetailsDto>)
    ensures CollectStrict(dtos).Failure? ==>
      CollectStrict(dtos).error == NumberFormat || CollectStrict(dtos).error == IllegalState
  {
    if |dtos| > 0 {
      CollectStrictErrors(dtos[..|dtos| - 1]);
    }
  }

  // ------------------------------------------------------------ memento

  /** saveToMemento: the amounts as plain strings, one line DTO per line
      item, the clock reading as id and the formatted clock reading as the
      date; status is left absent. */
  function MementoOf(rec: TransactionRecord, nowMillis: int, nowText: string): Memento
    requires rec.subtotal.Some? && rec.salesTaxAmount.Some? && rec.total.Some?
  {
    Memento(
      nowMillis,
      rec.businessEntityId,
      Format(rec.subtotal.value),
      TaxTypeName(rec.salesTax.taxType),
      Format(rec.salesTax.taxRate),
      Format(rec.salesTaxAmount.value),
      Format(rec.total.value),
      MapSeq(DetailDto, Values(rec.salesDetailEntities)),
      None,
      nowText)
  }

  /** A memento carries one DTO per line item, nothing else, in the wire form. */
  lemma MementoLines(rec: TransactionRecord, nowMillis: int, nowText: string)
    requires rec.subtotal.Some? && rec.salesTaxAmount.Some? && rec.total.Some?
    requires KeyedByProduct(rec.salesDetailEntities)
    ensures var lines := MementoOf(rec, nowMillis, nowText).salesDetails;
      && |lines| == |rec.salesDetailEntities|
      && (forall i :: 0 <= i < |lines| ==>
            lines[i].productId in rec.salesDetailEntities
            && lines[i] == DetailDto(rec.salesDetailEntities[lines[i].productId]))
      && (forall k :: k in rec.salesDetailEntities ==> exists i :: 0 <= i < |lines| && lines[i].productId == k)
      && (forall i, j :: 0 <= i < j < |lines| ==> lines[i].productId != lines[j].productId)
  {
    var details := rec.salesDetailEntities;
    var lines := MapSeq(DetailDto, Values(details));
    assert MementoOf(rec, nowMillis, nowText).salesDetails == lines;
    KeyedValues(details);
    forall i | 0 <= i < |lines|
      ensures lines[i].productId in details && lines[i] == DetailDto(details[lines[i].productId])
    {
      DetailLineAt(details, i);
    }
    forall k | k in details
      ensures exists i :: 0 <= i < |lines| && lines[i].productId == k
    {
      var i := IndexOfKey(SortedKeys(details), k);
      DetailLineAt(details, i);
    }
    forall i, j | 0 <= i < j < |lines|
      ensures lines[i].productId != lines[j].productId
    {
      DetailLineAt(details, i);
      DetailLineAt(details, j);
    }
  }

  /** The i-th wire line of a map keyed by productId is the DTO of the line
      under the i-th smallest key. */
  lemma DetailLineAt(details: map<int, SalesDetails>, i: nat)
    requires KeyedByProduct(details)
    requires i < |details|
    ensures var lines := MapSeq(DetailDto, Values(details));
      && |lines| == |details|
      && lines[i].productId == SortedKeys(details)[i]
      && lines[i].productId in details
      && lines[i] == DetailDto(details[lines[i].productId])
      && forall j :: 0 <= j < i ==> lines[j].productId < lines[i].productId
  {
    var vs := Values(details);
    var lines := MapSeq(DetailDto, vs);
    KeyedValues(details);
    assert lines[i] == DetailDto(vs[i]);
    forall j | 0 <= j < i
      ensures lines[j].productId < lines[i].productId
    {
      assert lines[j] == DetailDto(vs[j]);
    }
  }

  /** The values of a map keyed by productId carry the sorted keys as
      their productIds. */
  lemma KeyedValues(details: map<int, SalesDetails>)
    requires KeyedByProduct(details)
    ensures |Values(details)| == |SortedKeys(details)| == |details|
    ensures forall i :: 0 <= i < |Values(details)| ==>
      SortedKeys(details)[i] in details
      && Values(details)[i] == details[SortedKeys(details)[i]]
      && Values(details)[i].productId == SortedKeys(details)[i]
    ensures forall k :: k in details ==> k in SortedKeys(details)
    ensures forall i, j :: 0 <= i < j < |Values(details)| ==> Values(details)[i].productId < Values(details)[j].productId
  {
    ValuesSpec(details);
  }

  /** What restoreFromMemento leaves behind, and the exception it ends with
      if one of its steps throws. */
  datatype RestoreOutcome = RestoreOutcome(rec: TransactionRecord, error: Option<Error>)

  /** The scalar steps of restoreFromMemento: the id and businessEntityId
      first, then the tax, the three amounts and the date, each parsed. A
      step that throws leaves the fields assigned before it in place. */
  function RestoredHeader(rec: TransactionRecord, m: Memento, parseDate: string -> Option<Instant>): RestoreOutcome
  {
    var r1 := rec.(id := Some(m.transactionId), businessEntityId := m.businessEntityId);
    match TaxTypeValueOf(m.taxType)
    case Failure(e) => RestoreOutcome(r1, Some(e))
    case Success(taxType) =>
      match Parse(m.taxRate)
      case None => RestoreOutcome(r1, Some(NumberFormat))
      case Some(rate) => RestoredAmounts(r1.(salesTax := SalesTax(taxType, rate)), m, parseDate)
  }

  /** The scalar steps after the tax: the three amounts and the date. */
  function RestoredAmounts(rec: TransactionRecord, m: Memento, parseDate: string -> Option<Instant>): RestoreOutcome
  {
    match Parse(m.subTotal)
    case None => RestoreOutcome(rec, Some(NumberFormat))
    case Some(subtotal) =>
      var r3 := rec.(subtotal := Some(subtotal));
      match Parse(m.taxAmount)
      case None => RestoreOutcome(r3, Some(NumberFormat))
      case Some(taxAmount) =>
        var r4 := r3.(salesTaxAmount := Some(taxAmount));
        match Parse(m.totalAmount)
        case None => RestoreOutcome(r4, Some(NumberFormat))
        case Some(total) =>
          var r5 := r4.(total := Some(total));
          match parseDate(m.transactionDateTime)
          case None => RestoreOutcome(r5, Some(DateFormat))
          case Some(date) => RestoreOutcome(r5.(transactionDate := Some(date)), None)
  }

  /** When the amounts and the date all parse, each holds its parsed value. */
  lemma RestoredAmountsSucceed(rec: TransactionRecord, m: Memento, parseDate: string -> Option<Instant>)
    requires Parse(m.subTotal).Some? && Parse(m.taxAmount).Some? && Parse(m.totalAmount).Some?
    requires parseDate(m.transactionDateTime).Some?
    ensures RestoredAmounts(rec, m, parseDate) == RestoreOutcome(
      rec.(subtotal := Parse(m.subTotal), salesTaxAmount := Parse(m.taxAmount), total := Parse(m.totalAmount),
           transactionDate := parseDate(m.transactionDateTime)),
      None)
  {
  }

  /** When every scalar step succeeds, each field holds its parsed value. */
  lemma RestoredHeaderSucceeds(rec: TransactionRecord, m: Memento, parseDate: string -> Option<Instant>)
    requires TaxTypeValueOf(m.taxType).Success?
    requires Parse(m.taxRate).Some? && Parse(m.subTotal).Some? && Parse(m.taxAmount).Some? && Parse(m.totalAmount).Some?
    requires parseDate(m.transactionDateTime).Some?
    ensures RestoredHeader(rec, m, parseDate) == RestoreOutcome(
      rec.(id := Some(m.transactionId), businessEntityId := m.businessEntityId,
           salesTax := SalesTax(TaxTypeValueOf(m.taxType).value, Parse(m.taxRate).value),
           subtotal := Parse(m.subTotal), salesTaxAmount := Parse(m.taxAmount), total := Parse(m.totalAmount),
           transactionDate := parseDate(m.transactionDateTime)),
      None)
  {
  }

  /** restoreFromMemento: the scalar steps, then the lines collected
      last-wins and merged in by addSalesDetails. */
  function Restored(rec: TransactionRecord, m: Memento, parseDate: string -> Option<Instant>): RestoreOutcome
  {
    var header := RestoredHeader(rec, m, parseDate);
    if header.error.Some? then header
    else
      match ParseDetails(m.salesDetails)
      case Failure(e) => RestoreOutcome(header.rec, Some(e))
      case Success(details) => RestoreOutcome(WithDetails(header.rec, details), None)
  }

  /** A successful restore recomputes the amounts from the restored lines,
      whatever the memento's amount strings said, and merges those lines
      into the ones already present. */
  lemma RestoreRecomputes(rec: TransactionRecord, m: Memento, parseDate: string -> Option<Instant>)
    requires Restored(rec, m, parseDate).error.None?
    ensures var out := Restored(rec, m, parseDate).rec;
      && ParseDetails(m.salesDetails).Success?
      && out.salesDetailEntities == rec.salesDetailEntities + ParseDetails(m.salesDetails).value
      && Totalled(out)
      && out.id == Some(m.transactionId) && out.businessEntityId == m.businessEntityId
      && TaxTypeValueOf(m.taxType) == Success(out.salesTax.taxType)
      && Parse(m.taxRate) == Some(out.salesTax.taxRate)
      && out.transactionDate == parseDate(m.transactionDateTime) && out.transactionDate.Some?
  {
    var taxType := TaxTypeValueOf(m.taxType);
    assert taxType.Success?;
    var rate, subtotal, taxAmount, total := Parse(m.taxRate), Parse(m.subTotal), Parse(m.taxAmount), Parse(m.totalAmount);
    assert rate.Some? && subtotal.Some? && taxAmount.Some? && total.Some?;
    var date := parseDate(m.transactionDateTime);
    assert date.Some?;
    var details := ParseDetails(m.salesDetails);
    assert details.Success?;
    var r6 := rec.(id := Some(m.transactionId), businessEntityId := m.businessEntityId,
                   salesTax := SalesTax(taxType.value, rate.value), subtotal := subtotal,
                   salesTaxAmount := taxAmount, total := total, transactionDate := date);
    assert Restored(rec, m, parseDate).rec == WithDetails(r6, details.value);
    WithDetailsSpec(r6, details.value);
  }

  lemma {:induction false} ParseAllDtos(ds: seq<SalesDetails>)
    ensures ParseAll(MapSeq(DetailDto, ds)) == Success(ds)
  {
    var dtos := MapSeq(DetailDto, ds);
    forall i | 0 <= i < |ds|
      ensures ParseDetail(dtos[i]) == Success(ds[i])
    {
      ParseDetailDto(ds[i]);
    }
    ParseAllSpec(dtos);
    var r := ParseAll(dtos);
    assert r.Success?;
    assert r.value == ds;
  }

  /** Collecting the values of a map keyed by productId gives the map back. */
  lemma ToMapOfValues(details: map<int, SalesDetails>)
    requires KeyedByProduct(details)
    ensures ToMapLastWins(Values(details)) == details
  {
    var ks := SortedKeys(details);
    var vs := Values(details);
    var m := ToMapLastWins(vs);
    KeyedValues(details);
    forall k | k in details
      ensures k in m && m[k] == details[k]
    {
      var i := IndexOfKey(ks, k);
      LastInValues(details, i);
      ToMapLast(vs, i);
    }
    forall k | k in m
      ensures k in details
    {
      var i := ToMapSource(vs, k);
    }
  }

  lemma IndexOfKey(ks: seq<int>, k: int) returns (i: nat)
    requires k in ks
    ensures i < |ks| && ks[i] == k
  {
    i :| 0 <= i < |ks| && ks[i] == k;
  }

  lemma LastInValues(details: map<int, SalesDetails>, i: nat)
    requires KeyedByProduct(details)
    requires i < |Values(details)|
    ensures LastWith(Values(details), i, |Values(details)|)
  {
    KeyedValues(details);
  }

  /** Restoring a memento into a transaction with no lines gives back the
      transaction it was saved from: businessEntityId, tax, every line item
      and the three amounts; the id becomes the clock reading and the date
      the parsed date string. */
  lemma MementoRoundTrip(rec: TransactionRecord, base: TransactionRecord, nowMillis: int, nowText: string,
                         parseDate: string -> Option<Instant>)
    requires Totalled(rec) && KeyedByProduct(rec.salesDetailEntities)
    requires base.salesDetailEntities == map[]
    requires parseDate(nowText).Some?
    ensures Restored(base, MementoOf(rec, nowMillis, nowText), parseDate)
      == RestoreOutcome(rec.(id := Some(nowMillis), transactionDate := parseDate(nowText)), None)
  {
    var m := MementoOf(rec, nowMillis, nowText);
    var header := base.(id := Some(nowMillis), businessEntityId := rec.businessEntityId,
                        salesTax := rec.salesTax, subtotal := rec.subtotal,
                        salesTaxAmount := rec.salesTaxAmount, total := rec.total,
                        transactionDate := parseDate(nowText));
    MementoHeaderBack(rec, base, nowMillis, nowText, parseDate);
    MementoLinesBack(rec, nowMillis, nowText);
    RestoredFromParts(base, m, parseDate, header, rec.salesDetailEntities);
    HeaderCompleted(rec, header, nowMillis, parseDate(nowText));
  }

  /** The restored header of a totalled transaction, given back its lines,
      is that transaction under its new id and date. */
  lemma HeaderCompleted(rec: TransactionRecord, header: TransactionRecord, id: int, date: Option<Instant>)
    requires Totalled(rec) && header.salesDetailEntities == map[]
    requires header.id == Some(id) && header.transactionDate == date
    requires header.businessEntityId == rec.businessEntityId && header.salesTax == rec.salesTax
    requires header.subtotal == rec.subtotal && header.salesTaxAmount == rec.salesTaxAmount && header.total == rec.total
    ensures WithDetails(header, rec.salesDetailEntities) == rec.(id := Some(id), transactionDate := date)
  {
    var expected := rec.(id := Some(id), transactionDate := date);
    assert map[] + rec.salesDetailEntities == rec.salesDetailEntities;
    assert header.(salesDetailEntities := rec.salesDetailEntities) == expected;
    RecalculateTotalled(expected);
  }

  /** A restore whose scalar steps and line collection both succeed ends
      with the collected lines merged into the restored header. */
  lemma RestoredFromParts(rec: TransactionRecord, m: Memento, parseDate: string -> Option<Instant>,
                          header: TransactionRecord, details: map<int, SalesDetails>)
    requires RestoredHeader(rec, m, parseDate) == RestoreOutcome(header, None)
    requires ParseDetails(m.salesDetails) == Success(details)
    ensures Restored(rec, m, parseDate) == RestoreOutcome(WithDetails(header, details), None)
  {
  }

  /** The scalar fields of a memento parse back to the ones saved. */
  lemma MementoHeaderBack(rec: TransactionRecord, base: TransactionRecord, nowMillis: int, nowText: string,
                          parseDate: string -> Option<Instant>)
    requires rec.subtotal.Some? && rec.salesTaxAmount.Some? && rec.total.Some?
    requires parseDate(nowText).Some?
    ensures RestoredHeader(base, MementoOf(rec, nowMillis, nowText), parseDate)
      == RestoreOutcome(base.(id := Some(nowMillis), businessEntityId := rec.businessEntityId,
                              salesTax := rec.salesTax, subtotal := rec.subtotal,
                              salesTaxAmount := rec.salesTaxAmount, total := rec.total,
                              transactionDate := parseDate(nowText)),
                        None)
  {
    var m := MementoOf(rec, nowMillis, nowText);
    TaxTypeNames(rec.salesTax.taxType, m.taxType);
    ParseFormat(rec.salesTax.taxRate);
    ParseFormat(rec.subtotal.value);
    ParseFormat(rec.salesTaxAmount.value);
    ParseFormat(rec.total.value);
    RestoredHeaderSucceeds(base, m, parseDate);
  }

  /** The lines of a memento collect back to the map they were saved from. */
  lemma MementoLinesBack(rec: TransactionRecord, nowMillis: int, nowText: string)
    requires rec.subtotal.Some? && rec.salesTaxAmount.Some? && rec.total.Some?
    requires KeyedByProduct(rec.salesDetailEntities)
    ensures ParseDetails(MementoOf(rec, nowMillis, nowText).salesDetails) == Success(rec.salesDetailEntities)
  {
    ParseAllDtos(Values(rec.salesDetailEntities));
    ToMapOfValues(rec.salesDetailEntities);
  }

  // ------------------------------------------------------------ the entity

  class SalesTransaction {
    var id: Option<int>
    var businessEntityId: int
    var salesTax: SalesTax
    var salesTaxAmount: Option<Dec>
    var subtotal: Option<Dec>
    var total: Option<Dec>
    var transactionDate: Option<Instant>
    var salesDetailEntities: map<int, SalesDetails>

    function Record(): TransactionRecord
      reads this
    {
      TransactionRecord(id, businessEntityId, salesTax, salesTaxAmount, subtotal, total,
                        transactionDate, salesDetailEntities)
    }

    constructor (businessEntityId: int, salesTax: SalesTax)
      ensures Record() == NewRecord(businessEntityId, salesTax)
    {
      this.id := None;
      this.businessEntityId := businessEntityId;
      this.salesTax := salesTax;
      this.salesTaxAmount := None;
      this.subtotal := None;
      this.total := None;
      this.transactionDate := None;
      this.salesDetailEntities := map[];
    }

    /** An entity as the persistence layer hands it out: the no-argument
        constructor followed by loading every column. */
    constructor Load(rec: TransactionRecord)
      ensures Record() == rec
    {
      this.id := rec.id;
      this.businessEntityId := rec.businessEntityId;
      this.salesTax := rec.salesTax;
      this.salesTaxAmount := rec.salesTaxAmount;
      this.subtotal := rec.subtotal;
      this.total := rec.total;
      this.transactionDate := rec.transactionDate;
      this.salesDetailEntities := rec.salesDetailEntities;
    }

    method AddSalesDetails(details: map<int, SalesDetails>)
      modifies this
      ensures Record() == WithDetails(old(Record()), details)
    {
      var pending := details.Keys;
      ghost var added: map<int, SalesDetails> := map[];
      while pending != {}
        invariant pending <= details.Keys
        invariant added.Keys == details.Keys - pending
        invariant forall k :: k in added ==> added[k] == details[k]
        invariant salesDetailEntities == old(salesDetailEntities) + added
        invariant SameHeader(Record(), old(Record()))
        decreases pending
      {
        HasElement(pending);
        var productId :| productId in pending;
        salesDetailEntities := salesDetailEntities[productId := details[productId]];
        added := added[productId := details[productId]];
        pending := pending - {productId};
      }
      MapsEqual(added, details);
      RecalculateTotal();
    }

    method UpdateSalesDetails(details: map<int, SalesDetails>)
      modifies this
      ensures Record() == ReplacedDetails(old(Record()), details)
    {
      salesDetailEntities := map[];
      AddSalesDetails(details);
    }

    method RecalculateTotal()
      modifies this
      ensures Record() == Recalculated(old(Record()))
    {
      var lines := Values(salesDetailEntities);
      var newSubtotal := Round2(Sum(LineSubtotals(lines)));
      subtotal := Some(newSubtotal);
      var taxAmount := CalculateTax(salesTax, newSubtotal);
      salesTaxAmount := Some(taxAmount);
      total := Some(Round2(Add(newSubtotal, taxAmount)));
    }

    /** saveToMemento; the clock reading and its formatted form are inputs. */
    method SaveToMemento(nowMillis: int, nowText: string) returns (m: Memento)
      requires subtotal.Some? && salesTaxAmount.Some? && total.Some?
      ensures m == MementoOf(Record(), nowMillis, nowText)
    {
      m := Memento(
        nowMillis,
        businessEntityId,
        Format(subtotal.value),
        TaxTypeName(salesTax.taxType),
        Format(salesTax.taxRate),
        Format(salesTaxAmount.value),
        Format(total.value),
        MapSeq(DetailDto, Values(salesDetailEntities)),
        None,
        nowText);
    }

    /** The field assignments restoreFromMemento makes before it turns to
        the lines, stopping at the first step that throws. */
    method RestoreHeader(m: Memento, parseDate: string -> Option<Instant>) returns (error: Option<Error>)
      modifies this
      ensures RestoreOutcome(Record(), error) == RestoredHeader(old(Record()), m, parseDate)
    {
      id := Some(m.transactionId);
      businessEntityId := m.businessEntityId;
      var taxType := TaxTypeValueOf(m.taxType);
      if taxType.Failure? {
        return Some(taxType.error);
      }
      var rate := Parse(m.taxRate);
      if rate.None? {
        return Some(NumberFormat);
      }
      salesTax := SalesTax(taxType.value, rate.value);
      error := RestoreAmounts(m, parseDate);
    }

    /** The amount and date assignments of restoreFromMemento. */
    method RestoreAmounts(m: Memento, parseDate: string -> Option<Instant>) returns (error: Option<Error>)
      modifies this
      ensures RestoreOutcome(Record(), error) == RestoredAmounts(old(Record()), m, parseDate)
    {
      ghost var start := Record();
      var parsed := Parse(m.subTotal);
      if parsed.None? {
        return Some(NumberFormat);
      }
      subtotal := parsed;
      ghost var r3 := start.(subtotal := parsed);
      assert Record() == r3;
      parsed := Parse(m.taxAmount);
      if parsed.None? {
        assert RestoredAmounts(start, m, parseDate) == RestoreOutcome(r3, Some(NumberFormat));
        return Some(NumberFormat);
      }
      salesTaxAmount := parsed;
      ghost var r4 := r3.(salesTaxAmount := parsed);
      assert Record() == r4;
      parsed := Parse(m.totalAmount);
      if parsed.None? {
        assert RestoredAmounts(start, m, parseDate) == RestoreOutcome(r4, Some(NumberFormat));
        return Some(NumberFormat);
      }
      total := parsed;
      ghost var r5 := r4.(total := parsed);
      assert Record() == r5;
      var date := parseDate(m.transactionDateTime);
      if date.None? {
        assert RestoredAmounts(start, m, parseDate) == RestoreOutcome(r5, Some(DateFormat));
        return Some(DateFormat);
      }
      transactionDate := date;
      error := None;
      RestoredAmountsSucceed(old(Record()), m, parseDate);
    }

    /** restoreFromMemento; DateUtil's parser is an input. Returns the
        receiver itself, or the exception the failing step throws. */
    method RestoreFromMemento(m: Memento, parseDate: string -> Option<Instant>) returns (r: Result<SalesTransaction>)
      modifies this
      ensures Record() == Restored(old(Record()), m, parseDate).rec
      ensures r.Failure? <==> Restored(old(Record()), m, parseDate).error.Some?
      ensures r.Failure? ==> r.error == Restored(old(Record()), m, parseDate).error.value
      ensures r.Success? ==> r.value == this
    {
      var error := RestoreHeader(m, parseDate);
      if error.Some? {
        return Failure(error.value);
      }
      var restored := CollectRestored(m.salesDetails);
      if restored.Failure? {
        return Failure(restored.error);
      }
      AddSalesDetails(restored.value);
      r := Success(this);
    }
  }

  /** The for loop of restoreFromMemento: each DTO's price is parsed in
      turn and put into a HashMap under its productId, so a later line
      replaces an earlier one; the first malformed price throws. */
  method CollectRestored(dtos: seq<SalesDetailsDto>) returns (r: Result<map<int, SalesDetails>>)
    ensures r == ParseDetails(dtos)
  {
    var restored: map<int, SalesDetails> := map[];
    ghost var lines: seq<SalesDetails> := [];
    var i := 0;
    while i < |dtos|
      invariant 0 <= i <= |dtos|
      invariant ParseAll(dtos[..i]) == Success(lines)
      invariant restored == ToMapLastWins(lines)
    {
      var dto := dtos[i];
      var detail := ParseDetail(dto);
      ParsePrefixStep(dtos, i, lines);
      if detail.Failure? {
        ParseAllStops(dtos, i + 1);
        return Failure(detail.error);
      }
      restored := restored[dto.productId := detail.value];
      lines := lines + [detail.value];
      i := i + 1;
    }
    assert dtos[..i] == dtos;
    r := Success(restored);
  }
  /** Parsing one more line of a prefix that parsed: the line's own
      failure, or the prefix's lines with the new one after them, collected
      last-wins into the map so far with the new line put in. */
  lemma ParsePrefixStep(dtos: seq<SalesDetailsDto>, i: nat, lines: seq<SalesDetails>)
    requires i < |dtos| && ParseAll(dtos[..i]) == Success(lines)
    ensures ParseDetail(dtos[i]).Failure? ==> ParseAll(dtos[..i + 1]) == Failure(ParseDetail(dtos[i]).error)
    ensures ParseDetail(dtos[i]).Success? ==>
      var d := ParseDetail(dtos[i]).value;
      ParseAll(dtos[..i + 1]) == Success(lines + [d])
      && ToMapLastWins(lines + [d]) == ToMapLastWins(lines)[d.productId := d]
  {
    assert dtos[..i + 1][..i] == dtos[..i];
    if ParseDetail(dtos[i]).Success? {
      var d := ParseDetail(dtos[i]).value;
      assert (lines + [d])[..|lines|] == lines;
    }
  }

  /** Once a prefix of the lines fails to parse, so does the whole. */
  lemma {:induction false} ParseAllStops(dtos: seq<SalesDetailsDto>, n: nat)
    requires n <= |dtos| && ParseAll(dtos[..n]).Failure?
    ensures ParseAll(dtos) == ParseAll(dtos[..n])
    decreases |dtos|
  {
    if n < |dtos| {
      var init := dtos[..|dtos| - 1];
      assert init[..n] == dtos[..n];
      ParseAllStops(init, n);
    } else {
      assert dtos[..n] == dtos;
    }
  }
}
