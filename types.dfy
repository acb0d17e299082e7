/** Values shared by the entity, the gateways and the services: Java's
    32-bit int, the exceptions the core raises, the tax type, a line item,
    its wire form and the suspend/restore snapshot. */
module Types {
  import opened Decimal

  // ------------------------------------------------------------ Java int

  const TwoTo32: int := 0x1_0000_0000

  /** A Java int. Quantities are ints in SalesDetailsDto. */
  type Int32 = x: int | -0x8000_0000 <= x < 0x8000_0000

  /** Two's-complement wrap-around of an int-typed expression. */
  function Wrap32(x: int): (r: Int32)
    ensures (x - r) % TwoTo32 == 0
    ensures -0x8000_0000 <= x < 0x8000_0000 ==> r == x
  {
    (x + 0x8000_0000) % TwoTo32 - 0x8000_0000
  }

  /** Integers that agree modulo 2^32 wrap to the same int. */
  lemma Wrap32Congruent(x: int, y: int)
    requires (x - y) % TwoTo32 == 0
    ensures Wrap32(x) == Wrap32(y)
  {
    var k := (x - y) / TwoTo32;
    assert x - y == k * TwoTo32;
    assert (x + 0x8000_0000) == (y + 0x8000_0000) + k * TwoTo32;
    ModShift(y + 0x8000_0000, k);
  }

  lemma ModShift(a: int, k: int)
    ensures (a + k * TwoTo32) % TwoTo32 == a % TwoTo32
  {
  }

  /** Java's unary minus on an int. */
  function Neg32(q: Int32): Int32 { Wrap32(0 - q as int) }

  /** Java's subtraction of two ints. */
  function Sub32(a: Int32, b: Int32): Int32 { Wrap32(a - b) }

  /** Adding back what was subtracted, with wrap-around, restores the int. */
  lemma Sub32Inverse(a: Int32, b: Int32)
    ensures Wrap32(b + Sub32(a, b)) == a
  {
    Wrap32Congruent(b + Sub32(a, b), a);
  }

  /** An int plus its negation wraps to zero. */
  lemma Neg32Inverse(a: Int32)
    ensures Wrap32(a + Neg32(a)) == 0
  {
    Wrap32Congruent(a + Neg32(a), 0);
  }

  /** Adding an int leaves another unchanged under wrap-around only when it
      is zero. */
  lemma Wrap32AddZero(b: Int32, d: Int32)
    ensures Wrap32(b + d) == b <==> d == 0
  {
    if Wrap32(b + d) == b {
      assert (b + d - b) % TwoTo32 == 0;
    }
  }

  // ------------------------------------------------------------ errors

  /** The exceptions the modelled code raises or lets through. */
  datatype Error =
    | Business(code: string)       // BusinessException with its error code
    | StockUpdate(message: string) // StockUpdateException
    | NumberFormat                 // new BigDecimal(String) on a malformed string
    | IllegalArgument              // Enum.valueOf on an unknown name
    | IllegalState                 // Collectors.toMap on a repeated key
    | DateFormat                   // DateUtil failing to parse a date string
    | Transport                    // any failure of a remote call itself

  datatype Result<T> = Success(value: T) | Failure(error: Error)

  /** Steps run one after another: the values of all of them, or the
      exception of the first that throws. */
  function Sequenced<T>(rs: seq<Result<T>>): Result<seq<T>>
  {
    if |rs| == 0 then Success([])
    else
      match Sequenced(rs[..|rs| - 1])
      case Failure(e) => Failure(e)
      case Success(vs) =>
        match rs[|rs| - 1]
        case Failure(e) => Failure(e)
        case Success(v) => Success(vs + [v])
  }

  /** Sequencing succeeds exactly when every step does, and then keeps
      every value in order; otherwise it fails as the first failing step. */
  lemma {:induction false} SequencedSpec<T>(rs: seq<Result<T>>)
    ensures Sequenced(rs).Success? <==> forall i :: 0 <= i < |rs| ==> rs[i].Success?
    ensures Sequenced(rs).Success? ==>
      |Sequenced(rs).value| == |rs| && forall i :: 0 <= i < |rs| ==> rs[i] == Success(Sequenced(rs).value[i])
    ensures Sequenced(rs).Failure? ==>
      exists i :: 0 <= i < |rs| && rs[i] == Failure(Sequenced(rs).error) && forall j :: 0 <= j < i ==> rs[j].Success?
  {
    if |rs| > 0 {
      var n := |rs|;
      var init := rs[..n - 1];
      SequencedSpec(init);
      assert forall i :: 0 <= i < n - 1 ==> init[i] == rs[i];
      match Sequenced(init)
      case Failure(e) =>
        var i :| 0 <= i < n - 1 && init[i] == Failure(e) && forall j :: 0 <= j < i ==> init[j].Success?;
        assert rs[i] == Failure(e);
      case Success(vs) =>
        if rs[n - 1].Success? {
          var all := vs + [rs[n - 1].value];
          assert Sequenced(rs) == Success(all);
          forall i | 0 <= i < n
            ensures rs[i] == Success(all[i])
          {
            if i < n - 1 {
              assert all[i] == vs[i];
            }
          }
        }
    }
  }

  /** One more step that succeeds extends the sequenced values. */
  lemma SequencedExtend<T>(rs: seq<Result<T>>, i: nat, vs: seq<T>)
    requires i < |rs| && Sequenced(rs[..i]) == Success(vs) && rs[i].Success?
    ensures Sequenced(rs[..i + 1]) == Success(vs + [rs[i].value])
  {
    assert rs[..i + 1][..i] == rs[..i];
  }

  /** Once a prefix of the steps fails, so does the whole. */
  lemma {:induction false} SequencedStops<T>(rs: seq<Result<T>>, n: nat)
    requires n <= |rs| && Sequenced(rs[..n]).Failure?
    ensures Sequenced(rs) == Sequenced(rs[..n])
    decreases |rs|
  {
    if n < |rs| {
      var init := rs[..|rs| - 1];
      assert init[..n] == rs[..n];
      SequencedStops(init, n);
    } else {
      assert rs[..n] == rs;
    }
  }

  // ------------------------------------------------------------ tax

  datatype TaxType = GST

  /** Enum.name() */
  function TaxTypeName(t: TaxType): string
  {
    match t
    case GST => "GST"
  }

  /** Enum.valueOf(String): exact match of a constant's name. */
  function TaxTypeValueOf(s: string): (r: Result<TaxType>)
    ensures r.Failure? ==> r.error == IllegalArgument
  {
    if s == "GST" then Success(GST) else Failure(IllegalArgument)
  }

  /** valueOf and name are inverse to each other. */
  lemma TaxTypeNames(t: TaxType, s: string)
    ensures TaxTypeValueOf(TaxTypeName(t)) == Success(t)
    ensures TaxTypeValueOf(s) == Success(t) ==> TaxTypeName(t) == s
  {
  }

  datatype SalesTax = SalesTax(taxType: TaxType, taxRate: Dec)

  /** new BigDecimal("0.09"), the rate a missing GST record is created with. */
  const DefaultGstRate: Dec := Dec(9, 2)

  lemma DefaultGstRateText()
    ensures Parse("0.09") == Some(DefaultGstRate)
    ensures Format(DefaultGstRate) == "0.09"
  {
    DefaultGstRateFormat();
    ParseFormat(DefaultGstRate);
  }

  lemma DefaultGstRateFormat()
    ensures Format(DefaultGstRate) == "0.09"
  {
    FormatCents(9, 0, 9);
    assert PaddedDigits(0, 1) == "0";
    assert PaddedDigits(9, 2) == PaddedDigits(0, 1) + [Digit(9)];
  }

  /** SalesTax.calculateTax is not part of this model; it is taken to be
      the same arithmetic the service writes out for a quote:
      subtotal × rate, set to scale 2 with HALF_UP. */
  function CalculateTax(tax: SalesTax, subtotal: Dec): (r: Dec)
    ensures r.scale == 2
  {
    Round2(Mul(subtotal, tax.taxRate))
  }

  // ------------------------------------------------------------ line items

  /** A line item: SalesDetails, without its back-reference to the owning
      transaction. The productId is a Java Long, kept unbounded here. */
  datatype SalesDetails = SalesDetails(productId: int, quantity: Int32, salesPricePerUnit: Dec)

  /** SalesDetails.getSubTotal is not part of this model; it is taken to be
      price × quantity, as the service computes a quote line. */
  function LineSubtotal(d: SalesDetails): Dec
  {
    Mul(d.salesPricePerUnit, OfInt(d.quantity))
  }

  /** A line subtotal is exact. */
  lemma LineSubtotalValue(d: SalesDetails)
    ensures Value(LineSubtotal(d)) == Value(d.salesPricePerUnit) * d.quantity as real
  {
    MulValue(d.salesPricePerUnit, OfInt(d.quantity));
    OfIntValue(d.quantity);
  }

  /** The wire form of a line item: the price travels as a string. */
  datatype SalesDetailsDto = SalesDetailsDto(productId: int, quantity: Int32, salesPricePerUnit: string)

  /** new SalesDetails(dto.productId(), dto.quantity(), new BigDecimal(dto.salesPricePerUnit())) */
  function ParseDetail(dto: SalesDetailsDto): (r: Result<SalesDetails>)
    ensures r.Success? <==> Parse(dto.salesPricePerUnit).Some?
    ensures r.Success? ==> r.value.productId == dto.productId && r.value.quantity == dto.quantity
    ensures r.Failure? ==> r.error == NumberFormat
  {
    match Parse(dto.salesPricePerUnit)
    case None => Failure(NumberFormat)
    case Some(p) => Success(SalesDetails(dto.productId, dto.quantity, p))
  }

  /** new SalesDetailsDto(d.getProductId(), d.getQuantity(), d.getSalesPricePerUnit().toString()) */
  function DetailDto(d: SalesDetails): SalesDetailsDto
  {
    SalesDetailsDto(d.productId, d.quantity, Format(d.salesPricePerUnit))
  }

  /** A line item survives the trip through its wire form unchanged. */
  lemma ParseDetailDto(d: SalesDetails)
    ensures ParseDetail(DetailDto(d)) == Success(d)
  {
    ParseFormat(d.salesPricePerUnit);
  }

  // ------------------------------------------------------------ snapshot

  /** SalesTransactionMemento: every amount as a plain decimal string. */
  datatype Memento = Memento(
    transactionId: int,
    businessEntityId: int,
    subTotal: string,
    taxType: string,
    taxRate: string,
    taxAmount: string,
    totalAmount: string,
    salesDetails: seq<SalesDetailsDto>,
    status: Option<string>,
    transactionDateTime: string)

  /** java.time.Instant, as milliseconds since the epoch. */
  type Instant = int

  /** TransactionStatus */
  datatype TransactionStatus = PendingPayment | Completed | Rejected | Cancelled
}
