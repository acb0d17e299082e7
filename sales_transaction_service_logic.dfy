/** The computations SalesTransactionService performs between its calls to
    collaborators: the tax quote, the stock delta of an update, the
    response views, and the rebuilding of suspended transactions. */
module ServiceLogic {
  import opened Decimal
  import opened Collections
  import opened Types
  import opened Entity

  // ------------------------------------------------------------ tax record

  /** findSalesTaxByTaxType(GST).orElseGet(save a new one at 0.09): the
      stored record if there is one, otherwise the default. */
  function GstOf(stored: Option<SalesTax>): SalesTax
  {
    if stored.Some? then stored.value else SalesTax(GST, DefaultGstRate)
  }

  /** The stored record wins; the default is GST at new BigDecimal("0.09"). */
  lemma GstOfSpec(stored: Option<SalesTax>)
    ensures stored.Some? ==> GstOf(stored) == stored.value
    ensures stored.None? ==>
      GstOf(stored).taxType == GST
      && Parse("0.09") == Some(GstOf(stored).taxRate) && Format(GstOf(stored).taxRate) == "0.09"
  {
    DefaultGstRateText();
  }

  // ------------------------------------------------------------ quote

  /** The tax and total the service derives from a subtotal: the tax is
      subtotal × rate rounded to two places HALF_UP, the total the sum of
      the two rounded again. */
  function AmountsFrom(subtotal: Dec, tax: SalesTax): (a: Amounts)
    ensures a.subtotal == subtotal && a.salesTaxAmount.scale == 2 && a.total.scale == 2
  {
    var taxAmount := Round2(Mul(subtotal, tax.taxRate));
    Amounts(subtotal, taxAmount, Round2(Add(subtotal, taxAmount)))
  }

  /** Each price × quantity summed exactly and the sum rounded once to two
      places HALF_UP; tax and total follow from that subtotal. */
  function QuoteAmounts(lines: seq<SalesDetails>, tax: SalesTax): (a: Amounts)
    ensures a.subtotal.scale == 2 && a.salesTaxAmount.scale == 2 && a.total.scale == 2
  {
    AmountsFrom(Round2(Sum(LineSubtotals(lines))), tax)
  }

  /** TaxResultDto: every amount as its string form, and the request lines
      echoed back. */
  datatype TaxResult = TaxResult(
    subTotal: string,
    taxType: string,
    taxRate: string,
    taxAmount: string,
    totalAmount: string,
    salesDetails: seq<SalesDetailsDto>)

  function TaxResultOf(dtos: seq<SalesDetailsDto>, lines: seq<SalesDetails>, tax: SalesTax): TaxResult
  {
    var a := QuoteAmounts(lines, tax);
    TaxResult(Format(a.subtotal), TaxTypeName(tax.taxType), Format(tax.taxRate),
              Format(a.salesTaxAmount), Format(a.total), dtos)
  }

  /** calculateSalesTax once the GST record is known: every price is parsed
      (the first malformed one throws) and the amounts are quoted. */
  function Quote(dtos: seq<SalesDetailsDto>, tax: SalesTax): (r: Result<TaxResult>)
    ensures r.Success? <==> forall i :: 0 <= i < |dtos| ==> Parse(dtos[i].salesPricePerUnit).Some?
    ensures r.Failure? ==> r.error == NumberFormat
    ensures r.Success? ==> r.value.salesDetails == dtos && r.value.taxType == TaxTypeName(tax.taxType)
  {
    ParseAllSpec(dtos);
    match ParseAll(dtos)
    case Failure(e) => Failure(e)
    case Success(lines) => Success(TaxResultOf(dtos, lines, tax))
  }

  /** The quoted subtotal is within half a cent of the exact sum of
      price × quantity; tax and total are derived from it. */
  lemma QuoteRounding(lines: seq<SalesDetails>, tax: SalesTax)
    ensures -0.005 <= Value(QuoteAmounts(lines, tax).subtotal) - ExactTotal(lines) <= 0.005
    ensures QuoteAmounts(lines, tax) == AmountsFrom(QuoteAmounts(lines, tax).subtotal, tax)
  {
    SumOfLinesIsExact(lines);
    Round2Value(Sum(LineSubtotals(lines)));
  }

  /** The tax is within half a cent of subtotal × rate and the total within
      half a cent of subtotal plus tax. */
  lemma AmountsRounding(subtotal: Dec, tax: SalesTax)
    ensures var a := AmountsFrom(subtotal, tax);
      && -0.005 <= Value(a.salesTaxAmount) - Value(subtotal) * Value(tax.taxRate) <= 0.005
      && -0.005 <= Value(a.total) - (Value(subtotal) + Value(a.salesTaxAmount)) <= 0.005
  {
    var a := AmountsFrom(subtotal, tax);
    RoundedProduct(subtotal, tax.taxRate);
    RoundedSum(subtotal, a.salesTaxAmount);
  }

  lemma RoundedProduct(a: Dec, b: Dec)
    ensures -0.005 <= Value(Round2(Mul(a, b))) - Value(a) * Value(b) <= 0.005
  {
    Round2Value(Mul(a, b));
    MulValue(a, b);
  }

  lemma RoundedSum(a: Dec, b: Dec)
    ensures -0.005 <= Value(Round2(Add(a, b))) - (Value(a) + Value(b)) <= 0.005
  {
    Round2Value(Add(a, b));
    AddValue(a, b);
  }

  /** The quote depends on the lines only as a multiset, and it agrees
      with the amounts a transaction holding the same lines recalculates. */
  lemma QuoteAnyOrder(lines: seq<SalesDetails>, others: seq<SalesDetails>, tax: SalesTax)
    requires multiset(lines) == multiset(others)
    ensures QuoteAmounts(lines, tax) == QuoteAmounts(others, tax)
  {
    MapSeqPermutation(LineSubtotal, lines, others);
    SumPermutation(LineSubtotals(lines), LineSubtotals(others));
  }

  lemma QuoteMatchesTransaction(lines: seq<SalesDetails>, details: map<int, SalesDetails>, tax: SalesTax)
    requires multiset(lines) == multiset(Values(details))
    ensures QuoteAmounts(lines, tax) == Recalculate(details, tax)
  {
    RecalculateAnyOrder(details, tax, lines);
  }

  /** The line a DTO parses to, with a malformed price read as zero. */
  function LineOf(dto: SalesDetailsDto): SalesDetails
  {
    match Parse(dto.salesPricePerUnit)
    case Some(p) => SalesDetails(dto.productId, dto.quantity, p)
    case None => SalesDetails(dto.productId, dto.quantity, Zero)
  }

  lemma ParsedLines(dtos: seq<SalesDetailsDto>)
    requires ParseAll(dtos).Success?
    ensures ParseAll(dtos).value == MapSeq(LineOf, dtos)
  {
    ParseAllSpec(dtos);
    var lines := ParseAll(dtos).value;
    forall i | 0 <= i < |dtos|
      ensures lines[i] == LineOf(dtos[i])
    {
      assert ParseDetail(dtos[i]) == Success(lines[i]);
    }
  }

  /** Reordering the request lines does not change whether the quote
      succeeds or any of its amounts. */
  lemma QuoteRequestAnyOrder(dtos: seq<SalesDetailsDto>, others: seq<SalesDetailsDto>, tax: SalesTax)
    requires multiset(dtos) == multiset(others)
    ensures Quote(dtos, tax).Success? <==> Quote(others, tax).Success?
    ensures Quote(dtos, tax).Success? ==>
      Quote(dtos, tax).value == Quote(others, tax).value.(salesDetails := dtos)
  {
    if Quote(dtos, tax).Success? {
      PricesParseAnyOrder(dtos, others);
      ParsedLinesAnyOrder(dtos, others);
      QuoteAnyOrder(ParseAll(dtos).value, ParseAll(others).value, tax);
    } else if Quote(others, tax).Success? {
      PricesParseAnyOrder(others, dtos);
    }
  }

  lemma PricesParseAnyOrder(dtos: seq<SalesDetailsDto>, others: seq<SalesDetailsDto>)
    requires multiset(dtos) == multiset(others)
    requires ParseAll(dtos).Success?
    ensures ParseAll(others).Success?
  {
    ParseAllSpec(dtos);
    ParseAllSpec(others);
    forall i | 0 <= i < |others|
      ensures ParseDetail(others[i]).Success?
    {
      assert others[i] in multiset(others);
      var j :| 0 <= j < |dtos| && dtos[j] == others[i];
    }
  }

  lemma ParsedLinesAnyOrder(dtos: seq<SalesDetailsDto>, others: seq<SalesDetailsDto>)
    requires multiset(dtos) == multiset(others)
    requires ParseAll(dtos).Success? && ParseAll(others).Success?
    ensures multiset(ParseAll(dtos).value) == multiset(ParseAll(others).value)
  {
    ParsedLines(dtos);
    ParsedLines(others);
    MapSeqPermutation(LineOf, dtos, others);
  }

  /** The request of the service's own test: 2 × 50.0, 3 × 100.0 and
      4 × 200.0 at the default rate. */
  const ExampleRequest: seq<SalesDetailsDto> :=
    [SalesDetailsDto(1, 2, "50.0"), SalesDetailsDto(2, 3, "100.0"), SalesDetailsDto(3, 4, "200.0")]

  /** The quote that test expects: 1200.00 + 108.00 = 1308.00 at 0.09. */
  lemma QuoteExample()
    ensures Quote(ExampleRequest, GstOf(None))
      == Success(TaxResult("1200.00", "GST", "0.09", "108.00", "1308.00", ExampleRequest))
  {
    var lines := [SalesDetails(1, 2, Dec(500, 1)), SalesDetails(2, 3, Dec(1000, 1)), SalesDetails(3, 4, Dec(2000, 1))];
    ExampleParsed(lines);
    ExampleAmounts(lines);
    ExampleSubtotalText();
    ExampleTaxText();
    ExampleTotalText();
    DefaultGstRateText();
  }

  lemma ExampleParsed(lines: seq<SalesDetails>)
    requires lines == [SalesDetails(1, 2, Dec(500, 1)), SalesDetails(2, 3, Dec(1000, 1)), SalesDetails(3, 4, Dec(2000, 1))]
    ensures ParseAll(ExampleRequest) == Success(lines)
  {
    ExamplePriceTexts();
    var dtos := MapSeq(DetailDto, lines);
    assert dtos[0] == DetailDto(lines[0]) && dtos[1] == DetailDto(lines[1]) && dtos[2] == DetailDto(lines[2]);
    assert dtos[0] == ExampleRequest[0] && dtos[1] == ExampleRequest[1] && dtos[2] == ExampleRequest[2];
    assert dtos == ExampleRequest;
    ParseAllDtos(lines);
  }

  lemma ExampleAmounts(lines: seq<SalesDetails>)
    requires lines == [SalesDetails(1, 2, Dec(500, 1)), SalesDetails(2, 3, Dec(1000, 1)), SalesDetails(3, 4, Dec(2000, 1))]
    ensures QuoteAmounts(lines, GstOf(None)) == Amounts(Dec(120000, 2), Dec(10800, 2), Dec(130800, 2))
  {
    ExampleSubtotals(lines);
    ExampleSum([Dec(1000, 1), Dec(3000, 1), Dec(8000, 1)]);
    ExampleRoundSubtotal();
    ExampleTaxProduct();
    ExampleRoundTax();
    ExampleTotalSum();
    ExampleRoundTotal();
  }

  lemma ExampleSubtotals(lines: seq<SalesDetails>)
    requires lines == [SalesDetails(1, 2, Dec(500, 1)), SalesDetails(2, 3, Dec(1000, 1)), SalesDetails(3, 4, Dec(2000, 1))]
    ensures LineSubtotals(lines) == [Dec(1000, 1), Dec(3000, 1), Dec(8000, 1)]
  {
    var ls := LineSubtotals(lines);
    assert |ls| == 3;
    assert ls[0] == LineSubtotal(lines[0]) == Mul(Dec(500, 1), OfInt(2));
    assert ls[1] == LineSubtotal(lines[1]) == Mul(Dec(1000, 1), OfInt(3));
    assert ls[2] == LineSubtotal(lines[2]) == Mul(Dec(2000, 1), OfInt(4));
  }

  lemma ExampleSum(xs: seq<Dec>)
    requires xs == [Dec(1000, 1), Dec(3000, 1), Dec(8000, 1)]
    ensures Sum(xs) == Dec(12000, 1)
  {
    SumOfThree(xs);
    ExampleFirstAdd();
    ExampleSecondAdd();
    ExampleThirdAdd();
  }

  lemma SumOfThree(xs: seq<Dec>)
    requires |xs| == 3
    ensures Sum(xs) == Add(Add(Add(Zero, xs[0]), xs[1]), xs[2])
  {
    assert xs[..2][..1][..0] == [];
    assert Sum(xs[..2][..1]) == Add(Zero, xs[0]);
  }

  lemma ExampleFirstAdd()
    ensures Add(Zero, Dec(1000, 1)) == Dec(1000, 1)
  {
  }

  lemma ExampleSecondAdd()
    ensures Add(Dec(1000, 1), Dec(3000, 1)) == Dec(4000, 1)
  {
  }

  lemma ExampleThirdAdd()
    ensures Add(Dec(4000, 1), Dec(8000, 1)) == Dec(12000, 1)
  {
  }

  lemma ExampleRoundSubtotal()
    ensures Round2(Dec(12000, 1)) == Dec(120000, 2)
  {
  }

  lemma ExampleTaxProduct()
    ensures Mul(Dec(120000, 2), DefaultGstRate) == Dec(1080000, 4)
  {
  }

  lemma ExampleRoundTax()
    ensures Round2(Dec(1080000, 4)) == Dec(10800, 2)
  {
  }

  lemma ExampleTotalSum()
    ensures Add(Dec(120000, 2), Dec(10800, 2)) == Dec(130800, 2)
  {
  }

  lemma ExampleRoundTotal()
    ensures Round2(Dec(130800, 2)) == Dec(130800, 2)
  {
  }

  /** The three unit prices of the example print as they are written. */
  lemma ExamplePriceTexts()
    ensures Format(Dec(500, 1)) == "50.0"
    ensures Format(Dec(1000, 1)) == "100.0"
    ensures Format(Dec(2000, 1)) == "200.0"
  {
    ExampleDigits();
    WholeTenths(500, 50, "50.0");
    WholeTenths(1000, 100, "100.0");
    WholeTenths(2000, 200, "200.0");
  }

  /** A whole amount at scale 1 prints with one zero decimal. */
  lemma WholeTenths(n: nat, whole: nat, s: string)
    requires n == 10 * whole && s == DigitsOf(whole) + ".0"
    ensures Format(Dec(n, 1)) == s
  {
    FormatTenths(n, whole, 0);
    assert PaddedDigits(0, 1) == "0";
    assert DigitsOf(whole) + "." + "0" == s;
  }

  lemma ExampleDigits()
    ensures PaddedDigits(0, 1) == "0"
    ensures DigitsOf(50) == "50" && DigitsOf(100) == "100" && DigitsOf(200) == "200"
  {
    assert DigitsOf(10) == "10";
    assert DigitsOf(20) == "20";
    assert DigitsOf(100) == DigitsOf(10) + [Digit(0)];
    assert DigitsOf(200) == DigitsOf(20) + [Digit(0)];
  }

  lemma TwoZeros()
    ensures PaddedDigits(0, 2) == "00"
  {
    assert PaddedDigits(0, 2) == PaddedDigits(0, 1) + [Digit(0)];
  }

  lemma ExampleSubtotalText()
    ensures Format(Dec(120000, 2)) == "1200.00"
  {
    TwoZeros();
    assert DigitsOf(12) == "12";
    assert DigitsOf(120) == DigitsOf(12) + [Digit(0)];
    assert DigitsOf(1200) == DigitsOf(120) + [Digit(0)];
    FormatCents(120000, 1200, 0);
  }

  lemma ExampleTaxText()
    ensures Format(Dec(10800, 2)) == "108.00"
  {
    TwoZeros();
    assert DigitsOf(10) == "10";
    assert DigitsOf(108) == DigitsOf(10) + [Digit(8)];
    FormatCents(10800, 108, 0);
  }

  lemma ExampleTotalText()
    ensures Format(Dec(130800, 2)) == "1308.00"
  {
    TwoZeros();
    assert DigitsOf(13) == "13";
    assert DigitsOf(130) == DigitsOf(13) + [Digit(0)];
    assert DigitsOf(1308) == DigitsOf(130) + [Digit(8)];
    FormatCents(130800, 1308, 0);
  }
}
