# RetailPulse sales microservice — a verified model

This project models the core of the RetailPulse sales microservice: the
service that prices, records, updates, suspends and restores point-of-sale
transactions, the transaction entity with its line items and memento
snapshots, the stock-update service that reports sold quantities to the
inventory service, and the listener that turns payment events into
transaction status updates.

The modules follow the program:

- `Decimal` (decimal.dfy) is the part of `java.math.BigDecimal` the code
  uses. A value is an unscaled integer and a scale. It has `add`,
  `multiply`, `setScale(2, HALF_UP)`, `toPlainString` and the string
  constructor.
- `Collections` (collections.dfy) holds the iteration order of the
  `HashMap`s the code walks: ascending keys. Every sum over those maps is
  proved not to depend on the order.
- `Types` (types.dfy) holds Java `int` arithmetic with wrap-around, the
  `TaxType` enum, `SalesTax`, line items and their wire form, and mementos.
- `Entity` (sales_transaction.dfy) is `SalesTransaction`. It is a class
  whose fields its methods update. Each method is specified by a function
  on a value snapshot of its fields (`TransactionRecord`).
- `Gateways` (gateways.dfy) holds the collaborators outside this model:
  the repositories, the Feign clients and the suspended-transaction
  registry. Their effects are recorded in a ghost journal of events.
- `StockUpdates` (stock_update_service.dfy) is `StockUpdateService`.
- `ServiceLogic` (sales_transaction_service_logic.dfy) holds the pure
  arithmetic of `calculateSalesTax`.
- `UpdateDelta` (update_delta.dfy) is the stock delta that
  `updateSalesTransaction` sends.
- `TransactionViews` (transaction_views.dfy) holds the two response
  mappers, and the rebuilding of parked transactions after a suspend or a
  restore.
- `Service` (sales_transaction_service.dfy) is `SalesTransactionService`.
- `PaymentEvents` (payment_event_listener.dfy) is `PaymentEventListener`.

Inputs the Java code reads from the environment are parameters here:
- the clock: `now`, `nowMillis` and `nowText`;
- `DateUtil`'s formatter and parser;
- the Asia/Singapore zone conversion.

Exceptions are `Failure` values.

`@Transactional` is modelled as an explicit rollback of the two
repositories when an exception escapes. Remote calls already made stay in
the journal.

Where the code departs from the system's documented design, the model
follows the code:

- `StockUpdateService` declares only `updateStocks(SalesTransaction)`. The
  service calls `updateStocks(Long, Map)`. It also calls
  `inventoryServiceClient.updateStocks`, which the client interface does
  not declare. The model gives the stock service the call the service
  makes: a request built from the map, sent, and turned into a
  `StockUpdateException` when the answer says `success == false`. The
  one-argument method has no transaction id for the exception message, so
  the model supplies one: none for a create, the stored row's id for an
  update.
- `PaymentRequestDto` declares `Long transactionId`, but the service passes
  `String.valueOf(transactionId)`, which does not compile as written. The
  model's payment request carries the transaction's integer id.
- `StockUpdateException` is not a `BusinessException`. The
  `catch (BusinessException e)` around the stock call therefore never
  fires: stock failures and transport failures escape unwrapped, and no
  `INVENTORY_UPDATE_FAILED` is ever raised.
- The documented example says that changing `{A:2}` to `{A:2, B:1}` sends
  only `{B:+1}`. The code sends `{A:0, B:+1}`: every requested product is
  in the delta, with a zero for an unchanged one.
- `TRANSACTION_TOTAL_NULL` cannot happen, because `addSalesDetails`
  always sets the total (`Service.SoldRecord` proves the saved total is
  present).
- A payment failure makes `createSalesTransaction` throw, so its database
  writes are rolled back. The stock update it sent is not undone.
- The request's `taxAmount` and `totalAmount` are never read.
- A memento has ten components. `saveToMemento` passes nine values; the
  model leaves the status out.
- `ErrorCodes` is not part of this model, so the value of
  `ErrorCodes.NOT_FOUND` is taken to be `"NOT_FOUND"`.
- `updateTransactionStatus` is called by the listener but not declared by
  the service. It is modelled as a recorded request that may end normally
  or with an exception.

## Model

| member | source | states |
|---|---|---|
| Decimal.Add | src/main/java/com/retailpulse/service/SalesTransactionService.java:57 | the sum's scale is the larger of the two scales, as `BigDecimal.add` gives |
| Decimal.AddValue | src/main/java/com/retailpulse/service/SalesTransactionService.java:57 | the sum is exact: its value is the sum of the two values |
| Decimal.Mul | src/main/java/com/retailpulse/service/SalesTransactionService.java:56 | the product's scale is the sum of the scales |
| Decimal.MulValue | src/main/java/com/retailpulse/service/SalesTransactionService.java:66 | the product is exact |
| Decimal.OfInt | src/main/java/com/retailpulse/service/SalesTransactionService.java:56 | `new BigDecimal(int)` has scale 0 |
| Decimal.OfIntValue | src/main/java/com/retailpulse/service/SalesTransactionService.java:56 | `new BigDecimal(int)` has the int's value |
| Decimal.Round2 | src/main/java/com/retailpulse/service/SalesTransactionService.java:58 | `setScale(2, HALF_UP)` yields scale 2 |
| Decimal.Round2Spec | src/main/java/com/retailpulse/service/SalesTransactionService.java:58 | HALF_UP: a value of scale at most 2 is unchanged; otherwise the rounding error is at most half a cent, and an exact tie rounds away from zero |
| Decimal.Round2Value | src/main/java/com/retailpulse/entity/SalesTransaction.java:111 | rounding to cents moves the value by at most 0.005 |
| Decimal.SumPermutation | src/main/java/com/retailpulse/entity/SalesTransaction.java:108-110 | reducing amounts with `add` from zero gives the same result in any order |
| Decimal.ParseFormat | src/main/java/com/retailpulse/entity/SalesTransaction.java:68-90 | the string constructor reads `toPlainString` back: the same unscaled value and the same scale |
| Collections.SortedKeysSpec | src/main/java/com/retailpulse/entity/SalesTransaction.java:73 | the iteration order visits each key of the map exactly once, in ascending order |
| Collections.ValuesSpec | src/main/java/com/retailpulse/entity/SalesTransaction.java:73 | `values()` lists one value per key, in the key order |
| Collections.MapSeqPermutation | src/main/java/com/retailpulse/entity/SalesTransaction.java:108-109 | mapping each element of two rearrangements of the same lines gives rearrangements of each other |
| Types.Wrap32 | src/main/java/com/retailpulse/service/SalesTransactionService.java:203 | Java int arithmetic: the result is congruent to the exact one modulo 2^32, and equals it when it fits |
| Types.Sub32Inverse | src/main/java/com/retailpulse/service/SalesTransactionService.java:203 | adding the stored quantity back to the int difference gives the new quantity, even across wrap-around |
| Types.Neg32Inverse | src/main/java/com/retailpulse/service/SalesTransactionService.java:189 | a quantity plus its int negation is zero, `Integer.MIN_VALUE` included |
| Types.Wrap32AddZero | src/main/java/com/retailpulse/service/SalesTransactionService.java:203 | adding an int delta leaves a quantity unchanged exactly when the delta is zero |
| Types.SequencedSpec | src/main/java/com/retailpulse/service/SalesTransactionService.java:273-280 | a stream of steps succeeds exactly when every step does, giving their values in order; otherwise it fails with the first failing step's exception |
| Types.TaxTypeValueOf | src/main/java/com/retailpulse/entity/SalesTransaction.java:87 | `TaxType.valueOf` fails only with IllegalArgumentException |
| Types.TaxTypeNames | src/main/java/com/retailpulse/entity/SalesTransaction.java:69-87 | `valueOf(name())` is the constant, and `valueOf` accepts only the constant's exact name |
| Types.DefaultGstRateText | src/main/java/com/retailpulse/service/SalesTransactionService.java:62 | `new BigDecimal("0.09")` is the default rate, and it prints back as "0.09" |
| Types.CalculateTax | src/main/java/com/retailpulse/entity/SalesTransaction.java:113 | the tax amount has scale 2 |
| Types.LineSubtotalValue | src/main/java/com/retailpulse/entity/SalesTransaction.java:109 | a line subtotal is exactly price × quantity |
| Types.ParseDetail | src/main/java/com/retailpulse/service/SalesTransactionService.java:96-100 | building a line succeeds exactly when its price parses and keeps productId and quantity; otherwise it throws NumberFormatException |
| Types.ParseDetailDto | src/main/java/com/retailpulse/entity/SalesTransaction.java:74-98 | a line written to its wire form and read back is the same line |
| Entity.Recalculate | src/main/java/com/retailpulse/entity/SalesTransaction.java:107-115 | subtotal, tax amount and total all have scale 2 |
| Entity.RecalculateAnyOrder | src/main/java/com/retailpulse/entity/SalesTransaction.java:108-111 | the subtotal is the rounded sum of the line subtotals taken in any order |
| Entity.SumOfLinesIsExact | src/main/java/com/retailpulse/entity/SalesTransaction.java:108-110 | before rounding, the sum is exactly Σ price × quantity |
| Entity.SubtotalRounding | src/main/java/com/retailpulse/entity/SalesTransaction.java:108-112 | the stored subtotal is within half a cent of the exact sum of the lines |
| Entity.RecalculateTotalled | src/main/java/com/retailpulse/entity/SalesTransaction.java:107-115 | after a recalculation the amounts are those of the lines; recalculating changes a transaction exactly when its amounts were not |
| Entity.WithDetailsSpec | src/main/java/com/retailpulse/entity/SalesTransaction.java:51-57 | adding lines puts each new line under its key, keeps every other stored line, recomputes the amounts and touches nothing else |
| Entity.ReplacedDetailsSpec | src/main/java/com/retailpulse/entity/SalesTransaction.java:59-62 | replacing lines leaves exactly the new lines, with the amounts recomputed and nothing else changed |
| Entity.ToMapLastWinsSpec | src/main/java/com/retailpulse/service/SalesTransactionService.java:101-105 | collecting with a replace-on-duplicate merge keeps a key for every line, each value comes from a line, each line is filed under its productId, and the last line for a productId wins |
| Entity.ParseAllSpec | src/main/java/com/retailpulse/service/SalesTransactionService.java:95-100 | mapping the request lines succeeds exactly when every price parses, keeps them in order, and otherwise throws NumberFormatException |
| Entity.ParseDetailsError | src/main/java/com/retailpulse/service/SalesTransactionService.java:95-105 | building the line map fails only with NumberFormatException |
| Entity.ParseDetailsKeyed | src/main/java/com/retailpulse/service/SalesTransactionService.java:95-105 | every line of the built map is filed under its own productId |
| Entity.CollectStrictSpec | src/main/java/com/retailpulse/service/SalesTransactionService.java:213-221 | `toMap` without a merge function succeeds exactly when every price parses and no productId repeats; it then agrees with the last-wins collection and has one key per requested product; otherwise it throws NumberFormatException or IllegalStateException |
| Entity.MementoLines | src/main/java/com/retailpulse/entity/SalesTransaction.java:73-79 | the memento holds one wire line per stored line, each the stored line's wire form, without repeats |
| Entity.DetailLineAt | src/main/java/com/retailpulse/service/SalesTransactionService.java:331-337 | the i-th wire line of a response is the stored line with the i-th smallest productId |
| Entity.RestoredAmountsSucceed | src/main/java/com/retailpulse/entity/SalesTransaction.java:88-91 | when all three amounts and the date parse, restoring them sets exactly those four fields |
| Entity.RestoredHeaderSucceeds | src/main/java/com/retailpulse/entity/SalesTransaction.java:85-91 | when every scalar parses, restoring the header sets id, business entity, tax, amounts and date from the memento |
| Entity.RestoreRecomputes | src/main/java/com/retailpulse/entity/SalesTransaction.java:84-105 | a restore that ends normally parses every line, adds them to the lines already held, recomputes the amounts and takes id, business entity, tax and date from the memento |
| Entity.ParseAllDtos | src/main/java/com/retailpulse/entity/SalesTransaction.java:73-99 | the wire forms of a list of lines parse back to the same list |
| Entity.ToMapOfValues | src/main/java/com/retailpulse/entity/SalesTransaction.java:93-101 | collecting a keyed line map's values by productId gives that map back |
| Entity.MementoRoundTrip | src/main/java/com/retailpulse/entity/SalesTransaction.java:64-105 | restoring a new transaction from a memento gives back the saved transaction, with the clock reading as id and the recorded time as date |
| Entity.MementoHeaderBack | src/main/java/com/retailpulse/entity/SalesTransaction.java:64-91 | the memento's scalars read back to the transaction's business entity, tax and amounts |
| Entity.MementoLinesBack | src/main/java/com/retailpulse/entity/SalesTransaction.java:73-101 | the memento's lines read back to the transaction's line map |
| Entity.SalesTransaction.constructor | src/main/java/com/retailpulse/entity/SalesTransaction.java:46-49 | a new transaction has only its business entity and tax set, and no lines |
| Entity.SalesTransaction.Load | src/main/java/com/retailpulse/entity/SalesTransaction.java:44 | a transaction loaded by the repository holds the stored columns |
| Entity.SalesTransaction.AddSalesDetails | src/main/java/com/retailpulse/entity/SalesTransaction.java:51-57 | the fields become the add-lines function of the old fields |
| Entity.SalesTransaction.UpdateSalesDetails | src/main/java/com/retailpulse/entity/SalesTransaction.java:59-62 | the fields become the replace-lines function of the old fields |
| Entity.SalesTransaction.RecalculateTotal | src/main/java/com/retailpulse/entity/SalesTransaction.java:107-115 | the amounts become those of the lines held |
| Entity.SalesTransaction.SaveToMemento | src/main/java/com/retailpulse/entity/SalesTransaction.java:64-82 | the snapshot is the memento of the current fields, under the clock reading |
| Entity.SalesTransaction.RestoreHeader | src/main/java/com/retailpulse/entity/SalesTransaction.java:85-87 | fields are set in source order, and a failing parse throws with the fields assigned before it kept |
| Entity.SalesTransaction.RestoreAmounts | src/main/java/com/retailpulse/entity/SalesTransaction.java:88-91 | the three amounts and the date are set in source order, each failure keeping the earlier ones |
| Entity.SalesTransaction.RestoreFromMemento | src/main/java/com/retailpulse/entity/SalesTransaction.java:84-105 | the fields become the restore function of the old fields; the call returns this object or the first exception |
| Entity.CollectRestored | src/main/java/com/retailpulse/entity/SalesTransaction.java:93-101 | the loop builds the same map as parsing every line and letting a later productId win, or stops at the first malformed price |
| Gateways.SalesTaxRepository.FindSalesTaxByTaxType | src/main/java/com/retailpulse/service/SalesTransactionService.java:60 | the lookup returns the stored GST record, if any |
| Gateways.SalesTaxRepository.Save | src/main/java/com/retailpulse/service/SalesTransactionService.java:62-63 | saving stores the record, returns it and records the write |
| Gateways.SalesTransactionRepository.Save | src/main/java/com/retailpulse/service/SalesTransactionService.java:116 | a new row gets the next identity and the creation timestamp; a stored row is overwritten; the write is recorded |
| Gateways.SalesTransactionRepository.SaveAndFlush | src/main/java/com/retailpulse/service/SalesTransactionService.java:232 | as save, recorded as flushed |
| Gateways.SalesTransactionRepository.FindById | src/main/java/com/retailpulse/service/SalesTransactionService.java:171-172 | a fresh entity holding the stored row exactly when the id is stored |
| Gateways.SalesTransactionHistory.AddTransaction | src/main/java/com/retailpulse/service/SalesTransactionService.java:270-271 | the memento is filed under its transactionId in its business entity's bucket, which is returned |
| Gateways.SalesTransactionHistory.DeleteTransaction | src/main/java/com/retailpulse/service/SalesTransactionService.java:286-287 | the memento is removed from the bucket, which is returned |
| Gateways.InventoryServiceClient.UpdateStocks | src/main/java/com/retailpulse/service/StockUpdateService.java:23 | the request is sent and recorded together with its answer; the call can fail only in transport |
| Gateways.PaymentServiceClient.CreatePaymentIntent | src/main/java/com/retailpulse/service/SalesTransactionService.java:140 | the request is sent and recorded together with its answer; the call can fail only in transport |
| StockUpdates.CreateStockUpdateRequest | src/main/java/com/retailpulse/service/StockUpdateService.java:34-46 | the request names the business entity and has one item per line |
| StockUpdates.ItemAt | src/main/java/com/retailpulse/service/StockUpdateService.java:34-46 | the i-th item is the line with the i-th smallest productId |
| StockUpdates.StockRequestItems | src/main/java/com/retailpulse/service/StockUpdateService.java:34-46 | every item carries a line's productId and quantity, every line has an item, no product appears twice |
| StockUpdates.CheckResponse | src/main/java/com/retailpulse/service/StockUpdateService.java:25-31 | the answer passes exactly when it arrived and says success; a refusal becomes a StockUpdateException with its message; a transport failure escapes as it is |
| StockUpdates.CheckResponseErrors | src/main/java/com/retailpulse/service/StockUpdateService.java:21-32 | the stock call fails only with a StockUpdateException or a transport error |
| StockUpdates.StockUpdateService.constructor | src/main/java/com/retailpulse/service/StockUpdateService.java:17-19 | the service holds the given client |
| StockUpdates.StockUpdateService.UpdateStocks | src/main/java/com/retailpulse/service/StockUpdateService.java:21-32 | exactly one inventory call with the request built from the lines, recorded with its answer, and the result is that answer checked |
| ServiceLogic.GstOfSpec | src/main/java/com/retailpulse/service/SalesTransactionService.java:60-64 | the stored GST record is used when present; otherwise a GST record at rate "0.09" |
| ServiceLogic.AmountsFrom | src/main/java/com/retailpulse/service/SalesTransactionService.java:66-73 | tax and total are cents; the subtotal is the one given |
| ServiceLogic.QuoteAmounts | src/main/java/com/retailpulse/service/SalesTransactionService.java:55-73 | the three quoted amounts are cents |
| ServiceLogic.Quote | src/main/java/com/retailpulse/service/SalesTransactionService.java:54-76 | a quote exists exactly when every price parses, echoes the request lines and names the tax type; otherwise NumberFormatException |
| ServiceLogic.QuoteRounding | src/main/java/com/retailpulse/service/SalesTransactionService.java:55-58 | the quoted subtotal is within half a cent of Σ price × quantity |
| ServiceLogic.AmountsRounding | src/main/java/com/retailpulse/service/SalesTransactionService.java:66-73 | the tax is within half a cent of subtotal × rate, the total within half a cent of subtotal + tax |
| ServiceLogic.QuoteAnyOrder | src/main/java/com/retailpulse/service/SalesTransactionService.java:55-58 | the quoted amounts do not depend on the order of the lines |
| ServiceLogic.QuoteMatchesTransaction | src/main/java/com/retailpulse/service/SalesTransactionService.java:55-66 | a quote agrees with the amounts a transaction holding the same lines computes |
| ServiceLogic.ParsedLines | src/main/java/com/retailpulse/service/SalesTransactionService.java:56 | the parsed lines are the request lines position by position |
| ServiceLogic.QuoteRequestAnyOrder | src/main/java/com/retailpulse/service/SalesTransactionService.java:54-76 | reordering the request changes neither whether a quote exists nor any of its amounts |
| ServiceLogic.PricesParseAnyOrder | src/main/java/com/retailpulse/service/SalesTransactionService.java:56 | whether all prices parse does not depend on their order |
| ServiceLogic.ParsedLinesAnyOrder | src/main/java/com/retailpulse/service/SalesTransactionService.java:56 | reordered requests parse to reordered lines |
| ServiceLogic.QuoteExample | src/test/java/com/retailpulse/service/SalesTransactionServiceTest.java:87-97 | the quote for 2 × 50.0, 3 × 100.0 and 4 × 200.0 under the default GST is 1200.00, 108.00 and 1308.00 |
| UpdateDelta.MissingProductIds | src/main/java/com/retailpulse/service/SalesTransactionService.java:176-182 | a product is missing exactly when it is stored and no request line names it |
| UpdateDelta.DeltaMapSpec | src/main/java/com/retailpulse/service/SalesTransactionService.java:184-211 | the delta fails exactly when the new lines cannot be collected; otherwise it covers every stored or requested product, with the int difference for a kept one, the new line for an added one and the negated line for a dropped one |
| UpdateDelta.KeyedIncoming | src/main/java/com/retailpulse/service/SalesTransactionService.java:213-221 | each collected new line is filed under its productId |
| UpdateDelta.DeltaKeyed | src/main/java/com/retailpulse/service/SalesTransactionService.java:184-211 | the delta is keyed by productId |
| UpdateDelta.DeltaReconciles | src/main/java/com/retailpulse/service/SalesTransactionService.java:184-211 | for every product, the stored quantity plus the delta is the requested quantity, in int arithmetic, with a missing line counting as zero |
| UpdateDelta.DeltaZero | src/main/java/com/retailpulse/service/SalesTransactionService.java:193-211 | the delta for a product is zero exactly when its stored and requested quantities agree |
| TransactionViews.ViewOf | src/main/java/com/retailpulse/service/SalesTransactionService.java:322-340 | the view carries the id, business entity, formatted date and one wire line per stored line |
| TransactionViews.ViewReadsBack | src/main/java/com/retailpulse/service/SalesTransactionService.java:322-340 | the view's strings parse back to the transaction's tax, amounts and line map |
| TransactionViews.RestoredTax | src/main/java/com/retailpulse/service/SalesTransactionService.java:292-295 | the tax is built exactly when the type name and the rate parse, else IllegalArgumentException or NumberFormatException |
| TransactionViews.RebuildOne | src/main/java/com/retailpulse/service/SalesTransactionService.java:274-279 | a rebuilt view carries the memento's transactionId and business entity |
| TransactionViews.Rebuilds | src/main/java/com/retailpulse/service/SalesTransactionService.java:273-280 | one rebuild per memento, in bucket order |
| TransactionViews.RebuildAllSpec | src/main/java/com/retailpulse/service/SalesTransactionService.java:273-280 | rebuilding a bucket succeeds exactly when every memento rebuilds, giving one view per memento in order; otherwise the first failure |
| TransactionViews.SuspendedView | src/main/java/com/retailpulse/service/SalesTransactionService.java:268-279 | a parked transaction rebuilds into its own view, whichever tax the rebuild starts from |
| TransactionViews.SuspendShowsParked | src/main/java/com/retailpulse/service/SalesTransactionService.java:266-280 | the list a suspend returns contains the view of the transaction just parked |
| TransactionViews.RestoreDropsRestored | src/main/java/com/retailpulse/service/SalesTransactionService.java:286-299 | the list a restore returns omits the restored transaction and shows every other parked one |
| Service.SoldRecord | src/main/java/com/retailpulse/service/SalesTransactionService.java:93-127 | the saved transaction holds the lines, amounts consistent with them, the new identity and a non-null total and date |
| Service.SalesTransactionService.constructor | src/main/java/com/retailpulse/service/SalesTransactionService.java:42-52 | the service holds the given collaborators, all writing to one journal |
| Service.SalesTransactionService.ResolveGst | src/main/java/com/retailpulse/service/SalesTransactionService.java:87-91 | get-or-create: the stored GST record, or a new one at 0.09 that is saved and recorded |
| Service.SalesTransactionService.RollBack | src/main/java/com/retailpulse/service/SalesTransactionService.java:78 | the database transaction's rollback: rows and GST record as they were |
| Service.SalesTransactionService.CalculateSalesTax | src/main/java/com/retailpulse/service/SalesTransactionService.java:54-76 | the result is the quote under the GST record; a malformed price throws before the GST lookup, which otherwise happens once |
| Service.SalesTransactionService.CreateSalesTransaction | src/main/java/com/retailpulse/service/SalesTransactionService.java:78-153 | a null or empty list throws EMPTY_SALE with no effect; otherwise the GST lookup, then a malformed price throws, or the sale goes as the stock and payment answers decide; on any exception the rows and GST record are as before, on success the sold transaction is stored under the next identity |
| Service.SalesTransactionService.CreateFromLines | src/main/java/com/retailpulse/service/SalesTransactionService.java:87-153 | the same outcome for a non-empty list, with the same ties to the stock and payment answers and the same rollback |
| Service.SalesTransactionService.Sell | src/main/java/com/retailpulse/service/SalesTransactionService.java:107-152 | the stock call comes first and its answer decides: refused or failed means that exception with nothing saved and no payment asked; accepted means the sale is saved under the next identity and then the payment intent is requested |
| Service.SalesTransactionService.SaveAndPay | src/main/java/com/retailpulse/service/SalesTransactionService.java:116-152 | the row is stored under the next identity with the clock reading; payment is requested for its total; a failed payment call becomes PAYMENT_SERVICE_ERROR and an answer is returned with the saved transaction's view |
| Service.SalesTransactionService.UpdateSalesTransaction | src/main/java/com/retailpulse/service/SalesTransactionService.java:162-236 | EMPTY_UPDATE and NOT_FOUND come with no effect; a line map that cannot be collected throws before any call; otherwise the delta is sent and the stock answer decides: refused or failed means that exception and no save, accepted means the lines are replaced and flushed; on any failure the rows are as before |
| Service.SalesTransactionService.ApplyUpdate | src/main/java/com/retailpulse/service/SalesTransactionService.java:223-235 | the delta is sent before anything is saved; the updated transaction is flushed and its view returned exactly when the stock answer is accepted, and otherwise the rows are unchanged and the stock exception is returned |
| Service.SaleDecided | src/main/java/com/retailpulse/service/SalesTransactionService.java:107-152 | a sale succeeds exactly when the stock call is accepted and the payment call answers, returns that payment answer, and saves the transaction exactly when the stock call is accepted |
| Service.UpdateDecided | src/main/java/com/retailpulse/service/SalesTransactionService.java:225-235 | an update succeeds, and flushes the transaction, exactly when the stock call is accepted |
| Service.SalesTransactionService.Flush | src/main/java/com/retailpulse/service/SalesTransactionService.java:232-235 | the transaction is written and flushed, and its view returned |
| Service.SalesTransactionService.SuspendTransaction | src/main/java/com/retailpulse/service/SalesTransactionService.java:238-281 | a null or empty list throws EMPTY_SALE with no effect; otherwise the GST lookup, then a malformed price throws with the registry unchanged, or the memento is parked and the whole bucket returned rebuilt |
| Service.SalesTransactionService.SuspendLines | src/main/java/com/retailpulse/service/SalesTransactionService.java:246-281 | the same outcome for a non-empty list |
| Service.SalesTransactionService.Park | src/main/java/com/retailpulse/service/SalesTransactionService.java:252-280 | the new transaction's amounts are those of its lines, its memento is filed under the clock reading, and the bucket is rebuilt with the call's tax |
| Service.SalesTransactionService.RestoreTransaction | src/main/java/com/retailpulse/service/SalesTransactionService.java:283-300 | the memento leaves the bucket, and the rest are rebuilt each with the tax its memento names |
| Service.SalesTransactionService.UpdateTransactionStatus | src/main/java/com/retailpulse/service/PaymentEventListener.java:75 | exactly one status update request is recorded |
| Service.RebuildBucket | src/main/java/com/retailpulse/service/SalesTransactionService.java:273-280 | the loop returns the rebuilt bucket, or the first failure |
| Service.RebuildEntry | src/main/java/com/retailpulse/service/SalesTransactionService.java:274-279 | a new transaction restored from one memento and mapped to its view |
| Service.RowDated | src/main/java/com/retailpulse/entity/SalesTransaction.java:36-38 | a stored row always has its creation date |
| PaymentEvents.MapPaymentStatus | src/main/java/com/retailpulse/service/PaymentEventListener.java:91-101 | the mapping gives null exactly for a null status |
| PaymentEvents.MapPaymentStatusBijective | src/main/java/com/retailpulse/service/PaymentEventListener.java:91-101 | every transaction status comes from exactly one payment status |
| PaymentEvents.MapPaymentStatusInjective | src/main/java/com/retailpulse/service/PaymentEventListener.java:91-101 | different payment statuses, null included, map to different results |
| PaymentEvents.PaymentEventListener.constructor | src/main/java/com/retailpulse/service/PaymentEventListener.java:32-34 | the listener holds the given service |
| PaymentEvents.PaymentEventListener.HandlePaymentEvent | src/main/java/com/retailpulse/service/PaymentEventListener.java:46-83 | a null status changes nothing; any other status leads to exactly one update request for the event's transactionId, stamped with the event's date in Singapore or else the clock; the handler always ends normally |

## Left out

- Logging: `java.util.logging` output has no effect on state.
- Kafka delivery, Spring wiring, HTTP through Feign, and JPA persistence
  beyond the rows the repository holds. These run outside the code
  modelled here. The repositories and clients are models of what the
  service relies on.
- Concurrency: the registry and repositories are accessed one call at a
  time.
- `SalesTax.calculateTax`, `SalesDetails.getSubTotal`,
  `SalesTransactionHistory`, the `SalesTaxRepository` and `DateUtil` are
  not part of this model. They are taken to be:
  - subtotal × rate rounded HALF_UP to cents;
  - price × quantity;
  - a per-business-entity map of mementos;
  - get and save of one GST record;
  - a formatter and a parser passed in as functions.
- Types.CalculateTax: states only that the tax has scale 2. Its value is
  stated through ServiceLogic.AmountsRounding, because the source of
  `SalesTax` is not part of this model.
- PaymentRequest: `totalAmount.doubleValue()` is not modelled, because
  it is floating point. The request carries the decimal total.
- `toString` on a `BigDecimal` is modelled as `toPlainString`. They
  differ only for a value whose adjusted exponent is below -6, such as a
  price of 0.0000001, which Java shows in scientific notation. The
  string-constructor model accepts plain decimals only. A price written
  with an exponent is treated as malformed, although Java would accept it.
  Likewise only ASCII digits are read, while the Java constructor accepts
  any Unicode decimal digit.
- Null values: a null request list is modelled, as are a null transaction
  id and a null status in a payment event. Null line fields, a null
  `businessEntityId` and null lines inside a list are not, because they
  would throw NullPointerException in paths the code does not guard.
- `setSalesTransaction`: the back-reference from each line to its
  transaction is JPA bookkeeping and carries no value.
- `java.util.HashMap` iteration order is modelled as ascending keys. Every
  sum is proved independent of the order. The order of views and items in
  a list is therefore one of the possible orders.
- `Instant.now()` and `System.currentTimeMillis()` are parameters:
  `saveToMemento`'s two clock readings are two independent parameters,
  `nowMillis` for the memento's id and `nowText` for its recorded time.
- The `status` memento component is left out: the code never supplies it.
- TransactionViews.RebuildOne: states only the identity fields of the
  view; the full view is stated by TransactionViews.SuspendedView and
  Entity.RestoreRecomputes.
