/** The stock delta updateSalesTransaction sends to the inventory service:
    for each product the change in quantity between the stored lines and
    the requested ones, in Java int arithmetic. */
module UpdateDelta {
  import opened Decimal
  import opened Types
  import opened Entity

  /** The productIds the request lines name. */
  function IncomingIds(dtos: seq<SalesDetailsDto>): set<int>
  {
    set i | 0 <= i < |dtos| :: dtos[i].productId
  }

  /** missingProductIds: the stored productIds that no request line names. */
  function MissingProductIds(existing: map<int, SalesDetails>, dtos: seq<SalesDetailsDto>): (r: set<int>)
    ensures forall k :: k in r <==> k in existing && forall i :: 0 <= i < |dtos| ==> dtos[i].productId != k
  {
    existing.Keys - IncomingIds(dtos)
  }

  /** reversalMap: every dropped line with its quantity negated. */
  function ReversalMap(existing: map<int, SalesDetails>, dtos: seq<SalesDetailsDto>): map<int, SalesDetails>
  {
    map k | k in MissingProductIds(existing, dtos) :: SalesDetails(k, Neg32(existing[k].quantity), existing[k].salesPricePerUnit)
  }

  /** The value updateSalesDetailsMap holds for one parsed request line: the
      new quantity minus the stored one for a product already present, the
      line itself for a new product. */
  function Adjusted(existing: map<int, SalesDetails>, d: SalesDetails): SalesDetails
  {
    if d.productId in existing then d.(quantity := Sub32(d.quantity, existing[d.productId].quantity)) else d
  }

  /** updateSalesDetailsMap before the reversals are put in. Both of its
      value mapper's steps depend on one line only, so collecting with it
      fails exactly as the strict collection of the parsed lines does, and
      otherwise adjusts each of that collection's values. */
  function UpdateMap(existing: map<int, SalesDetails>, dtos: seq<SalesDetailsDto>): Result<map<int, SalesDetails>>
  {
    match CollectStrict(dtos)
    case Failure(e) => Failure(e)
    case Success(incoming) => Success(map k | k in incoming :: Adjusted(existing, incoming[k]))
  }

  /** updateSalesDetailsMap after putAll(reversalMap). */
  function DeltaMap(existing: map<int, SalesDetails>, dtos: seq<SalesDetailsDto>): Result<map<int, SalesDetails>>
  {
    match UpdateMap(existing, dtos)
    case Failure(e) => Failure(e)
    case Success(m) => Success(m + ReversalMap(existing, dtos))
  }

  /** The delta fails exactly when the new lines cannot be collected, with
      the same exception; otherwise it has one entry per stored or requested
      product: the difference for a kept product, the new line for an added
      one and the negated old line for a dropped one. */
  lemma DeltaMapSpec(existing: map<int, SalesDetails>, dtos: seq<SalesDetailsDto>)
    ensures DeltaMap(existing, dtos).Success? <==> CollectStrict(dtos).Success?
    ensures DeltaMap(existing, dtos).Failure? ==> DeltaMap(existing, dtos).error == CollectStrict(dtos).error
    ensures DeltaMap(existing, dtos).Success? ==>
      var delta, incoming := DeltaMap(existing, dtos).value, CollectStrict(dtos).value;
      && delta.Keys == existing.Keys + incoming.Keys
      && incoming.Keys == IncomingIds(dtos)
      && (forall k :: k in incoming && k in existing ==>
            delta[k] == incoming[k].(quantity := Sub32(incoming[k].quantity, existing[k].quantity)))
      && (forall k :: k in incoming && k !in existing ==> delta[k] == incoming[k])
      && (forall k :: k in existing && k !in incoming ==>
            delta[k] == SalesDetails(k, Neg32(existing[k].quantity), existing[k].salesPricePerUnit))
  {
    CollectStrictSpec(dtos);
    if CollectStrict(dtos).Success? {
      var incoming := CollectStrict(dtos).value;
      KeyedIncoming(dtos);
      var delta := DeltaMap(existing, dtos).value;
      forall k | k in incoming
        ensures delta[k] == Adjusted(existing, incoming[k])
      {
        assert k !in ReversalMap(existing, dtos);
      }
    }
  }

  /** Each collected request line is filed under its own productId. */
  lemma KeyedIncoming(dtos: seq<SalesDetailsDto>)
    requires CollectStrict(dtos).Success?
    ensures KeyedByProduct(CollectStrict(dtos).value)
  {
    CollectStrictSpec(dtos);
    ToMapLastWinsSpec(ParseAll(dtos).value);
  }

  /** The delta, like the lines it comes from, is keyed by productId. */
  lemma DeltaKeyed(existing: map<int, SalesDetails>, dtos: seq<SalesDetailsDto>)
    requires KeyedByProduct(existing)
    requires DeltaMap(existing, dtos).Success?
    ensures KeyedByProduct(DeltaMap(existing, dtos).value)
  {
    DeltaMapSpec(existing, dtos);
    KeyedIncoming(dtos);
  }

  /** The quantity a line map holds for a product, zero when it has none. */
  function QuantityIn(m: map<int, SalesDetails>, k: int): Int32
  {
    if k in m then m[k].quantity else 0
  }

  /** The delta reconciles the two line maps: for every product, the stored
      quantity plus the delta is the requested quantity, in int arithmetic. */
  lemma DeltaReconciles(existing: map<int, SalesDetails>, dtos: seq<SalesDetailsDto>, k: int)
    requires DeltaMap(existing, dtos).Success?
    ensures Wrap32(QuantityIn(existing, k) + QuantityIn(DeltaMap(existing, dtos).value, k))
      == QuantityIn(CollectStrict(dtos).value, k)
  {
    DeltaAt(existing, dtos, k);
    var incoming := CollectStrict(dtos).value;
    if k in incoming && k in existing {
      Sub32Inverse(incoming[k].quantity, existing[k].quantity);
    } else if k in existing {
      Neg32Inverse(existing[k].quantity);
    }
  }

  lemma DeltaAt(existing: map<int, SalesDetails>, dtos: seq<SalesDetailsDto>, k: int)
    requires DeltaMap(existing, dtos).Success?
    ensures CollectStrict(dtos).Success?
    ensures var incoming := CollectStrict(dtos).value;
      QuantityIn(DeltaMap(existing, dtos).value, k)
      == if k in incoming && k in existing then Sub32(incoming[k].quantity, existing[k].quantity)
         else if k in existing then Neg32(existing[k].quantity)
         else QuantityIn(incoming, k)
  {
    DeltaMapSpec(existing, dtos);
  }

  /** The delta is zero for a product exactly when its stored and requested
      quantities agree, a missing line counting as zero. */
  lemma DeltaZero(existing: map<int, SalesDetails>, dtos: seq<SalesDetailsDto>, k: int)
    requires DeltaMap(existing, dtos).Success?
    ensures QuantityIn(DeltaMap(existing, dtos).value, k) == 0
      <==> QuantityIn(existing, k) == QuantityIn(CollectStrict(dtos).value, k)
  {
    DeltaReconciles(existing, dtos, k);
    Wrap32AddZero(QuantityIn(existing, k), QuantityIn(DeltaMap(existing, dtos).value, k));
  }
}
