/** The orders projector (spark/consumer.py, "handling orders"): keep the
    ORDER_SNAPSHOT envelopes, project and parse their columns, drop rows without
    an `order_id`, derive the purchase date and the two day counts, drop rows
    whose purchase timestamp is null, and deduplicate on `order_id`. */
module Orders {
  import opened Wrappers
  import opened Seqs
  import opened Dedup
  import opened Text
  import opened Envelope
  import Events

  /** The columns of the `select`. */
  datatype OrderProjection = OrderProjection(
    orderId: Option<string>,
    customerId: Option<string>,
    orderStatus: Option<string>,
    purchaseTs: Option<Timestamp>,
    approvedTs: Option<Timestamp>,
    carrierTs: Option<Timestamp>,
    deliveredTs: Option<Timestamp>,
    estimatedTs: Option<Timestamp>,
    ingestedAt: Timestamp)

  /** The projection with the three `withColumn` results. */
  datatype OrderRow = OrderRow(
    p: OrderProjection,
    purchaseDate: Option<int>,
    deliveryDays: Option<int>,
    deliveryDelayDays: Option<int>)

  /** The `select`; `now` is `current_timestamp()` of the micro-batch. */
  function ProjectOrder(c: Coercions, now: Timestamp, e: Envelope): OrderProjection
  {
    OrderProjection(
      e.orderId,
      e.customerId,
      NormalizeColumn(e.orderStatus),
      ToTimestamp(c, DataField(e, "order_purchase_timestamp")),
      ToTimestamp(c, DataField(e, "order_approved_at")),
      ToTimestamp(c, DataField(e, "order_delivered_carrier_at")),
      ToTimestamp(c, DataField(e, "order_delivered_customer_date")),
      ToTimestamp(c, DataField(e, "order_estimated_delivery_date")),
      now)
  }

  predicate HasOrderId(p: OrderProjection) { p.orderId.Some? }

  /** `purchase_date`, `delivery_days` and `delivery_delay_days`. */
  function DeriveOrder(p: OrderProjection): OrderRow
  {
    OrderRow(p, ToDate(p.purchaseTs), DateDiff(p.deliveredTs, p.purchaseTs), DateDiff(p.deliveredTs, p.estimatedTs))
  }

  predicate HasPurchaseTs(r: OrderRow) { r.p.purchaseTs.Some? }

  /** Everything before `dropDuplicates`, in the order the source applies it. */
  function OrdersValidated(batch: seq<Envelope>, c: Coercions, now: Timestamp): seq<OrderRow>
  {
    var projected := MapSeq((e: Envelope) => ProjectOrder(c, now, e), Route(Events.OrderSnapshot, batch));
    Filter(HasPurchaseTs, MapSeq(DeriveOrder, Filter(HasOrderId, projected)))
  }

  function OrderKey(r: OrderRow): Option<string> { r.p.orderId }

  /** `orders_clean` for one micro-batch, against the keys already emitted. */
  function OrdersClean(batch: seq<Envelope>, c: Coercions, now: Timestamp, seen: set<Option<string>>): seq<OrderRow>
  {
    DropDuplicates(OrdersValidated(batch, c, now), OrderKey, seen)
  }

  /** What every emitted orders row satisfies: both required columns are set,
      the status is normalised, the purchase date is the purchase timestamp's
      day, and each day count is the difference of calendar days, null exactly
      when one of its operands is null. */
  predicate WellFormedOrder(r: OrderRow)
  {
    && r.p.orderId.Some?
    && r.p.purchaseTs.Some?
    && (r.p.orderStatus.Some? ==> Normalized(r.p.orderStatus.value))
    && r.purchaseDate == Some(r.p.purchaseTs.value.day)
    && (r.deliveryDays.Some? <==> r.p.deliveredTs.Some?)
    && (r.deliveryDays.Some? ==> r.deliveryDays.value == r.p.deliveredTs.value.day - r.p.purchaseTs.value.day)
    && (r.deliveryDelayDays.Some? <==> r.p.deliveredTs.Some? && r.p.estimatedTs.Some?)
    && (r.deliveryDelayDays.Some? ==>
          r.deliveryDelayDays.value == r.p.deliveredTs.value.day - r.p.estimatedTs.value.day)
  }

  /** The row an ORDER_SNAPSHOT envelope turns into. */
  predicate ProjectedFrom(r: OrderRow, e: Envelope, c: Coercions, now: Timestamp)
  {
    e.eventType == Some(Events.OrderSnapshot) && r == DeriveOrder(ProjectOrder(c, now, e))
  }

  /** An envelope that passes validation: an ORDER_SNAPSHOT with an `order_id`
      and a purchase timestamp that parses. */
  predicate ValidOrderEnvelope(e: Envelope, c: Coercions)
  {
    && e.eventType == Some(Events.OrderSnapshot)
    && e.orderId.Some?
    && ToTimestamp(c, DataField(e, "order_purchase_timestamp")).Some?
  }

  lemma {:induction false} OrdersValidatedRows(batch: seq<Envelope>, c: Coercions, now: Timestamp, r: OrderRow)
    requires r in OrdersValidated(batch, c, now)
    ensures WellFormedOrder(r)
    ensures exists e :: e in batch && ProjectedFrom(r, e, c, now)
  {
    var f := (e: Envelope) => ProjectOrder(c, now, e);
    var routed := Route(Events.OrderSnapshot, batch);
    var withId := Filter(HasOrderId, MapSeq(f, routed));
    FilterMembers(HasPurchaseTs, MapSeq(DeriveOrder, withId));
    FilterMembers(HasOrderId, MapSeq(f, routed));
    MapSeqMember(DeriveOrder, withId, r);
    var p :| p in withId && r == DeriveOrder(p);
    MapSeqMember(f, routed, p);
    var e :| e in routed && p == f(e);
    NormalizeColumnSpec(e.orderStatus);
    assert ProjectedFrom(r, e, c, now);
  }

  /** Every emitted orders row is well formed and comes from an ORDER_SNAPSHOT
      envelope of the batch: envelopes of other types never reach the output,
      and a snapshot whose purchase timestamp does not parse emits nothing. */
  lemma OrdersCleanRows(batch: seq<Envelope>, c: Coercions, now: Timestamp, seen: set<Option<string>>)
    ensures forall r :: r in OrdersClean(batch, c, now, seen) ==>
              WellFormedOrder(r) && r.p.orderId !in seen && exists e :: e in batch && ProjectedFrom(r, e, c, now)
  {
    forall r | r in OrdersClean(batch, c, now, seen)
      ensures WellFormedOrder(r) && exists e :: e in batch && ProjectedFrom(r, e, c, now)
    {
      OrdersValidatedRows(batch, c, now, r);
    }
  }

  /** Deduplication on `order_id`: at most one row per order, the first valid
      one, in input order; and validation comes first, so every valid snapshot
      whose order was not emitted before has its order in the output even when
      an invalid snapshot of the same order precedes it. */
  lemma OrdersCleanKeys(batch: seq<Envelope>, c: Coercions, now: Timestamp, seen: set<Option<string>>)
    ensures var out := OrdersClean(batch, c, now, seen);
            && DistinctKeys(out, OrderKey)
            && IsSubsequence(out, OrdersValidated(batch, c, now))
            && (forall r :: r in out ==> FirstWithKey(OrdersValidated(batch, c, now), OrderKey, r.p.orderId) == Some(r))
            && (forall e :: e in batch && ValidOrderEnvelope(e, c) && e.orderId !in seen ==>
                  e.orderId in Keys(out, OrderKey))
  {
    var v := OrdersValidated(batch, c, now);
    DropDuplicatesUnique(v, OrderKey, seen);
    DropDuplicatesSubsequence(v, OrderKey, seen);
    DropDuplicatesKeepsFirst(v, OrderKey, seen);
    DropDuplicatesKeys(v, OrderKey, seen);
    forall e | e in batch && ValidOrderEnvelope(e, c) && e.orderId !in seen
      ensures e.orderId in Keys(OrdersClean(batch, c, now, seen), OrderKey)
    {
      var f := (e: Envelope) => ProjectOrder(c, now, e);
      var routed := Route(Events.OrderSnapshot, batch);
      MapSeqHas(f, routed, e);
      var withId := Filter(HasOrderId, MapSeq(f, routed));
      FilterMembers(HasOrderId, MapSeq(f, routed));
      MapSeqHas(DeriveOrder, withId, f(e));
      FilterMembers(HasPurchaseTs, MapSeq(DeriveOrder, withId));
      assert DeriveOrder(f(e)) in v;
    }
  }

  /** A batch of one envelope yields its derived row exactly when the envelope
      is a valid ORDER_SNAPSHOT. */
  lemma OrdersValidatedSingleton(e: Envelope, c: Coercions, now: Timestamp)
    ensures OrdersValidated([e], c, now)
         == if ValidOrderEnvelope(e, c) then [DeriveOrder(ProjectOrder(c, now, e))] else []
  {
    var f := (e: Envelope) => ProjectOrder(c, now, e);
    RouteSingleton(Events.OrderSnapshot, e);
    if e.eventType == Some(Events.OrderSnapshot) {
      MapSeqSingleton(f, e);
      FilterSingleton(HasOrderId, f(e));
      if HasOrderId(f(e)) {
        MapSeqSingleton(DeriveOrder, f(e));
        FilterSingleton(HasPurchaseTs, DeriveOrder(f(e)));
      }
    }
  }

  lemma OrdersValidatedConcat(a: seq<Envelope>, b: seq<Envelope>, c: Coercions, now: Timestamp)
    ensures OrdersValidated(a + b, c, now) == OrdersValidated(a, c, now) + OrdersValidated(b, c, now)
  {
    var f := (e: Envelope) => ProjectOrder(c, now, e);
    RouteConcat(Events.OrderSnapshot, a, b);
    var ra, rb := Route(Events.OrderSnapshot, a), Route(Events.OrderSnapshot, b);
    MapSeqConcat(f, ra, rb);
    FilterConcat(HasOrderId, MapSeq(f, ra), MapSeq(f, rb));
    var ia, ib := Filter(HasOrderId, MapSeq(f, ra)), Filter(HasOrderId, MapSeq(f, rb));
    MapSeqConcat(DeriveOrder, ia, ib);
    FilterConcat(HasPurchaseTs, MapSeq(DeriveOrder, ia), MapSeq(DeriveOrder, ib));
  }

  /** Two micro-batches processed in turn, the second against the keys the
      first added to the state, emit what one micro-batch holding both emits
      (with one `current_timestamp()` for both). */
  lemma OrdersMicroBatches(a: seq<Envelope>, b: seq<Envelope>, c: Coercions, now: Timestamp, seen: set<Option<string>>)
    ensures OrdersClean(a + b, c, now, seen)
         == OrdersClean(a, c, now, seen) + OrdersClean(b, c, now, seen + Keys(OrdersValidated(a, c, now), OrderKey))
  {
    OrdersValidatedConcat(a, b, c, now);
    DropDuplicatesSplit(OrdersValidated(a, c, now), OrdersValidated(b, c, now), OrderKey, seen);
  }

  /** The rows each micro-batch of a stream hands to `dropDuplicates`. */
  function OrdersValidatedBatches(bs: seq<seq<Envelope>>, c: Coercions, now: Timestamp): (vs: seq<seq<OrderRow>>)
    ensures |vs| == |bs|
  {
    MapSeq((b: seq<Envelope>) => OrdersValidated(b, c, now), bs)
  }

  lemma {:induction false} OrdersValidatedFlatten(bs: seq<seq<Envelope>>, c: Coercions, now: Timestamp)
    ensures OrdersValidated(Flatten(bs), c, now) == Flatten(OrdersValidatedBatches(bs, c, now))
    decreases |bs|
  {
    if bs == [] {
      assert Route(Events.OrderSnapshot, []) == [];
    } else {
      OrdersValidatedConcat(bs[0], Flatten(bs[1..]), c, now);
      OrdersValidatedFlatten(bs[1..], c, now);
      assert OrdersValidatedBatches(bs, c, now)[1..] == OrdersValidatedBatches(bs[1..], c, now);
    }
  }

  /** Any split of the input into micro-batches, each deduplicated against the
      keys of the batches before it, emits exactly what one micro-batch holding
      all the input emits (with one `current_timestamp()` for all of them). */
  lemma OrdersStreamMatchesSingleBatch(bs: seq<seq<Envelope>>, c: Coercions, now: Timestamp, seen: set<Option<string>>)
    ensures Flatten(Stream(OrdersValidatedBatches(bs, c, now), OrderKey, seen)) == OrdersClean(Flatten(bs), c, now, seen)
  {
    OrdersValidatedFlatten(bs, c, now);
    StreamMatchesSingleBatch(OrdersValidatedBatches(bs, c, now), OrderKey, seen);
  }
}
