/** The items projector (spark/consumer.py, "handling items"): keep the
    ITEM_ADDED envelopes, project and cast their columns, drop rows whose
    `order_id`, `order_item_id` or `price` is null (a value that does not cast
    is null), and deduplicate on (`order_id`, `order_item_id`). */
module Items {
  import opened Wrappers
  import opened Seqs
  import opened Dedup
  import opened Envelope
  import Events

  datatype ItemRow = ItemRow(
    orderId: Option<string>,
    productId: Option<string>,
    sellerId: Option<string>,
    orderItemId: Option<int>,
    shippingLimitTs: Option<Timestamp>,
    price: Option<real>,
    freightValue: Option<real>,
    ingestedAt: Timestamp)

  /** The `select`; `now` is `current_timestamp()` of the micro-batch. */
  function ProjectItem(c: Coercions, now: Timestamp, e: Envelope): ItemRow
  {
    ItemRow(
      e.orderId,
      e.productId,
      e.sellerId,
      CastInt(c, DataField(e, "order_item_id")),
      ToTimestamp(c, DataField(e, "shipping_limit_date")),
      CastDouble(c, DataField(e, "price")),
      CastDouble(c, DataField(e, "freight_value")),
      now)
  }

  predicate HasOrderId(r: ItemRow) { r.orderId.Some? }
  predicate HasItemId(r: ItemRow) { r.orderItemId.Some? }
  predicate HasPrice(r: ItemRow) { r.price.Some? }

  /** Everything before `dropDuplicates`: the three filters in source order. */
  function ItemsValidated(batch: seq<Envelope>, c: Coercions, now: Timestamp): seq<ItemRow>
  {
    var projected := MapSeq((e: Envelope) => ProjectItem(c, now, e), Route(Events.ItemAdded, batch));
    Filter(HasPrice, Filter(HasItemId, Filter(HasOrderId, projected)))
  }

  /** The natural key; two nulls compare equal, as they do in `dropDuplicates`. */
  function ItemKey(r: ItemRow): (Option<string>, Option<int>) { (r.orderId, r.orderItemId) }

  /** `items_clean` for one micro-batch, against the keys already emitted. */
  function ItemsClean(batch: seq<Envelope>, c: Coercions, now: Timestamp, seen: set<(Option<string>, Option<int>)>): seq<ItemRow>
  {
    DropDuplicates(ItemsValidated(batch, c, now), ItemKey, seen)
  }

  /** An envelope that passes validation: an ITEM_ADDED with an `order_id`
      whose `order_item_id` and `price` both cast. */
  predicate ValidItemEnvelope(e: Envelope, c: Coercions)
  {
    && e.eventType == Some(Events.ItemAdded)
    && e.orderId.Some?
    && CastInt(c, DataField(e, "order_item_id")).Some?
    && CastDouble(c, DataField(e, "price")).Some?
  }

  /** The three filters together keep exactly the rows with all three columns. */
  lemma ItemsFilters(projected: seq<ItemRow>)
    ensures forall r :: r in Filter(HasPrice, Filter(HasItemId, Filter(HasOrderId, projected))) <==>
              r in projected && r.orderId.Some? && r.orderItemId.Some? && r.price.Some?
  {
    FilterMembers(HasOrderId, projected);
    FilterMembers(HasItemId, Filter(HasOrderId, projected));
    FilterMembers(HasPrice, Filter(HasItemId, Filter(HasOrderId, projected)));
  }

  lemma {:induction false} ItemsValidatedRows(batch: seq<Envelope>, c: Coercions, now: Timestamp, r: ItemRow)
    requires r in ItemsValidated(batch, c, now)
    ensures r.orderId.Some? && r.orderItemId.Some? && r.price.Some?
    ensures exists e :: e in batch && ValidItemEnvelope(e, c) && r == ProjectItem(c, now, e)
  {
    var f := (e: Envelope) => ProjectItem(c, now, e);
    var routed := Route(Events.ItemAdded, batch);
    ItemsFilters(MapSeq(f, routed));
    MapSeqMember(f, routed, r);
    var e :| e in routed && r == f(e);
    assert ValidItemEnvelope(e, c);
  }

  /** Every emitted items row has its three required columns, comes from a
      valid ITEM_ADDED envelope of the batch, and was not emitted before. */
  lemma ItemsCleanRows(batch: seq<Envelope>, c: Coercions, now: Timestamp, seen: set<(Option<string>, Option<int>)>)
    ensures forall r :: r in ItemsClean(batch, c, now, seen) ==>
              && r.orderId.Some? && r.orderItemId.Some? && r.price.Some?
              && ItemKey(r) !in seen
              && exists e :: e in batch && ValidItemEnvelope(e, c) && r == ProjectItem(c, now, e)
  {
    forall r | r in ItemsClean(batch, c, now, seen)
      ensures exists e :: e in batch && ValidItemEnvelope(e, c) && r == ProjectItem(c, now, e)
    {
      ItemsValidatedRows(batch, c, now, r);
    }
  }

  /** Deduplication on (`order_id`, `order_item_id`): at most one row per key,
      the first valid one, in input order; every valid envelope whose key was
      not emitted before has its key in the output. */
  lemma ItemsCleanKeys(batch: seq<Envelope>, c: Coercions, now: Timestamp, seen: set<(Option<string>, Option<int>)>)
    ensures var out := ItemsClean(batch, c, now, seen);
            && DistinctKeys(out, ItemKey)
            && IsSubsequence(out, ItemsValidated(batch, c, now))
            && (forall r :: r in out ==> FirstWithKey(ItemsValidated(batch, c, now), ItemKey, ItemKey(r)) == Some(r))
            && (forall e :: e in batch && ValidItemEnvelope(e, c) && ItemKey(ProjectItem(c, now, e)) !in seen ==>
                  ItemKey(ProjectItem(c, now, e)) in Keys(out, ItemKey))
  {
    var v := ItemsValidated(batch, c, now);
    DropDuplicatesUnique(v, ItemKey, seen);
    DropDuplicatesSubsequence(v, ItemKey, seen);
    DropDuplicatesKeepsFirst(v, ItemKey, seen);
    DropDuplicatesKeys(v, ItemKey, seen);
    forall e | e in batch && ValidItemEnvelope(e, c) && ItemKey(ProjectItem(c, now, e)) !in seen
      ensures ItemKey(ProjectItem(c, now, e)) in Keys(ItemsClean(batch, c, now, seen), ItemKey)
    {
      var f := (e: Envelope) => ProjectItem(c, now, e);
      MapSeqHas(f, Route(Events.ItemAdded, batch), e);
      ItemsFilters(MapSeq(f, Route(Events.ItemAdded, batch)));
      assert f(e) in v;
    }
  }

  lemma ItemsValidatedConcat(a: seq<Envelope>, b: seq<Envelope>, c: Coercions, now: Timestamp)
    ensures ItemsValidated(a + b, c, now) == ItemsValidated(a, c, now) + ItemsValidated(b, c, now)
  {
    var f := (e: Envelope) => ProjectItem(c, now, e);
    RouteConcat(Events.ItemAdded, a, b);
    var ra, rb := Route(Events.ItemAdded, a), Route(Events.ItemAdded, b);
    MapSeqConcat(f, ra, rb);
    var pa, pb := MapSeq(f, ra), MapSeq(f, rb);
    FilterConcat(HasOrderId, pa, pb);
    FilterConcat(HasItemId, Filter(HasOrderId, pa), Filter(HasOrderId, pb));
    FilterConcat(HasPrice, Filter(HasItemId, Filter(HasOrderId, pa)), Filter(HasItemId, Filter(HasOrderId, pb)));
  }

  /** Two micro-batches in turn emit what one micro-batch holding both emits. */
  lemma ItemsMicroBatches(a: seq<Envelope>, b: seq<Envelope>, c: Coercions, now: Timestamp, seen: set<(Option<string>, Option<int>)>)
    ensures ItemsClean(a + b, c, now, seen)
         == ItemsClean(a, c, now, seen) + ItemsClean(b, c, now, seen + Keys(ItemsValidated(a, c, now), ItemKey))
  {
    ItemsValidatedConcat(a, b, c, now);
    DropDuplicatesSplit(ItemsValidated(a, c, now), ItemsValidated(b, c, now), ItemKey, seen);
  }

  /** The rows each micro-batch of a stream hands to `dropDuplicates`. */
  function ItemsValidatedBatches(bs: seq<seq<Envelope>>, c: Coercions, now: Timestamp): (vs: seq<seq<ItemRow>>)
    ensures |vs| == |bs|
  {
    MapSeq((b: seq<Envelope>) => ItemsValidated(b, c, now), bs)
  }

  lemma {:induction false} ItemsValidatedFlatten(bs: seq<seq<Envelope>>, c: Coercions, now: Timestamp)
    ensures ItemsValidated(Flatten(bs), c, now) == Flatten(ItemsValidatedBatches(bs, c, now))
    decreases |bs|
  {
    if bs == [] {
      assert Route(Events.ItemAdded, []) == [];
    } else {
      ItemsValidatedConcat(bs[0], Flatten(bs[1..]), c, now);
      ItemsValidatedFlatten(bs[1..], c, now);
      assert ItemsValidatedBatches(bs, c, now)[1..] == ItemsValidatedBatches(bs[1..], c, now);
    }
  }

  /** Any split of the input into micro-batches, each deduplicated against the
      keys of the batches before it, emits exactly what one micro-batch holding
      all the input emits (with one `current_timestamp()` for all of them). */
  lemma ItemsStreamMatchesSingleBatch(bs: seq<seq<Envelope>>, c: Coercions, now: Timestamp, seen: set<(Option<string>, Option<int>)>)
    ensures Flatten(Stream(ItemsValidatedBatches(bs, c, now), ItemKey, seen)) == ItemsClean(Flatten(bs), c, now, seen)
  {
    ItemsValidatedFlatten(bs, c, now);
    StreamMatchesSingleBatch(ItemsValidatedBatches(bs, c, now), ItemKey, seen);
  }
}
