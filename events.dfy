/** The event envelope as the producer builds it (producer/stream.py): one
    constructor per variant, each tagging the envelope, copying a few
    identifier fields out of the source row and keeping the whole row as
    `data`. */
module Events {
  import opened Wrappers
  import opened Seqs

  /** A source row: column name to the text of its value (missing values are
      already the empty string when the rows are read). */
  type Row = map<string, string>

  datatype Variant = Order | Item | Payment

  const OrderSnapshot: string := "ORDER_SNAPSHOT"
  const ItemAdded: string := "ITEM_ADDED"
  const PaymentReceived: string := "PAYMENT_RECEIVED"

  /** The `event_type` string that names each variant on the wire. */
  function Tag(v: Variant): string
  {
    match v
    case Order => OrderSnapshot
    case Item => ItemAdded
    case Payment => PaymentReceived
  }

  /** The envelope dictionary. Keys that only some variants write are `None`
      in the others. */
  datatype Event = Event(
    eventType: string,
    eventTime: string,
    orderId: string,
    customerId: Option<string>,
    orderStatus: Option<string>,
    productId: Option<string>,
    sellerId: Option<string>,
    data: Row)

  /** `str(r.get(k, ""))`: a missing column reads as the empty string. */
  function Get(r: Row, k: string): string
  {
    if k in r then r[k] else ""
  }

  function OrderEvent(r: Row): Event
  {
    Event(OrderSnapshot, Get(r, "order_purchase_timestamp"), Get(r, "order_id"),
          Some(Get(r, "customer_id")), Some(Get(r, "order_status")), None, None, r)
  }

  /** `now` is the wall-clock reading the source formats as the event time. */
  function PaymentEvent(r: Row, now: string): Event
  {
    Event(PaymentReceived, now, Get(r, "order_id"), None, None, None, None, r)
  }

  function ItemEvent(r: Row): Event
  {
    Event(ItemAdded, Get(r, "shipping_limit_date"), Get(r, "order_id"),
          None, None, Some(Get(r, "product_id")), Some(Get(r, "seller_id")), r)
  }

  /** The constructor `main` passes to `build_events` for a variant; `now` is
      the clock reading used by the payment constructor. */
  function Make(v: Variant, now: string): Row -> Event
  {
    match v
    case Order => OrderEvent
    case Item => ItemEvent
    case Payment => (r: Row) => PaymentEvent(r, now)
  }

  /** One envelope per row, in row order. */
  function BuildEvents(rows: seq<Row>, make: Row -> Event): seq<Event>
  {
    MapSeq(make, rows)
  }

  const Unknown: string := "unknown"

  /** The log partition key: the envelope's `order_id`, or the sentinel when it
      is empty. */
  function PartitionKey(e: Event): (k: string)
    ensures k != ""
    ensures k == e.orderId || (e.orderId == "" && k == Unknown)
  {
    if e.orderId != "" then e.orderId else Unknown
  }

  /** The envelope contract for a variant: the tag names the variant, `data` is
      the row verbatim, `order_id` is copied from the row, and exactly the
      variant's own identifier fields are present, each copied from the row. */
  predicate IsEnvelopeOf(e: Event, v: Variant, r: Row)
  {
    && e.eventType == Tag(v)
    && e.data == r
    && e.orderId == Get(r, "order_id")
    && e.customerId == (if v == Order then Some(Get(r, "customer_id")) else None)
    && e.orderStatus == (if v == Order then Some(Get(r, "order_status")) else None)
    && e.productId == (if v == Item then Some(Get(r, "product_id")) else None)
    && e.sellerId == (if v == Item then Some(Get(r, "seller_id")) else None)
  }

  /** Distinct variants have distinct tags, so a tag identifies its variant. */
  lemma TagInjective(v: Variant, w: Variant)
    ensures Tag(v) == Tag(w) <==> v == w
  {
    if v != w {
      assert Tag(v)[0] != Tag(w)[0];
    }
  }

  /** Each constructor meets the envelope contract of its own variant, and the
      event time comes from the row for orders and items and from the clock
      for payments. */
  lemma ConstructorsMeetContract(r: Row, now: string)
    ensures IsEnvelopeOf(OrderEvent(r), Order, r)
    ensures IsEnvelopeOf(ItemEvent(r), Item, r)
    ensures IsEnvelopeOf(PaymentEvent(r, now), Payment, r)
    ensures OrderEvent(r).eventTime == Get(r, "order_purchase_timestamp")
    ensures ItemEvent(r).eventTime == Get(r, "shipping_limit_date")
    ensures PaymentEvent(r, now).eventTime == now
  {
  }

  /** `build_events` with a constructor of variant `v` yields exactly one
      envelope per row, in row order, each meeting the contract for its row. */
  lemma BuildEventsSpec(rows: seq<Row>, v: Variant, now: string)
    ensures var es := BuildEvents(rows, Make(v, now));
            |es| == |rows| && forall i :: 0 <= i < |rows| ==> IsEnvelopeOf(es[i], v, rows[i])
  {
    forall i | 0 <= i < |rows| ensures IsEnvelopeOf(BuildEvents(rows, Make(v, now))[i], v, rows[i]) {
      ConstructorsMeetContract(rows[i], now);
    }
  }

  /** The partition key is the `order_id` exactly when that is non-empty. */
  lemma PartitionKeySpec(e: Event)
    ensures PartitionKey(e) != ""
    ensures PartitionKey(e) == e.orderId <==> e.orderId != ""
    ensures PartitionKey(e) == Unknown <==> e.orderId == "" || e.orderId == Unknown
  {
  }
}
