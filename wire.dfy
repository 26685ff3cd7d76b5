/** From producer to consumer: an envelope serialised by the producer and
    parsed with the consumer's envelope schema, and what each projector makes
    of the envelope each producer constructor builds. */
module Wire {
  import opened Wrappers
  import opened Seqs
  import opened Text
  import Events
  import opened Envelope
  import Orders
  import Items
  import Payments

  /** `json.dumps` followed by `from_json`: every key the producer wrote is
      read back; a key it did not write reads as null. */
  function Transmit(e: Events.Event): Envelope
  {
    Envelope(Some(e.eventType), Some(e.eventTime), Some(e.orderId),
             e.customerId, e.productId, e.sellerId, e.orderStatus, Some(e.data))
  }

  /** An envelope of one variant reaches that variant's projector and no other. */
  lemma TransmitRouting(e: Events.Event, v: Events.Variant, r: Events.Row, w: Events.Variant)
    requires Events.IsEnvelopeOf(e, v, r)
    ensures HasType(Events.Tag(w), Transmit(e)) <==> v == w
  {
    Events.TagInjective(v, w);
  }

  /** The purchase timestamp of a source order row parses. */
  predicate PurchaseParses(r: Events.Row, c: Coercions)
  {
    "order_purchase_timestamp" in r && c.toTimestamp(r["order_purchase_timestamp"]).Some?
  }

  /** An `order_event` yields one orders row exactly when its purchase
      timestamp parses, carrying the row's identifiers and normalised status;
      a missing `order_id` arrives as the empty string, which is not null and
      so is kept. The other projectors ignore it. */
  lemma {:induction false} OrderEventProjection(r: Events.Row, c: Coercions, now: Timestamp)
    ensures var rows := Orders.OrdersValidated([Transmit(Events.OrderEvent(r))], c, now);
            && (rows != [] <==> PurchaseParses(r, c))
            && (rows != [] ==>
                  && |rows| == 1
                  && rows[0].p.orderId == Some(Events.Get(r, "order_id"))
                  && rows[0].p.customerId == Some(Events.Get(r, "customer_id"))
                  && rows[0].p.orderStatus == Some(Normalize(Events.Get(r, "order_status"))))
    ensures Items.ItemsValidated([Transmit(Events.OrderEvent(r))], c, now) == []
    ensures Payments.PaymentsValidated([Transmit(Events.OrderEvent(r))], c, now) == []
  {
    var env := Transmit(Events.OrderEvent(r));
    var rows := Orders.OrdersValidated([env], c, now);
    assert rows != [] <==> PurchaseParses(r, c) by {
      Orders.OrdersValidatedSingleton(env, c, now);
      assert DataField(env, "order_purchase_timestamp")
          == if "order_purchase_timestamp" in r then Some(r["order_purchase_timestamp"]) else None;
    }
    assert rows != [] ==> |rows| == 1 && rows[0] == Orders.DeriveOrder(Orders.ProjectOrder(c, now, env)) by {
      Orders.OrdersValidatedSingleton(env, c, now);
    }
    assert Items.ItemsValidated([env], c, now) == [] by {
      RouteSingleton(Events.ItemAdded, env);
    }
    assert Payments.PaymentsValidated([env], c, now) == [] by {
      RouteSingleton(Events.PaymentReceived, env);
    }
  }

  /** The `order_item_id` and `price` of a source item row both cast. */
  predicate ItemCasts(r: Events.Row, c: Coercions)
  {
    && "order_item_id" in r && c.toInt(r["order_item_id"]).Some?
    && "price" in r && c.toDouble(r["price"]).Some?
  }

  /** An `item_event` yields one items row exactly when its item number and
      price cast, carrying the row's identifiers; the other projectors ignore it. */
  lemma {:induction false} ItemEventProjection(r: Events.Row, c: Coercions, now: Timestamp)
    ensures var rows := Items.ItemsValidated([Transmit(Events.ItemEvent(r))], c, now);
            && (rows != [] <==> ItemCasts(r, c))
            && (rows != [] ==>
                  && |rows| == 1
                  && rows[0].orderId == Some(Events.Get(r, "order_id"))
                  && rows[0].productId == Some(Events.Get(r, "product_id"))
                  && rows[0].sellerId == Some(Events.Get(r, "seller_id")))
    ensures Orders.OrdersValidated([Transmit(Events.ItemEvent(r))], c, now) == []
    ensures Payments.PaymentsValidated([Transmit(Events.ItemEvent(r))], c, now) == []
  {
    var env := Transmit(Events.ItemEvent(r));
    RouteSingleton(Events.OrderSnapshot, env);
    RouteSingleton(Events.ItemAdded, env);
    RouteSingleton(Events.PaymentReceived, env);
    var p := Items.ProjectItem(c, now, env);
    MapSeqSingleton((e: Envelope) => Items.ProjectItem(c, now, e), env);
    FilterSingleton(Items.HasOrderId, p);
    FilterSingleton(Items.HasItemId, p);
    FilterSingleton(Items.HasPrice, p);
  }

  /** The `payment_value` of a source payment row casts to a positive number. */
  predicate PaymentPositive(r: Events.Row, c: Coercions)
  {
    "payment_value" in r && c.toDouble(r["payment_value"]).Some? && c.toDouble(r["payment_value"]).value > 0.0
  }

  /** A `payment_event` yields one payments row exactly when its value casts to
      a positive number, carrying the row's `order_id`; the other projectors
      ignore it. */
  lemma {:induction false} PaymentEventProjection(r: Events.Row, clock: string, c: Coercions, now: Timestamp)
    ensures var rows := Payments.PaymentsValidated([Transmit(Events.PaymentEvent(r, clock))], c, now);
            && (rows != [] <==> PaymentPositive(r, c))
            && (rows != [] ==> |rows| == 1 && rows[0].orderId == Some(Events.Get(r, "order_id")))
    ensures Orders.OrdersValidated([Transmit(Events.PaymentEvent(r, clock))], c, now) == []
    ensures Items.ItemsValidated([Transmit(Events.PaymentEvent(r, clock))], c, now) == []
  {
    var env := Transmit(Events.PaymentEvent(r, clock));
    RouteSingleton(Events.OrderSnapshot, env);
    RouteSingleton(Events.ItemAdded, env);
    RouteSingleton(Events.PaymentReceived, env);
    var p := Payments.ProjectPayment(c, now, env);
    MapSeqSingleton((e: Envelope) => Payments.ProjectPayment(c, now, e), env);
    FilterSingleton(Payments.HasOrderId, p);
    FilterSingleton(Payments.PositiveValue, p);
  }
}
