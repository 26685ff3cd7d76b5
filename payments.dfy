/** The payments projector (spark/consumer.py, "handling payments"): keep the
    PAYMENT_RECEIVED envelopes, project and cast their columns, drop rows
    without an `order_id` or whose `payment_value` is not greater than zero (a
    null value compares to null and is dropped too), and deduplicate on
    (`order_id`, `payment_sequential`). */
module Payments {
  import opened Wrappers
  import opened Seqs
  import opened Dedup
  import opened Text
  import opened Envelope
  import Events

  datatype PaymentRow = PaymentRow(
    orderId: Option<string>,
    paymentSequential: Option<int>,
    paymentType: Option<string>,
    paymentInstallments: Option<int>,
    paymentValue: Option<real>,
    ingestedAt: Timestamp)

  /** The `select`; `now` is `current_timestamp()` of the micro-batch. */
  function ProjectPayment(c: Coercions, now: Timestamp, e: Envelope): PaymentRow
  {
    PaymentRow(
      e.orderId,
      CastInt(c, DataField(e, "payment_sequential")),
      NormalizeColumn(DataField(e, "payment_type")),
      CastInt(c, DataField(e, "payment_installments")),
      CastDouble(c, DataField(e, "payment_value")),
      now)
  }

  predicate HasOrderId(r: PaymentRow) { r.orderId.Some? }

  /** `col("payment_value") > 0`: null is not greater than zero. */
  predicate PositiveValue(r: PaymentRow) { r.paymentValue.Some? && r.paymentValue.value > 0.0 }

  function PaymentsValidated(batch: seq<Envelope>, c: Coercions, now: Timestamp): seq<PaymentRow>
  {
    var projected := MapSeq((e: Envelope) => ProjectPayment(c, now, e), Route(Events.PaymentReceived, batch));
    Filter(PositiveValue, Filter(HasOrderId, projected))
  }

  /** The natural key; two nulls compare equal, as they do in `dropDuplicates`. */
  function PaymentKey(r: PaymentRow): (Option<string>, Option<int>) { (r.orderId, r.paymentSequential) }

  /** `payments_clean` for one micro-batch, against the keys already emitted. */
  function PaymentsClean(batch: seq<Envelope>, c: Coercions, now: Timestamp, seen: set<(Option<string>, Option<int>)>): seq<PaymentRow>
  {
    DropDuplicates(PaymentsValidated(batch, c, now), PaymentKey, seen)
  }

  /** An envelope that passes validation: a PAYMENT_RECEIVED with an
      `order_id` whose `payment_value` casts to a positive number. */
  predicate ValidPaymentEnvelope(e: Envelope, c: Coercions)
  {
    && e.eventType == Some(Events.PaymentReceived)
    && e.orderId.Some?
    && CastDouble(c, DataField(e, "payment_value")).Some?
    && CastDouble(c, DataField(e, "payment_value")).value > 0.0
  }

  lemma {:induction false} PaymentsValidatedRows(batch: seq<Envelope>, c: Coercions, now: Timestamp, r: PaymentRow)
    requires r in PaymentsValidated(batch, c, now)
    ensures r.orderId.Some? && r.paymentValue.Some? && r.paymentValue.value > 0.0
    ensures r.paymentType.Some? ==> Normalized(r.paymentType.value)
    ensures exists e :: e in batch && ValidPaymentEnvelope(e, c) && r == ProjectPayment(c, now, e)
  {
    var f := (e: Envelope) => ProjectPayment(c, now, e);
    var routed := Route(Events.PaymentReceived, batch);
    FilterMembers(HasOrderId, MapSeq(f, routed));
    FilterMembers(PositiveValue, Filter(HasOrderId, MapSeq(f, routed)));
    MapSeqMember(f, routed, r);
    var e :| e in routed && r == f(e);
    NormalizeColumnSpec(DataField(e, "payment_type"));
    assert ValidPaymentEnvelope(e, c);
  }

  /** Every emitted payments row has an `order_id`, a payment value above zero
      and a normalised payment type, comes from a valid PAYMENT_RECEIVED
      envelope of the batch, and was not emitted before. A zero, negative or
      uncastable value never reaches the output. */
  lemma PaymentsCleanRows(batch: seq<Envelope>, c: Coercions, now: Timestamp, seen: set<(Option<string>, Option<int>)>)
    ensures forall r :: r in PaymentsClean(batch, c, now, seen) ==>
              && r.orderId.Some? && r.paymentValue.Some? && r.paymentValue.value > 0.0
              && (r.paymentType.Some? ==> Normalized(r.paymentType.value))
              && PaymentKey(r) !in seen
              && exists e :: e in batch && ValidPaymentEnvelope(e, c) && r == ProjectPayment(c, now, e)
  {
    forall r | r in PaymentsClean(batch, c, now, seen)
      ensures && r.orderId.Some? && r.paymentValue.Some? && r.paymentValue.value > 0.0
              && (r.paymentType.Some? ==> Normalized(r.paymentType.value))
              && exists e :: e in batch && ValidPaymentEnvelope(e, c) && r == ProjectPayment(c, now, e)
    {
      PaymentsValidatedRows(batch, c, now, r);
    }
  }

  /** Deduplication on (`order_id`, `payment_sequential`): at most one row per
      key, the first valid one, in input order; every valid envelope whose key
      was not emitted before has its key in the output. */
  lemma PaymentsCleanKeys(batch: seq<Envelope>, c: Coercions, now: Timestamp, seen: set<(Option<string>, Option<int>)>)
    ensures var out := PaymentsClean(batch, c, now, seen);
            && DistinctKeys(out, PaymentKey)
            && IsSubsequence(out, PaymentsValidated(batch, c, now))
            && (forall r :: r in out ==> FirstWithKey(PaymentsValidated(batch, c, now), PaymentKey, PaymentKey(r)) == Some(r))
            && (forall e :: e in batch && ValidPaymentEnvelope(e, c) && PaymentKey(ProjectPayment(c, now, e)) !in seen ==>
                  PaymentKey(ProjectPayment(c, now, e)) in Keys(out, PaymentKey))
  {
    var v := PaymentsValidated(batch, c, now);
    DropDuplicatesUnique(v, PaymentKey, seen);
    DropDuplicatesSubsequence(v, PaymentKey, seen);
    DropDuplicatesKeepsFirst(v, PaymentKey, seen);
    DropDuplicatesKeys(v, PaymentKey, seen);
    forall e | e in batch && ValidPaymentEnvelope(e, c) && PaymentKey(ProjectPayment(c, now, e)) !in seen
      ensures PaymentKey(ProjectPayment(c, now, e)) in Keys(PaymentsClean(batch, c, now, seen), PaymentKey)
    {
      var f := (e: Envelope) => ProjectPayment(c, now, e);
      var projected := MapSeq(f, Route(Events.PaymentReceived, batch));
      MapSeqHas(f, Route(Events.PaymentReceived, batch), e);
      FilterMembers(HasOrderId, projected);
      FilterMembers(PositiveValue, Filter(HasOrderId, projected));
      assert f(e) in v;
    }
  }

  lemma PaymentsValidatedConcat(a: seq<Envelope>, b: seq<Envelope>, c: Coercions, now: Timestamp)
    ensures PaymentsValidated(a + b, c, now) == PaymentsValidated(a, c, now) + PaymentsValidated(b, c, now)
  {
    var f := (e: Envelope) => ProjectPayment(c, now, e);
    RouteConcat(Events.PaymentReceived, a, b);
    var ra, rb := Route(Events.PaymentReceived, a), Route(Events.PaymentReceived, b);
    MapSeqConcat(f, ra, rb);
    var pa, pb := MapSeq(f, ra), MapSeq(f, rb);
    FilterConcat(HasOrderId, pa, pb);
    FilterConcat(PositiveValue, Filter(HasOrderId, pa), Filter(HasOrderId, pb));
  }

  /** Two micro-batches in turn emit what one micro-batch holding both emits. */
  lemma PaymentsMicroBatches(a: seq<Envelope>, b: seq<Envelope>, c: Coercions, now: Timestamp, seen: set<(Option<string>, Option<int>)>)
    ensures PaymentsClean(a + b, c, now, seen)
         == PaymentsClean(a, c, now, seen) + PaymentsClean(b, c, now, seen + Keys(PaymentsValidated(a, c, now), PaymentKey))
  {
    PaymentsValidatedConcat(a, b, c, now);
    DropDuplicatesSplit(PaymentsValidated(a, c, now), PaymentsValidated(b, c, now), PaymentKey, seen);
  }

  /** The rows each micro-batch of a stream hands to `dropDuplicates`. */
  function PaymentsValidatedBatches(bs: seq<seq<Envelope>>, c: Coercions, now: Timestamp): (vs: seq<seq<PaymentRow>>)
    ensures |vs| == |bs|
  {
    MapSeq((b: seq<Envelope>) => PaymentsValidated(b, c, now), bs)
  }

  lemma {:induction false} PaymentsValidatedFlatten(bs: seq<seq<Envelope>>, c: Coercions, now: Timestamp)
    ensures PaymentsValidated(Flatten(bs), c, now) == Flatten(PaymentsValidatedBatches(bs, c, now))
    decreases |bs|
  {
    if bs == [] {
      assert Route(Events.PaymentReceived, []) == [];
    } else {
      PaymentsValidatedConcat(bs[0], Flatten(bs[1..]), c, now);
      PaymentsValidatedFlatten(bs[1..], c, now);
      assert PaymentsValidatedBatches(bs, c, now)[1..] == PaymentsValidatedBatches(bs[1..], c, now);
    }
  }

  /** Any split of the input into micro-batches, each deduplicated against the
      keys of the batches before it, emits exactly what one micro-batch holding
      all the input emits (with one `current_timestamp()` for all of them). */
  lemma PaymentsStreamMatchesSingleBatch(bs: seq<seq<Envelope>>, c: Coercions, now: Timestamp, seen: set<(Option<string>, Option<int>)>)
    ensures Flatten(Stream(PaymentsValidatedBatches(bs, c, now), PaymentKey, seen)) == PaymentsClean(Flatten(bs), c, now, seen)
  {
    PaymentsValidatedFlatten(bs, c, now);
    StreamMatchesSingleBatch(PaymentsValidatedBatches(bs, c, now), PaymentKey, seen);
  }
}
