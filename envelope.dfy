/** The envelope as the streaming consumer sees it after `from_json` with the
    envelope schema (spark/consumer.py): every column may be null, `data` is a
    string map. Parsing text into timestamps and numbers is done by the engine
    and is taken here as given partial functions. */
module Envelope {
  import opened Wrappers
  import opened Seqs

  datatype Envelope = Envelope(
    eventType: Option<string>,
    eventTime: Option<string>,
    orderId: Option<string>,
    customerId: Option<string>,
    productId: Option<string>,
    sellerId: Option<string>,
    orderStatus: Option<string>,
    data: Option<map<string, string>>)

  type SecondOfDay = s: nat | s < 86400

  /** A timestamp in the session time zone: a day number and the time of day. */
  datatype Timestamp = Timestamp(day: int, second: SecondOfDay)

  /** The engine's string parsers: `to_timestamp`, `cast("int")` and
      `cast("double")` (doubles taken as exact reals). `None` is a value that
      does not parse, which the engine turns into null. */
  datatype Coercions = Coercions(
    toTimestamp: string -> Option<Timestamp>,
    toInt: string -> Option<int>,
    toDouble: string -> Option<real>)

  /** `col("data")[name]`: null when `data` is null or lacks the key. */
  function DataField(e: Envelope, name: string): Option<string>
  {
    match e.data
    case None => None
    case Some(m) => if name in m then Some(m[name]) else None
  }

  /** A coercion applied to a column: null stays null. */
  function ToTimestamp(c: Coercions, x: Option<string>): Option<Timestamp>
  {
    if x.Some? then c.toTimestamp(x.value) else None
  }

  function CastInt(c: Coercions, x: Option<string>): Option<int>
  {
    if x.Some? then c.toInt(x.value) else None
  }

  function CastDouble(c: Coercions, x: Option<string>): Option<real>
  {
    if x.Some? then c.toDouble(x.value) else None
  }

  /** `to_date`: the calendar day of a timestamp, null for null. */
  function ToDate(t: Option<Timestamp>): Option<int>
  {
    if t.Some? then Some(t.value.day) else None
  }

  /** `datediff(end, start)`: whole calendar days from `start` to `end`, null
      when either side is null. */
  function DateDiff(end: Option<Timestamp>, start: Option<Timestamp>): (d: Option<int>)
    ensures d.Some? <==> end.Some? && start.Some?
  {
    if end.Some? && start.Some? then Some(end.value.day - start.value.day) else None
  }

  /** `datediff` looks at calendar days only: moving either timestamp within
      its day changes nothing, and it agrees with the difference of `to_date`. */
  lemma DateDiffByDays(end: Timestamp, start: Timestamp, s1: SecondOfDay, s2: SecondOfDay)
    ensures DateDiff(Some(end), Some(start))
         == DateDiff(Some(Timestamp(end.day, s1)), Some(Timestamp(start.day, s2)))
    ensures DateDiff(Some(end), Some(start)) == Some(ToDate(Some(end)).value - ToDate(Some(start)).value)
  {
  }

  predicate HasType(tag: string, e: Envelope)
  {
    e.eventType == Some(tag)
  }

  /** `parsed.filter(col("event_type") == tag)`: a null or different type is
      dropped. */
  function Route(tag: string, batch: seq<Envelope>): (r: seq<Envelope>)
    ensures forall e :: e in r <==> e in batch && e.eventType == Some(tag)
    ensures IsSubsequence(r, batch)
  {
    FilterMembers((e: Envelope) => HasType(tag, e), batch);
    FilterSubsequence((e: Envelope) => HasType(tag, e), batch);
    Filter((e: Envelope) => HasType(tag, e), batch)
  }

  /** Routing keeps every copy of an envelope of the tag, so an envelope
      delivered twice reaches the projector twice, and no copy of any other. */
  lemma RouteMultiset(tag: string, batch: seq<Envelope>)
    ensures forall x :: multiset(Route(tag, batch))[x]
                     == if x.eventType == Some(tag) then multiset(batch)[x] else 0
  {
    FilterMultiset((e: Envelope) => HasType(tag, e), batch);
  }

  lemma RouteSingleton(tag: string, e: Envelope)
    ensures Route(tag, [e]) == if e.eventType == Some(tag) then [e] else []
  {
    FilterSingleton((e: Envelope) => HasType(tag, e), e);
  }

  lemma RouteConcat(tag: string, a: seq<Envelope>, b: seq<Envelope>)
    ensures Route(tag, a + b) == Route(tag, a) + Route(tag, b)
  {
    FilterConcat((e: Envelope) => HasType(tag, e), a, b);
  }
}
