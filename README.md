# Olist streaming events: envelope construction and per-domain projection

This project models the two pieces of logic in the Olist streaming pipeline.

- **The producer** (`producer/stream.py`) turns source rows of orders, order
  items and payments into event envelopes. Each envelope has a fixed
  `event_type` tag, a few identifier fields copied from the row (`""` when
  missing) and the whole row as `data`. `main` concatenates the three lists,
  shuffles them, keeps at most `MAX_EVENTS` of them and publishes each one to
  the log under a partition key: the envelope's `order_id`, or `"unknown"` when
  that is empty.
- **The consumer** (`spark/consumer.py`) runs three projectors over the parsed
  envelope stream. Each one keeps the envelopes of its own `event_type`,
  projects and coerces columns out of `data`, filters out rows that fail its
  null and positivity checks, derives the order day counts and
  `purchase_date`, and drops duplicates on its natural key. The engine carries
  the set of keys already emitted from one micro-batch to the next.

Files and modules:

| file | module | models |
|---|---|---|
| `wrappers.dfy` | `Wrappers` | `Option`: SQL null on the consumer side, an absent key on the producer side |
| `seqs.dfy` | `Seqs` | `filter` and per-row `select` as sequence functions; subsequence; flattening micro-batches |
| `dedup.dfy` | `Dedup` | streaming `dropDuplicates`: keep the first row per key against a carried seen-key set; the fold over micro-batches |
| `text.dfy` | `Text` | Spark `trim` and `lower`, and the `lower(trim(x))` normalisation |
| `events.dfy` | `Events` | the envelope constructors, `build_events`, the partition-key expression of `send` |
| `producer.dfy` | `Producer` | `main`: concatenate, shuffle in place (the Fisher–Yates loop of `random.shuffle`), truncate, and the publish loop |
| `envelope.dfy` | `Envelope` | the parsed envelope, timestamps, the engine's parsers as given partial functions, `to_date`, `datediff`, event-type routing |
| `orders.dfy`, `items.dfy`, `payments.dfy` | `Orders`, `Items`, `Payments` | `orders_clean`, `items_clean`, `payments_clean` |
| `wire.dfy` | `Wire` | what each projector makes of the envelope each producer constructor builds |

Each projector is a function from a micro-batch of envelopes to rows. It also
takes the coercions (`to_timestamp`, `cast("int")`, `cast("double")`), the
micro-batch's `current_timestamp()` and the set of keys already emitted. A
stream of micro-batches is `Dedup.Stream`, a fold that threads that set
through the batches.

Behaviour worth knowing, which the model keeps as the code has it:

- Contrary to what a required `order_id` suggests, all three projectors
  (orders, items and payments) reject only a *null* `order_id`
  (spark/consumer.py:67,88,106). The producer writes `""` for a missing
  `order_id` (`str(r.get("order_id", ""))`). So an order without an id
  reaches the orders output under the key `""`, an item under
  `("", order_item_id)` and a payment under `("", payment_sequential)`.
  `Wire.OrderEventProjection`, `Wire.ItemEventProjection` and
  `Wire.PaymentEventProjection` show this.
  All such orders share that one key and collapse to a single row.
- The payments projector does not check `payment_sequential`, and the items
  projector checks `order_item_id` only for null. A null
  `payment_sequential` therefore becomes part of the key. Nulls compare equal
  in `dropDuplicates`, and `Option` equality gives the same behaviour.
- Unlike the partition key, the envelope's own `order_id` is not defaulted to
  `"unknown"`: it stays `""` when the row lacks one. Only the partition key sent to the log is replaced by `"unknown"`.
- Spark's `trim` strips only the space character U+0020 (spark/consumer.py:59,101).
  A tab or newline at either end of `order_status` or `payment_type` survives
  normalisation. So the output has no leading or trailing *space*, though it
  may have leading or trailing whitespace of other kinds. `Text.NormalizeSpec` states it
  in this form.
- The seen-key state is the engine's deduplication state (no watermark), so
  every key ever emitted stays in it. The model carries the state as a `set`.

## Model

| member | source | states |
|---|---|---|
| `Events.ConstructorsMeetContract` | producer/stream.py:27-53 | each constructor sets its own fixed tag, keeps the row verbatim as `data`, copies `order_id` and exactly its variant's identifier fields from the row (`""` when missing) and takes `event_time` from `order_purchase_timestamp`, `shipping_limit_date` or the clock |
| `Events.TagInjective` | producer/stream.py:29-47 | the three `event_type` tags are pairwise different, so a tag identifies its constructor |
| `Events.BuildEventsSpec` | producer/stream.py:55-56 | `build_events` returns exactly one envelope per row, in row order, each meeting its variant's envelope contract for that row |
| `Events.PartitionKey` | producer/stream.py:24 | the partition key is never empty; it is the envelope's `order_id` or, when that is empty, `"unknown"` |
| `Events.PartitionKeySpec` | producer/stream.py:24 | the key equals `order_id` exactly when `order_id` is non-empty, and is `"unknown"` exactly when `order_id` is empty or itself `"unknown"` |
| `Producer.Shuffle` | producer/stream.py:66 | the in-place shuffle leaves a permutation of the list, whatever the random draws are |
| `Producer.ChooseEvents` | producer/stream.py:65-67 | the emitted list has length `min(|orders| + |items| + |payments|, MAX_EVENTS)` and its multiset is contained in that of `orders + items + payments` |
| `Producer.Publish` | producer/stream.py:71-72 | one `put_record` per envelope, in order, under that envelope's partition key, which is never empty |
| `Producer.Run` | producer/stream.py:58-77 | `main` publishes `min(total rows, MAX_EVENTS)` records, each carrying an envelope built from the rows (no envelope more often than it was built), under a non-empty partition key derived from that envelope |
| `Envelope.Route` | spark/consumer.py:49-51 | a projector's input holds exactly the envelopes whose `event_type` equals its tag, in batch order; a null or different type is dropped |
| `Envelope.RouteMultiset` | spark/consumer.py:49-51 | each envelope of the tag reaches the projector as often as it occurs in the batch (a redelivered envelope twice), and no copy of any other envelope does |
| `Envelope.DateDiff` | spark/consumer.py:70-71 | `datediff` is null exactly when one of its operands is null |
| `Envelope.DateDiffByDays` | spark/consumer.py:69-71 | `datediff` ignores the time of day and is the difference of the two `to_date` values |
| `Text.TrimStart` | spark/consumer.py:59 | removes exactly the leading run of spaces: a suffix of the input, all removed characters are spaces, and it does not start with a space |
| `Text.TrimEnd` | spark/consumer.py:59 | removes exactly the trailing run of spaces, in the same sense |
| `Text.Trim` | spark/consumer.py:59 | `trim` yields the slice between the leading and trailing runs of spaces, and that slice neither starts nor ends with a space |
| `Text.Lower` | spark/consumer.py:59 | `lower` keeps the length and leaves no upper-case letter |
| `Text.LowerEachChar` | spark/consumer.py:59 | `lower` maps each upper-case letter to its lower-case letter and keeps every other character, position by position |
| `Text.NormalizeColumn` | spark/consumer.py:101 | `lower(trim(x))` is null exactly when `x` is null |
| `Text.NormalizeSpec` | spark/consumer.py:59 | `lower(trim(s))` has no leading or trailing space and no upper-case letter, and applying it again changes nothing |
| `Text.NormalizeColumnSpec` | spark/consumer.py:101 | the same for a nullable column: normalised when non-null, and idempotent |
| `Orders.OrdersValidatedRows` | spark/consumer.py:56-73 | each row before deduplication is well formed and was projected from an ORDER_SNAPSHOT envelope of the batch |
| `Orders.OrdersCleanRows` | spark/consumer.py:56-74 | every orders output row has non-null `order_id` and `purchase_ts` and a normalised status. `purchase_date` is the purchase day. Each day count is the difference of calendar days, null exactly when an operand is null. The row comes from an ORDER_SNAPSHOT envelope of the batch, and its key was not emitted before |
| `Orders.OrdersCleanKeys` | spark/consumer.py:73-74 | at most one row per `order_id`; output is a subsequence of the validated rows; each output row is the first validated row for its key; every valid snapshot whose `order_id` was not emitted before has its `order_id` in the output, so an earlier invalid snapshot never suppresses it |
| `Orders.OrdersMicroBatches` | spark/consumer.py:74 | two micro-batches processed in turn, carrying the seen keys, emit exactly what one micro-batch holding both emits |
| `Orders.OrdersStreamMatchesSingleBatch` | spark/consumer.py:74 | any split of the input into micro-batches, each deduplicated on `order_id` against the keys of earlier batches, emits exactly what one batch holding all the input emits |
| `Items.ItemsValidatedRows` | spark/consumer.py:79-88 | each row before deduplication has non-null `order_id`, `order_item_id` and `price`, and was projected from a valid ITEM_ADDED envelope of the batch |
| `Items.ItemsCleanRows` | spark/consumer.py:79-90 | every items output row has non-null `order_id`, `order_item_id` and `price`. An uncastable item number or price is null, so it never reaches the output. The row comes from an ITEM_ADDED envelope of the batch, and its key was not emitted before |
| `Items.ItemsCleanKeys` | spark/consumer.py:88-90 | at most one row per (`order_id`, `order_item_id`); output is a subsequence of the validated rows; each output row is the first for its key; every valid envelope with an unseen key has that key in the output |
| `Items.ItemsMicroBatches` | spark/consumer.py:90 | two micro-batches in turn emit exactly what one micro-batch holding both emits |
| `Items.ItemsStreamMatchesSingleBatch` | spark/consumer.py:90 | any split into micro-batches emits exactly what one batch holding all the input emits |
| `Payments.PaymentsValidatedRows` | spark/consumer.py:97-106 | each row before deduplication has non-null `order_id`, `payment_value > 0` and a normalised type, and was projected from a valid PAYMENT_RECEIVED envelope of the batch |
| `Payments.PaymentsCleanRows` | spark/consumer.py:97-108 | every payments output row has a non-null `order_id`, `payment_value > 0` and a normalised `payment_type`. A zero, negative or uncastable value never reaches the output. The row comes from a PAYMENT_RECEIVED envelope of the batch, and its key was not emitted before |
| `Payments.PaymentsCleanKeys` | spark/consumer.py:106-108 | at most one row per (`order_id`, `payment_sequential`); output is a subsequence of the validated rows; each output row is the first for its key; every valid envelope with an unseen key has that key in the output |
| `Payments.PaymentsMicroBatches` | spark/consumer.py:108 | two micro-batches in turn emit exactly what one micro-batch holding both emits |
| `Payments.PaymentsStreamMatchesSingleBatch` | spark/consumer.py:108 | any split into micro-batches emits exactly what one batch holding all the input emits |
| `Dedup.DropDuplicates` | spark/consumer.py:74 | every emitted row is an input row whose key was not in the carried state |
| `Dedup.DropDuplicatesUnique` | spark/consumer.py:74 | no two emitted rows share a key |
| `Dedup.DropDuplicatesSubsequence` | spark/consumer.py:74 | the output is a subsequence of the input, at each of the three `dropDuplicates` calls (spark/consumer.py:74, 90 and 108) |
| `Dedup.DropDuplicatesKeys` | spark/consumer.py:74 | the emitted keys are exactly the input's keys minus those already seen, at each of the three `dropDuplicates` calls (spark/consumer.py:74, 90 and 108) |
| `Dedup.DropDuplicatesKeepsFirst` | spark/consumer.py:74 | the row emitted for a key is the first input row with that key |
| `Dedup.DropDuplicatesOfDistinct` | spark/consumer.py:74 | rows with distinct, unseen keys pass through unchanged |
| `Dedup.DropDuplicatesIdempotent` | spark/consumer.py:74 | deduplicating twice equals deduplicating once |
| `Dedup.DropDuplicatesReplay` | spark/consumer.py:74 | replaying a micro-batch whose keys are all in the state emits nothing |
| `Dedup.DropDuplicatesSplit` | spark/consumer.py:74 | deduplicating `a + b` equals deduplicating `a`, then `b` against the state extended by `a`'s keys |
| `Dedup.Stream` | spark/consumer.py:74 | the engine's fold emits one output per micro-batch |
| `Dedup.StreamBatch` | spark/consumer.py:74 | the output of micro-batch `i`, what the sink receives at that trigger, is that batch deduplicated against the starting state and the keys of every earlier micro-batch; a row never appears before the batch that carries it |
| `Dedup.StreamMatchesSingleBatch` | spark/consumer.py:74 | the concatenated outputs of any split into micro-batches equal the output of one batch holding all the input |
| `Wire.TransmitRouting` | spark/consumer.py:49-51 | an envelope built by a producer constructor reaches its own variant's projector and no other |
| `Wire.OrderEventProjection` | spark/consumer.py:56-73 | an `order_event` yields one orders row exactly when its purchase timestamp parses. The row carries the source's `order_id` (`""` when missing, which is kept), `customer_id` and normalised status. The item and payment projectors ignore it |
| `Wire.ItemEventProjection` | spark/consumer.py:79-88 | an `item_event` yields one items row exactly when its `order_item_id` and `price` cast. The row carries the source's identifiers. The other projectors ignore it |
| `Wire.PaymentEventProjection` | spark/consumer.py:97-106 | a `payment_event` yields one payments row exactly when its `payment_value` casts to a positive number. The row carries the source's `order_id`. The other projectors ignore it |

## Left out

- Spark session, Kinesis source and parquet/JSON sinks, triggers, output modes, checkpoint locations and `awaitAnyTermination`: engine and I/O configuration. This includes the raw archiver query, which copies the stream unchanged. Checkpointing and exactly-once writes belong to the engine.
- `to_timestamp` and the casts are the engine's parsers. They are parameters (`Envelope.Coercions`): total functions that return `None` where the engine returns null. This is the engine's behaviour with ANSI mode off (`spark.sql.ansi.enabled=false`, the default before Spark 4.0, which the consumer does not set); with ANSI mode on, an unparsable timestamp or the `""` that `fillna("")` writes into a numeric column fails the whole micro-batch instead of dropping one row, and the model assumes non-ANSI mode.
- `from_json` is not modelled. A micro-batch is a sequence of already-parsed envelopes. `Wire.Transmit` stands in for `json.dumps` followed by `from_json`, and assumes that every key the producer wrote is read back.
- Values in `data` are strings. A JSON null inside `data` is not represented; it reads exactly like an absent key. The producer's rendering of pandas numbers into text (`str(...)`, `json.dumps`) is not modelled.
- Doubles: `price`, `freight_value` and `payment_value` are exact `real`s. Only their null-ness and the `> 0` test matter here, and floating-point rounding is not modelled. NaN and the infinities are not represented either: Spark's `cast("double")` accepts "NaN" and "Infinity" and orders NaN above every number, so a NaN `payment_value` would pass `> 0`; the producer's `fillna("")` replaces NaN before sending, so none reaches this pipeline from it. A positive infinity would pass `> 0` just as a large number does.
- Timestamps are a day number and a second of the day in the session time zone. Time zones and sub-second precision are not modelled.
- `Text.Lower`: lower-cases ASCII letters only. Spark's `lower` also maps non-ASCII letters, which the model leaves unchanged.
- `current_timestamp()` is a per-micro-batch parameter `now`.
- `Orders.OrdersMicroBatches`, `Items.ItemsMicroBatches`, `Payments.PaymentsMicroBatches`, `Orders.OrdersStreamMatchesSingleBatch`, `Items.ItemsStreamMatchesSingleBatch`, `Payments.PaymentsStreamMatchesSingleBatch`: stated with one `now` for all micro-batches. With two different clock readings the outputs differ only in `ingested_at`.
- `Producer.Run`: uses one clock reading `now` for the `event_time` of every payment envelope. The source reads the clock once per payment row.
- `Producer.Shuffle`: `random.shuffle`'s draws are a parameter `draw`. The contract states that the result is a permutation for any draws. The uniform distribution is not modelled.
- Reading the CSV files (`read_csv`, `fillna`), the `boto3` client, `time.sleep` and the progress prints are left out as I/O. `put_record` is modelled as appending a `Record` to the returned log.
- `Producer.Publish`, `Producer.Run`: assume every `put_record` succeeds. In the source a failing call raises, and `main` stops after publishing a prefix of the list; that abort is not modelled.
- The projector's state machine, its restart and failure handling, and concurrency between the projectors belong to the engine. Only the seen-key state that the engine carries between micro-batches is modelled.
- Within one micro-batch, the order in which the engine visits rows decides which duplicate is "first". The model takes the batch's sequence order as that order.
