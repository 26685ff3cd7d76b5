/** The producer's `main` (producer/stream.py): build the three envelope lists,
    concatenate them, shuffle the list in place, keep a prefix of at most
    `MaxEvents`, and publish each envelope under its partition key. */
module Producer {
  import opened Events

  const MaxEvents: nat := 50000

  function Min(a: nat, b: nat): nat { if a <= b then a else b }

  /** `random.shuffle`: for i from the last index down to 1, swap element i
      with element `j` drawn from 0..i. `draw(i)` stands for the random number
      generator's answer at step i, reduced into range as `randbelow(i + 1)`
      guarantees; any sequence of draws gives a permutation. */
  method Shuffle<T>(a: array<T>, draw: nat -> nat)
    modifies a
    ensures multiset(a[..]) == old(multiset(a[..]))
  {
    var i := a.Length - 1;
    while i > 0
      invariant -1 <= i < a.Length
      invariant multiset(a[..]) == old(multiset(a[..]))
    {
      var j := draw(i) % (i + 1);
      a[i], a[j] := a[j], a[i];
      i := i - 1;
    }
  }

  lemma PrefixMultiset<T>(s: seq<T>, n: nat)
    requires n <= |s|
    ensures multiset(s[..n]) <= multiset(s)
  {
    assert s == s[..n] + s[n..];
  }

  /** The three lists are concatenated, shuffled in place and cut to at most
      `MaxEvents`: the emitted list is as long as the candidates allow up to
      the cap, and draws only from the candidates, each at most as often as it
      occurs among them. */
  method ChooseEvents(orders: seq<Event>, items: seq<Event>, payments: seq<Event>, draw: nat -> nat)
    returns (events: seq<Event>)
    ensures |events| == Min(|orders| + |items| + |payments|, MaxEvents)
    ensures multiset(events) <= multiset(orders + items + payments)
  {
    var all := orders + items + payments;
    var a := new Event[|all|](i requires 0 <= i < |all| => all[i]);
    assert a[..] == all;
    Shuffle(a, draw);
    var n := Min(a.Length, MaxEvents);
    PrefixMultiset(a[..], n);
    events := a[..n];
  }

  /** One `put_record` call: the partition key and the envelope as payload. */
  datatype Record = Record(partitionKey: string, payload: Event)

  function Payloads(log: seq<Record>): (es: seq<Event>)
    ensures |es| == |log|
  {
    seq(|log|, i requires 0 <= i < |log| => log[i].payload)
  }

  /** The send loop of `main`: one record per envelope, in order, each under a
      non-empty partition key derived from the envelope's `order_id`. */
  method Publish(events: seq<Event>) returns (log: seq<Record>)
    ensures Payloads(log) == events
    ensures forall k :: 0 <= k < |log| ==> log[k].partitionKey == PartitionKey(events[k])
    ensures forall k :: 0 <= k < |log| ==> log[k].partitionKey != ""
  {
    log := [];
    var i := 0;
    while i < |events|
      invariant 0 <= i <= |events|
      invariant |log| == i
      invariant forall k :: 0 <= k < i ==> log[k] == Record(PartitionKey(events[k]), events[k])
    {
      log := log + [Record(PartitionKey(events[i]), events[i])];
      i := i + 1;
    }
  }

  /** The whole of `main` after the files are read: rows in, published records
      out. `now` is the clock reading of the payment constructor. */
  method Run(orderRows: seq<Row>, itemRows: seq<Row>, paymentRows: seq<Row>, now: string, draw: nat -> nat)
    returns (log: seq<Record>)
    ensures |log| == Min(|orderRows| + |itemRows| + |paymentRows|, MaxEvents)
    ensures multiset(Payloads(log))
         <= multiset(BuildEvents(orderRows, Make(Order, now))
                     + BuildEvents(itemRows, Make(Item, now))
                     + BuildEvents(paymentRows, Make(Payment, now)))
    ensures forall k :: 0 <= k < |log| ==> log[k].partitionKey == PartitionKey(log[k].payload) != ""
  {
    var orders := BuildEvents(orderRows, Make(Order, now));
    var payments := BuildEvents(paymentRows, Make(Payment, now));
    var items := BuildEvents(itemRows, Make(Item, now));
    var events := ChooseEvents(orders, items, payments, draw);
    log := Publish(events);
  }
}
