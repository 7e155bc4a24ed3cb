/**
 * The meaning of value delivery in smelter-reflux, stated on values.
 *
 * Publishers, subscribers and the memory cells that sinks write are named by
 * ids. A `Wiring` says which subscriptions each publisher holds (in attachment
 * order) and which sinks each subscriber holds (in registration order). A
 * `Memory` is what delivery changes: the cells, and a log with one entry per
 * sink invocation. `Send` and `Receive` say what `Publisher::send_value` and
 * `Subscriber::receive_value` do to a memory.
 *
 * Delivery through `bind` and `map` sinks recurses from one publisher into
 * another. Every publisher and subscriber carries a rank, and a well-formed
 * wiring only links downwards (a subscription to a lower-ranked subscriber, a
 * forwarding sink to a lower-ranked publisher), so delivery terminates. In the
 * library a cycle re-enters a `Mutex` that the same thread already holds.
 */
module Delivery {
  import opened Wrappers
  import opened Demands

  type SubscriberId = nat
  type PublisherId = nat
  type CellId = nat

  /** What a sink closure does with a delivered value. */
  datatype Sink<!V> =
    | Record(cell: CellId)                   // stores the value in a cell
    | Forward(target: PublisherId)           // `bind`: sends the value on
    | MapForward(f: V -> V, target: PublisherId)  // `map`: sends `f(value)` on

  /** The link between a publisher and one subscriber, with its demand. */
  datatype Subscription = Subscription(subscriber: SubscriberId, demand: Demand)

  datatype Wiring<!V> = Wiring(
    publishers: map<PublisherId, seq<Subscription>>,
    subscribers: map<SubscriberId, seq<Sink<V>>>,
    pubRank: map<PublisherId, nat>,
    subRank: map<SubscriberId, nat>)

  /** One sink invocation: sink number `index` of `subscriber` ran on `value`. */
  datatype Fired<V> = Fired(subscriber: SubscriberId, index: nat, value: V)

  datatype Memory<V> = Memory(cells: map<CellId, V>, log: seq<Fired<V>>)

  /** A property: its publisher, its internal subscriber and its cached cell. */
  datatype Property = Property(publisher: PublisherId, subscriber: SubscriberId, cache: CellId)

  ghost predicate LinkOk<V>(w: Wiring<V>, p: PublisherId, x: Subscription)
    requires p in w.pubRank
  {
    x.subscriber in w.subscribers && x.subscriber in w.subRank
    && w.subRank[x.subscriber] < w.pubRank[p]
  }

  ghost predicate SinkOk<V>(w: Wiring<V>, s: SubscriberId, k: Sink<V>)
    requires s in w.subRank
  {
    k.Record? || (k.target in w.publishers && k.target in w.pubRank && w.pubRank[k.target] < w.subRank[s])
  }

  /** Every link points at an existing, lower-ranked endpoint. */
  ghost predicate Valid<V>(w: Wiring<V>) {
    && w.publishers.Keys <= w.pubRank.Keys
    && w.subscribers.Keys <= w.subRank.Keys
    && (forall p, x | p in w.publishers && x in w.publishers[p] :: LinkOk(w, p, x))
    && (forall s, k | s in w.subscribers && k in w.subscribers[s] :: SinkOk(w, s, k))
  }

  // ---------------------------------------------------------------------------
  // Delivery

  /** `send_value(v)` on publisher `p`: deliver to each subscription in order. */
  function Send<V>(w: Wiring<V>, m: Memory<V>, p: PublisherId, v: V): (r: Memory<V>)
    requires Valid(w) && p in w.publishers
    ensures m.log <= r.log && m.cells.Keys <= r.cells.Keys
    decreases w.pubRank[p], 1, 0
  {
    DeliverPrefix(w, m, p, v, |w.publishers[p]|)
  }

  /** Delivery to the first `n` subscriptions of `p`. */
  function DeliverPrefix<V>(w: Wiring<V>, m: Memory<V>, p: PublisherId, v: V, n: nat): (r: Memory<V>)
    requires Valid(w) && p in w.publishers && n <= |w.publishers[p]|
    ensures m.log <= r.log && m.cells.Keys <= r.cells.Keys
    decreases w.pubRank[p], 0, n
  {
    if n == 0 then m
    else
      var x := w.publishers[p][n - 1];
      assert x in w.publishers[p];
      Receive(w, DeliverPrefix(w, m, p, v, n - 1), x.subscriber, v)
  }

  /** `receive_value(v)` on subscriber `s`: run every sink in order. */
  function Receive<V>(w: Wiring<V>, m: Memory<V>, s: SubscriberId, v: V): (r: Memory<V>)
    requires Valid(w) && s in w.subscribers
    ensures m.log <= r.log && |r.log| >= |m.log| + |w.subscribers[s]| && m.cells.Keys <= r.cells.Keys
    decreases w.subRank[s], 1, 0
  {
    RunSinks(w, m, s, v, |w.subscribers[s]|)
  }

  /** The first `n` sinks of `s`, run in order. */
  function RunSinks<V>(w: Wiring<V>, m: Memory<V>, s: SubscriberId, v: V, n: nat): (r: Memory<V>)
    requires Valid(w) && s in w.subscribers && n <= |w.subscribers[s]|
    ensures m.log <= r.log && |r.log| >= |m.log| + n && m.cells.Keys <= r.cells.Keys
    decreases w.subRank[s], 0, n
  {
    if n == 0 then m else Fire(w, RunSinks(w, m, s, v, n - 1), s, n - 1, v)
  }

  /** Sink number `i` of `s` invoked with `v`. */
  function Fire<V>(w: Wiring<V>, m: Memory<V>, s: SubscriberId, i: nat, v: V): (r: Memory<V>)
    requires Valid(w) && s in w.subscribers && i < |w.subscribers[s]|
    ensures m.log + [Fired(s, i, v)] <= r.log && m.cells.Keys <= r.cells.Keys
    decreases w.subRank[s], 0, i
  {
    var logged := Logged(m, Fired(s, i, v));
    var k := w.subscribers[s][i];
    assert k in w.subscribers[s];
    match k
    case Record(c) => Memory(logged.cells[c := v], logged.log)
    case Forward(q) => Send(w, logged, q, v)
    case MapForward(f, q) => Send(w, logged, q, f(v))
  }

  function Logged<V>(m: Memory<V>, e: Fired<V>): (r: Memory<V>)
    ensures r.cells == m.cells && r.log == m.log + [e]
  {
    Memory(m.cells, m.log + [e])
  }

  // ---------------------------------------------------------------------------
  // The log only grows, and what a delivery adds to it comes from lower ranks

  /** Every entry of `d` was fired by a subscriber ranked below `bound`. */
  ghost predicate FiredBelow<V>(w: Wiring<V>, d: seq<Fired<V>>, bound: nat) {
    forall e | e in d :: e.subscriber in w.subRank && w.subRank[e.subscriber] < bound
  }

  lemma PrefixSplit<T>(a: seq<T>, b: seq<T>, c: seq<T>)
    requires a <= b && b <= c
    ensures a <= c && c[|a|..] == b[|a|..] + c[|b|..]
  {
    assert c == b + c[|b|..];
    assert b == a + b[|a|..];
  }

  lemma {:induction false} SendLog<V>(w: Wiring<V>, m: Memory<V>, p: PublisherId, v: V)
    requires Valid(w) && p in w.publishers
    ensures var r := Send(w, m, p, v);
      m.log <= r.log && FiredBelow(w, r.log[|m.log|..], w.pubRank[p])
    decreases w.pubRank[p], 1, 0
  {
    DeliverPrefixLog(w, m, p, v, |w.publishers[p]|);
  }

  lemma {:induction false} DeliverPrefixLog<V>(w: Wiring<V>, m: Memory<V>, p: PublisherId, v: V, n: nat)
    requires Valid(w) && p in w.publishers && n <= |w.publishers[p]|
    ensures var r := DeliverPrefix(w, m, p, v, n);
      m.log <= r.log && FiredBelow(w, r.log[|m.log|..], w.pubRank[p])
    decreases w.pubRank[p], 0, n
  {
    if n > 0 {
      var x := w.publishers[p][n - 1];
      assert x in w.publishers[p];
      var m1 := DeliverPrefix(w, m, p, v, n - 1);
      var r := DeliverPrefix(w, m, p, v, n);
      DeliverPrefixLog(w, m, p, v, n - 1);
      ReceiveLog(w, m1, x.subscriber, v);
      PrefixSplit(m.log, m1.log, r.log);
    }
  }

  lemma {:induction false} ReceiveLog<V>(w: Wiring<V>, m: Memory<V>, s: SubscriberId, v: V)
    requires Valid(w) && s in w.subscribers
    ensures var r := Receive(w, m, s, v);
      m.log <= r.log && FiredBelow(w, r.log[|m.log|..], w.subRank[s] + 1)
    decreases w.subRank[s], 1, 0
  {
    RunSinksLog(w, m, s, v, |w.subscribers[s]|);
  }

  lemma {:induction false} RunSinksLog<V>(w: Wiring<V>, m: Memory<V>, s: SubscriberId, v: V, n: nat)
    requires Valid(w) && s in w.subscribers && n <= |w.subscribers[s]|
    ensures var r := RunSinks(w, m, s, v, n);
      m.log <= r.log && FiredBelow(w, r.log[|m.log|..], w.subRank[s] + 1)
    decreases w.subRank[s], 0, n
  {
    if n > 0 {
      var m1 := RunSinks(w, m, s, v, n - 1);
      var r := RunSinks(w, m, s, v, n);
      RunSinksLog(w, m, s, v, n - 1);
      FireLog(w, m1, s, n - 1, v);
      PrefixSplit(m.log, m1.log, r.log);
    }
  }

  /**
   * A sink invocation logs itself first; whatever it then causes is fired by
   * subscribers ranked strictly below the one that owns the sink.
   */
  lemma {:induction false} FireLog<V>(w: Wiring<V>, m: Memory<V>, s: SubscriberId, i: nat, v: V)
    requires Valid(w) && s in w.subscribers && i < |w.subscribers[s]|
    ensures var r := Fire(w, m, s, i, v);
      m.log + [Fired(s, i, v)] <= r.log
      && FiredBelow(w, r.log[|m.log| + 1..], w.subRank[s])
      && FiredBelow(w, r.log[|m.log|..], w.subRank[s] + 1)
    decreases w.subRank[s], 0, i
  {
    var logged := Logged(m, Fired(s, i, v));
    var k := w.subscribers[s][i];
    assert k in w.subscribers[s];
    var r := Fire(w, m, s, i, v);
    match k
    case Record(c) =>
      assert r.log[|m.log| + 1..] == [];
    case Forward(q) =>
      SendLog(w, logged, q, v);
    case MapForward(f, q) =>
      SendLog(w, logged, q, f(v));
    assert r.log[|m.log|..] == [Fired(s, i, v)] + r.log[|m.log| + 1..];
  }

  // ---------------------------------------------------------------------------
  // Each sink of a receiving subscriber runs exactly once, in order

  /** The entries of `log` that belong to subscriber `s`, in order. */
  function Own<V>(log: seq<Fired<V>>, s: SubscriberId): (r: seq<Fired<V>>)
    ensures |r| <= |log|
  {
    if log == [] then []
    else (if log[0].subscriber == s then [log[0]] else []) + Own(log[1..], s)
  }

  /** The invocations of the first `n` sinks of `s`, each once, in order. */
  function Firings<V>(s: SubscriberId, n: nat, v: V): (r: seq<Fired<V>>)
    ensures |r| == n
    ensures forall i | 0 <= i < n :: r[i] == Fired(s, i, v)
  {
    if n == 0 then [] else Firings(s, n - 1, v) + [Fired(s, n - 1, v)]
  }

  lemma {:induction false} OwnConcat<V>(a: seq<Fired<V>>, b: seq<Fired<V>>, s: SubscriberId)
    ensures Own(a + b, s) == Own(a, s) + Own(b, s)
  {
    if a == [] {
      assert a + b == b;
    } else {
      var head := if a[0].subscriber == s then [a[0]] else [];
      assert (a + b)[0] == a[0];
      assert (a + b)[1..] == a[1..] + b;
      OwnConcat(a[1..], b, s);
      calc {
        Own(a + b, s);
        head + Own(a[1..] + b, s);
        head + (Own(a[1..], s) + Own(b, s));
        (head + Own(a[1..], s)) + Own(b, s);
      }
    }
  }

  lemma {:induction false} OwnBelow<V>(w: Wiring<V>, d: seq<Fired<V>>, s: SubscriberId)
    requires s in w.subRank && FiredBelow(w, d, w.subRank[s])
    ensures Own(d, s) == []
  {
    if d != [] {
      assert d[0] in d;
      assert forall e | e in d[1..] :: e in d;
      OwnBelow(w, d[1..], s);
    }
  }

  /**
   * `Subscriber::receive_value(v)` invokes every registered sink of `s`
   * exactly once with `v`, in registration order: among everything the call
   * logs (including what forwarding sinks cause downstream), the entries of
   * `s` are exactly sink 0, sink 1, ... with value `v`.
   */
  lemma ReceiveFiresEachSinkOnce<V>(w: Wiring<V>, m: Memory<V>, s: SubscriberId, v: V)
    requires Valid(w) && s in w.subscribers
    ensures var r := Receive(w, m, s, v);
      m.log <= r.log && Own(r.log[|m.log|..], s) == Firings(s, |w.subscribers[s]|, v)
  {
    RunSinksOwn(w, m, s, v, |w.subscribers[s]|);
  }

  lemma {:induction false} RunSinksOwn<V>(w: Wiring<V>, m: Memory<V>, s: SubscriberId, v: V, n: nat)
    requires Valid(w) && s in w.subscribers && n <= |w.subscribers[s]|
    ensures var r := RunSinks(w, m, s, v, n);
      m.log <= r.log && Own(r.log[|m.log|..], s) == Firings(s, n, v)
  {
    if n == 0 {
      assert RunSinks(w, m, s, v, 0).log[|m.log|..] == [];
    } else {
      var m1 := RunSinks(w, m, s, v, n - 1);
      var r := RunSinks(w, m, s, v, n);
      assert r == Fire(w, m1, s, n - 1, v);
      RunSinksOwn(w, m, s, v, n - 1);
      FireOwnsOne(w, m1, s, n - 1, v);
      OwnStep(m.log, m1.log, r.log, Fired(s, n - 1, v), s);
    }
  }

  /** Invoking a sink of `s` logs it, and nothing after it belongs to `s`. */
  lemma FireOwnsOne<V>(w: Wiring<V>, m: Memory<V>, s: SubscriberId, i: nat, v: V)
    requires Valid(w) && s in w.subscribers && i < |w.subscribers[s]|
    ensures var r := Fire(w, m, s, i, v);
      m.log + [Fired(s, i, v)] <= r.log && Own(r.log[|m.log| + 1..], s) == []
  {
    var r := Fire(w, m, s, i, v);
    FireLog(w, m, s, i, v);
    OwnBelow(w, r.log[|m.log| + 1..], s);
  }

  /**
   * One more own entry `e`, followed only by entries of others, extends what
   * `s` owns after `base` by `e`.
   */
  lemma OwnStep<V>(base: seq<Fired<V>>, mid: seq<Fired<V>>, r: seq<Fired<V>>, e: Fired<V>, s: SubscriberId)
    requires base <= mid && mid + [e] <= r && e.subscriber == s
    requires Own(r[|mid| + 1..], s) == []
    ensures base <= r && Own(r[|base|..], s) == Own(mid[|base|..], s) + [e]
  {
    var nested := r[|mid| + 1..];
    var before := mid[|base|..];
    assert r[|base|..] == before + ([e] + nested);
    OwnConcat(before, [e] + nested, s);
    OwnConcat([e], nested, s);
    assert [e][1..] == [];
    assert Own([e], s) == [e];
  }

  // ---------------------------------------------------------------------------
  // Fan-out: one segment of the log per subscription, in attachment order

  /** What delivery to subscription number `j` of `p` adds to the log. */
  ghost function Segment<V>(w: Wiring<V>, m: Memory<V>, p: PublisherId, v: V, j: nat): seq<Fired<V>>
    requires Valid(w) && p in w.publishers && j < |w.publishers[p]|
  {
    var x := w.publishers[p][j];
    assert x in w.publishers[p];
    var before := DeliverPrefix(w, m, p, v, j);
    ReceiveLog(w, before, x.subscriber, v);
    Receive(w, before, x.subscriber, v).log[|before.log|..]
  }

  /** The segments of the first `n` subscriptions of `p`, one after another. */
  ghost function Segments<V>(w: Wiring<V>, m: Memory<V>, p: PublisherId, v: V, n: nat): seq<Fired<V>>
    requires Valid(w) && p in w.publishers && n <= |w.publishers[p]|
  {
    if n == 0 then [] else Segments(w, m, p, v, n - 1) + Segment(w, m, p, v, n - 1)
  }

  /**
   * `Publisher::send_value(v)` delivers to every subscription in attachment
   * order: the log grows by one segment per subscription, in order, and in
   * segment `j` the sinks of subscriber `j` each fire once with `v`, in
   * registration order.
   */
  lemma SendFansOut<V>(w: Wiring<V>, m: Memory<V>, p: PublisherId, v: V)
    requires Valid(w) && p in w.publishers
    ensures Send(w, m, p, v).log == m.log + Segments(w, m, p, v, |w.publishers[p]|)
    ensures forall j | 0 <= j < |w.publishers[p]| ::
      var x := w.publishers[p][j];
      x.subscriber in w.subscribers &&
      Own(Segment(w, m, p, v, j), x.subscriber) == Firings(x.subscriber, |w.subscribers[x.subscriber]|, v)
  {
    DeliverPrefixSegments(w, m, p, v, |w.publishers[p]|);
    forall j | 0 <= j < |w.publishers[p]|
      ensures var x := w.publishers[p][j];
        x.subscriber in w.subscribers &&
        Own(Segment(w, m, p, v, j), x.subscriber) == Firings(x.subscriber, |w.subscribers[x.subscriber]|, v)
    {
      var x := w.publishers[p][j];
      assert x in w.publishers[p];
      ReceiveFiresEachSinkOnce(w, DeliverPrefix(w, m, p, v, j), x.subscriber, v);
    }
  }

  lemma {:induction false} DeliverPrefixSegments<V>(w: Wiring<V>, m: Memory<V>, p: PublisherId, v: V, n: nat)
    requires Valid(w) && p in w.publishers && n <= |w.publishers[p]|
    ensures DeliverPrefix(w, m, p, v, n).log == m.log + Segments(w, m, p, v, n)
  {
    if n > 0 {
      var x := w.publishers[p][n - 1];
      assert x in w.publishers[p];
      var before := DeliverPrefix(w, m, p, v, n - 1);
      DeliverPrefixSegments(w, m, p, v, n - 1);
      ReceiveLog(w, before, x.subscriber, v);
      var after := Receive(w, before, x.subscriber, v);
      assert after.log == before.log + after.log[|before.log|..];
    }
  }

  // ---------------------------------------------------------------------------
  // Subscribers whose sinks only record

  ghost predicate Recorder<V>(w: Wiring<V>, s: SubscriberId)
    requires s in w.subscribers
  {
    forall k | k in w.subscribers[s] :: k.Record?
  }

  ghost predicate AllRecorders<V>(w: Wiring<V>, subs: seq<Subscription>) {
    forall x | x in subs :: x.subscriber in w.subscribers && Recorder(w, x.subscriber)
  }

  /** The cells that the recording sinks among `sinks` write. */
  function SinkCells<V>(sinks: seq<Sink<V>>): (r: set<CellId>)
    ensures forall c :: c in r <==> Record(c) in sinks
  {
    if sinks == [] then {}
    else
      var last := sinks[|sinks| - 1];
      assert sinks == sinks[..|sinks| - 1] + [last];
      SinkCells(sinks[..|sinks| - 1]) + (if last.Record? then {last.cell} else {})
  }

  /** The cells written by the sinks of every subscriber in `subs`. */
  function AllCells<V>(w: Wiring<V>, subs: seq<Subscription>): set<CellId>
    requires forall x | x in subs :: x.subscriber in w.subscribers
  {
    if subs == [] then {}
    else
      var last := subs[|subs| - 1];
      AllCells(w, subs[..|subs| - 1]) + SinkCells(w.subscribers[last.subscriber])
  }

  /** Every sink of every subscriber in `subs`, fired once in order. */
  function AllFirings<V>(w: Wiring<V>, subs: seq<Subscription>, v: V): seq<Fired<V>>
    requires forall x | x in subs :: x.subscriber in w.subscribers
  {
    if subs == [] then []
    else
      var last := subs[|subs| - 1];
      AllFirings(w, subs[..|subs| - 1], v) + Firings(last.subscriber, |w.subscribers[last.subscriber]|, v)
  }

  /** `cells` after `v` is stored into every cell of `targets`. */
  function Overwrite<V>(cells: map<CellId, V>, targets: set<CellId>, v: V): (r: map<CellId, V>)
    ensures r.Keys == cells.Keys + targets
    ensures forall c | c in targets :: r[c] == v
    ensures forall c | c in cells && c !in targets :: r[c] == cells[c]
  {
    map c | c in cells.Keys + targets :: if c in targets then v else cells[c]
  }

  lemma OverwriteNothing<V>(cells: map<CellId, V>, v: V)
    ensures Overwrite(cells, {}, v) == cells
  {
  }

  lemma OverwriteOne<V>(cells: map<CellId, V>, targets: set<CellId>, c: CellId, v: V)
    ensures Overwrite(cells, targets, v)[c := v] == Overwrite(cells, targets + {c}, v)
  {
  }

  lemma OverwriteTwice<V>(cells: map<CellId, V>, a: set<CellId>, b: set<CellId>, u: V, v: V)
    ensures Overwrite(Overwrite(cells, a, u), b, v) == Overwrite(Overwrite(cells, a - b, u), b, v)
    ensures u == v ==> Overwrite(Overwrite(cells, a, v), b, v) == Overwrite(cells, a + b, v)
  {
  }

  /**
   * A subscriber whose sinks all record: receiving `v` stores `v` in each of
   * their cells, leaves every other cell alone, and logs each sink once.
   */
  lemma RecorderReceives<V>(w: Wiring<V>, m: Memory<V>, s: SubscriberId, v: V)
    requires Valid(w) && s in w.subscribers && Recorder(w, s)
    ensures Receive(w, m, s, v) ==
      Memory(Overwrite(m.cells, SinkCells(w.subscribers[s]), v), m.log + Firings(s, |w.subscribers[s]|, v))
  {
    var sinks := w.subscribers[s];
    RecorderRunSinks(w, m, s, v, |sinks|);
    assert sinks[..|sinks|] == sinks;
  }

  lemma {:induction false} RecorderRunSinks<V>(w: Wiring<V>, m: Memory<V>, s: SubscriberId, v: V, n: nat)
    requires Valid(w) && s in w.subscribers && Recorder(w, s) && n <= |w.subscribers[s]|
    ensures RunSinks(w, m, s, v, n) ==
      Memory(Overwrite(m.cells, SinkCells(w.subscribers[s][..n]), v), m.log + Firings(s, n, v))
  {
    var sinks := w.subscribers[s];
    if n == 0 {
      assert sinks[..0] == [];
      OverwriteNothing(m.cells, v);
    } else {
      RecorderRunSinks(w, m, s, v, n - 1);
      var k := sinks[n - 1];
      assert k in sinks;
      assert sinks[..n][..n - 1] == sinks[..n - 1];
      assert sinks[..n][n - 1] == k;
      OverwriteOne(m.cells, SinkCells(sinks[..n - 1]), k.cell, v);
    }
  }

  /**
   * A publisher whose subscribers all record: `send_value(v)` stores `v` in
   * every cell any of them records to, changes no other cell, and fires every
   * sink of every subscriber once, subscription by subscription.
   */
  lemma FanOutToRecorders<V>(w: Wiring<V>, m: Memory<V>, p: PublisherId, v: V)
    requires Valid(w) && p in w.publishers && AllRecorders(w, w.publishers[p])
    ensures Send(w, m, p, v) ==
      Memory(Overwrite(m.cells, AllCells(w, w.publishers[p]), v), m.log + AllFirings(w, w.publishers[p], v))
  {
    var subs := w.publishers[p];
    DeliverPrefixRecorders(w, m, p, v, |subs|);
    assert subs[..|subs|] == subs;
  }

  lemma {:induction false} DeliverPrefixRecorders<V>(w: Wiring<V>, m: Memory<V>, p: PublisherId, v: V, n: nat)
    requires Valid(w) && p in w.publishers && AllRecorders(w, w.publishers[p]) && n <= |w.publishers[p]|
    ensures DeliverPrefix(w, m, p, v, n) ==
      Memory(Overwrite(m.cells, AllCells(w, w.publishers[p][..n]), v), m.log + AllFirings(w, w.publishers[p][..n], v))
  {
    var subs := w.publishers[p];
    if n == 0 {
      assert subs[..0] == [];
      OverwriteNothing(m.cells, v);
    } else {
      DeliverPrefixRecorders(w, m, p, v, n - 1);
      var x := subs[n - 1];
      assert x in subs;
      assert subs[..n][..n - 1] == subs[..n - 1];
      assert subs[..n][n - 1] == x;
      var before := DeliverPrefix(w, m, p, v, n - 1);
      var cellsBefore, cellsNow := AllCells(w, subs[..n - 1]), SinkCells(w.subscribers[x.subscriber]);
      var firedBefore := AllFirings(w, subs[..n - 1], v);
      var firedNow := Firings(x.subscriber, |w.subscribers[x.subscriber]|, v);
      assert AllCells(w, subs[..n]) == cellsBefore + cellsNow;
      assert AllFirings(w, subs[..n], v) == firedBefore + firedNow;
      assert DeliverPrefix(w, m, p, v, n) == Receive(w, before, x.subscriber, v);
      RecorderReceives(w, before, x.subscriber, v);
      RecorderStep(m, before, Receive(w, before, x.subscriber, v), cellsBefore, cellsNow, firedBefore, firedNow, v);
    }
  }

  /** Two rounds of recording the same value compose into one. */
  lemma RecorderStep<V>(m: Memory<V>, before: Memory<V>, after: Memory<V>, cellsBefore: set<CellId>,
                        cellsNow: set<CellId>, firedBefore: seq<Fired<V>>, firedNow: seq<Fired<V>>, v: V)
    requires before == Memory(Overwrite(m.cells, cellsBefore, v), m.log + firedBefore)
    requires after == Memory(Overwrite(before.cells, cellsNow, v), before.log + firedNow)
    ensures after == Memory(Overwrite(m.cells, cellsBefore + cellsNow, v), m.log + (firedBefore + firedNow))
  {
    OverwriteTwice(m.cells, cellsBefore, cellsNow, v, v);
    assert m.log + firedBefore + firedNow == m.log + (firedBefore + firedNow);
  }

  // ---------------------------------------------------------------------------
  // `bind` and `map`

  /**
   * A `bind` sink forwards the unchanged value: invoking it logs the sink and
   * then is `send_value(v)` on the bound publisher, so every subscriber of
   * that publisher, in attachment order, has each of its sinks fired once
   * with `v` itself.
   */
  lemma BindForwardsUnchanged<V>(w: Wiring<V>, m: Memory<V>, s: SubscriberId, i: nat, v: V)
    requires Valid(w) && s in w.subscribers && i < |w.subscribers[s]|
    requires w.subscribers[s][i].Forward?
    ensures w.subscribers[s][i].target in w.publishers
    ensures var q, logged := w.subscribers[s][i].target, Logged(m, Fired(s, i, v));
      && Fire(w, m, s, i, v) == Send(w, logged, q, v)
      && Fire(w, m, s, i, v).log == logged.log + Segments(w, logged, q, v, |w.publishers[q]|)
    ensures var q, logged := w.subscribers[s][i].target, Logged(m, Fired(s, i, v));
      forall j | 0 <= j < |w.publishers[q]| ::
        var x := w.publishers[q][j];
        x.subscriber in w.subscribers &&
        Own(Segment(w, logged, q, v, j), x.subscriber) == Firings(x.subscriber, |w.subscribers[x.subscriber]|, v)
  {
    assert w.subscribers[s][i] in w.subscribers[s];
    SendFansOut(w, Logged(m, Fired(s, i, v)), w.subscribers[s][i].target, v);
  }

  /**
   * A `bind` sink whose target publisher's subscribers all record: invoking
   * it stores `v` in all their cells and fires all their sinks, right after
   * logging the bind sink itself.
   */
  lemma BindToRecorders<V>(w: Wiring<V>, m: Memory<V>, s: SubscriberId, i: nat, v: V)
    requires Valid(w) && s in w.subscribers && i < |w.subscribers[s]|
    requires w.subscribers[s][i].Forward?
    requires w.subscribers[s][i].target in w.publishers
    requires AllRecorders(w, w.publishers[w.subscribers[s][i].target])
    ensures var subs := w.publishers[w.subscribers[s][i].target];
      Fire(w, m, s, i, v) ==
        Memory(Overwrite(m.cells, AllCells(w, subs), v), m.log + [Fired(s, i, v)] + AllFirings(w, subs, v))
  {
    FanOutToRecorders(w, Logged(m, Fired(s, i, v)), w.subscribers[s][i].target, v);
  }

  /**
   * A `map(f)` sink, whose private publisher has exactly the one subscription
   * that `map` creates, delivers `f(v)` to the subscriber that `map` returned:
   * invoking it is receiving `f(v)` there, whose sinks then each fire once
   * with `f(v)`.
   */
  lemma MapDeliversTransformed<V>(w: Wiring<V>, m: Memory<V>, s: SubscriberId, i: nat, v: V, t: SubscriberId, d: Demand)
    requires Valid(w) && s in w.subscribers && i < |w.subscribers[s]|
    requires w.subscribers[s][i].MapForward?
    requires w.subscribers[s][i].target in w.publishers
    requires w.publishers[w.subscribers[s][i].target] == [Subscription(t, d)]
    ensures t in w.subscribers
    ensures var k := w.subscribers[s][i];
      Fire(w, m, s, i, v) == Receive(w, Logged(m, Fired(s, i, v)), t, k.f(v))
    ensures var r := Fire(w, m, s, i, v);
      m.log + [Fired(s, i, v)] <= r.log
      && Own(r.log[|m.log| + 1..], t) == Firings(t, |w.subscribers[t]|, w.subscribers[s][i].f(v))
  {
    var k := w.subscribers[s][i];
    assert Subscription(t, d) in w.publishers[k.target];
    var logged := Logged(m, Fired(s, i, v));
    assert DeliverPrefix(w, logged, k.target, k.f(v), 1) == Receive(w, logged, t, k.f(v));
    ReceiveFiresEachSinkOnce(w, logged, t, k.f(v));
  }

  /**
   * `s.map(f).bind(q)`: a subscriber whose one sink is the `map` sink, the
   * mapped subscriber `t` whose one sink binds to `q`, and recorders behind
   * `q`; receiving `v` at `s` stores `f(v)` in every cell they record to.
   */
  lemma MapThenBind<V>(w: Wiring<V>, m: Memory<V>, s: SubscriberId, t: SubscriberId, d: Demand, v: V)
    requires Valid(w) && s in w.subscribers && |w.subscribers[s]| == 1
    requires w.subscribers[s][0].MapForward? && w.subscribers[s][0].target in w.publishers
    requires w.publishers[w.subscribers[s][0].target] == [Subscription(t, d)]
    requires t in w.subscribers && |w.subscribers[t]| == 1
    requires w.subscribers[t][0].Forward? && w.subscribers[t][0].target in w.publishers
    requires AllRecorders(w, w.publishers[w.subscribers[t][0].target])
    ensures var targets := AllCells(w, w.publishers[w.subscribers[t][0].target]);
      Receive(w, m, s, v).cells == Overwrite(m.cells, targets, w.subscribers[s][0].f(v))
  {
    var u := w.subscribers[s][0].f(v);
    var logged := Logged(m, Fired(s, 0, v));
    MapDeliversTransformed(w, m, s, 0, v, t, d);
    assert Receive(w, m, s, v) == RunSinks(w, m, s, v, 1);
    assert RunSinks(w, m, s, v, 0) == m;
    assert Receive(w, logged, t, u) == RunSinks(w, logged, t, u, 1);
    assert RunSinks(w, logged, t, u, 0) == logged;
    BindToRecorders(w, logged, t, 0, u);
  }

  // ---------------------------------------------------------------------------
  // Property: a cached cell behind a publisher

  /** Every publisher, subscriber and recorded cell of `w` has an id below `n`. */
  ghost predicate IdsBelow<V>(w: Wiring<V>, n: nat) {
    && (forall p | p in w.publishers :: p < n)
    && (forall s | s in w.subscribers :: s < n)
    && (forall s, k | s in w.subscribers && k in w.subscribers[s] && k.Record? :: k.cell < n)
  }

  // ---------------------------------------------------------------------------
  // Which deliveries can write a cell

  /** `a` and `b` agree on cell `c`: both lack it, or both hold the same value. */
  ghost predicate SameAt<V>(a: map<CellId, V>, b: map<CellId, V>, c: CellId) {
    (c in a <==> c in b) && (c in a ==> a[c] == b[c])
  }

  /**
   * Every subscriber that records into `c` is fed only by publishers ranked
   * at or above `bound`.
   */
  ghost predicate Shielded<V>(w: Wiring<V>, c: CellId, bound: nat) {
    forall q, x | q in w.publishers && x in w.publishers[q] && x.subscriber in w.subscribers
                  && Record(c) in w.subscribers[x.subscriber] :: q in w.pubRank && w.pubRank[q] >= bound
  }

  /** Some subscription among `subs` feeds a subscriber that records into `c`. */
  ghost predicate FeedsCell<V>(w: Wiring<V>, subs: seq<Subscription>, c: CellId) {
    exists x | x in subs :: x.subscriber in w.subscribers && Record(c) in w.subscribers[x.subscriber]
  }

  /** A send from a publisher ranked below `bound` leaves a cell shielded by `bound` alone. */
  lemma {:induction false} SendKeeps<V>(w: Wiring<V>, m: Memory<V>, q: PublisherId, v: V, c: CellId, bound: nat)
    requires Valid(w) && q in w.publishers && Shielded(w, c, bound) && w.pubRank[q] < bound
    ensures SameAt(Send(w, m, q, v).cells, m.cells, c)
    decreases w.pubRank[q], 1, 0
  {
    DeliverPrefixKeeps(w, m, q, v, c, bound, |w.publishers[q]|);
  }

  lemma {:induction false} DeliverPrefixKeeps<V>(w: Wiring<V>, m: Memory<V>, q: PublisherId, v: V, c: CellId,
                                                 bound: nat, n: nat)
    requires Valid(w) && q in w.publishers && n <= |w.publishers[q]|
    requires Shielded(w, c, bound) && w.pubRank[q] < bound
    ensures SameAt(DeliverPrefix(w, m, q, v, n).cells, m.cells, c)
    decreases w.pubRank[q], 0, n
  {
    if n > 0 {
      var x := w.publishers[q][n - 1];
      assert x in w.publishers[q];
      var sinks := w.subscribers[x.subscriber];
      assert Record(c) !in sinks;
      DeliverPrefixKeeps(w, m, q, v, c, bound, n - 1);
      RunSinksCell(w, DeliverPrefix(w, m, q, v, n - 1), x.subscriber, v, c, bound, |sinks|);
      assert sinks[..|sinks|] == sinks;
    }
  }

  /**
   * The first `n` sinks of a subscriber ranked below `bound`, run with `v`:
   * a cell shielded by `bound` holds `v` afterwards when one of them records
   * into it, and is left alone otherwise.
   */
  lemma {:induction false} RunSinksCell<V>(w: Wiring<V>, m: Memory<V>, s: SubscriberId, v: V, c: CellId,
                                           bound: nat, n: nat)
    requires Valid(w) && s in w.subscribers && n <= |w.subscribers[s]|
    requires Shielded(w, c, bound) && w.subRank[s] < bound
    ensures var r := RunSinks(w, m, s, v, n);
      if Record(c) in w.subscribers[s][..n] then c in r.cells && r.cells[c] == v else SameAt(r.cells, m.cells, c)
    decreases w.subRank[s], 0, n
  {
    var sinks := w.subscribers[s];
    if n == 0 {
      assert sinks[..0] == [];
    } else {
      RunSinksCell(w, m, s, v, c, bound, n - 1);
      FireCell(w, RunSinks(w, m, s, v, n - 1), s, n - 1, v, c, bound);
      assert sinks[..n] == sinks[..n - 1] + [sinks[n - 1]];
    }
  }

  lemma {:induction false} FireCell<V>(w: Wiring<V>, m: Memory<V>, s: SubscriberId, i: nat, v: V, c: CellId,
                                       bound: nat)
    requires Valid(w) && s in w.subscribers && i < |w.subscribers[s]|
    requires Shielded(w, c, bound) && w.subRank[s] < bound
    ensures var r := Fire(w, m, s, i, v);
      if w.subscribers[s][i] == Record(c) then c in r.cells && r.cells[c] == v else SameAt(r.cells, m.cells, c)
    decreases w.subRank[s], 0, i
  {
    var logged := Logged(m, Fired(s, i, v));
    var k := w.subscribers[s][i];
    assert k in w.subscribers[s];
    match k
    case Record(_) =>
    case Forward(q) =>
      SendKeeps(w, logged, q, v, c, bound);
    case MapForward(f, q) =>
      SendKeeps(w, logged, q, f(v), c, bound);
  }

  /**
   * A send from `p` and a cell that nothing ranked below `p` can reach: the
   * cell holds `v` afterwards when some subscriber of `p` records into it,
   * and is left alone otherwise, whatever else the subscribers of `p` and
   * the deliveries they set off do.
   */
  lemma SendWritesCell<V>(w: Wiring<V>, m: Memory<V>, p: PublisherId, v: V, c: CellId)
    requires Valid(w) && p in w.publishers && Shielded(w, c, w.pubRank[p])
    ensures var r := Send(w, m, p, v);
      if FeedsCell(w, w.publishers[p], c) then c in r.cells && r.cells[c] == v else SameAt(r.cells, m.cells, c)
  {
    var subs := w.publishers[p];
    DeliverPrefixCell(w, m, p, v, c, |subs|);
    assert subs[..|subs|] == subs;
  }

  lemma {:induction false} DeliverPrefixCell<V>(w: Wiring<V>, m: Memory<V>, p: PublisherId, v: V, c: CellId, n: nat)
    requires Valid(w) && p in w.publishers && n <= |w.publishers[p]| && Shielded(w, c, w.pubRank[p])
    ensures var r := DeliverPrefix(w, m, p, v, n);
      if FeedsCell(w, w.publishers[p][..n], c) then c in r.cells && r.cells[c] == v else SameAt(r.cells, m.cells, c)
  {
    var subs := w.publishers[p];
    if n == 0 {
      assert subs[..0] == [];
    } else {
      var x := subs[n - 1];
      assert x in subs;
      var sinks := w.subscribers[x.subscriber];
      DeliverPrefixCell(w, m, p, v, c, n - 1);
      RunSinksCell(w, DeliverPrefix(w, m, p, v, n - 1), x.subscriber, v, c, w.pubRank[p], |sinks|);
      assert sinks[..|sinks|] == sinks;
      assert subs[..n] == subs[..n - 1] + [x];
      FeedsCellStep(w, subs[..n - 1], x, c);
    }
  }

  lemma FeedsCellStep<V>(w: Wiring<V>, subs: seq<Subscription>, x: Subscription, c: CellId)
    requires x.subscriber in w.subscribers
    ensures FeedsCell(w, subs + [x], c) <==> FeedsCell(w, subs, c) || Record(c) in w.subscribers[x.subscriber]
  {
    if FeedsCell(w, subs + [x], c) && Record(c) !in w.subscribers[x.subscriber] {
      var y :| y in subs + [x] && y.subscriber in w.subscribers && Record(c) in w.subscribers[y.subscriber];
      assert y in subs;
    }
    if FeedsCell(w, subs, c) {
      var y :| y in subs && y.subscriber in w.subscribers && Record(c) in w.subscribers[y.subscriber];
      assert y in subs + [x];
    }
  }

  // ---------------------------------------------------------------------------
  // Property: a cached cell behind a publisher

  /**
   * What a property's private cache gives: its subscriber is subscribed at
   * its publisher and records into the cache, and whatever records into the
   * cache is fed only by publishers ranked at or above the property's
   * publisher, so nothing that a send from that publisher sets off reaches
   * the cache a second time. Observers of any kind may be attached.
   */
  ghost predicate CacheGuarded<V>(w: Wiring<V>, prop: Property) {
    && Valid(w) && prop.publisher in w.publishers && prop.subscriber in w.subscribers
    && (exists x | x in w.publishers[prop.publisher] :: x.subscriber == prop.subscriber)
    && Record(prop.cache) in w.subscribers[prop.subscriber]
    && Shielded(w, prop.cache, w.pubRank[prop.publisher])
  }

  /**
   * Wiring a fresh publisher to a fresh, lower-ranked subscriber whose only
   * sink records into a fresh cell keeps the wiring acyclic, every id below
   * the new bound, and the cell out of reach of everything ranked below the
   * new publisher.
   */
  lemma AttachFreshPair<V>(w: Wiring<V>, n: nat, n': nat, p: PublisherId, s: SubscriberId, c: CellId,
                           d: Demand, pr: nat, sr: nat)
    requires Valid(w) && IdsBelow(w, n) && sr < pr
    requires n <= p < n' && n <= s < n' && n <= c < n'
    ensures var w' := Wiring(w.publishers[p := [Subscription(s, d)]], w.subscribers[s := [Record(c)]],
                             w.pubRank[p := pr], w.subRank[s := sr]);
      Valid(w') && IdsBelow(w', n') && Shielded(w', c, pr)
  {
    var w' := Wiring(w.publishers[p := [Subscription(s, d)]], w.subscribers[s := [Record(c)]],
                     w.pubRank[p := pr], w.subRank[s := sr]);
    forall q, x | q in w'.publishers && x in w'.publishers[q]
      ensures LinkOk(w', q, x)
    {
      if q != p {
        assert LinkOk(w, q, x);
      }
    }
    forall t, k | t in w'.subscribers && k in w'.subscribers[t]
      ensures SinkOk(w', t, k)
    {
      if t != s {
        assert SinkOk(w, t, k);
      }
    }
    forall q, x | q in w'.publishers && x in w'.publishers[q] && x.subscriber in w'.subscribers
                  && Record(c) in w'.subscribers[x.subscriber]
      ensures q in w'.pubRank && w'.pubRank[q] >= pr
    {
    }
  }

  /** The wiring `Property::new` leaves behind guards the cache and feeds only recorders. */
  lemma NewPropertyCaches<V>(w: Wiring<V>, prop: Property, d: Demand)
    requires Valid(w) && prop.publisher in w.publishers && prop.subscriber in w.subscribers
    requires w.publishers[prop.publisher] == [Subscription(prop.subscriber, d)]
    requires w.subscribers[prop.subscriber] == [Record(prop.cache)]
    requires Shielded(w, prop.cache, w.pubRank[prop.publisher])
    ensures CacheGuarded(w, prop) && FeedsRecorders(w, prop)
  {
    var subs := w.publishers[prop.publisher];
    assert subs[0] in subs;
    assert subs[..0] == [];
    assert AllCells(w, subs) == SinkCells(w.subscribers[prop.subscriber]);
  }

  /**
   * Attaching one more subscriber that does not write the cache, as
   * `receive_subscriber` does, keeps a property's cache guarded, whatever
   * that subscriber's sinks forward to.
   */
  lemma AttachKeepsGuard<V>(w: Wiring<V>, q: PublisherId, t: SubscriberId, d: Demand, prop: Property)
    requires CacheGuarded(w, prop) && q in w.publishers && t in w.subscribers
    requires w.subRank[t] < w.pubRank[q] && Record(prop.cache) !in w.subscribers[t]
    ensures CacheGuarded(Wiring(w.publishers[q := w.publishers[q] + [Subscription(t, d)]], w.subscribers,
                                w.pubRank, w.subRank), prop)
  {
    var w' := Wiring(w.publishers[q := w.publishers[q] + [Subscription(t, d)]], w.subscribers, w.pubRank, w.subRank);
    forall p, x | p in w'.publishers && x in w'.publishers[p]
      ensures LinkOk(w', p, x)
    {
      if p != q || x in w.publishers[q] {
        assert LinkOk(w, p, x);
      }
    }
    var y :| y in w.publishers[prop.publisher] && y.subscriber == prop.subscriber;
    assert y in w'.publishers[prop.publisher];
  }

  /**
   * Adding one more sink that does not write the cache, as `sink`, `bind`
   * and `map` do, keeps a property's cache guarded.
   */
  lemma SinkKeepsGuard<V>(w: Wiring<V>, s: SubscriberId, k: Sink<V>, prop: Property)
    requires CacheGuarded(w, prop) && s in w.subscribers && SinkOk(w, s, k) && k != Record(prop.cache)
    ensures CacheGuarded(Wiring(w.publishers, w.subscribers[s := w.subscribers[s] + [k]], w.pubRank, w.subRank), prop)
  {
    var w' := Wiring(w.publishers, w.subscribers[s := w.subscribers[s] + [k]], w.pubRank, w.subRank);
    forall t, j | t in w'.subscribers && j in w'.subscribers[t]
      ensures SinkOk(w', t, j)
    {
      if t != s || j in w.subscribers[s] {
        assert SinkOk(w, t, j);
      }
    }
    forall p, x | p in w'.publishers && x in w'.publishers[p]
      ensures LinkOk(w', p, x)
    {
      assert LinkOk(w, p, x);
    }
    assert Record(prop.cache) in w'.subscribers[prop.subscriber];
  }

  /** `accept(v)` for every `v` of `vs`, in order. */
  function AcceptAll<V>(w: Wiring<V>, m: Memory<V>, prop: Property, vs: seq<V>): (r: Memory<V>)
    requires Valid(w) && prop.publisher in w.publishers
    ensures m.log <= r.log && m.cells.Keys <= r.cells.Keys
  {
    if vs == [] then m
    else Send(w, AcceptAll(w, m, prop, vs[..|vs| - 1]), prop.publisher, vs[|vs| - 1])
  }

  /**
   * `accept(v)` leaves `v` in the cache, whatever else observes the
   * property's publisher and whatever those observers forward to.
   */
  lemma AcceptCaches<V>(w: Wiring<V>, m: Memory<V>, prop: Property, v: V)
    requires CacheGuarded(w, prop)
    ensures var r := Send(w, m, prop.publisher, v);
      prop.cache in r.cells && r.cells[prop.cache] == v
  {
    var x :| x in w.publishers[prop.publisher] && x.subscriber == prop.subscriber;
    assert FeedsCell(w, w.publishers[prop.publisher], prop.cache);
    SendWritesCell(w, m, prop.publisher, v, prop.cache);
  }

  /** Last write wins: after `accept(v1) ... accept(vn)` the cache holds `vn`. */
  lemma AcceptAllCaches<V>(w: Wiring<V>, m: Memory<V>, prop: Property, vs: seq<V>)
    requires CacheGuarded(w, prop) && vs != []
    ensures var r := AcceptAll(w, m, prop, vs);
      prop.cache in r.cells && r.cells[prop.cache] == vs[|vs| - 1]
  {
    AcceptCaches(w, AcceptAll(w, m, prop, vs[..|vs| - 1]), prop, vs[|vs| - 1]);
  }

  /** Every firing caused by broadcasting each of `vs` to recorders `subs`. */
  function Broadcasts<V>(w: Wiring<V>, subs: seq<Subscription>, vs: seq<V>): seq<Fired<V>>
    requires forall x | x in subs :: x.subscriber in w.subscribers
  {
    if vs == [] then []
    else Broadcasts(w, subs, vs[..|vs| - 1]) + AllFirings(w, subs, vs[|vs| - 1])
  }

  /**
   * A property whose publisher feeds only recording subscribers, among them
   * the one that writes its cache (as `Property::new` leaves it, and as it
   * stays when only recording observers are attached).
   */
  ghost predicate FeedsRecorders<V>(w: Wiring<V>, prop: Property) {
    && Valid(w) && prop.publisher in w.publishers
    && AllRecorders(w, w.publishers[prop.publisher])
    && prop.cache in AllCells(w, w.publishers[prop.publisher])
  }

  /**
   * With only recording observers: after `accept(v1) ... accept(vn)` every
   * observer's cell holds `vn` as the cache does, no other cell changes, and
   * every subscriber saw `v1 ... vn` in order, each value through all of its
   * sinks.
   */
  lemma {:induction false} AcceptAllToRecorders<V>(w: Wiring<V>, m: Memory<V>, prop: Property, vs: seq<V>)
    requires FeedsRecorders(w, prop)
    ensures var subs := w.publishers[prop.publisher];
      var r := AcceptAll(w, m, prop, vs);
      && r.log == m.log + Broadcasts(w, subs, vs)
      && (vs == [] ==> r.cells == m.cells)
      && (vs != [] ==> r.cells == Overwrite(m.cells, AllCells(w, subs), vs[|vs| - 1]))
  {
    var subs := w.publishers[prop.publisher];
    if vs != [] {
      var init := vs[..|vs| - 1];
      var last := vs[|vs| - 1];
      var before := AcceptAll(w, m, prop, init);
      AcceptAllToRecorders(w, m, prop, init);
      assert AcceptAll(w, m, prop, vs) == Send(w, before, prop.publisher, last);
      FanOutToRecorders(w, before, prop.publisher, last);
      assert Broadcasts(w, subs, vs) == Broadcasts(w, subs, init) + AllFirings(w, subs, last);
      LastWriteWins(m.cells, before.cells, AllCells(w, subs), init, last);
    }
  }

  /** Overwriting the same cells again keeps only the last value. */
  lemma LastWriteWins<V>(cells: map<CellId, V>, middle: map<CellId, V>, targets: set<CellId>, init: seq<V>, last: V)
    requires init == [] ==> middle == cells
    requires init != [] ==> middle == Overwrite(cells, targets, init[|init| - 1])
    ensures Overwrite(middle, targets, last) == Overwrite(cells, targets, last)
  {
    if init != [] {
      OverwriteTwice(cells, targets, targets, init[|init| - 1], last);
      assert targets - targets == {};
      OverwriteNothing(cells, init[|init| - 1]);
    }
  }

  /**
   * A wiring the guard excludes although the library accepts it: publisher
   * 0 feeds the cache subscriber 1 of a property and an observer 2 that maps
   * `x` to `x + 1` into publisher 3; subscriber 4 of 3 binds to publisher 5,
   * which feeds subscriber 1 again, as `receive_subscriber` on the
   * property's public subscriber allows.
   */
  function FeedbackWiring(): Wiring<int> {
    Wiring(
      map[0 := [Subscription(1, Unlimited()), Subscription(2, Unlimited())],
          3 := [Subscription(4, Unlimited())], 5 := [Subscription(1, Unlimited())]],
      map[1 := [Record(10)], 2 := [MapForward((x: int) => x + 1, 3)], 4 := [Forward(5)]],
      map[0 := 10, 3 := 6, 5 := 3], map[1 := 1, 2 := 8, 4 := 5])
  }

  /** That wiring is acyclic, and the property's cache is not guarded in it. */
  lemma FeedbackUnguarded()
    ensures Valid(FeedbackWiring()) && !CacheGuarded(FeedbackWiring(), Property(0, 1, 10))
  {
    var w := FeedbackWiring();
    assert Valid(w);
    assert Subscription(1, Unlimited()) in w.publishers[5] && Record(10) in w.subscribers[1];
  }

  /** The feedback path: a send of `u` from publisher 3 ends by recording `u` in the cache. */
  lemma FeedbackReturns(m: Memory<int>, u: int)
    requires Valid(FeedbackWiring())
    ensures 10 in Send(FeedbackWiring(), m, 3, u).cells && Send(FeedbackWiring(), m, 3, u).cells[10] == u
  {
    var w := FeedbackWiring();
    var l := Logged(m, Fired(4, 0, u));
    assert Send(w, m, 3, u) == Receive(w, m, 4, u) by {
      assert Send(w, m, 3, u) == DeliverPrefix(w, m, 3, u, 1);
    }
    assert Receive(w, m, 4, u) == Send(w, l, 5, u) by {
      assert Receive(w, m, 4, u) == Fire(w, RunSinks(w, m, 4, u, 0), 4, 0, u);
    }
    assert Send(w, l, 5, u) == Receive(w, l, 1, u) by {
      assert Send(w, l, 5, u) == DeliverPrefix(w, l, 5, u, 1);
    }
    assert Receive(w, l, 1, u) == Fire(w, RunSinks(w, l, 1, u, 0), 1, 0, u);
  }

  /**
   * On that wiring, where a lower-ranked publisher feeds the property's
   * subscriber, `accept(1)` leaves the mapped value 2 in the cache, not 1.
   */
  lemma AcceptLeavesMappedValue()
    ensures Valid(FeedbackWiring()) && !CacheGuarded(FeedbackWiring(), Property(0, 1, 10))
    ensures 10 in Send(FeedbackWiring(), Memory(map[10 := 0], []), 0, 1).cells
    ensures Send(FeedbackWiring(), Memory(map[10 := 0], []), 0, 1).cells[10] == 2
  {
    var w := FeedbackWiring();
    FeedbackUnguarded();
    var m := Memory(map[10 := 0], []);
    var m1 := DeliverPrefix(w, m, 0, 1, 1);
    var logged := Logged(m1, Fired(2, 0, 1));
    assert Send(w, m, 0, 1) == Receive(w, m1, 2, 1) by {
      assert Send(w, m, 0, 1) == DeliverPrefix(w, m, 0, 1, 2);
    }
    assert Receive(w, m1, 2, 1) == Send(w, logged, 3, 2) by {
      assert Receive(w, m1, 2, 1) == Fire(w, RunSinks(w, m1, 2, 1, 0), 2, 0, 1);
    }
    FeedbackReturns(logged, 2);
  }

  /**
   * `Property::new` attaches its cache subscriber first, so on every
   * `accept(v)` the cache sink runs before any later-attached subscriber:
   * it is the first thing the delivery logs.
   */
  lemma CacheSinkRunsFirst<V>(w: Wiring<V>, m: Memory<V>, prop: Property, v: V)
    requires Valid(w) && prop.publisher in w.publishers
    requires |w.publishers[prop.publisher]| > 0
    requires w.publishers[prop.publisher][0].subscriber == prop.subscriber
    requires prop.subscriber in w.subscribers && |w.subscribers[prop.subscriber]| > 0
    ensures m.log + [Fired(prop.subscriber, 0, v)] <= Send(w, m, prop.publisher, v).log
    ensures w.subscribers[prop.subscriber][0] == Record(prop.cache) ==>
              Fire(w, m, prop.subscriber, 0, v) == Memory(m.cells[prop.cache := v], m.log + [Fired(prop.subscriber, 0, v)])
  {
    var p, s := prop.publisher, prop.subscriber;
    var first := Fire(w, m, s, 0, v);
    FireLog(w, m, s, 0, v);
    RunSinksGrows(w, m, s, v, 1, |w.subscribers[s]|);
    assert RunSinks(w, m, s, v, 1) == first;
    assert DeliverPrefix(w, m, p, v, 1) == Receive(w, m, s, v);
    DeliverPrefixGrows(w, m, p, v, 1, |w.publishers[p]|);
  }

  lemma {:induction false} RunSinksGrows<V>(w: Wiring<V>, m: Memory<V>, s: SubscriberId, v: V, k: nat, n: nat)
    requires Valid(w) && s in w.subscribers && k <= n <= |w.subscribers[s]|
    ensures RunSinks(w, m, s, v, k).log <= RunSinks(w, m, s, v, n).log
  {
    if k < n {
      RunSinksGrows(w, m, s, v, k, n - 1);
      FireLog(w, RunSinks(w, m, s, v, n - 1), s, n - 1, v);
    }
  }

  lemma {:induction false} DeliverPrefixGrows<V>(w: Wiring<V>, m: Memory<V>, p: PublisherId, v: V, k: nat, n: nat)
    requires Valid(w) && p in w.publishers && k <= n <= |w.publishers[p]|
    ensures DeliverPrefix(w, m, p, v, k).log <= DeliverPrefix(w, m, p, v, n).log
  {
    if k < n {
      DeliverPrefixGrows(w, m, p, v, k, n - 1);
      var x := w.publishers[p][n - 1];
      assert x in w.publishers[p];
      ReceiveLog(w, DeliverPrefix(w, m, p, v, n - 1), x.subscriber, v);
    }
  }
}
