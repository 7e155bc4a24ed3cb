/**
 * The objects of smelter-reflux and their operations, as one `Hub` holding
 * every publisher, subscriber and memory cell by id.
 *
 * The library's objects live behind `Arc<Mutex<..>>`; here a publisher is its
 * list of subscriptions, a subscriber its list of sinks, and the memory that
 * sink closures write (the test's recorded value, a property's cache) a map of
 * cells. Methods change these in place as the library does, and each is
 * proved against the value-level meaning in module `Delivery`. The ghost log
 * records every sink invocation; the ghost ranks keep the wiring acyclic.
 */
module Reflux {
  import opened Wrappers
  import opened Demands
  import opened Delivery

  class Hub<V> {
    var publishers: map<PublisherId, seq<Subscription>>
    var subscribers: map<SubscriberId, seq<Sink<V>>>
    var cells: map<CellId, V>
    var next: nat
    ghost var pubRank: map<PublisherId, nat>
    ghost var subRank: map<SubscriberId, nat>
    ghost var log: seq<Fired<V>>

    ghost function Topology(): Wiring<V>
      reads this
    {
      Wiring(publishers, subscribers, pubRank, subRank)
    }

    ghost function Observed(): Memory<V>
      reads this
    {
      Memory(cells, log)
    }

    /** The wiring is acyclic, and every id in use was handed out already. */
    ghost predicate Valid()
      reads this
    {
      && Delivery.Valid(Topology())
      && IdsBelow(Topology(), next)
      && (forall c | c in cells :: c < next)
    }

    /** Sink `k` may be added to `s`: its cell exists, or its target ranks below `s`. */
    ghost predicate CanSink(s: SubscriberId, k: Sink<V>)
      reads this
      requires s in subRank
    {
      SinkOk(Topology(), s, k) && (k.Record? ==> k.cell < next)
    }

    constructor ()
      ensures Valid()
      ensures publishers == map[] && subscribers == map[] && cells == map[] && log == []
    {
      publishers, subscribers, cells, next := map[], map[], map[], 0;
      pubRank, subRank, log := map[], map[], [];
    }

    /** `Subscriber::new()`: a fresh subscriber with no sinks. */
    method NewSubscriber(ghost rank: nat) returns (s: SubscriberId)
      requires Valid()
      modifies this
      ensures Valid()
      ensures s == old(next) && next == old(next) + 1
      ensures s !in old(subscribers) && subscribers == old(subscribers)[s := []]
      ensures subRank == old(subRank)[s := rank]
      ensures publishers == old(publishers) && pubRank == old(pubRank)
      ensures cells == old(cells) && log == old(log)
    {
      s := next;
      next := next + 1;
      subscribers := subscribers[s := []];
      subRank := subRank[s := rank];
    }

    /** `Publisher::new()`: a fresh publisher with no subscriptions. */
    method NewPublisher(ghost rank: nat) returns (p: PublisherId)
      requires Valid()
      modifies this
      ensures Valid()
      ensures p == old(next) && next == old(next) + 1
      ensures p !in old(publishers) && publishers == old(publishers)[p := []]
      ensures pubRank == old(pubRank)[p := rank]
      ensures subscribers == old(subscribers) && subRank == old(subRank)
      ensures cells == old(cells) && log == old(log)
    {
      p := next;
      next := next + 1;
      publishers := publishers[p := []];
      pubRank := pubRank[p := rank];
    }

    /** `Arc::new(Mutex::new(x))`: a fresh memory cell that sinks can write. */
    method NewCell(x: V) returns (c: CellId)
      requires Valid()
      modifies this
      ensures Valid()
      ensures c == old(next) && next == old(next) + 1
      ensures c !in old(cells) && cells == old(cells)[c := x]
      ensures Topology() == old(Topology()) && log == old(log)
    {
      c := next;
      next := next + 1;
      cells := cells[c := x];
    }

    /** `Subscriber::sink(f)`: append one sink; earlier sinks are untouched. */
    method AddSink(s: SubscriberId, k: Sink<V>)
      requires Valid() && s in subscribers && CanSink(s, k)
      modifies this
      ensures Valid()
      ensures subscribers == old(subscribers)[s := old(subscribers)[s] + [k]]
      ensures publishers == old(publishers) && pubRank == old(pubRank) && subRank == old(subRank)
      ensures cells == old(cells) && log == old(log) && next == old(next)
    {
      subscribers := subscribers[s := subscribers[s] + [k]];
    }

    /** `Subscriber::receive_subscription`: the handle is accepted and dropped. */
    method ReceiveSubscription(s: SubscriberId, subscription: Subscription)
      requires s in subscribers
      ensures subscribers == old(subscribers)
    {
    }

    /**
     * `Publisher::receive_subscriber(s)`: append one subscription to `s`, with
     * unlimited demand, and notify `s`, whose sinks stay as they were.
     */
    method ReceiveSubscriber(p: PublisherId, s: SubscriberId)
      requires Valid() && p in publishers && s in subscribers
      requires subRank[s] < pubRank[p]
      modifies this
      ensures Valid()
      ensures publishers == old(publishers)[p := old(publishers)[p] + [Subscription(s, Unlimited())]]
      ensures subscribers == old(subscribers) && pubRank == old(pubRank) && subRank == old(subRank)
      ensures cells == old(cells) && log == old(log) && next == old(next)
    {
      var subscription := Subscription(s, Unlimited());
      publishers := publishers[p := publishers[p] + [subscription]];
      ReceiveSubscription(s, subscription);
    }

    /**
     * `Subscriber::receive_value(v)`: run every sink in registration order,
     * then ask for more without limit.
     */
    method ReceiveValue(s: SubscriberId, v: V) returns (d: Demand)
      requires Valid() && s in subscribers
      modifies this
      ensures Valid()
      ensures Topology() == old(Topology()) && next == old(next)
      ensures Observed() == Receive(old(Topology()), old(Observed()), s, v)
      ensures d == Unlimited()
      decreases subRank[s], 1
    {
      var sinks := subscribers[s];
      var i := 0;
      while i < |sinks|
        invariant 0 <= i <= |sinks|
        invariant Valid() && Topology() == old(Topology()) && next == old(next)
        invariant Observed() == RunSinks(old(Topology()), old(Observed()), s, v, i)
      {
        log := log + [Fired(s, i, v)];
        var k := sinks[i];
        assert k in old(subscribers)[s];
        match k {
          case Record(c) =>
            cells := cells[c := v];
          case Forward(q) =>
            SendValue(q, v);
          case MapForward(f, q) =>
            SendValue(q, f(v));
        }
        i := i + 1;
      }
      d := Unlimited();
    }

    /** `Subscription::receive_value(v)`: hand the value to the subscriber. */
    method SubscriptionReceiveValue(subscription: Subscription, v: V) returns (d: Demand)
      requires Valid() && subscription.subscriber in subscribers
      modifies this
      ensures Valid()
      ensures Topology() == old(Topology()) && next == old(next)
      ensures Observed() == Receive(old(Topology()), old(Observed()), subscription.subscriber, v)
      ensures d == Unlimited()
      decreases subRank[subscription.subscriber], 2
    {
      d := ReceiveValue(subscription.subscriber, v);
    }

    /**
     * `Publisher::send_value(v)`: deliver to each subscription in attachment
     * order, keep those whose demand survives `consumed(0)`, and replace the
     * list by the kept ones, which is the list as it was.
     */
    method SendValue(p: PublisherId, v: V)
      requires Valid() && p in publishers
      modifies this
      ensures Valid()
      ensures Topology() == old(Topology()) && next == old(next)
      ensures Observed() == Send(old(Topology()), old(Observed()), p, v)
      decreases pubRank[p], 3
    {
      var subscriptions := publishers[p];
      var kept: seq<Subscription> := [];
      var i := 0;
      while i < |subscriptions|
        invariant 0 <= i <= |subscriptions|
        invariant Valid() && Topology() == old(Topology()) && next == old(next)
        invariant kept == subscriptions[..i]
        invariant Observed() == DeliverPrefix(old(Topology()), old(Observed()), p, v, i)
      {
        var subscription := subscriptions[i];
        assert subscription in old(publishers)[p];
        var demand := SubscriptionReceiveValue(subscription, v);
        if Consumed(demand, 0).Some? {
          kept := kept + [subscription];
        }
        i := i + 1;
      }
      assert kept == publishers[p] by {
        assert subscriptions[..|subscriptions|] == subscriptions;
      }
      publishers := publishers[p := kept];
      assert publishers == old(publishers);
    }

    /**
     * `Subscriber::map(f)`: a fresh subscriber `m`, fed by a fresh publisher
     * `via` through one subscription, and one more sink on `s` that sends
     * `f(v)` to `via`.
     */
    method Map(s: SubscriberId, f: V -> V, ghost viaRank: nat, ghost mappedRank: nat)
      returns (m: SubscriberId, ghost via: PublisherId)
      requires Valid() && s in subscribers
      requires mappedRank < viaRank < subRank[s]
      modifies this
      ensures Valid()
      ensures m == old(next) && via == old(next) + 1 && next == old(next) + 2
      ensures subscribers == old(subscribers)[s := old(subscribers)[s] + [MapForward(f, via)]][m := []]
      ensures publishers == old(publishers)[via := [Subscription(m, Unlimited())]]
      ensures subRank == old(subRank)[m := mappedRank] && pubRank == old(pubRank)[via := viaRank]
      ensures cells == old(cells) && log == old(log)
    {
      ghost var subscribers0 := subscribers;
      m := NewSubscriber(mappedRank);
      var publisher := NewPublisher(viaRank);
      ReceiveSubscriber(publisher, m);
      assert publishers[publisher] == [Subscription(m, Unlimited())] by {
        assert [] + [Subscription(m, Unlimited())] == [Subscription(m, Unlimited())];
      }
      AddSink(s, MapForward(f, publisher));
      assert subscribers == subscribers0[s := subscribers0[s] + [MapForward(f, publisher)]][m := []];
      via := publisher;
    }

    /** `Subscriber::bind(p)`: one more sink on `s` that sends every value to `p`. */
    method Bind(s: SubscriberId, p: PublisherId)
      requires Valid() && s in subscribers && p in publishers
      requires pubRank[p] < subRank[s]
      modifies this
      ensures Valid()
      ensures subscribers == old(subscribers)[s := old(subscribers)[s] + [Forward(p)]]
      ensures publishers == old(publishers) && pubRank == old(pubRank) && subRank == old(subRank)
      ensures cells == old(cells) && log == old(log) && next == old(next)
    {
      AddSink(s, Forward(p));
    }

    /**
     * `Property::new(x)`: a fresh publisher whose only subscription is a
     * fresh subscriber whose only sink writes a fresh cache cell holding `x`.
     */
    method NewProperty(x: V, ghost publisherRank: nat, ghost subscriberRank: nat) returns (prop: Property)
      requires Valid() && subscriberRank < publisherRank
      modifies this
      ensures Valid()
      ensures prop == Property(old(next), old(next) + 1, old(next) + 2) && next == old(next) + 3
      ensures prop.publisher !in old(publishers) && prop.subscriber !in old(subscribers)
      ensures prop.cache !in old(cells)
      ensures publishers == old(publishers)[prop.publisher := [Subscription(prop.subscriber, Unlimited())]]
      ensures subscribers == old(subscribers)[prop.subscriber := [Record(prop.cache)]]
      ensures cells == old(cells)[prop.cache := x]
      ensures pubRank == old(pubRank)[prop.publisher := publisherRank]
      ensures subRank == old(subRank)[prop.subscriber := subscriberRank]
      ensures CacheGuarded(Topology(), prop) && FeedsRecorders(Topology(), prop)
      ensures Value(prop) == Some(x)
      ensures log == old(log)
    {
      var publisher, subscriber, cache := next, next + 1, next + 2;
      ghost var w := Topology();
      AttachFreshPair(w, next, next + 3, publisher, subscriber, cache, Unlimited(), publisherRank, subscriberRank);
      next := next + 3;
      publishers := publishers[publisher := [Subscription(subscriber, Unlimited())]];
      subscribers := subscribers[subscriber := [Record(cache)]];
      cells := cells[cache := x];
      pubRank := pubRank[publisher := publisherRank];
      subRank := subRank[subscriber := subscriberRank];
      prop := Property(publisher, subscriber, cache);
      assert Topology() == Wiring(w.publishers[publisher := [Subscription(subscriber, Unlimited())]],
        w.subscribers[subscriber := [Record(cache)]], w.pubRank[publisher := publisherRank],
        w.subRank[subscriber := subscriberRank]);
      NewPropertyCaches(Topology(), prop, Unlimited());
      assert cells[cache] == x;
    }

    /** `Property::accept(v)`: send `v` through the property's publisher. */
    method Accept(prop: Property, v: V)
      requires Valid() && prop.publisher in publishers
      modifies this
      ensures Valid()
      ensures Topology() == old(Topology()) && next == old(next)
      ensures Observed() == Send(old(Topology()), old(Observed()), prop.publisher, v)
      ensures CacheGuarded(old(Topology()), prop) ==> Value(prop) == Some(v)
    {
      ghost var w, m := Topology(), Observed();
      SendValue(prop.publisher, v);
      if CacheGuarded(w, prop) {
        AcceptCaches(w, m, prop, v);
      }
    }

    /**
     * `Property::value()`: a copy of the cached value; `None` stands for the
     * lock that cannot be taken, which here is a cache cell that is missing.
     */
    function Value(prop: Property): Option<V>
      reads this
    {
      if prop.cache in cells then Some(cells[prop.cache]) else None
    }
  }

  /**
   * The wiring of the library's own test: a publisher whose one subscriber
   * has one sink, recording into a cell that starts at 0.
   */
  method WireRecorder() returns (hub: Hub<int>, publisher: PublisherId, subscriber: SubscriberId, x: CellId)
    ensures fresh(hub) && hub.Valid()
    ensures publisher in hub.publishers && hub.publishers[publisher] == [Subscription(subscriber, Unlimited())]
    ensures subscriber in hub.subscribers && hub.subscribers[subscriber] == [Record(x)]
    ensures hub.cells == map[x := 0]
  {
    hub := new Hub<int>();
    publisher := hub.NewPublisher(1);
    subscriber := hub.NewSubscriber(0);
    x := hub.NewCell(0);
    hub.AddSink(subscriber, Record(x));
    hub.ReceiveSubscriber(publisher, subscriber);
    assert [] + [Subscription(subscriber, Unlimited())] == [Subscription(subscriber, Unlimited())];
  }

  /** The library's own test: sending 100 leaves 100 in the recorded cell. */
  method RecordsSentValue() returns (recorded: int)
    ensures recorded == 100
  {
    var hub, publisher, subscriber, x := WireRecorder();
    ghost var w, m := hub.Topology(), hub.Observed();
    ghost var subs := w.publishers[publisher];
    assert subs[..0] == [];
    assert AllCells(w, subs) == {x};
    hub.SendValue(publisher, 100);
    FanOutToRecorders(w, m, publisher, 100);
    recorded := hub.cells[x];
  }

  /**
   * The wiring of a click handler mapped to a constant text and bound to the
   * publisher of a text property.
   */
  method WireClickToText() returns (hub: Hub<string>, onclick: SubscriberId, caption: SubscriberId,
                                    text: Property)
    ensures fresh(hub) && hub.Valid()
    ensures onclick in hub.subscribers && |hub.subscribers[onclick]| == 1
    ensures hub.subscribers[onclick][0].MapForward? && hub.subscribers[onclick][0].f("") == "clicked"
    ensures hub.subscribers[onclick][0].target in hub.publishers
    ensures hub.publishers[hub.subscribers[onclick][0].target] == [Subscription(caption, Unlimited())]
    ensures caption in hub.subscribers && hub.subscribers[caption] == [Forward(text.publisher)]
    ensures CacheGuarded(hub.Topology(), text) && FeedsRecorders(hub.Topology(), text)
  {
    hub := new Hub<string>();
    onclick := hub.NewSubscriber(4);
    text := hub.NewProperty("", 1, 0);
    ghost var via;
    caption, via := hub.Map(onclick, _ => "clicked", 3, 2);
    hub.Bind(caption, text.publisher);
  }

  /** A click on that wiring leaves the text property holding "clicked". */
  method ClickShowsText() returns (shown: Option<string>)
    ensures shown == Some("clicked")
  {
    var hub, onclick, caption, text := WireClickToText();
    ghost var w, m := hub.Topology(), hub.Observed();
    var _ := hub.ReceiveValue(onclick, "");
    MapThenBind(w, m, onclick, caption, Unlimited(), "");
    shown := hub.Value(text);
  }

  /** A subscriber bound to the publisher of a property. */
  method WireObserver() returns (hub: Hub<int>, observer: SubscriberId, other: Property)
    ensures fresh(hub) && hub.Valid()
    ensures observer in hub.subscribers && hub.subscribers[observer] == [Forward(other.publisher)]
    ensures hub.subRank[observer] == 2
  {
    hub := new Hub<int>();
    other := hub.NewProperty(0, 1, 0);
    observer := hub.NewSubscriber(2);
    hub.Bind(observer, other.publisher);
  }

  /**
   * A property with an observer that is not a recorder: that bound
   * subscriber, attached to the property's publisher after its cache
   * subscriber.
   */
  method WireObservedProperty() returns (hub: Hub<int>, text: Property, observer: SubscriberId, other: Property)
    ensures fresh(hub) && hub.Valid()
    ensures observer in hub.subscribers && hub.subscribers[observer] == [Forward(other.publisher)]
    ensures text.publisher in hub.publishers
    ensures hub.publishers[text.publisher] == [Subscription(text.subscriber, Unlimited()), Subscription(observer, Unlimited())]
    ensures CacheGuarded(hub.Topology(), text)
  {
    hub, observer, other := WireObserver();
    text := hub.NewProperty(0, 4, 3);
    ghost var w := hub.Topology();
    assert w.subscribers[observer] == [Forward(other.publisher)];
    assert w.publishers[text.publisher] == [Subscription(text.subscriber, Unlimited())];
    hub.ReceiveSubscriber(text.publisher, observer);
    AttachKeepsGuard(w, text.publisher, observer, Unlimited(), text);
  }

  /** Accepting into that property still leaves the accepted value in its cache. */
  method AcceptWithObserver() returns (shown: Option<int>)
    ensures shown == Some(7)
  {
    var hub, text, observer, other := WireObservedProperty();
    hub.Accept(text, 7);
    shown := hub.Value(text);
  }
}
