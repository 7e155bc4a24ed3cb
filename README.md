# smelter: reactive values and the DOM builder, in Dafny

This project models two parts of the smelter UI toolkit (Rust) and proves properties of them.

**smelter-reflux** is a small push-based reactive library:
- A `Publisher` holds an ordered list of `Subscription`s.
- Each subscription links to one `Subscriber`. It starts with unlimited `Demand`.
- A subscriber holds an ordered list of sinks, which are closures invoked on every value.
- `map` and `bind` add sinks that forward a value, transformed or not, to another publisher.
- A `Property` is a publisher whose first subscriber writes every value into a cache cell.

The model keeps every publisher, subscriber and memory cell in one world object, `Reflux.Hub`, by id. Its methods change that state in place, as the library's `&self` methods do behind their `Mutex`es. Each method is proved against value-level functions in module `Delivery`:
- `Send` and `DeliverPrefix` describe `send_value`.
- `Receive`, `RunSinks` and `Fire` describe `receive_value`.

A ghost log records one entry per sink invocation. The lemmas about those functions state what the library promises:
- in-order fan-out, with each sink run exactly once;
- `map` delivering `f(v)`, and `bind` handing `v` on unchanged to every subscriber of the bound publisher, whatever those subscribers do;
- `accept(v)` leaving `v` in a property's cache, so that the last of a sequence of accepts wins, on every wiring in which nothing ranked below the property's publisher feeds the property's subscriber; and a wiring outside that restriction on which it leaves another value.

The cache promise holds under an added restriction on the wiring, `Delivery.CacheGuarded`: whatever writes the cache is fed only by publishers ranked at or above the property's own, so no delivery that an `accept` sets off can reach the cache again. The library does not enforce it. The cache cell is private, but the property's subscriber is public (`Property::subscriber()`), so any publisher may feed it. `Property::new` establishes the restriction. Attaching an observer or adding a sink keeps it, provided the new subscriber or sink does not itself write the cache. `Delivery.AcceptLeavesMappedValue` shows a wiring the library accepts but the restriction excludes: an observer maps the value and feeds it back into the property's subscriber, so the cache ends up holding the mapped value.

Sinks form a closed set:
- `Record(cell)`: the test's recording closure and a property's cache writer;
- `Forward(p)`: what `bind` adds;
- `MapForward(f, p)`: what `map` adds.

Delivery recurses from one publisher into another through these sinks. Every publisher and subscriber carries a ghost rank, and links only point downwards. That makes delivery terminate. In the library, delivering a value around a cycle would lock a `Mutex` that the same thread already holds.

**smelter-ui's builder** keeps three pieces of state:
- a current element;
- a stack of enclosing elements;
- a list of root elements.

Each `DOMElement` has a child list that only grows at its end. `Element::new` creates an element through the builder. `.children(f)` enters the element, runs `f` and leaves the element again. Elements and the builder are classes. Where the builder stands (`Builder.Nesting`) is a value, and `Enter`/`Leave` are pure functions on it.

The files are:
- `wrappers.dfy`: `Option`;
- `demand.dfy`: `Demand`;
- `delivery.dfy`: the value-level meaning of delivery;
- `reflux.dfy`: the hub and its operations;
- `element.dfy`, `builder.dfy` and `declare.dfy`: the UI builder.

## Model

| member | source | states |
|---|---|---|
| Demands.Nothing | smelter-reflux/src/lib.rs:178-180 | `Demand::nothing()` is not unlimited, and consuming `n` from it succeeds exactly when `n` is 0 |
| Demands.Unlimited | smelter-reflux/src/lib.rs:182-184 | `Demand::unlimited()` is the `u64::MAX` sentinel, and every consumption returns it unchanged |
| Demands.Consumed | smelter-reflux/src/lib.rs:186-194 | unlimited demand gives `Some(self)`; a finite count gives `Some` exactly when `n <= count`, then with count `count - n`; the result never exceeds the original count |
| Demands.ConsumedZeroKeeps | smelter-reflux/src/lib.rs:186-194 | `consumed(0)` is `Some` of the same demand for every demand, `nothing()` included |
| Demands.ConsumedTwice | smelter-reflux/src/lib.rs:186-194 | on a finite demand, consuming `a` then `b` succeeds exactly when consuming `a + b` does, and leaves the same count |
| Delivery.Send | smelter-reflux/src/lib.rs:158-170 | `send_value(v)` as a function of the memory: delivery to every subscription; the log only grows and no cell disappears |
| Delivery.DeliverPrefix | smelter-reflux/src/lib.rs:160-168 | delivery to the first `n` subscriptions, one after another; the log only grows and no cell disappears |
| Delivery.Receive | smelter-reflux/src/lib.rs:86-92 | `receive_value(v)` as a function of the memory: the log only grows, by at least one entry per registered sink, and no cell disappears |
| Delivery.RunSinks | smelter-reflux/src/lib.rs:87-90 | the first `n` sinks run in order: at least `n` new log entries, and no cell disappears |
| Delivery.Fire | smelter-reflux/src/lib.rs:87-90 | one sink invocation: it is logged first, and no cell disappears |
| Delivery.SendLog | smelter-reflux/src/lib.rs:158-168 | `send_value` only appends to the log, and every entry it adds comes from a subscriber ranked below the publisher |
| Delivery.ReceiveLog | smelter-reflux/src/lib.rs:86-92 | `receive_value` only appends to the log, with entries from the subscriber itself or from lower-ranked ones |
| Delivery.FireLog | smelter-reflux/src/lib.rs:87-90 | invoking a sink logs that sink first; everything it causes downstream is fired by strictly lower-ranked subscribers |
| Delivery.ReceiveFiresEachSinkOnce | smelter-reflux/src/lib.rs:86-92 | among everything `receive_value(v)` causes, the invocations of the subscriber's own sinks are exactly sink 0, 1, ..., n-1, each once, with `v`, in registration order |
| Delivery.RunSinksOwn | smelter-reflux/src/lib.rs:87-90 | the same for the first `n` iterations of the sink loop |
| Delivery.SendFansOut | smelter-reflux/src/lib.rs:158-168 | `send_value(v)` adds one log segment per subscription, in attachment order; in segment `j` every sink of subscriber `j` fires once with `v`, in order |
| Delivery.RecorderReceives | smelter-reflux/src/lib.rs:86-92 | a subscriber whose sinks all record stores `v` in each of their cells, leaves every other cell alone, and fires each sink once |
| Delivery.FanOutToRecorders | smelter-reflux/src/lib.rs:158-168 | when every subscriber of a publisher records, `send_value(v)` stores `v` in exactly their cells and fires every one of their sinks, subscription by subscription |
| Delivery.BindForwardsUnchanged | smelter-reflux/src/lib.rs:44-47 | invoking a `bind` sink is `send_value(v)` on the bound publisher, with `v` unchanged; every subscriber of that publisher, whatever its sinks, gets one log segment in attachment order, in which each of its sinks fires once with `v` |
| Delivery.BindToRecorders | smelter-reflux/src/lib.rs:44-47 | a `bind` sink into a publisher of recorders stores `v` in exactly their cells and fires each of their sinks once, right after itself |
| Delivery.MapDeliversTransformed | smelter-reflux/src/lib.rs:35-42 | a `map(f)` sink makes the mapped subscriber receive `f(v)`, and each of that subscriber's sinks fires once with `f(v)` |
| Delivery.MapThenBind | smelter-reflux/src/lib.rs:35-47 | `s.map(f)` bound to a publisher of recorders: receiving `v` at `s` stores `f(v)` in every recorded cell and changes no other cell |
| Delivery.SendKeeps | smelter-reflux/src/lib.rs:158-170 | a send from a publisher ranked below a cell's shield leaves that cell untouched, through every `bind` and `map` it sets off |
| Delivery.SendWritesCell | smelter-reflux/src/lib.rs:158-170 | for a cell that nothing ranked below the publisher can reach, `send_value(v)` leaves `v` in it exactly when some subscriber of the publisher records into it, and leaves it alone otherwise |
| Delivery.AttachFreshPair | smelter-reflux/src/lib.rs:249-260 | wiring a fresh publisher to a fresh lower-ranked subscriber that records into a fresh cell keeps the wiring acyclic, with every id below the new bound, and puts the cell out of reach of everything ranked below the new publisher |
| Delivery.NewPropertyCaches | smelter-reflux/src/lib.rs:249-267 | the wiring `Property::new` builds guards the cache, and feeds only recorders, one of which writes the cache |
| Delivery.AttachKeepsGuard | smelter-reflux/src/lib.rs:152-156 | `receive_subscriber` of a subscriber that does not write the cache keeps a property's cache guarded, whatever that subscriber forwards to |
| Delivery.SinkKeepsGuard | smelter-reflux/src/lib.rs:29-33 | adding a sink that does not write the cache, as `sink`, `bind` and `map` do, keeps a property's cache guarded |
| Delivery.AcceptAll | smelter-reflux/src/lib.rs:277-279 | `accept(v1) ... accept(vn)`, one send after another; the log only grows and no cell disappears |
| Delivery.AcceptCaches | smelter-reflux/src/lib.rs:277-285 | on a guarded property (nothing ranked below its publisher feeds its subscriber), `accept(v)` leaves `v` in the cache, whatever the attached observers do downstream |
| Delivery.AcceptLeavesMappedValue | smelter-reflux/src/lib.rs:273-285 | on an acyclic wiring where an observer maps `x` to `x + 1` and feeds the result back into the property's public subscriber through a lower-ranked publisher, the cache is not guarded, and `accept(1)` leaves 2 in it, not 1 |
| Delivery.AcceptAllCaches | smelter-reflux/src/lib.rs:277-285 | on a guarded property, after `accept(v1) ... accept(vn)` the cache holds `vn` |
| Delivery.AcceptAllToRecorders | smelter-reflux/src/lib.rs:277-285 | with only recording observers, after `accept(v1) ... accept(vn)` every observer cell holds `vn` as the cache does, no other cell changes, and the log holds each value's fan-out in order |
| Delivery.CacheSinkRunsFirst | smelter-reflux/src/lib.rs:249-260 | the cache subscriber is the first subscription, so on every `accept(v)` its first sink is the first thing that runs; when that sink records into the cache, as `Property::new` makes it, it writes `v` there before any observer runs |
| Reflux.Hub.NewSubscriber | smelter-reflux/src/lib.rs:22-27 | a fresh subscriber with no sinks; nothing else changes |
| Reflux.Hub.NewPublisher | smelter-reflux/src/lib.rs:104-115 | a fresh publisher with no subscriptions; nothing else changes |
| Reflux.Hub.NewCell | smelter-reflux/src/lib.rs:254 | a new cell, not among the existing ones, holding `x`; the wiring is unchanged |
| Reflux.Hub.AddSink | smelter-reflux/src/lib.rs:29-33 | `sink(f)` appends exactly one sink at the end and leaves the earlier sinks and all other state unchanged |
| Reflux.Hub.ReceiveSubscription | smelter-reflux/src/lib.rs:53-57 | the subscriber's sinks are not changed |
| Reflux.Hub.ReceiveSubscriber | smelter-reflux/src/lib.rs:152-156 | exactly one subscription, to `s` and with unlimited demand, is appended at the end of the publisher's list; `s`'s sinks do not change |
| Reflux.Hub.ReceiveValue | smelter-reflux/src/lib.rs:86-92 | the sink loop leaves the memory `Receive` describes, keeps the wiring, and returns `Demand::unlimited()` |
| Reflux.Hub.SubscriptionReceiveValue | smelter-reflux/src/lib.rs:231-239 | a subscription hands the value to its subscriber and returns the subscriber's demand |
| Reflux.Hub.SendValue | smelter-reflux/src/lib.rs:158-170 | the filter loop delivers as `Send` describes; since `consumed(0)` always succeeds, the rebuilt subscription list equals the old one, in order |
| Reflux.Hub.Map | smelter-reflux/src/lib.rs:35-42 | `s` gains exactly one sink, which sends `f(v)` to a fresh publisher; that publisher's one subscription is the returned fresh subscriber |
| Reflux.Hub.Bind | smelter-reflux/src/lib.rs:44-47 | `s` gains exactly one sink, forwarding to `p`; nothing else changes |
| Reflux.Hub.NewProperty | smelter-reflux/src/lib.rs:249-267 | three new ids: a publisher whose one subscription is a new subscriber whose one sink writes a new cache cell, not among the existing cells, holding `x`; existing cells keep their values; `value()` is then `Some(x)`, and the cache is guarded |
| Reflux.Hub.Accept | smelter-reflux/src/lib.rs:277-285 | `accept(v)` is `send_value(v)` on the property's publisher; on a guarded property, whatever observes it, `value()` is then `Some(v)` |
| Reflux.WireRecorder | smelter-reflux/src/lib.rs:294-300 | the test's wiring: one subscription to a subscriber whose one sink records into a cell holding 0 |
| Reflux.RecordsSentValue | smelter-reflux/src/lib.rs:292-303 | sending 100 leaves 100 in the recorded cell |
| Reflux.WireClickToText | smelter-reflux/src/lib.rs:35-47 | a click subscriber mapped to a constant text and bound to a property's publisher |
| Reflux.ClickShowsText | smelter-reflux/src/lib.rs:35-47 | a click received by a subscriber mapped to a constant text and bound to a property's publisher leaves that property's `value()` at `Some("clicked")` |
| Reflux.WireObserver | smelter-reflux/src/lib.rs:44-47 | a fresh subscriber bound to a property's publisher |
| Reflux.WireObservedProperty | smelter-reflux/src/lib.rs:249-260 | a property whose publisher feeds its cache subscriber and then that bound subscriber; its cache is guarded |
| Reflux.AcceptWithObserver | smelter-reflux/src/lib.rs:277-285 | accepting 7 into a property with a `bind` observer leaves `value()` at `Some(7)` |
| Elements.DomElement.constructor | smelter-ui/src/element.rs:12-18 | a new element has no children |
| Elements.DomElement.PushChild | smelter-ui/src/element.rs:33-35 | the pushed element becomes the last child, the earlier children stay in order, and a repeated push adds a second entry |
| Builder.Enter | smelter-ui/src/builder.rs:33-38 | the old current element, if any, is pushed on top of the stack; `e` becomes current; the result is valid |
| Builder.Leave | smelter-ui/src/builder.rs:40-45 | the popped top of the stack becomes current, or there is none when the stack is empty; the result is valid |
| Builder.LeaveAfterEnter | smelter-ui/src/builder.rs:33-45 | from a valid position, entering `e` and then leaving puts back the current element and the stack exactly |
| Builder.LeaveAfterEnterNeedsValid | smelter-ui/src/builder.rs:33-45 | without "no current element ⇒ empty stack", the round trip does not restore the position |
| Builder.DocumentBuilder.constructor | smelter-ui/src/builder.rs:19-25 | no roots, an empty stack, no current element |
| Builder.DocumentBuilder.Build | smelter-ui/src/builder.rs:27-29 | the document's elements are exactly the roots |
| Builder.DocumentBuilder.EnterChildren | smelter-ui/src/builder.rs:33-38 | the new position is `Enter` of the old one, and the builder stays valid |
| Builder.DocumentBuilder.LeaveChildren | smelter-ui/src/builder.rs:40-45 | `e` must be the current element when there is one; the new position is `Leave` of the old one, and the builder stays valid |
| Builder.DocumentBuilder.CreateElement | smelter-ui/src/builder.rs:47-55 | a fresh childless element, appended to the current element's children, or to the roots when there is no current element; the position does not change |
| Declare.NewElement | smelter-ui/src/declare.rs:28-31 | exactly one new element, registered through `create_element` |
| Declare.Children | smelter-ui/src/declare.rs:49-56 | enter, body, leave: returns the same wrapper, the builder's position is restored, no root is added, and the elements the body declares directly are appended to this element's children, in order |
| Declare.Declare | smelter-ui/src/declare.rs:28-31 | one declaration adds one fresh element where `create_element` puts it, with as many children as its body declares, and leaves the builder where it was |
| Declare.NestedBuild | smelter-ui/src/lib.rs:22-32 | the crate's test: the nested two-level build yields a document with exactly one root, and that root has one child |

## Left out

- Locking: `Mutex` locking and the poisoned-lock branches (`if let Ok(..)`) are left out. Every lock is taken to succeed.
- Ownership: `Arc`/`Weak` reference counting and deallocation are left out. Objects are ids in `Reflux.Hub`, and UI elements are Dafny objects.
- Sinks: sink closures are the closed set `Record`, `Forward` and `MapForward`. A sink with other effects is not modelled.
- Value types: one value type `V` is used throughout. `map`'s change of value type (`T -> S`) is modelled as a function `V -> V`.
- Reflux.Hub.AddSink: `CanSink` requires ghost ranks under which every link points to a lower rank. A subscription must point to a lower-ranked subscriber, and a forwarding sink to a lower-ranked publisher. The library accepts any wiring. A cycle that a value enters re-locks a `Mutex` the same thread already holds, so that delivery never completes. A cyclic wiring that no value ever enters delivers fine in the library, but the model excludes it too.
- Reflux.Hub.ReceiveSubscriber: requires ghost ranks under which every link points to a lower rank. A subscription must point to a lower-ranked subscriber, and a forwarding sink to a lower-ranked publisher. The library accepts any wiring. A cycle that a value enters re-locks a `Mutex` the same thread already holds, so that delivery never completes. A cyclic wiring that no value ever enters delivers fine in the library, but the model excludes it too.
- Reflux.Hub.Map: requires ghost ranks under which every link points to a lower rank. A subscription must point to a lower-ranked subscriber, and a forwarding sink to a lower-ranked publisher. The library accepts any wiring. A cycle that a value enters re-locks a `Mutex` the same thread already holds, so that delivery never completes. A cyclic wiring that no value ever enters delivers fine in the library, but the model excludes it too.
- Reflux.Hub.Bind: requires ghost ranks under which every link points to a lower rank. A subscription must point to a lower-ranked subscriber, and a forwarding sink to a lower-ranked publisher. The library accepts any wiring. A cycle that a value enters re-locks a `Mutex` the same thread already holds, so that delivery never completes. A cyclic wiring that no value ever enters delivers fine in the library, but the model excludes it too.
- Reflux.Hub.NewProperty: requires ghost ranks under which every link points to a lower rank. A subscription must point to a lower-ranked subscriber, and a forwarding sink to a lower-ranked publisher. The library accepts any wiring. A cycle that a value enters re-locks a `Mutex` the same thread already holds, so that delivery never completes. A cyclic wiring that no value ever enters delivers fine in the library, but the model excludes it too.
- Property values: in `Reflux.Hub.Value`, `None` stands only for a missing cache cell. In the library it means a poisoned lock.
- Reflux.Hub.Accept: `value() == Some(v)` is ensured only for a property whose cache is guarded (`Delivery.CacheGuarded`). That guard also excludes wirings the library accepts, namely those in which a lower-ranked publisher feeds the property's public subscriber. On those, the program does not leave `v` in the cache (`Delivery.AcceptLeavesMappedValue`).
- Delivery.AcceptCaches: the same guard. On library-legal wirings in which a lower-ranked publisher feeds the property's subscriber, `accept(v)` does not leave `v`.
- Delivery.AcceptAllCaches: the same guard. On library-legal wirings in which a lower-ranked publisher feeds the property's subscriber, the last accepted value need not be what the cache holds.
- Delivery.AcceptAllToRecorders: that every observer sees `v1 ... vn` in order across a sequence of accepts is stated for recording observers. For observers of any kind, `Delivery.SendFansOut` states it one accept at a time.
- Property accessors: `Property::publisher()` and `subscriber()` are the datatype fields `prop.publisher` and `prop.subscriber`.
- Weak self-pointer: the weak self-pointer that `Publisher::new` stores through `initialize` is never read, so it is left out.
- Weak-subscriber expiry: this path is commented out in the library, so there is nothing to model.
- Demand: a subscription's `Demand` is stored but never decremented. The only consumption is `consumed(0)` in `send_value`.
- Sink types: Rust's `Fn` bounds and `'static` lifetimes are left out.
- Element types: `DOMElementType` has only `Div`. `DOMElement::new` ignores its argument, as the model does.
- Builder.DocumentBuilder.LeaveChildren: `leave_children`'s `assert!` that the element left is the current one becomes a precondition. The panic when it fails is not modelled.
- Build: `build()` consumes the builder. The model does not stop later use of the object.
- Children bodies: a `children` body is modelled as a sequence of element declarations, each optionally with a body of its own. A body that calls `enter_children` or `leave_children` directly, unbalanced, is not expressible.
- Declare.Declare: the contract states one level of the created tree's shape (the number of direct children), not the full shape.
- Declare.Children: the contract states one level of the created tree's shape (the number of direct children), not the full shape.
- `DeclareElement::context_mut` and `element`: these accessors are the fields of the `Declare.Element` datatype.
- `DeclareTextManipulate::text`: declare.rs only declares it. Its only implementation (smelter-ui/src/proto/mod.rs:40-47) lies in smelter-ui/src/proto/, which is not part of this model.
- Browser manipulation: smelter-ui/src/manipulation.rs is foreign I/O through `web_sys`. It is not part of this model.
- Prototype elements: smelter-ui/src/proto/ is not part of this model.
- Web app: smelter-webapp/ (the wasm entry point and its build configuration) is not part of this model.
