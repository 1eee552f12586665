/**
 The preimage beacon (witness_beacon.go): preimages are added to the witness cache and sent to every subscriber, one
 goroutine per subscriber and batch.

 AddPreimages is two steps, as its lock makes it: the cache is written, and later the subscribers are notified; a
 subscription, a lookup or another batch may come between. A preimage stands for its hash: no two have the same one.
 The cache forgets nothing.
 */
module PreimageBeacon {

  import opened Options

  type Preimage = nat
  type SubId = nat
  type CallId = nat

  /** The buffer of a subscriber's channel. */
  const CAPACITY: nat := 10

  /** A preimage as a subscriber's channel carries it; the batch it came with is kept for the proofs. */
  datatype Item = Item(call: CallId, preimage: Preimage)

  datatype Progress = Begun | Cached | Failed | Notified

  /** A call of AddPreimages with its copy of the batch, and the subscribers it notified. */
  datatype AddCall = AddCall(batch: seq<Preimage>, progress: Progress, snapshot: set<SubId>)

  /** Everything ever put on a subscriber's channel, how much of it was received, and whether quit is closed. */
  datatype Subscriber = Subscriber(stream: seq<Item>, got: nat, quit: bool)

  /** A delivery goroutine: how many of the batch it has sent, and whether it returned on quit. */
  datatype Delivery = Delivery(sent: nat, stopped: bool)

  datatype State = State(
    cache: set<Preimage>, clientCounter: nat, subscribers: set<SubId>, clients: map<SubId, Subscriber>,
    calls: map<CallId, AddCall>, deliveries: map<(CallId, SubId), Delivery>)

  /** newPreimageBeacon, over a cache that may hold preimages already. */
  function Init(cache: set<Preimage>): State {
    State(cache, 0, {}, map[], map[], map[])
  }

  // ---------------------------------------------------------------- steps

  datatype Event =
    | Subscribe
    | Cancel(sub: SubId)
    | BeginAdd(call: CallId, batch: seq<Preimage>)
    | WriteCache(call: CallId)
    | WriteFails(call: CallId)
    | Notify(call: CallId)
    | Deliver(call: CallId, to: SubId)
    | Quit(call: CallId, to: SubId)
    | Receive(sub: SubId)

  predicate InProgress(s: State, c: CallId, p: Progress) {
    c in s.calls && s.calls[c].progress == p
  }

  predicate Sending(s: State, c: CallId, to: SubId) {
    && (c, to) in s.deliveries && c in s.calls && to in s.clients
    && !s.deliveries[(c, to)].stopped && s.deliveries[(c, to)].sent < |s.calls[c].batch|
  }

  predicate Can(s: State, e: Event) {
    match e
    case Subscribe => true
    case Cancel(sub) => sub in s.subscribers && sub in s.clients // A second one panics.
    case BeginAdd(c, batch) => c !in s.calls && batch != []
    case WriteCache(c) => InProgress(s, c, Begun)
    case WriteFails(c) => InProgress(s, c, Begun)
    case Notify(c) => InProgress(s, c, Cached)
    case Deliver(c, to) => Sending(s, c, to) && |s.clients[to].stream| < s.clients[to].got + CAPACITY
    case Quit(c, to) => Sending(s, c, to) && s.clients[to].quit
    case Receive(sub) => sub in s.clients && s.clients[sub].got < |s.clients[sub].stream|
  }

  /** LookupPreimage, which changes nothing: a cache that cannot be read answers as one without the preimage. */
  function Answer(s: State, p: Preimage, readFails: bool): bool {
    !readFails && p in s.cache
  }

  function ToSet(batch: seq<Preimage>): set<Preimage> {
    set p | p in batch
  }

  /** A step, or nothing if it is not enabled. */
  function Do(s: State, e: Event): State {
    if !Can(s, e) then s
    else match e
      case Subscribe =>
        s.(clientCounter := s.clientCounter + 1, subscribers := s.subscribers + {s.clientCounter},
           clients := s.clients[s.clientCounter := Subscriber([], 0, false)])
      case Cancel(sub) =>
        s.(subscribers := s.subscribers - {sub}, clients := s.clients[sub := s.clients[sub].(quit := true)])
      case BeginAdd(c, batch) => s.(calls := s.calls[c := AddCall(batch, Begun, {})])
      case WriteCache(c) =>
        s.(calls := s.calls[c := s.calls[c].(progress := Cached)],
           cache := s.cache + ToSet(s.calls[c].batch))
      case WriteFails(c) => s.(calls := s.calls[c := s.calls[c].(progress := Failed)])
      case Notify(c) =>
        s.(calls := s.calls[c := s.calls[c].(progress := Notified, snapshot := s.subscribers)],
           deliveries := s.deliveries + map sub | sub in s.subscribers :: (c, sub) := Delivery(0, false))
      case Deliver(c, to) =>
        var d := s.deliveries[(c, to)];
        s.(deliveries := s.deliveries[(c, to) := d.(sent := d.sent + 1)],
           clients := s.clients[to := s.clients[to].(
             stream := s.clients[to].stream + [Item(c, s.calls[c].batch[d.sent])])])
      case Quit(c, to) => s.(deliveries := s.deliveries[(c, to) := s.deliveries[(c, to)].(stopped := true)])
      case Receive(sub) => s.(clients := s.clients[sub := s.clients[sub].(got := s.clients[sub].got + 1)])
  }

  function Run(s: State, es: seq<Event>): State
    decreases |es|
  {
    if es == [] then s else Do(Run(s, es[..|es| - 1]), es[|es| - 1])
  }

  // ---------------------------------------------------------------- what was received

  /** The preimages of one batch among what a channel carried, in order. */
  function Of(items: seq<Item>, c: CallId): seq<Preimage> {
    if items == [] then []
    else
      var last := items[|items| - 1];
      Of(items[..|items| - 1], c) + if last.call == c then [last.preimage] else []
  }

  function Received(s: State, sub: SubId): seq<Item>
    requires sub in s.clients && s.clients[sub].got <= |s.clients[sub].stream|
  {
    s.clients[sub].stream[..s.clients[sub].got]
  }

  lemma OfOneMore(items: seq<Item>, item: Item, c: CallId)
    ensures Of(items + [item], c) == Of(items, c) + if item.call == c then [item.preimage] else []
  {
    assert (items + [item])[..|items|] == items;
  }

  lemma {:induction false} OfPrefix(items: seq<Item>, n: nat, c: CallId)
    requires n <= |items|
    ensures Of(items[..n], c) <= Of(items, c)
    decreases |items|
  {
    if n < |items| {
      assert items[..|items| - 1][..n] == items[..n];
      OfPrefix(items[..|items| - 1], n, c);
    } else {
      assert items[..n] == items;
    }
  }

  lemma {:induction false} OfHolds(items: seq<Item>, c: CallId, p: Preimage)
    requires p in Of(items, c)
    ensures Item(c, p) in items
  {
    var rest := items[..|items| - 1];
    if p in Of(rest, c) {
      OfHolds(rest, c, p);
    }
  }

  // ---------------------------------------------------------------- invariants

  ghost predicate ClientsOk(s: State) {
    && (forall sub | sub in s.clients :: sub < s.clientCounter && s.clients[sub].got <= |s.clients[sub].stream|)
    && (forall sub | sub in s.clients :: |s.clients[sub].stream| <= s.clients[sub].got + CAPACITY)
    && (forall sub :: sub in s.subscribers <==> sub in s.clients && !s.clients[sub].quit)
  }

  ghost predicate CallsOk(s: State) {
    && (forall c | c in s.calls && s.calls[c].progress in {Cached, Notified} :: ToSet(s.calls[c].batch) <= s.cache)
    && (forall c | c in s.calls :: s.calls[c].snapshot <= s.clients.Keys)
  }

  /** There is a goroutine for each subscriber a call notified. */
  ghost predicate SpawnedOk(s: State) {
    forall c, sub :: (c, sub) in s.deliveries <==> InProgress(s, c, Notified) && sub in s.calls[c].snapshot
  }

  /** Of each batch, a channel has carried what its goroutine sent, in order, and nothing if there is none. */
  predicate CarriedOk(s: State, c: CallId, sub: SubId)
    requires sub in s.clients
  {
    var carried := Of(s.clients[sub].stream, c);
    if (c, sub) in s.deliveries && c in s.calls then
      var d := s.deliveries[(c, sub)];
      d.sent <= |s.calls[c].batch| && carried == s.calls[c].batch[..d.sent] && (d.stopped ==> s.clients[sub].quit)
    else carried == []
  }

  ghost predicate DeliveriesOk(s: State) {
    forall c, sub | sub in s.clients :: CarriedOk(s, c, sub)
  }

  ghost predicate Inv(s: State) {
    ClientsOk(s) && CallsOk(s) && SpawnedOk(s) && DeliveriesOk(s)
  }

  // ---------------------------------------------------------------- every step keeps them

  lemma ClientsKept(s: State, e: Event)
    requires ClientsOk(s)
    ensures ClientsOk(Do(s, e))
  {
  }

  lemma CallsKept(s: State, e: Event)
    requires ClientsOk(s) && CallsOk(s)
    ensures CallsOk(Do(s, e))
  {
  }

  lemma SpawnedKept(s: State, e: Event)
    requires SpawnedOk(s)
    ensures SpawnedOk(Do(s, e))
  {
    var t := Do(s, e);
    forall c, sub ensures (c, sub) in t.deliveries <==> InProgress(t, c, Notified) && sub in t.calls[c].snapshot {
      assert (c, sub) in s.deliveries <==> InProgress(s, c, Notified) && sub in s.calls[c].snapshot;
    }
  }

  lemma CarriedBySender(s: State, e: Event, c: CallId)
    requires e.Deliver? && Can(s, e) && CarriedOk(s, c, e.to)
    ensures CarriedOk(Do(s, e), c, e.to)
  {
    var batch, sent := s.calls[e.call].batch, s.deliveries[(e.call, e.to)].sent;
    OfOneMore(s.clients[e.to].stream, Item(e.call, batch[sent]), c);
    if c == e.call {
      assert batch[..sent + 1] == batch[..sent] + [batch[sent]];
    }
  }

  /** A step that sends nothing to a subscriber leaves what it carried. */
  lemma CarriedElsewhere(s: State, e: Event, c: CallId, sub: SubId)
    requires Can(s, e) && sub in s.clients && !(e.Deliver? && e.to == sub) && CarriedOk(s, c, sub)
    requires ClientsOk(s) && ((c, sub) in s.deliveries ==> InProgress(s, c, Notified))
    ensures CarriedOk(Do(s, e), c, sub)
  {
    assert sub != s.clientCounter;
    match e
    case Notify(_) =>
    case Quit(_, _) =>
    case _ => assert Do(s, e).deliveries == s.deliveries || e.Deliver?;
  }

  lemma NothingForNewcomer(s: State, c: CallId)
    requires ClientsOk(s) && CallsOk(s) && SpawnedOk(s)
    ensures CarriedOk(Do(s, Subscribe), c, s.clientCounter)
  {
    assert s.clientCounter !in s.clients;
    assert (c, s.clientCounter) !in s.deliveries;
  }

  lemma DeliveriesKept(s: State, e: Event)
    requires ClientsOk(s) && CallsOk(s) && SpawnedOk(s) && DeliveriesOk(s)
    ensures DeliveriesOk(Do(s, e))
  {
    var t := Do(s, e);
    if Can(s, e) {
      forall c, sub | sub in t.clients ensures CarriedOk(t, c, sub) {
        if e.Deliver? && e.to == sub {
          assert CarriedOk(s, c, sub);
          CarriedBySender(s, e, c);
        } else if sub in s.clients {
          assert CarriedOk(s, c, sub);
          CarriedElsewhere(s, e, c, sub);
        } else {
          NothingForNewcomer(s, c);
        }
      }
    }
  }

  lemma EventKeeps(s: State, e: Event)
    requires Inv(s)
    ensures Inv(Do(s, e))
  {
    ClientsKept(s, e);
    CallsKept(s, e);
    SpawnedKept(s, e);
    DeliveriesKept(s, e);
  }

  lemma {:induction false} InvKept(s: State, es: seq<Event>)
    requires Inv(s)
    ensures Inv(Run(s, es))
    decreases |es|
  {
    if es != [] {
      InvKept(s, es[..|es| - 1]);
      EventKeeps(Run(s, es[..|es| - 1]), es[|es| - 1]);
    }
  }

  lemma InvOnEveryRun(cache: set<Preimage>, es: seq<Event>)
    ensures Inv(Run(Init(cache), es))
  {
    InvKept(Init(cache), es);
  }

  // ---------------------------------------------------------------- what the cache holds

  predicate WrittenBy(s: State, c: CallId, p: Preimage) {
    c in s.calls && s.calls[c].progress in {Cached, Notified} && p in s.calls[c].batch
  }

  lemma WrittenAfter(s: State, e: Event, p: Preimage)
    ensures p in Do(s, e).cache <==> p in s.cache || (e.WriteCache? && Can(s, e) && p in s.calls[e.call].batch)
    ensures (exists c :: WrittenBy(Do(s, e), c, p))
            <==> (exists c :: WrittenBy(s, c, p)) || (e.WriteCache? && Can(s, e) && p in s.calls[e.call].batch)
  {
    var t := Do(s, e);
    if c :| WrittenBy(s, c, p) {
      assert WrittenBy(t, c, p);
    }
    if c :| WrittenBy(t, c, p) {
      assert WrittenBy(s, c, p) || (e == WriteCache(c) && Can(s, e));
    }
    if e.WriteCache? && Can(s, e) && p in s.calls[e.call].batch {
      assert WrittenBy(t, e.call, p);
    }
  }

  /** In every run a preimage is found exactly if it was cached at the start, or a call has written a batch it is in;
      and the cache can be read. */
  lemma {:induction false} CacheExactly(cache: set<Preimage>, es: seq<Event>, p: Preimage, readFails: bool)
    ensures var s := Run(Init(cache), es);
            Answer(s, p, readFails) <==> !readFails && (p in cache || exists c :: WrittenBy(s, c, p))
    decreases |es|
  {
    if es != [] {
      CacheExactly(cache, es[..|es| - 1], p, false);
      WrittenAfter(Run(Init(cache), es[..|es| - 1]), es[|es| - 1], p);
    }
  }

  // ---------------------------------------------------------------- what a batch promises

  lemma BatchInOrder(s: State, sub: SubId, c: CallId)
    requires Inv(s) && sub in s.clients && c in s.calls
    ensures s.clients[sub].got <= |s.clients[sub].stream|
    ensures Of(Received(s, sub), c) <= s.calls[c].batch
    ensures forall p | p in Of(Received(s, sub), c) :: p in s.cache
    ensures Of(Received(s, sub), c) != [] ==> sub in s.calls[c].snapshot
    ensures InProgress(s, c, Notified) && sub in s.calls[c].snapshot && !Sending(s, c, sub)
            && s.clients[sub].got == |s.clients[sub].stream| ==>
              Of(Received(s, sub), c) == s.calls[c].batch || s.clients[sub].quit
  {
    var stream, got := s.clients[sub].stream, s.clients[sub].got;
    assert CarriedOk(s, c, sub);
    OfPrefix(stream, got, c);
    if got == |stream| {
      assert stream[..got] == stream;
    }
    if (c, sub) in s.deliveries {
      assert forall p | p in s.calls[c].batch :: p in ToSet(s.calls[c].batch);
    }
  }

  /** Of each batch a subscriber receives a prefix, in order, nothing twice, and all of it once its goroutine is done
      and its channel read out; and everything it receives was in the cache. */
  lemma BatchReceivedInOrder(cache: set<Preimage>, es: seq<Event>, sub: SubId, c: CallId)
    requires var s := Run(Init(cache), es); sub in s.clients && c in s.calls
    ensures var s := Run(Init(cache), es);
            && s.clients[sub].got <= |s.clients[sub].stream|
            && Of(Received(s, sub), c) <= s.calls[c].batch
            && (forall p | p in Of(Received(s, sub), c) :: p in s.cache)
            && (Of(Received(s, sub), c) != [] ==> sub in s.calls[c].snapshot)
            && (InProgress(s, c, Notified) && sub in s.calls[c].snapshot && !Sending(s, c, sub)
                && s.clients[sub].got == |s.clients[sub].stream| ==>
                  Of(Received(s, sub), c) == s.calls[c].batch || s.clients[sub].quit)
  {
    InvOnEveryRun(cache, es);
    BatchInOrder(Run(Init(cache), es), sub, c);
  }

  // ---------------------------------------------------------------- what a lookup that finds nothing promises

  /** The subscriber's goroutine of a call has the preimage still to send. */
  predicate ToSend(s: State, sub: SubId, p: Preimage, c: CallId) {
    Sending(s, c, sub) && p in s.calls[c].batch[s.deliveries[(c, sub)].sent..]
  }

  /** A call is to send the subscriber the preimage: it has still to notify, or its goroutine has still to send it. */
  predicate Coming(s: State, sub: SubId, p: Preimage, c: CallId) {
    c in s.calls && p in s.calls[c].batch && (s.calls[c].progress == Cached || ToSend(s, sub, p, c))
  }

  /** The subscriber's channel carried the preimage. */
  predicate Carried(s: State, sub: SubId, p: Preimage) {
    sub in s.clients && exists i | 0 <= i < |s.clients[sub].stream| :: s.clients[sub].stream[i].preimage == p
  }

  ghost predicate OnItsWay(s: State, sub: SubId, p: Preimage) {
    Carried(s, sub, p) || exists c :: Coming(s, sub, p, c)
  }

  ghost predicate HasReceived(s: State, sub: SubId, p: Preimage) {
    && sub in s.clients && s.clients[sub].got <= |s.clients[sub].stream|
    && exists i | 0 <= i < s.clients[sub].got :: s.clients[sub].stream[i].preimage == p
  }

  /** Nothing is on its way to a subscriber: no batch is cached and not yet notified, its goroutines are done, and its
      channel is read out. */
  ghost predicate Quiet(s: State, sub: SubId) {
    && sub in s.clients && s.clients[sub].got == |s.clients[sub].stream|
    && forall c | c in s.calls :: s.calls[c].progress != Cached && !Sending(s, c, sub)
  }

  /** Whatever happens later, the subscriber will not be left without the preimage: unless it cancels it has received
      it, once it is cached and nothing is on its way. */
  ghost predicate Followed(s: State, sub: SubId, p: Preimage) {
    forall later: seq<Event> ::
      var t := Run(s, later);
      sub in t.subscribers && p in t.cache && Quiet(t, sub) ==> HasReceived(t, sub, p)
  }

  /** Not cached, or on its way: so it stays until the subscriber cancels. */
  ghost predicate Covered(s: State, sub: SubId, p: Preimage) {
    p in s.cache ==> OnItsWay(s, sub, p)
  }

  lemma ComingKept(s: State, e: Event, sub: SubId, p: Preimage, c: CallId)
    requires Inv(s) && sub in s.subscribers && Can(s, e) && Coming(s, sub, p, c)
    ensures Coming(Do(s, e), sub, p, c) || Carried(Do(s, e), sub, p)
  {
    var t := Do(s, e);
    match e
    case Deliver(d, to) =>
      if d == c && to == sub && s.calls[c].progress != Cached {
        var batch, sent := s.calls[c].batch, s.deliveries[(c, sub)].sent;
        assert batch[sent..] == [batch[sent]] + batch[sent + 1..];
        if p == batch[sent] {
          assert t.clients[sub].stream[|t.clients[sub].stream| - 1].preimage == p;
        }
      }
    case Notify(d) =>
      if d == c {
        assert s.calls[c].batch[0..] == s.calls[c].batch;
      }
    case _ =>
  }

  lemma CarriedKept(s: State, e: Event, sub: SubId, p: Preimage)
    requires Inv(s) && Carried(s, sub, p)
    ensures Carried(Do(s, e), sub, p)
  {
    var i :| 0 <= i < |s.clients[sub].stream| && s.clients[sub].stream[i].preimage == p;
    assert Do(s, e).clients[sub].stream[i].preimage == p;
  }

  lemma CoveredKept(s: State, e: Event, sub: SubId, p: Preimage)
    requires Inv(s) && sub in s.subscribers && Covered(s, sub, p)
    ensures Covered(Do(s, e), sub, p)
  {
    if Can(s, e) {
      if Carried(s, sub, p) {
        CarriedKept(s, e, sub, p);
      } else if c :| Coming(s, sub, p, c) {
        ComingKept(s, e, sub, p, c);
      } else if e.WriteCache? && p in s.calls[e.call].batch {
        assert Coming(Do(s, e), sub, p, e.call);
      }
    }
  }

  /** Who is subscribed later was before, if it had subscribed. */
  lemma StillSubscribed(s: State, e: Event, sub: SubId)
    requires ClientsOk(s) && sub in s.clients && sub in Do(s, e).subscribers
    ensures sub in s.subscribers
  {
  }

  lemma {:induction false} CoveredLater(s: State, later: seq<Event>, sub: SubId, p: Preimage)
    requires Inv(s) && sub in s.clients && Covered(s, sub, p)
    ensures var t := Run(s, later);
            sub in t.clients && (sub in t.subscribers ==> sub in s.subscribers && Covered(t, sub, p))
    decreases |later|
  {
    if later != [] {
      var before := Run(s, later[..|later| - 1]);
      CoveredLater(s, later[..|later| - 1], sub, p);
      InvKept(s, later[..|later| - 1]);
      if sub in Do(before, later[|later| - 1]).subscribers {
        StillSubscribed(before, later[|later| - 1], sub);
        CoveredKept(before, later[|later| - 1], sub, p);
      }
    }
  }

  // ---------------------------------------------------------------- a run to quiet

  lemma {:induction false} RunSplit(s: State, a: seq<Event>, b: seq<Event>)
    ensures Run(s, a + b) == Run(Run(s, a), b)
    decreases |b|
  {
    if b == [] {
      assert a + b == a;
    } else {
      assert (a + b)[..|a + b| - 1] == a + b[..|b| - 1];
      RunSplit(s, a, b[..|b| - 1]);
    }
  }

  lemma RunOne(s: State, e: Event)
    ensures Run(s, [e]) == Do(s, e)
  {
    assert [e][..0] == [];
  }

  /** A subscriber to whom a cached preimage is not on its way. */
  ghost predicate LeftOut(s: State, sub: SubId, p: Preimage) {
    Inv(s) && sub in s.subscribers && sub in s.clients && p in s.cache && !OnItsWay(s, sub, p)
  }

  /** The calls that have still to notify. */
  function Unnotified(s: State): set<CallId> {
    set c | c in s.calls && s.calls[c].progress == Cached
  }

  /** The calls whose goroutine has still to send to the subscriber. */
  function Unsent(s: State, sub: SubId): set<CallId> {
    set c | c in s.calls && Sending(s, c, sub)
  }

  lemma NotifyLeavesOut(s: State, sub: SubId, p: Preimage, c: CallId)
    requires LeftOut(s, sub, p) && c in Unnotified(s)
    ensures var t := Do(s, Event.Notify(c)); LeftOut(t, sub, p) && Unnotified(t) == Unnotified(s) - {c}
  {
    var t := Do(s, Event.Notify(c));
    EventKeeps(s, Event.Notify(c));
    assert !Coming(s, sub, p, c);
    forall d ensures !Coming(t, sub, p, d) {
      assert !Coming(s, sub, p, d);
    }
  }

  lemma ReceiveLeavesOut(s: State, sub: SubId, p: Preimage)
    requires LeftOut(s, sub, p) && Can(s, Receive(sub))
    ensures var t := Do(s, Receive(sub));
            && LeftOut(t, sub, p) && Unnotified(t) == Unnotified(s) && Unsent(t, sub) == Unsent(s, sub)
            && t.deliveries == s.deliveries && t.calls == s.calls
            && t.clients[sub] == s.clients[sub].(got := s.clients[sub].got + 1)
  {
    var t := Do(s, Receive(sub));
    EventKeeps(s, Receive(sub));
    forall d ensures !Coming(t, sub, p, d) {
      assert !Coming(s, sub, p, d);
    }
  }

  lemma DeliverLeavesOut(s: State, sub: SubId, p: Preimage, c: CallId)
    requires LeftOut(s, sub, p) && Can(s, Deliver(c, sub))
    ensures var t := Do(s, Deliver(c, sub));
            && LeftOut(t, sub, p) && Unnotified(t) == Unnotified(s)
            && Unsent(s, sub) - {c} <= Unsent(t, sub) <= Unsent(s, sub)
            && (c, sub) in t.deliveries && t.deliveries[(c, sub)].sent == s.deliveries[(c, sub)].sent + 1
            && t.calls == s.calls && sub in t.clients && t.clients[sub].got == s.clients[sub].got
            && |t.clients[sub].stream| == |s.clients[sub].stream| + 1
  {
    var t := Do(s, Deliver(c, sub));
    EventKeeps(s, Deliver(c, sub));
    var batch, sent := s.calls[c].batch, s.deliveries[(c, sub)].sent;
    assert batch[sent..] == [batch[sent]] + batch[sent + 1..];
    assert !Coming(s, sub, p, c);
    assert batch[sent] in batch && batch[sent] in batch[sent..];
    forall d ensures !Coming(t, sub, p, d) {
      assert !Coming(s, sub, p, d);
    }
    assert !Carried(t, sub, p);
  }

  lemma {:induction false} AllNotified(s: State, sub: SubId, p: Preimage) returns (es: seq<Event>)
    requires LeftOut(s, sub, p)
    ensures LeftOut(Run(s, es), sub, p) && Unnotified(Run(s, es)) == {}
    decreases |Unnotified(s)|
  {
    if Unnotified(s) == {} {
      es := [];
    } else {
      var c :| c in Unnotified(s);
      NotifyLeavesOut(s, sub, p, c);
      var rest := AllNotified(Do(s, Event.Notify(c)), sub, p);
      es := [Event.Notify(c)] + rest;
      RunOne(s, Event.Notify(c));
      RunSplit(s, [Event.Notify(c)], rest);
    }
  }

  lemma {:induction false} ReadOut(s: State, sub: SubId, p: Preimage) returns (es: seq<Event>)
    requires LeftOut(s, sub, p)
    ensures var t := Run(s, es);
            && LeftOut(t, sub, p) && Unnotified(t) == Unnotified(s) && Unsent(t, sub) == Unsent(s, sub)
            && t.clients[sub].got == |t.clients[sub].stream|
    decreases |s.clients[sub].stream| - s.clients[sub].got
  {
    if s.clients[sub].got == |s.clients[sub].stream| {
      es := [];
    } else {
      ReceiveLeavesOut(s, sub, p);
      var rest := ReadOut(Do(s, Receive(sub)), sub, p);
      es := [Receive(sub)] + rest;
      RunOne(s, Receive(sub));
      RunSplit(s, [Receive(sub)], rest);
    }
  }

  /** One goroutine sends all it has, and the subscriber keeps up. */
  lemma {:induction false} SentOut(s: State, sub: SubId, p: Preimage, c: CallId) returns (es: seq<Event>)
    requires LeftOut(s, sub, p) && Sending(s, c, sub) && s.clients[sub].got == |s.clients[sub].stream|
    ensures var t := Run(s, es);
            && LeftOut(t, sub, p) && Unnotified(t) == Unnotified(s) && Unsent(t, sub) == Unsent(s, sub) - {c}
            && t.clients[sub].got == |t.clients[sub].stream|
    decreases |s.calls[c].batch| - s.deliveries[(c, sub)].sent
  {
    DeliverLeavesOut(s, sub, p, c);
    var m := Do(s, Deliver(c, sub));
    ReceiveLeavesOut(m, sub, p);
    var t := Do(m, Receive(sub));
    RunOne(s, Deliver(c, sub));
    RunOne(m, Receive(sub));
    RunSplit(s, [Deliver(c, sub)], [Receive(sub)]);
    es := [Deliver(c, sub)] + [Receive(sub)];
    if Sending(t, c, sub) {
      assert c in Unsent(t, sub);
      var rest := SentOut(t, sub, p, c);
      RunSplit(s, es, rest);
      es := es + rest;
    } else {
      assert c !in Unsent(t, sub);
    }
  }

  lemma {:induction false} AllSent(s: State, sub: SubId, p: Preimage) returns (es: seq<Event>)
    requires LeftOut(s, sub, p) && Unnotified(s) == {} && s.clients[sub].got == |s.clients[sub].stream|
    ensures LeftOut(Run(s, es), sub, p) && Quiet(Run(s, es), sub)
    decreases |Unsent(s, sub)|
  {
    if Unsent(s, sub) == {} {
      es := [];
      forall c | c in s.calls ensures s.calls[c].progress != Cached && !Sending(s, c, sub) {
        assert c !in Unnotified(s) && c !in Unsent(s, sub);
      }
    } else {
      var c :| c in Unsent(s, sub);
      es := SentOut(s, sub, p, c);
      var rest := AllSent(Run(s, es), sub, p);
      RunSplit(s, es, rest);
      es := es + rest;
    }
  }

  /** Someone left out may stay so until nothing is on its way. */
  lemma LeftOutToTheEnd(s: State, sub: SubId, p: Preimage) returns (es: seq<Event>)
    requires LeftOut(s, sub, p)
    ensures var t := Run(s, es); LeftOut(t, sub, p) && Quiet(t, sub)
  {
    var notify := AllNotified(s, sub, p);
    var m := Run(s, notify);
    var read := ReadOut(m, sub, p);
    var send := AllSent(Run(m, read), sub, p);
    RunSplit(m, read, send);
    RunSplit(s, notify, read + send);
    es := notify + (read + send);
  }

  // ---------------------------------------------------------------- the theorems

  lemma ReceivedWhenQuiet(s: State, sub: SubId, p: Preimage)
    requires Quiet(s, sub)
    ensures OnItsWay(s, sub, p) <==> HasReceived(s, sub, p)
  {
  }

  /** At any moment of any run, a subscriber will not be left without a preimage exactly when it is not cached yet, or
      is on its way: a goroutine or the subscriber's channel holds it, or a call that cached it has still to notify. */
  lemma FollowedExactly(cache: set<Preimage>, past: seq<Event>, sub: SubId, p: Preimage)
    requires sub in Run(Init(cache), past).subscribers
    ensures var s := Run(Init(cache), past); Followed(s, sub, p) <==> p !in s.cache || OnItsWay(s, sub, p)
  {
    var s := Run(Init(cache), past);
    InvOnEveryRun(cache, past);
    if Covered(s, sub, p) {
      forall later: seq<Event> | var t := Run(s, later); sub in t.subscribers && p in t.cache && Quiet(t, sub)
        ensures HasReceived(Run(s, later), sub, p)
      {
        CoveredLater(s, later, sub, p);
        InvKept(s, later);
        ReceivedWhenQuiet(Run(s, later), sub, p);
      }
    } else {
      var later := LeftOutToTheEnd(s, sub, p);
      assert !HasReceived(Run(s, later), sub, p);
    }
  }

  /** A lookup that finds nothing because nothing is cached is always followed. One that finds nothing because the cache
      could not be read looks the same, and is followed exactly when the preimage was not cached, or was on its way to
      the subscriber already; if nothing was on its way then, and it had not been received, exactly when it was not
      cached. */
  lemma FailedReadIsNoMiss(cache: set<Preimage>, past: seq<Event>, sub: SubId, p: Preimage, readFails: bool)
    requires var s := Run(Init(cache), past); sub in s.subscribers && !Answer(s, p, readFails)
    ensures var s := Run(Init(cache), past);
            && (!readFails ==> Followed(s, sub, p))
            && (Followed(s, sub, p) <==> p !in s.cache || OnItsWay(s, sub, p))
            && (Quiet(s, sub) && !HasReceived(s, sub, p) ==> (Followed(s, sub, p) <==> p !in s.cache))
  {
    FollowedExactly(cache, past, sub, p);
    if Quiet(Run(Init(cache), past), sub) {
      ReceivedWhenQuiet(Run(Init(cache), past), sub, p);
    }
  }

  /** A state where a failed read is not followed: the preimage is cached, and whoever subscribes then is told of it by
      nobody. */
  lemma FailedReadNotFollowed(p: Preimage)
    ensures var s := Run(Init({p}), [Subscribe]);
            0 in s.subscribers && !Answer(s, p, true) && !Followed(s, 0, p)
  {
    RunOne(Init({p}), Subscribe);
    FailedReadIsNoMiss({p}, [Subscribe], 0, p, true);
  }

  /** Every call that has notified its subscribers of a preimage has notified this one. */
  predicate ToldOf(s: State, sub: SubId, p: Preimage) {
    forall c | c in s.calls && s.calls[c].progress == Notified && p in s.calls[c].batch :: sub in s.calls[c].snapshot
  }

  lemma {:induction false} ToldLater(s: State, later: seq<Event>, sub: SubId, p: Preimage)
    requires Inv(s) && sub in s.subscribers && p !in s.cache
    ensures var t := Run(s, later);
            sub in t.clients && (sub in t.subscribers ==> ToldOf(t, sub, p))
    decreases |later|
  {
    if later == [] {
      forall c | c in s.calls && s.calls[c].progress == Notified ensures p !in s.calls[c].batch {
        assert p !in ToSet(s.calls[c].batch);
      }
    } else {
      var before := Run(s, later[..|later| - 1]);
      ToldLater(s, later[..|later| - 1], sub, p);
      InvKept(s, later[..|later| - 1]);
      if sub in Do(before, later[|later| - 1]).subscribers {
        StillSubscribed(before, later[|later| - 1], sub);
      }
    }
  }

  /** No missed preimage: in every run, a subscriber whose lookup finds a preimage not cached is, as long as it does not
      cancel, in the snapshot of every later call that caches the preimage and comes to notify. */
  lemma MissedPreimageIsNotified(cache: set<Preimage>, past: seq<Event>, later: seq<Event>, sub: SubId, p: Preimage)
    requires var s := Run(Init(cache), past); sub in s.subscribers && !Answer(s, p, false)
    requires sub in Run(Run(Init(cache), past), later).subscribers
    ensures ToldOf(Run(Run(Init(cache), past), later), sub, p)
  {
    InvOnEveryRun(cache, past);
    ToldLater(Run(Init(cache), past), later, sub, p);
  }

  /** End to end: such a subscriber has received it, once it was cached and nothing is on its way, and every batch it
      came in, whole and in order. */
  lemma MissedPreimageIsReceived(cache: set<Preimage>, past: seq<Event>, later: seq<Event>, sub: SubId, p: Preimage)
    requires var s := Run(Init(cache), past); sub in s.subscribers && !Answer(s, p, false)
    requires var t := Run(Run(Init(cache), past), later); sub in t.subscribers && Quiet(t, sub)
    ensures var t := Run(Run(Init(cache), past), later);
            && (p in t.cache ==> HasReceived(t, sub, p))
            && (forall c | InProgress(t, c, Notified) && p in t.calls[c].batch ::
                  Of(t.clients[sub].stream[..t.clients[sub].got], c) == t.calls[c].batch)
  {
    var s, t := Run(Init(cache), past), Run(Run(Init(cache), past), later);
    FollowedExactly(cache, past, sub, p);
    MissedPreimageIsNotified(cache, past, later, sub, p);
    InvOnEveryRun(cache, past);
    InvKept(s, later);
    forall c | InProgress(t, c, Notified) && p in t.calls[c].batch
      ensures Of(Received(t, sub), c) == t.calls[c].batch
    {
      BatchInOrder(t, sub, c);
    }
  }

  /** Across batches there is no order: of two goroutines with something to send, either may be first. */
  lemma BatchesMayOvertake(s: State, first: CallId, second: CallId, sub: SubId)
    requires first != second && Sending(s, first, sub) && Sending(s, second, sub)
    requires |s.clients[sub].stream| + 1 < s.clients[sub].got + CAPACITY
    ensures var t := Do(Do(s, Deliver(second, sub)), Deliver(first, sub));
            sub in t.clients && t.clients[sub].stream ==
              s.clients[sub].stream
              + [Item(second, s.calls[second].batch[s.deliveries[(second, sub)].sent])]
              + [Item(first, s.calls[first].batch[s.deliveries[(first, sub)].sent])]
  {
    var u := Do(s, Deliver(second, sub));
    assert Can(u, Deliver(first, sub));
    assert u.deliveries[(first, sub)] == s.deliveries[(first, sub)];
  }

  // ---------------------------------------------------------------- a delivery that stops

  /** The goroutine of a batch and a subscriber returned on quit, having sent what the channel carried. */
  predicate StoppedWith(s: State, c: CallId, to: SubId, carried: seq<Preimage>) {
    && InProgress(s, c, Notified) && to in s.clients && to < s.clientCounter
    && (c, to) in s.deliveries && s.deliveries[(c, to)].stopped && Of(s.clients[to].stream, c) == carried
  }

  lemma StoppedKept(s: State, e: Event, c: CallId, to: SubId, carried: seq<Preimage>)
    requires StoppedWith(s, c, to, carried)
    ensures StoppedWith(Do(s, e), c, to, carried)
  {
    if e.Deliver? && Can(s, e) {
      OfOneMore(s.clients[e.to].stream, Item(e.call, s.calls[e.call].batch[s.deliveries[(e.call, e.to)].sent]), c);
    }
  }

  /** In every run, once a goroutine returned because its subscriber had quit, the channel carries no more of its
      batch. */
  lemma {:induction false} StoppedSendsNoMore(cache: set<Preimage>, past: seq<Event>, later: seq<Event>,
                                              c: CallId, to: SubId)
    requires Can(Run(Init(cache), past), Quit(c, to))
    ensures var s := Run(Init(cache), past);
            StoppedWith(Run(Do(s, Quit(c, to)), later), c, to, Of(s.clients[to].stream, c))
    decreases |later|
  {
    var s := Run(Init(cache), past);
    if later == [] {
      InvOnEveryRun(cache, past);
    } else {
      var n := |later| - 1;
      StoppedSendsNoMore(cache, past, later[..n], c, to);
      StoppedKept(Run(Do(s, Quit(c, to)), later[..n]), later[n], c, to, Of(s.clients[to].stream, c));
    }
  }

  lemma FailedKept(s: State, e: Event, c: CallId)
    requires InProgress(s, c, Failed)
    ensures InProgress(Do(s, e), c, Failed)
  {
  }

  lemma NothingOfFailed(s: State, c: CallId, sub: SubId)
    requires SpawnedOk(s) && DeliveriesOk(s) && InProgress(s, c, Failed)
    ensures (c, sub) !in s.deliveries && (sub in s.clients ==> Of(s.clients[sub].stream, c) == [])
  {
    assert sub in s.clients ==> CarriedOk(s, c, sub);
  }

  /** In every run, a call whose write failed stays failed, and no subscriber is ever sent its batch. */
  lemma {:induction false} FailedSendsNothing(cache: set<Preimage>, past: seq<Event>, later: seq<Event>, c: CallId)
    requires InProgress(Run(Init(cache), past), c, Begun)
    ensures var t := Run(Do(Run(Init(cache), past), WriteFails(c)), later);
            && InProgress(t, c, Failed)
            && forall sub :: (c, sub) !in t.deliveries && (sub in t.clients ==> Of(t.clients[sub].stream, c) == [])
    decreases |later|
  {
    var s := Run(Init(cache), past);
    var failed := Do(s, WriteFails(c));
    var t := Run(failed, later);
    if later != [] {
      FailedSendsNothing(cache, past, later[..|later| - 1], c);
      FailedKept(Run(failed, later[..|later| - 1]), later[|later| - 1], c);
    }
    InvOnEveryRun(cache, past);
    EventKeeps(s, WriteFails(c));
    InvKept(failed, later);
    forall sub ensures (c, sub) !in t.deliveries && (sub in t.clients ==> Of(t.clients[sub].stream, c) == []) {
      NothingOfFailed(t, c, sub);
    }
  }

  // ---------------------------------------------------------------- the beacon itself

  /** What others may do while a call is between its steps. */
  predicate OfOthers(e: Event, call: CallId) {
    e !in {WriteCache(call), WriteFails(call), Event.Notify(call)} && !(e.BeginAdd? && e.call == call)
  }

  /** The steps of AddPreimages with a batch, others coming between the copy and the write, and between the write and
      the lock it notifies under. */
  function Added(s: State, call: CallId, batch: seq<Preimage>, writeFails: bool, before: seq<Event>, after: seq<Event>)
    : State
  {
    var begun := Run(Do(s, BeginAdd(call, batch)), before);
    if writeFails then Do(begun, WriteFails(call)) else Do(Run(Do(begun, WriteCache(call)), after), Event.Notify(call))
  }

  lemma {:induction false} OthersLeaveCall(s: State, es: seq<Event>, call: CallId)
    requires call in s.calls && forall e | e in es :: OfOthers(e, call)
    ensures call in Run(s, es).calls && Run(s, es).calls[call] == s.calls[call]
    decreases |es|
  {
    if es != [] {
      OthersLeaveCall(s, es[..|es| - 1], call);
      assert es[|es| - 1] in es;
    }
  }

  /** With nothing in between, all of a batch is cached and each subscriber has the whole of it coming; a write that
      fails caches and sends nothing, and neither does an empty batch. */
  lemma AddedAlone(s: State, call: CallId, batch: seq<Preimage>, writeFails: bool)
    requires call !in s.calls
    ensures var t := Added(s, call, batch, writeFails, [], []);
            && t.subscribers == s.subscribers && t.clients == s.clients
            && (forall p :: p in t.cache <==> p in s.cache || (!writeFails && p in batch))
            && (batch == [] ==> t == s)
            && (writeFails ==> t.deliveries == s.deliveries)
            && (batch != [] && !writeFails ==>
                 && t.calls[call].batch == batch
                 && forall sub | sub in s.subscribers ::
                      (call, sub) in t.deliveries && t.deliveries[(call, sub)].sent == 0)
  {
  }

  class Beacon {
    var cache: set<Preimage>
    var clientCounter: nat
    var subscribers: set<SubId>
    var clients: map<SubId, Subscriber>
    var calls: map<CallId, AddCall>
    var deliveries: map<(CallId, SubId), Delivery>

    function View(): State
      reads this
    {
      State(cache, clientCounter, subscribers, clients, calls, deliveries)
    }

    constructor (cache: set<Preimage>)
      ensures View() == Init(cache)
    {
      this.cache, clientCounter, subscribers, clients, calls, deliveries := cache, 0, {}, map[], map[], map[];
    }

    /** The closure that cancels a subscription. Called again, it closes a closed channel, which panics. */
    method CancelSubscription(clientID: SubId) returns (panics: bool)
      requires ClientsOk(View()) && clientID in clients
      modifies this
      ensures panics <==> old(clients)[clientID].quit
      ensures View() == Do(old(View()), Cancel(clientID))
    {
      subscribers := subscribers - {clientID};
      if clients[clientID].quit {
        return true;
      }
      clients := clients[clientID := clients[clientID].(quit := true)];
      return false;
    }

    /** SubscribeUpdates: the subscription is there before the interceptor is asked, and is cancelled if it refuses. */
    method SubscribeUpdates(interceptorRefuses: bool) returns (sub: Option<SubId>)
      requires ClientsOk(View())
      modifies this
      ensures sub == if interceptorRefuses then None else Some(old(clientCounter))
      ensures View() == if interceptorRefuses then Do(Do(old(View()), Subscribe), Cancel(old(clientCounter)))
                        else Do(old(View()), Subscribe)
    {
      var clientID := clientCounter;
      subscribers := subscribers + {clientID};
      clients := clients[clientID := Subscriber([], 0, false)];
      clientCounter := clientCounter + 1;
      if interceptorRefuses {
        var panics := CancelSubscription(clientID);
        return None;
      }
      return Some(clientID);
    }

    method LookupPreimage(p: Preimage, readFails: bool) returns (found: bool)
      ensures found == Answer(View(), p, readFails)
    {
      if readFails {
        return false;
      }
      return p in cache;
    }

    /** Whatever others do, one step after another. */
    method Others(es: seq<Event>)
      modifies this
      ensures View() == Run(old(View()), es)
    {
      for i := 0 to |es|
        invariant View() == Run(old(View()), es[..i])
      {
        assert es[..i + 1][..i] == es[..i];
        var t := Do(View(), es[i]);
        cache, clientCounter, subscribers := t.cache, t.clientCounter, t.subscribers;
        clients, calls, deliveries := t.clients, t.calls, t.deliveries;
      }
      assert es[..|es|] == es;
    }

    /** The copy AddPreimages makes of the batch. */
    method Copy(call: CallId, preimages: seq<Preimage>)
      requires call !in calls && preimages != []
      modifies this`calls
      ensures View() == Do(old(View()), BeginAdd(call, preimages))
      ensures InProgress(View(), call, Begun) && calls[call].batch == preimages
    {
      var copies: seq<Preimage> := [];
      for i := 0 to |preimages|
        invariant copies == preimages[..i]
      {
        copies := copies + [preimages[i]];
      }
      assert copies == preimages;
      calls := calls[call := AddCall(copies, Begun, {})];
    }

    method Write(call: CallId, preimages: seq<Preimage>, fails: bool) returns (ok: bool)
      requires InProgress(View(), call, Begun) && calls[call].batch == preimages
      modifies this`cache, this`calls
      ensures ok == !fails
      ensures View() == Do(old(View()), if fails then WriteFails(call) else WriteCache(call))
      ensures ok ==> InProgress(View(), call, Cached)
    {
      if fails {
        calls := calls[call := calls[call].(progress := Failed)];
        return false;
      }
      cache := cache + ToSet(preimages);
      calls := calls[call := calls[call].(progress := Cached)];
      return true;
    }

    /** One goroutine for each subscriber, in whatever order the map is gone through. */
    method StartDeliveries(call: CallId)
      modifies this`deliveries
      ensures deliveries == old(deliveries) + map sub | sub in subscribers :: (call, sub) := Delivery(0, false)
    {
      var rest := subscribers;
      while rest != {}
        invariant rest <= subscribers
        invariant deliveries
                  == old(deliveries) + map sub | sub in subscribers - rest :: (call, sub) := Delivery(0, false)
        decreases rest
      {
        var sub :| sub in rest;
        deliveries := deliveries[(call, sub) := Delivery(0, false)];
        rest := rest - {sub};
      }
    }

    method NotifyAll(call: CallId)
      requires InProgress(View(), call, Cached)
      modifies this`calls, this`deliveries
      ensures View() == Do(old(View()), Event.Notify(call))
      ensures InProgress(View(), call, Notified)
    {
      calls := calls[call := calls[call].(progress := Notified, snapshot := subscribers)];
      StartDeliveries(call);
    }

    /** AddPreimages, whatever others do before it writes the cache and before it notifies: the batch is copied, the
        cache written, and a delivery started for each subscriber there is by then. */
    method AddPreimages(call: CallId, preimages: seq<Preimage>, writeFails: bool, before: seq<Event>, after: seq<Event>)
      returns (ok: bool)
      requires call !in calls && forall e | e in before + after :: OfOthers(e, call)
      modifies this
      ensures ok == (preimages == [] || !writeFails)
      ensures preimages == [] ==> View() == old(View())
      ensures preimages != [] ==> View() == Added(old(View()), call, preimages, writeFails, before, after)
      ensures preimages != [] && ok ==> InProgress(View(), call, Notified)
    {
      if |preimages| == 0 {
        return true;
      }
      Copy(call, preimages);
      OthersLeaveCall(View(), before, call);
      Others(before);
      ok := Write(call, preimages, writeFails);
      if ok {
        OthersLeaveCall(View(), after, call);
        Others(after);
        NotifyAll(call);
      }
    }
  }
}
