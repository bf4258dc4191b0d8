/** The order websocket as a step system: connections, subscriptions, pings and what updates are sent. */
module Subscriptions {
  import opened MarketTypes
  import opened Text

  type RequestId = string

  /** A subscribe payload; both filters are optional. */
  datatype Payload = Payload(makerToken: Option<string>, takerToken: Option<string>)

  datatype SubscriptionOpts = AllOrders | Filtered(payload: Payload)

  datatype SraOrder = SraOrder(makerToken: Address, takerToken: Address, orderHash: string)

  datatype Socket = Socket(isAlive: bool, requestIds: set<RequestId>, terminated: bool)

  /** `sockets` are all that ever connected, `clients` those whose close event has not fired. */
  datatype State<S(==)> = State(
    sockets: map<S, Socket>,
    clients: set<S>,
    requestIdToSocket: map<RequestId, S>,
    requestIdToSubscriptionOpts: map<RequestId, SubscriptionOpts>,
    serverClosed: bool)

  datatype Event<S> =
    | Connect(s: S)
    | Subscribe(s: S, requestId: RequestId, payload: Option<Payload>)
    | BadMessage(s: S)
    | Pong(s: S)
    | Close(s: S)
    | Sweep
    | Destroy

  function OptsOf(payload: Option<Payload>): SubscriptionOpts {
    if payload.None? || payload.value == Payload(None, None) then AllOrders else Filtered(payload.value)
  }

  // ----- Steps -----

  function Init<S(==)>(): State<S> { State(map[], {}, map[], map[], false) }

  /** A socket connects once, to a server that is open, and emits nothing once its close event has fired. */
  predicate Enabled<S(==)>(st: State<S>, e: Event<S>) {
    match e
    case Connect(s) => s !in st.sockets && !st.serverClosed
    case Sweep => !st.serverClosed
    case Destroy => true
    case _ => e.s in st.sockets && e.s in st.clients
  }

  /** The pong check of one client: it is terminated unless it answered the last ping, and pinged otherwise. */
  function Swept(socket: Socket): Socket {
    if socket.isAlive then socket.(isAlive := false) else socket.(terminated := true)
  }

  function SweepAll<S(==)>(st: State<S>): map<S, Socket> {
    map s | s in st.sockets :: if s in st.clients then Swept(st.sockets[s]) else st.sockets[s]
  }

  function TerminateAll<S(==)>(st: State<S>): map<S, Socket> {
    map s | s in st.sockets :: if s in st.clients then st.sockets[s].(terminated := true) else st.sockets[s]
  }

  function Step<S(==)>(st: State<S>, e: Event<S>): State<S>
    requires Enabled(st, e)
  {
    match e
    case Connect(s) => st.(sockets := st.sockets[s := Socket(true, {}, false)], clients := st.clients + {s})
    case Subscribe(s, id, payload) =>
      st.(sockets := st.sockets[s := st.sockets[s].(requestIds := st.sockets[s].requestIds + {id})],
          requestIdToSocket := st.requestIdToSocket[id := s],
          requestIdToSubscriptionOpts := st.requestIdToSubscriptionOpts[id := OptsOf(payload)])
    case BadMessage(s) => st.(sockets := st.sockets[s := st.sockets[s].(terminated := true)])
    case Pong(s) => st.(sockets := st.sockets[s := st.sockets[s].(isAlive := true)])
    case Close(s) =>
      st.(clients := st.clients - {s},
          requestIdToSocket := st.requestIdToSocket - st.sockets[s].requestIds,
          requestIdToSubscriptionOpts := st.requestIdToSubscriptionOpts - st.sockets[s].requestIds)
    case Sweep => st.(sockets := SweepAll(st))
    case Destroy =>
      st.(sockets := TerminateAll(st), requestIdToSocket := map[], requestIdToSubscriptionOpts := map[],
          serverClosed := true)
  }

  /** A run: the states before and after each event. */
  ghost predicate IsRun<S>(events: seq<Event<S>>, states: seq<State<S>>) {
    && |states| == |events| + 1 && states[0] == Init()
    && forall i :: 0 <= i < |events| ==> StepsAt(events, states, i)
  }

  ghost predicate StepsAt<S>(events: seq<Event<S>>, states: seq<State<S>>, i: nat)
    requires i < |events| && |states| == |events| + 1
  {
    Enabled(states[i], events[i]) && states[i + 1] == Step(states[i], events[i])
  }

  // ----- What every state keeps -----

  /** The entry for a request id names a connected socket that holds the id. */
  predicate GoodEntry<S(==)>(st: State<S>, id: RequestId)
    requires id in st.requestIdToSocket
  {
    var s := st.requestIdToSocket[id];
    s in st.clients && s in st.sockets && id in st.sockets[s].requestIds
  }

  predicate Consistent<S(==)>(st: State<S>) {
    && st.requestIdToSocket.Keys == st.requestIdToSubscriptionOpts.Keys
    && st.clients <= st.sockets.Keys
    && forall id <- st.requestIdToSocket :: GoodEntry(st, id)
  }

  lemma StepKeepsConsistent<S>(st: State<S>, e: Event<S>)
    requires Consistent(st) && Enabled(st, e)
    ensures Consistent(Step(st, e))
  {
    var next := Step(st, e);
    forall id <- next.requestIdToSocket ensures GoodEntry(next, id) {
      if !e.Subscribe? || e.requestId != id { assert GoodEntry(st, id); }
    }
  }

  /** In every reachable state both maps have the same ids, each naming a connected socket that holds the id. */
  lemma {:induction false} EveryReachableStateIsConsistent<S>(events: seq<Event<S>>, states: seq<State<S>>, n: nat)
    requires IsRun(events, states) && n <= |events|
    ensures Consistent(states[n])
  {
    if n > 0 {
      EveryReachableStateIsConsistent(events, states, n - 1);
      assert StepsAt(events, states, n - 1);
      StepKeepsConsistent(states[n - 1], events[n - 1]);
    }
  }

  /** The clients are the sockets that connected and have not closed since. */
  lemma {:induction false} ClientsAreConnected<S>(events: seq<Event<S>>, states: seq<State<S>>, n: nat, s: S)
    requires IsRun(events, states) && n <= |events|
    ensures s in states[n].clients <==> exists k :: 0 <= k < n && ConnectsUntil(events, k, n, s)
  {
    if n > 0 {
      ClientsAreConnected(events, states, n - 1, s);
      EveryReachableStateIsConsistent(events, states, n - 1);
      assert StepsAt(events, states, n - 1);
      if s in states[n].clients {
        if events[n - 1] == Connect(s) {
          assert ConnectsUntil(events, n - 1, n, s);
        } else {
          var k :| 0 <= k < n - 1 && ConnectsUntil(events, k, n - 1, s);
          assert ConnectsUntil(events, k, n, s);
        }
      }
      if k :| 0 <= k < n && ConnectsUntil(events, k, n, s) {
        if k < n - 1 { assert ConnectsUntil(events, k, n - 1, s); }
      }
    }
  }

  predicate ConnectsUntil<S(==)>(events: seq<Event<S>>, k: nat, n: nat, s: S)
    requires k < n <= |events|
  {
    events[k] == Connect(s) && forall j :: k < j < n ==> events[j] != Close(s)
  }

  // ----- Termination of silent sockets -----

  /** The socket connected or answered a ping since the last sweep before event `n`. */
  predicate Heard<S(==)>(events: seq<Event<S>>, n: nat, s: S)
    requires n <= |events|
  {
    n > 0 &&
    match events[n - 1]
    case Sweep => false
    case Connect(t) => t == s || Heard(events, n - 1, s)
    case Pong(t) => t == s || Heard(events, n - 1, s)
    case _ => Heard(events, n - 1, s)
  }

  lemma {:induction false} AliveMeansHeard<S>(events: seq<Event<S>>, states: seq<State<S>>, n: nat, s: S)
    requires IsRun(events, states) && n <= |events| && s in states[n].clients
    ensures s in states[n].sockets
    ensures states[n].sockets[s].isAlive <==> Heard(events, n, s)
  {
    EveryReachableStateIsConsistent(events, states, n);
    if n > 0 {
      assert StepsAt(events, states, n - 1);
      if s in states[n - 1].clients { AliveMeansHeard(events, states, n - 1, s); }
    }
  }

  /** Event `k` is a reason to terminate the socket. */
  predicate Terminates<S(==)>(events: seq<Event<S>>, states: seq<State<S>>, k: nat, s: S)
    requires k < |events| && |states| == |events| + 1
  {
    match events[k]
    case BadMessage(t) => t == s
    case Sweep => s in states[k].clients && !Heard(events, k, s)
    case Destroy => s in states[k].clients
    case _ => false
  }

  predicate IsTerminated<S(==)>(st: State<S>, s: S) { s in st.sockets && st.sockets[s].terminated }

  lemma TerminatedStep<S>(events: seq<Event<S>>, states: seq<State<S>>, k: nat, s: S)
    requires IsRun(events, states) && k < |events|
    ensures IsTerminated(states[k + 1], s) <==> IsTerminated(states[k], s) || Terminates(events, states, k, s)
  {
    EveryReachableStateIsConsistent(events, states, k);
    assert StepsAt(events, states, k);
    if s in states[k].clients { AliveMeansHeard(events, states, k, s); }
  }

  /** A socket is terminated for a message it cannot use, on destroy, or by a sweep that finds it silent; never else. */
  lemma {:induction false} TerminatedIff<S>(events: seq<Event<S>>, states: seq<State<S>>, n: nat, s: S)
    requires IsRun(events, states) && n <= |events|
    ensures IsTerminated(states[n], s) <==> exists k :: 0 <= k < n && Terminates(events, states, k, s)
  {
    if n > 0 {
      TerminatedIff(events, states, n - 1, s);
      TerminatedStep(events, states, n - 1, s);
    }
  }

  /** A client silent across two sweeps is terminated by the second at the latest. */
  lemma SilentAcrossTwoSweeps<S>(events: seq<Event<S>>, states: seq<State<S>>, i: nat, j: nat, s: S)
    requires IsRun(events, states) && i < j < |events| && events[i].Sweep? && events[j].Sweep?
    requires s in states[i].clients && s in states[j].clients
    requires forall k :: i < k < j ==> events[k] != Pong(s)
    ensures IsTerminated(states[j + 1], s)
  {
    SilentIsNotHeard(events, states, i, j, s);
    assert Terminates(events, states, j, s);
    TerminatedIff(events, states, j + 1, s);
  }

  lemma {:induction false} SilentIsNotHeard<S>(events: seq<Event<S>>, states: seq<State<S>>, i: nat, j: nat, s: S)
    requires IsRun(events, states) && i < j <= |events| && events[i].Sweep? && s in states[i].clients
    requires forall k :: i < k < j ==> events[k] != Pong(s)
    ensures !Heard(events, j, s) && s in states[j].sockets
  {
    EveryReachableStateIsConsistent(events, states, i);
    assert StepsAt(events, states, j - 1);
    if j > i + 1 { SilentIsNotHeard(events, states, i, j - 1, s); }
  }

  /** Once destroyed, the server takes no connection and runs no sweep any more. */
  lemma {:induction false} NothingStartsAfterDestroy<S>(events: seq<Event<S>>, states: seq<State<S>>, i: nat, j: nat)
    requires IsRun(events, states) && i < j < |events| && events[i].Destroy?
    ensures states[j].serverClosed && !events[j].Connect? && !events[j].Sweep?
  {
    assert StepsAt(events, states, j) && StepsAt(events, states, j - 1);
    if i < j - 1 { NothingStartsAfterDestroy(events, states, i, j - 1); }
  }

  // ----- The life of a subscription -----

  /** What subscription an id should stand for: the last one made, until its own socket closes or a destroy. */
  function Current<S(==)>(events: seq<Event<S>>, n: nat, id: RequestId): Option<(S, SubscriptionOpts)>
    requires n <= |events|
  {
    if n == 0 then None
    else
      var before := Current(events, n - 1, id);
      match events[n - 1]
      case Subscribe(s, other, payload) => if other == id then Some((s, OptsOf(payload))) else before
      case Close(s) => if before.Some? && before.value.0 == s then None else before
      case Destroy => None
      case _ => before
  }

  /** No two sockets use the same request id. */
  ghost predicate IdsAreUnique<S>(events: seq<Event<S>>) {
    forall i, j :: 0 <= i < |events| && 0 <= j < |events| ==> SameOwner(events[i], events[j])
  }

  ghost predicate SameOwner<S>(e: Event<S>, f: Event<S>) {
    e.Subscribe? && f.Subscribe? && e.requestId == f.requestId ==> e.s == f.s
  }

  predicate Requests<S(==)>(e: Event<S>, s: S, id: RequestId) { e.Subscribe? && e.s == s && e.requestId == id }

  lemma {:induction false} HeldIdsWereRequested<S>(
    events: seq<Event<S>>, states: seq<State<S>>, n: nat, s: S, id: RequestId)
    returns (k: nat)
    requires IsRun(events, states) && n <= |events|
    requires s in states[n].sockets && id in states[n].sockets[s].requestIds
    ensures k < n && Requests(events[k], s, id)
  {
    assert StepsAt(events, states, n - 1);
    if Requests(events[n - 1], s, id) {
      k := n - 1;
    } else {
      k := HeldIdsWereRequested(events, states, n - 1, s, id);
    }
  }

  /** Two sockets that hold the same id are one, when ids are unique. */
  lemma HolderIsUnique<S>(events: seq<Event<S>>, states: seq<State<S>>, n: nat, s: S, t: S, id: RequestId)
    requires IsRun(events, states) && n <= |events| && IdsAreUnique(events)
    requires s in states[n].sockets && id in states[n].sockets[s].requestIds
    requires t in states[n].sockets && id in states[n].sockets[t].requestIds
    ensures s == t
  {
    var i := HeldIdsWereRequested(events, states, n, s, id);
    var j := HeldIdsWereRequested(events, states, n, t, id);
    assert SameOwner(events[i], events[j]);
  }

  /** The maps record this subscription, and no other, for the id. */
  predicate Records<S(==)>(st: State<S>, id: RequestId, current: Option<(S, SubscriptionOpts)>) {
    match current
    case None => id !in st.requestIdToSocket && id !in st.requestIdToSubscriptionOpts
    case Some((s, opts)) =>
      && id in st.requestIdToSocket && st.requestIdToSocket[id] == s
      && id in st.requestIdToSubscriptionOpts && st.requestIdToSubscriptionOpts[id] == opts
  }

  /**
   * When ids are unique, the maps hold exactly the subscriptions made and not yet ended by their own socket's
   * close or by a destroy.
   */
  lemma {:induction false} SubscriptionsFollowHistory<S>(
    events: seq<Event<S>>, states: seq<State<S>>, n: nat, id: RequestId)
    requires IsRun(events, states) && n <= |events| && IdsAreUnique(events)
    ensures Records(states[n], id, Current(events, n, id))
  {
    if n > 0 {
      SubscriptionsFollowHistory(events, states, n - 1, id);
      EveryReachableStateIsConsistent(events, states, n - 1);
      assert StepsAt(events, states, n - 1);
      var before, e := states[n - 1], events[n - 1];
      if e.Close? && id in before.requestIdToSocket {
        assert GoodEntry(before, id);
        if id in before.sockets[e.s].requestIds {
          HolderIsUnique(events, states, n - 1, e.s, before.requestIdToSocket[id], id);
        }
      }
    }
  }

  /** One step keeps an entry exactly when it is no destroy and no close of a socket that holds the id. */
  lemma EntryStaysIff<S>(st: State<S>, e: Event<S>, id: RequestId)
    requires Consistent(st) && Enabled(st, e) && id in st.requestIdToSocket
    ensures id in Step(st, e).requestIdToSocket
       <==> !e.Destroy? && !(e.Close? && id in st.sockets[e.s].requestIds)
  {
  }

  predicate HoldsId<S(==)>(st: State<S>, s: S, id: RequestId) { s in st.sockets && id in st.sockets[s].requestIds }

  /** The only events that may end the subscription are its own socket's close and a destroy. */
  ghost predicate OnlyOwnEventsEnd<S(!new)>(st: State<S>, id: RequestId)
    requires id in st.requestIdToSocket
  {
    forall e: Event<S> :: Enabled(st, e) && id !in Step(st, e).requestIdToSocket ==>
                            e == Destroy || e == Close(st.requestIdToSocket[id])
  }

  /** A subscription is safe from other sockets exactly when no other client holds its id. */
  lemma SafeIffIdIsNotShared<S(!new)>(st: State<S>, id: RequestId)
    requires Consistent(st) && id in st.requestIdToSocket
    ensures OnlyOwnEventsEnd(st, id)
       <==> forall t <- st.clients :: HoldsId(st, t, id) ==> t == st.requestIdToSocket[id]
  {
    if OnlyOwnEventsEnd(st, id) {
      forall t <- st.clients | HoldsId(st, t, id) ensures t == st.requestIdToSocket[id] {
        EntryStaysIff(st, Close(t), id);
      }
    } else {
      var e: Event<S> :| Enabled(st, e) && id !in Step(st, e).requestIdToSocket
                         && e != Destroy && e != Close(st.requestIdToSocket[id]);
      EntryStaysIff(st, e, id);
      assert HoldsId(st, e.s, id);
    }
  }

  /** A second socket takes a request id over; when the first closes, the second loses its subscription. */
  lemma SharedIdIsLost<S>(a: S, b: S, id: RequestId)
    requires a != b
    ensures var connected := Step(Step(Init(), Connect(a)), Connect(b));
            var shared := Step(Step(connected, Subscribe(a, id, None)), Subscribe(b, id, None));
            && shared.requestIdToSocket == map[id := b]
            && Step(shared, Close(a)).requestIdToSocket == map[] && b in Step(shared, Close(a)).clients
  {
  }

  // ----- Order updates -----

  /** A filter that is absent or empty matches everything; addresses are compared without regard to case. */
  predicate TokenMatches(filter: Option<string>, token: Address) {
    filter.None? || filter.value == "" || ToLower(token) == ToLower(filter.value)
  }

  predicate Matches(order: SraOrder, opts: SubscriptionOpts) {
    match opts
    case AllOrders => true
    case Filtered(payload) =>
      TokenMatches(payload.takerToken, order.takerToken) && TokenMatches(payload.makerToken, order.makerToken)
  }

  /** An update message to one socket; its payload is the one order. */
  datatype Delivery<S> = Delivery(requestId: RequestId, socket: S, order: SraOrder)

  function Deliveries<S(==)>(st: State<S>, order: SraOrder): set<Delivery<S>> {
    set id | id in st.requestIdToSubscriptionOpts && Matches(order, st.requestIdToSubscriptionOpts[id])
             && id in st.requestIdToSocket :: Delivery(id, st.requestIdToSocket[id], order)
  }

  /** Returning early when there are no clients skips no delivery. */
  lemma NoClientsNoDeliveries<S>(st: State<S>, order: SraOrder)
    requires Consistent(st)
    ensures st.clients == {} ==> Deliveries(st, order) == {}
  {
    if d :| d in Deliveries(st, order) { assert GoodEntry(st, d.requestId); }
  }

  /** With unique ids, an order goes out under an id exactly when the id's current subscription matches it. */
  lemma UpdatesReachCurrentSubscriptions<S>(events: seq<Event<S>>, states: seq<State<S>>, n: nat,
                                            id: RequestId, s: S, order: SraOrder)
    requires IsRun(events, states) && n <= |events| && IdsAreUnique(events)
    ensures var current := Current(events, n, id);
            Delivery(id, s, order) in Deliveries(states[n], order)
            <==> current.Some? && current.value.0 == s && Matches(order, current.value.1)
    ensures Delivery(id, s, order) in Deliveries(states[n], order) ==> s in states[n].clients
  {
    SubscriptionsFollowHistory(events, states, n, id);
    EveryReachableStateIsConsistent(events, states, n);
    if id in states[n].requestIdToSocket { assert GoodEntry(states[n], id); }
  }

  /** A filter lets a token through when it is absent, empty, or the same address but for case. */
  predicate LetsThrough(filter: Option<string>, token: Address) {
    filter.None? || |filter.value| == 0 || SameIgnoringCase(filter.value, token)
  }

  /** What a subscribe request asks for: all orders without a payload, and otherwise those both filters let through. */
  predicate AsksFor(payload: Option<Payload>, order: SraOrder) {
    payload.Some? ==>
      LetsThrough(payload.value.makerToken, order.makerToken) && LetsThrough(payload.value.takerToken, order.takerToken)
  }

  lemma MatchesIff(payload: Option<Payload>, order: SraOrder)
    ensures Matches(order, OptsOf(payload)) <==> AsksFor(payload, order)
  {
    if payload.Some? {
      FilterMatchesIff(payload.value.makerToken, order.makerToken);
      FilterMatchesIff(payload.value.takerToken, order.takerToken);
    }
  }

  lemma FilterMatchesIff(filter: Option<string>, token: Address)
    ensures TokenMatches(filter, token) <==> LetsThrough(filter, token)
  {
    if filter.Some? { ToLowerEqualIff(filter.value, token); }
  }

  /** Event `k` is the last that concerns an id: it subscribes, and neither its socket's close nor a destroy follows. */
  predicate LastSubscription<S(==)>(events: seq<Event<S>>, n: nat, k: nat, id: RequestId)
    requires n <= |events|
  {
    && k < n && events[k].Subscribe? && events[k].requestId == id
    && forall j :: k < j < n ==>
         events[j] != Destroy && events[j] != Close(events[k].s) && !(events[j].Subscribe? && events[j].requestId == id)
  }

  lemma {:induction false} LastSubscriptionIsCurrent<S>(events: seq<Event<S>>, n: nat, k: nat, id: RequestId)
    requires n <= |events| && LastSubscription(events, n, k, id)
    ensures Current(events, n, id) == Some((events[k].s, OptsOf(events[k].payload)))
  {
    if k < n - 1 { LastSubscriptionIsCurrent(events, n - 1, k, id); }
  }

  /** With unique ids a subscriber is sent exactly the orders it asked for, until its subscription ends. */
  lemma SubscriberGetsWhatItAsksFor<S>(
    events: seq<Event<S>>, states: seq<State<S>>, n: nat, k: nat, id: RequestId, order: SraOrder)
    requires IsRun(events, states) && n <= |events| && IdsAreUnique(events) && LastSubscription(events, n, k, id)
    ensures Delivery(id, events[k].s, order) in Deliveries(states[n], order) <==> AsksFor(events[k].payload, order)
  {
    LastSubscriptionIsCurrent(events, n, k, id);
    UpdatesReachCurrentSubscriptions(events, states, n, id, events[k].s, order);
    MatchesIff(events[k].payload, order);
  }
}
