/** The websocket service: handlers that update the sockets and the request-id maps in place. */
module Websocket {
  import opened MarketTypes
  import opened Subscriptions

  class WrappedWebSocket {
    var isAlive: bool
    var requestIds: set<RequestId>
    var terminated: bool

    constructor ()
      ensures !terminated
    {
      isAlive, requestIds, terminated := false, {}, false;
    }

    method Terminate()
      modifies this`terminated
      ensures terminated
    {
      terminated := true;
    }
  }

  /** What a client sends: a valid subscribe request, or anything that does not parse or validate. */
  datatype Message = SubscribeMessage(requestId: RequestId, payload: Option<Payload>) | Malformed

  lemma DropOneMore<V>(m: map<RequestId, V>, dropped: set<RequestId>, id: RequestId)
    ensures m - dropped - {id} == m - (dropped + {id})
  {
    assert (m - dropped - {id}).Keys == (m - (dropped + {id})).Keys;
  }

  class WebsocketService {
    var clients: set<WrappedWebSocket>
    var requestIdToSocket: map<RequestId, WrappedWebSocket>
    var requestIdToSubscriptionOpts: map<RequestId, SubscriptionOpts>
    var serverClosed: bool
    ghost var sockets: set<WrappedWebSocket>

    ghost function View(): State<WrappedWebSocket>
      reads this, sockets
    {
      State(map s | s in sockets :: Socket(s.isAlive, s.requestIds, s.terminated), clients,
            requestIdToSocket, requestIdToSubscriptionOpts, serverClosed)
    }

    ghost predicate Valid()
      reads this, sockets
    {
      Consistent(View())
    }

    constructor ()
      ensures Valid() && View() == Init() && sockets == {}
    {
      clients, requestIdToSocket, requestIdToSubscriptionOpts := {}, map[], map[];
      serverClosed, sockets := false, {};
    }

    method ProcessConnection(ws: WrappedWebSocket)
      requires Valid() && Enabled(View(), Connect(ws)) && !ws.terminated
      modifies this, ws
      ensures Valid() && sockets == old(sockets) + {ws}
      ensures View() == Step(old(View()), Connect(ws))
    {
      clients := clients + {ws};
      ws.isAlive := true;
      ws.requestIds := {};
      sockets := sockets + {ws};
      StepKeepsConsistent(old(View()), Connect(ws));
      assert View().sockets == Step(old(View()), Connect(ws)).sockets;
    }

    method MessageHandler(ws: WrappedWebSocket, message: Message)
      requires Valid() && ws in clients && ws in sockets
      modifies this, ws
      ensures Valid() && sockets == old(sockets)
      ensures View() == Step(old(View()), match message
                                          case Malformed => BadMessage(ws)
                                          case SubscribeMessage(id, payload) => Subscribe(ws, id, payload))
    {
      match message
      case SubscribeMessage(requestId, payload) =>
        ws.requestIds := ws.requestIds + {requestId};
        requestIdToSubscriptionOpts := requestIdToSubscriptionOpts[requestId := OptsOf(payload)];
        requestIdToSocket := requestIdToSocket[requestId := ws];
        StepKeepsConsistent(old(View()), Subscribe(ws, requestId, payload));
        assert View().sockets == Step(old(View()), Subscribe(ws, requestId, payload)).sockets;
      case Malformed =>
        ws.Terminate();
        StepKeepsConsistent(old(View()), BadMessage(ws));
        assert View().sockets == Step(old(View()), BadMessage(ws)).sockets;
    }

    method PongHandler(ws: WrappedWebSocket)
      requires Valid() && ws in clients && ws in sockets
      modifies ws
      ensures Valid() && View() == Step(old(View()), Pong(ws))
    {
      ws.isAlive := true;
      StepKeepsConsistent(old(View()), Pong(ws));
      assert View().sockets == Step(old(View()), Pong(ws)).sockets;
    }

    /** The server forgets the client first; then the handler drops every id the socket holds. */
    method CloseHandler(ws: WrappedWebSocket)
      requires Valid() && ws in clients && ws in sockets
      modifies this
      ensures Valid() && sockets == old(sockets)
      ensures View() == Step(old(View()), Close(ws))
    {
      clients := clients - {ws};
      DropRequests(ws.requestIds);
      StepKeepsConsistent(old(View()), Close(ws));
      assert View().sockets == old(View()).sockets;
    }

    method DropRequests(requestIds: set<RequestId>)
      modifies this`requestIdToSocket, this`requestIdToSubscriptionOpts
      ensures requestIdToSocket == old(requestIdToSocket) - requestIds
      ensures requestIdToSubscriptionOpts == old(requestIdToSubscriptionOpts) - requestIds
    {
      var remaining := requestIds;
      ghost var dropped: set<RequestId> := {};
      while remaining != {}
        invariant dropped + remaining == requestIds
        invariant requestIdToSocket == old(requestIdToSocket) - dropped
        invariant requestIdToSubscriptionOpts == old(requestIdToSubscriptionOpts) - dropped
        decreases |remaining|
      {
        var requestId :| requestId in remaining;
        DropOneMore(old(requestIdToSocket), dropped, requestId);
        DropOneMore(old(requestIdToSubscriptionOpts), dropped, requestId);
        requestIdToSocket := requestIdToSocket - {requestId};
        requestIdToSubscriptionOpts := requestIdToSubscriptionOpts - {requestId};
        remaining := remaining - {requestId};
        dropped := dropped + {requestId};
      }
      assert dropped == requestIds;
    }

    method CleanupConnections()
      requires Valid() && !serverClosed
      modifies sockets
      ensures Valid() && View() == Step(old(View()), Sweep)
    {
      var remaining := clients;
      while remaining != {}
        invariant remaining <= clients <= sockets
        invariant forall s <- sockets :: s.requestIds == old(s.requestIds)
        invariant forall s <- sockets :: s in clients - remaining ==> Visited(s, Swept(old(View()).sockets[s]))
        invariant forall s <- sockets :: s !in clients - remaining ==> Visited(s, old(View()).sockets[s])
        decreases |remaining|
      {
        var ws :| ws in remaining;
        if !ws.isAlive {
          ws.Terminate();
        } else {
          ws.isAlive := false;
        }
        remaining := remaining - {ws};
      }
      StepKeepsConsistent(old(View()), Sweep);
      assert View().sockets == SweepAll(old(View()));
    }

    ghost predicate Visited(s: WrappedWebSocket, socket: Socket)
      reads s
    {
      Socket(s.isAlive, s.requestIds, s.terminated) == socket
    }

    method DestroyAsync()
      requires Valid()
      modifies this, sockets
      ensures Valid() && sockets == old(sockets)
      ensures View() == Step(old(View()), Destroy)
    {
      TerminateClients();
      requestIdToSocket, requestIdToSubscriptionOpts := map[], map[];
      serverClosed := true;
      TerminateClients();
      StepKeepsConsistent(old(View()), Destroy);
      assert View().sockets == TerminateAll(old(View()));
    }

    method TerminateClients()
      requires clients <= sockets
      modifies sockets
      ensures View() == old(View()).(sockets := TerminateAll(old(View())))
    {
      var remaining := clients;
      while remaining != {}
        invariant remaining <= clients <= sockets
        invariant forall s <- sockets :: s in clients - remaining ==>
            Visited(s, old(View()).sockets[s].(terminated := true))
        invariant forall s <- sockets :: s !in clients - remaining ==> Visited(s, old(View()).sockets[s])
        decreases |remaining|
      {
        var ws :| ws in remaining;
        ws.Terminate();
        remaining := remaining - {ws};
      }
      assert View().sockets == TerminateAll(old(View()));
    }

    /** The messages sent, order by order; without clients nothing is. */
    method OrderUpdate(apiOrders: seq<SraOrder>) returns (sent: seq<multiset<Delivery<WrappedWebSocket>>>)
      ensures |sent| == if clients == {} then 0 else |apiOrders|
      ensures forall i :: 0 <= i < |sent| ==> sent[i] == multiset(Deliveries(View(), apiOrders[i]))
    {
      sent := [];
      if |clients| == 0 {
        return;
      }
      for i := 0 to |apiOrders|
        invariant |sent| == i
        invariant forall k :: 0 <= k < i ==> sent[k] == multiset(Deliveries(View(), apiOrders[k]))
      {
        var messages := SendOrder(apiOrders[i]);
        sent := sent + [messages];
      }
    }

    ghost function DeliveriesTo(ids: set<RequestId>, order: SraOrder): set<Delivery<WrappedWebSocket>>
      reads this
    {
      set id | id in ids && id in requestIdToSocket :: Delivery(id, requestIdToSocket[id], order)
    }

    ghost predicate Wants(id: RequestId, order: SraOrder)
      reads this
    {
      id in requestIdToSubscriptionOpts && Matches(order, requestIdToSubscriptionOpts[id])
    }

    method SendOrder(order: SraOrder) returns (messages: multiset<Delivery<WrappedWebSocket>>)
      ensures messages == multiset(Deliveries(View(), order))
    {
      var requestIds := RequestsFor(order);
      messages := SendTo(requestIds, order);
      assert DeliveriesTo(requestIds, order) == Deliveries(View(), order);
    }

    method RequestsFor(order: SraOrder) returns (requestIds: set<RequestId>)
      ensures forall id :: id in requestIds <==> Wants(id, order)
    {
      requestIds := {};
      var remaining := requestIdToSubscriptionOpts.Keys;
      while remaining != {}
        invariant remaining <= requestIdToSubscriptionOpts.Keys
        invariant forall id :: id in requestIds <==> Wants(id, order) && id !in remaining
        decreases |remaining|
      {
        var requestId :| requestId in remaining;
        if Matches(order, requestIdToSubscriptionOpts[requestId]) {
          requestIds := requestIds + {requestId};
        }
        remaining := remaining - {requestId};
      }
    }

    method SendTo(requestIds: set<RequestId>, order: SraOrder) returns (messages: multiset<Delivery<WrappedWebSocket>>)
      ensures messages == multiset(DeliveriesTo(requestIds, order))
    {
      messages := multiset{};
      var remaining := requestIds;
      ghost var done: set<RequestId> := {};
      while remaining != {}
        invariant done + remaining == requestIds && done !! remaining
        invariant messages == multiset(DeliveriesTo(done, order))
        decreases |remaining|
      {
        var requestId :| requestId in remaining;
        OneMoreDelivery(done, requestId, order);
        if requestId in requestIdToSocket {
          messages := messages + multiset{Delivery(requestId, requestIdToSocket[requestId], order)};
        }
        remaining := remaining - {requestId};
        done := done + {requestId};
      }
      assert done == requestIds;
    }

    lemma OneMoreDelivery(ids: set<RequestId>, id: RequestId, order: SraOrder)
      requires id !in ids
      ensures multiset(DeliveriesTo(ids + {id}, order))
           == multiset(DeliveriesTo(ids, order))
              + if id in requestIdToSocket then multiset{Delivery(id, requestIdToSocket[id], order)} else multiset{}
    {
      if id in requestIdToSocket {
        var message := Delivery(id, requestIdToSocket[id], order);
        assert message !in DeliveriesTo(ids, order);
        assert DeliveriesTo(ids + {id}, order) == DeliveriesTo(ids, order) + {message};
      } else {
        assert DeliveriesTo(ids + {id}, order) == DeliveriesTo(ids, order);
      }
    }
  }
}
