/**
 * The connection registry of the WebSocket handler: the list of active
 * connections, the per-connection data (connection time and
 * subscriptions), and the rule that picks the receivers of a broadcast
 * for one data type. Connections are abstract ids; sending, accepting
 * and closing sockets are not part of this model.
 */
module WebSocket {

  /** A connection, known only by its identity. */
  type ConnId = nat

  /** `{'connected_at': ..., 'subscriptions': [...]}`. */
  datatype ConnectionInfo = ConnectionInfo(connectedAt: int, subscriptions: seq<string>)

  predicate NoDuplicates(xs: seq<string>)
  {
    forall i, j :: 0 <= i < j < |xs| ==> xs[i] != xs[j]
  }

  function Elements<T>(xs: seq<T>): set<T>
  {
    set x | x in xs
  }

  /** `list.remove(x)` on a list that holds `x`; a list without `x` is returned unchanged. */
  function RemoveFirst(xs: seq<ConnId>, x: ConnId): seq<ConnId>
  {
    if xs == [] then []
    else if xs[0] == x then xs[1..]
    else [xs[0]] + RemoveFirst(xs[1..], x)
  }

  /** The position of the first `x` in `xs`. */
  function FirstIndex(xs: seq<ConnId>, x: ConnId): (i: nat)
    requires x in xs
    ensures i < |xs| && xs[i] == x && forall j :: 0 <= j < i ==> xs[j] != x
  {
    if xs[0] == x then 0 else 1 + FirstIndex(xs[1..], x)
  }

  /** Removing drops exactly the first occurrence and keeps the order of the rest. */
  lemma {:induction false} RemoveFirstDropsFirst(xs: seq<ConnId>, x: ConnId)
    requires x in xs
    ensures RemoveFirst(xs, x) == xs[..FirstIndex(xs, x)] + xs[FirstIndex(xs, x) + 1..]
  {
    if xs[0] != x {
      var tail := xs[1..];
      RemoveFirstDropsFirst(tail, x);
      var i := FirstIndex(tail, x);
      assert xs[..i + 1] == [xs[0]] + tail[..i];
      assert xs[i + 2..] == tail[i + 1..];
    }
  }

  /** Removing an absent element changes nothing. */
  lemma {:induction false} RemoveFirstAbsent(xs: seq<ConnId>, x: ConnId)
    requires x !in xs
    ensures RemoveFirst(xs, x) == xs
  {
    if xs != [] {
      assert xs == [xs[0]] + xs[1..];
      RemoveFirstAbsent(xs[1..], x);
    }
  }

  /** Removing takes one `x` out of the multiset of elements, if there is one. */
  lemma {:induction false} RemoveFirstMultiset(xs: seq<ConnId>, x: ConnId)
    ensures multiset(RemoveFirst(xs, x)) == multiset(xs) - multiset{x}
  {
    if xs != [] {
      var tail := xs[1..];
      assert xs == [xs[0]] + tail;
      assert multiset(xs) == multiset{xs[0]} + multiset(tail);
      if xs[0] != x {
        RemoveFirstMultiset(tail, x);
        assert RemoveFirst(xs, x) == [xs[0]] + RemoveFirst(tail, x);
        assert multiset(RemoveFirst(xs, x)) == multiset{xs[0]} + (multiset(tail) - multiset{x});
      }
    }
  }

  /** Removing a present element shortens the list by one and keeps every other element. */
  lemma {:induction false} RemoveFirstKeepsOthers(xs: seq<ConnId>, x: ConnId)
    ensures x in xs ==> |RemoveFirst(xs, x)| == |xs| - 1
    ensures forall k :: k in xs && k != x ==> k in RemoveFirst(xs, x)
    ensures forall k :: k in RemoveFirst(xs, x) ==> k in xs
  {
    if xs != [] && xs[0] != x {
      RemoveFirstKeepsOthers(xs[1..], x);
      assert RemoveFirst(xs, x) == [xs[0]] + RemoveFirst(xs[1..], x);
      forall k | k in xs && k != x ensures k in RemoveFirst(xs, x) {
        if k != xs[0] {
          assert k in xs[1..];
        }
      }
    }
  }

  /** The new subscription set of `update_subscription`. */
  function UpdatedSubscriptions(current: set<string>, dataTypes: seq<string>, action: string): set<string>
  {
    if action == "subscribe" then current + Elements(dataTypes)
    else if action == "unsubscribe" then current - Elements(dataTypes)
    else current
  }

  /** The subscriptions `broadcast_to_subscribed` reads: `[]` for a connection without data. */
  function SubscriptionsOf(data: map<ConnId, ConnectionInfo>, ws: ConnId): seq<string>
  {
    if ws in data then data[ws].subscriptions else []
  }

  /** The connection subscribed to `dataType`, or to nothing at all. */
  predicate Targeted(data: map<ConnId, ConnectionInfo>, ws: ConnId, dataType: string)
  {
    dataType in SubscriptionsOf(data, ws) || SubscriptionsOf(data, ws) == []
  }

  /** The connections a broadcast of `dataType` is sent to, in list order. */
  function Targets(active: seq<ConnId>, data: map<ConnId, ConnectionInfo>, dataType: string): seq<ConnId>
  {
    if active == [] then []
    else (if Targeted(data, active[0], dataType) then [active[0]] else []) + Targets(active[1..], data, dataType)
  }

  /** `list(set_)`: the elements of a set, once each, in some order. */
  method SetToList(s: set<string>) returns (xs: seq<string>)
    ensures NoDuplicates(xs) && Elements(xs) == s
  {
    xs := [];
    var rest := s;
    while rest != {}
      invariant rest !! Elements(xs) && rest + Elements(xs) == s
      invariant NoDuplicates(xs)
      decreases |rest|
    {
      var x :| x in rest;
      xs := xs + [x];
      rest := rest - {x};
    }
  }

  class WebSocketManager {
    var activeConnections: seq<ConnId>
    var connectionData: map<ConnId, ConnectionInfo>

    /** Every connection with data is active. */
    ghost predicate Valid()
      reads this
    {
      forall ws :: ws in connectionData ==> ws in activeConnections
    }

    constructor ()
      ensures activeConnections == [] && connectionData == map[] && Valid()
    {
      activeConnections := [];
      connectionData := map[];
    }

    /** The registry part of `connect(websocket)`, with the event-loop time `now`. */
    method Connect(ws: ConnId, now: int)
      modifies this
      ensures activeConnections == old(activeConnections) + [ws]
      ensures connectionData == old(connectionData)[ws := ConnectionInfo(now, [])]
      ensures old(Valid()) ==> Valid()
      ensures ConnectionCount() == old(ConnectionCount()) + 1 && HasConnections()
    {
      activeConnections := activeConnections + [ws];
      connectionData := connectionData[ws := ConnectionInfo(now, [])];
    }

    /** `disconnect(websocket)`. */
    method Disconnect(ws: ConnId)
      modifies this
      ensures activeConnections == RemoveFirst(old(activeConnections), ws)
      ensures connectionData == old(connectionData) - {ws}
      ensures old(Valid()) ==> Valid()
      ensures ws in old(activeConnections) ==> ConnectionCount() == old(ConnectionCount()) - 1
      ensures ws !in old(activeConnections) && ws !in old(connectionData) ==>
                activeConnections == old(activeConnections) && connectionData == old(connectionData)
    {
      RemoveFirstKeepsOthers(activeConnections, ws);
      if ws in activeConnections {
        activeConnections := RemoveFirst(activeConnections, ws);
      } else {
        RemoveFirstAbsent(activeConnections, ws);
      }
      if ws in connectionData {
        connectionData := connectionData - {ws};
      }
    }

    /** The registry part of `disconnect_all()`: every connection in the list is disconnected in turn. */
    method DisconnectAll()
      modifies this
      ensures activeConnections == []
      ensures connectionData == old(connectionData) - Elements(old(activeConnections))
      ensures old(Valid()) ==> Valid() && connectionData == map[]
    {
      var copy := activeConnections;
      var i := 0;
      while i < |copy|
        invariant 0 <= i <= |copy|
        invariant activeConnections == copy[i..]
        invariant connectionData == old(connectionData) - Elements(copy[..i])
      {
        assert copy[i..] == [copy[i]] + copy[i + 1..];
        assert Elements(copy[..i + 1]) == Elements(copy[..i]) + {copy[i]} by {
          assert copy[..i + 1] == copy[..i] + [copy[i]];
        }
        Disconnect(copy[i]);
        i := i + 1;
      }
      assert copy[..i] == copy;
    }

    /** `update_subscription(websocket, data_types, action)`. */
    method UpdateSubscription(ws: ConnId, dataTypes: seq<string>, action: string)
      modifies this
      ensures activeConnections == old(activeConnections)
      ensures ws !in old(connectionData) ==> connectionData == old(connectionData)
      ensures ws in old(connectionData) ==>
                && ws in connectionData
                && connectionData == old(connectionData)[ws := old(connectionData)[ws].(subscriptions := connectionData[ws].subscriptions)]
                && NoDuplicates(connectionData[ws].subscriptions)
                && Elements(connectionData[ws].subscriptions) ==
                   UpdatedSubscriptions(Elements(old(connectionData)[ws].subscriptions), dataTypes, action)
      ensures old(Valid()) ==> Valid()
    {
      if ws !in connectionData {
        return;
      }
      var info := connectionData[ws];
      var current := Elements(info.subscriptions);
      if action == "subscribe" {
        current := current + Elements(dataTypes);
      } else if action == "unsubscribe" {
        current := current - Elements(dataTypes);
      }
      var subscriptions := SetToList(current);
      connectionData := connectionData[ws := info.(subscriptions := subscriptions)];
    }

    /** The receivers of `broadcast_to_subscribed(message, data_type)`. */
    function Recipients(dataType: string): (r: seq<ConnId>)
      reads this
      ensures forall ws :: ws in r <==> ws in activeConnections && Targeted(connectionData, ws, dataType)
    {
      TargetsSpec(activeConnections, connectionData, dataType);
      Targets(activeConnections, connectionData, dataType)
    }

    /** `connection_count()`. */
    function ConnectionCount(): (n: nat)
      reads this
      ensures n == |activeConnections|
    {
      |activeConnections|
    }

    /** `has_connections()`. */
    function HasConnections(): (b: bool)
      reads this
      ensures b <==> ConnectionCount() > 0
    {
      |activeConnections| > 0
    }
  }

  /**
   * A connection receives a broadcast of `dataType` exactly when it is
   * active and it subscribed to `dataType`, subscribed to nothing, or has
   * no data; the receivers are a sub-multiset of the active list, and a
   * targeted connection listed several times is sent to that many times.
   */
  lemma {:induction false} TargetsSpec(active: seq<ConnId>, data: map<ConnId, ConnectionInfo>, dataType: string)
    ensures forall ws :: ws in Targets(active, data, dataType) <==> ws in active && Targeted(data, ws, dataType)
    ensures multiset(Targets(active, data, dataType)) <= multiset(active)
    ensures forall ws :: multiset(Targets(active, data, dataType))[ws] ==
                         if Targeted(data, ws, dataType) then multiset(active)[ws] else 0
  {
    if active != [] {
      TargetsSpec(active[1..], data, dataType);
      assert active == [active[0]] + active[1..];
    }
  }

  /** The receivers keep the list order: filtering a split list filters each part. */
  lemma {:induction false} TargetsAppend(a: seq<ConnId>, b: seq<ConnId>, data: map<ConnId, ConnectionInfo>, dataType: string)
    ensures Targets(a + b, data, dataType) == Targets(a, data, dataType) + Targets(b, data, dataType)
  {
    if a == [] {
      assert a + b == b;
    } else {
      TargetsAppend(a[1..], b, data, dataType);
      assert (a + b)[0] == a[0];
      assert (a + b)[1..] == a[1..] + b;
    }
  }

  /** An empty subscription list means "send me everything". */
  lemma EmptySubscriptionsReceiveAll(active: seq<ConnId>, data: map<ConnId, ConnectionInfo>, ws: ConnId, dataType: string)
    requires ws in active && SubscriptionsOf(data, ws) == []
    ensures ws in Targets(active, data, dataType)
  {
    TargetsSpec(active, data, dataType);
  }

  /** Subscribing adds exactly the given types, unsubscribing removes exactly them, anything else keeps the set. */
  lemma UpdatedSubscriptionsSpec(current: set<string>, dataTypes: seq<string>, action: string)
    ensures action == "subscribe" ==>
              forall t :: t in UpdatedSubscriptions(current, dataTypes, action) <==> t in current || t in dataTypes
    ensures action == "unsubscribe" ==>
              forall t :: t in UpdatedSubscriptions(current, dataTypes, action) <==> t in current && t !in dataTypes
    ensures action != "subscribe" && action != "unsubscribe" ==> UpdatedSubscriptions(current, dataTypes, action) == current
  {
  }

  /** Subscribing twice is subscribing once, and unsubscribing undoes a subscription to new types. */
  lemma SubscribeIdempotentAndUndone(current: set<string>, dataTypes: seq<string>)
    ensures var once := UpdatedSubscriptions(current, dataTypes, "subscribe");
      UpdatedSubscriptions(once, dataTypes, "subscribe") == once
    ensures (forall t :: t in dataTypes ==> t !in current) ==>
      UpdatedSubscriptions(UpdatedSubscriptions(current, dataTypes, "subscribe"), dataTypes, "unsubscribe") == current
  {
  }
}
