/**
 * The live-log subscriber registry (`backend/app/api/websocket.py`, `ConnectionManager`):
 * every open socket in one list, and the sockets that follow one service in a list per
 * service id. Sockets are identities; sending is reduced to the order of recipients.
 */
module LiveLog {
  import opened Wrappers

  type Socket = nat

  /** `list.remove(x)` guarded by `x in list`: drops the first occurrence, if any. */
  function RemoveFirst<T(==)>(s: seq<T>, x: T): (r: seq<T>)
    ensures x !in s ==> r == s
    ensures |r| == if x in s then |s| - 1 else |s|
  {
    if s == [] then []
    else if s[0] == x then s[1..]
    else [s[0]] + RemoveFirst(s[1..], x)
  }

  /** The removed occurrence is the first: everything before it and after it keeps its order. */
  lemma {:induction false} RemoveFirstAt<T>(s: seq<T>, x: T) returns (i: nat)
    requires x in s
    ensures i < |s| && s[i] == x && x !in s[..i]
    ensures RemoveFirst(s, x) == s[..i] + s[i + 1..]
  {
    if s[0] == x {
      i := 0;
    } else {
      assert x in s[1..] by {
        var k :| 0 <= k < |s| && s[k] == x;
        assert s[1..][k - 1] == x;
      }
      var j := RemoveFirstAt(s[1..], x);
      i := j + 1;
      assert s[..i] == [s[0]] + s[1..][..j];
      assert s[i + 1..] == s[1..][j + 1..];
    }
  }

  /** Exactly one copy of `x` leaves when it is present. */
  lemma RemoveFirstMultiset<T>(s: seq<T>, x: T)
    ensures multiset(RemoveFirst(s, x)) == multiset(s) - multiset{x}
  {
    if x in s {
      var i := RemoveFirstAt(s, x);
      var a, b := s[..i], s[i + 1..];
      assert s == a + [x] + b;
      calc {
        multiset(s) - multiset{x};
        (multiset(a) + multiset{x} + multiset(b)) - multiset{x};
        multiset(a) + multiset(b);
        multiset(RemoveFirst(s, x));
      }
    } else {
      assert multiset(s)[x] == 0;
      assert multiset(s) - multiset{x} == multiset(s);
    }
  }

  /** The follower lists after `ws` stops following `serviceId`. */
  function Unfollow(byService: map<int, seq<Socket>>, serviceId: Option<int>, ws: Socket): map<int, seq<Socket>>
  {
    if Subscribes(serviceId) && serviceId.value in byService then
      var rest := RemoveFirst(byService[serviceId.value], ws);
      if rest == [] then byService - {serviceId.value} else byService[serviceId.value := rest]
    else byService
  }

  predicate NoEmptyLists(byService: map<int, seq<Socket>>)
  {
    forall id :: id in byService ==> |byService[id]| > 0
  }

  /** Unfollowing keeps every remaining list non-empty and touches no other service. */
  lemma UnfollowKeeps(byService: map<int, seq<Socket>>, serviceId: Option<int>, ws: Socket)
    requires NoEmptyLists(byService)
    ensures NoEmptyLists(Unfollow(byService, serviceId, ws))
    ensures forall id :: (serviceId.None? || id != serviceId.value) ==>
              (id in Unfollow(byService, serviceId, ws) <==> id in byService)
              && (id in byService ==> Unfollow(byService, serviceId, ws)[id] == byService[id])
  {
  }

  /** A socket that does not follow the service leaves the lists as they were. */
  lemma UnfollowUnregistered(byService: map<int, seq<Socket>>, serviceId: Option<int>, ws: Socket)
    requires NoEmptyLists(byService)
    requires Subscribes(serviceId) && serviceId.value in byService ==> ws !in byService[serviceId.value]
    ensures Unfollow(byService, serviceId, ws) == byService
  {
    if Subscribes(serviceId) && serviceId.value in byService {
      assert byService[serviceId.value := byService[serviceId.value]] == byService;
    }
  }

  /** A Python truthy service id: present and non-zero. */
  predicate Subscribes(serviceId: Option<int>)
  {
    serviceId.Some? && serviceId.value != 0
  }

  /** Who a log message for `serviceId` is sent to, in order: everyone, then the service's followers. */
  function Recipients(active: seq<Socket>, byService: map<int, seq<Socket>>, serviceId: Option<int>): seq<Socket>
  {
    active + (if Subscribes(serviceId) && serviceId.value in byService then byService[serviceId.value] else [])
  }

  class ConnectionManager {
    var active: seq<Socket>
    var byService: map<int, seq<Socket>>

    /** No service keeps an empty list of followers. */
    predicate Valid()
      reads this
    {
      NoEmptyLists(byService)
    }

    constructor()
      ensures Valid()
      ensures active == [] && byService == map[]
    {
      active := [];
      byService := map[];
    }

    /** Registers `ws`, and as a follower of `serviceId` when that id is truthy. */
    method Connect(ws: Socket, serviceId: Option<int>)
      requires Valid()
      modifies this
      ensures Valid()
      ensures active == old(active) + [ws]
      ensures Subscribes(serviceId) ==>
                byService == old(byService)[serviceId.value :=
                  (if serviceId.value in old(byService) then old(byService)[serviceId.value] else []) + [ws]]
      ensures !Subscribes(serviceId) ==> byService == old(byService)
    {
      active := active + [ws];
      if Subscribes(serviceId) {
        var id := serviceId.value;
        if id !in byService {
          byService := byService[id := []];
        }
        byService := byService[id := byService[id] + [ws]];
      }
    }

    /**
     * Unregisters the first occurrence of `ws`, and as a follower of `serviceId`; a
     * service left without followers is forgotten.
     */
    method Disconnect(ws: Socket, serviceId: Option<int>)
      requires Valid()
      modifies this
      ensures Valid()
      ensures active == RemoveFirst(old(active), ws)
      ensures byService == Unfollow(old(byService), serviceId, ws)
    {
      if ws in active {
        active := RemoveFirst(active, ws);
      }
      UnfollowKeeps(byService, serviceId, ws);
      if Subscribes(serviceId) && serviceId.value in byService {
        var id := serviceId.value;
        if ws in byService[id] {
          byService := byService[id := RemoveFirst(byService[id], ws)];
        } else {
          assert byService[id := RemoveFirst(byService[id], ws)] == byService;
        }
        if byService[id] == [] {
          byService := byService - {id};
        }
      }
    }

    /**
     * Sends to a snapshot of every open socket; a socket in `failing` does not receive,
     * its failure is swallowed and it stays registered.
     */
    method BroadcastToAll(failing: set<Socket>) returns (attempted: seq<Socket>, delivered: seq<Socket>)
      ensures attempted == active
      ensures delivered == Delivered(attempted, failing)
      ensures multiset(delivered) <= multiset(attempted)
      ensures forall w :: w in delivered <==> w in attempted && w !in failing
    {
      var snapshot := active;
      attempted, delivered := SendEach(snapshot, failing);
    }

    /** Sends to a snapshot of the service's followers; nothing when it has none. */
    method BroadcastToService(serviceId: int, failing: set<Socket>)
      returns (attempted: seq<Socket>, delivered: seq<Socket>)
      ensures attempted == if serviceId in byService then byService[serviceId] else []
      ensures delivered == Delivered(attempted, failing)
      ensures forall w :: w in delivered <==> w in attempted && w !in failing
    {
      attempted, delivered := [], [];
      if serviceId in byService {
        var snapshot := byService[serviceId];
        attempted, delivered := SendEach(snapshot, failing);
      }
    }

    /** Routes one log record: to everyone, then to the followers of its truthy service id. */
    method BroadcastLogMessage(serviceId: Option<int>, failing: set<Socket>) returns (attempted: seq<Socket>)
      ensures attempted == Recipients(active, byService, serviceId)
    {
      var toAll, _ := BroadcastToAll(failing);
      attempted := toAll;
      if Subscribes(serviceId) {
        var toService, _ := BroadcastToService(serviceId.value, failing);
        attempted := attempted + toService;
      }
    }
  }

  /** The sockets a send loop reaches, in the order tried and with their repetitions. */
  function Delivered(sockets: seq<Socket>, failing: set<Socket>): seq<Socket>
  {
    if sockets == [] then []
    else
      var init := sockets[..|sockets| - 1];
      var last := sockets[|sockets| - 1];
      assert sockets == init + [last];
      Delivered(init, failing) + (if last !in failing then [last] else [])
  }

  /** The delivered sockets are taken from the attempted ones: every socket not in `failing`, and no other. */
  lemma {:induction false} DeliveredSound(sockets: seq<Socket>, failing: set<Socket>)
    ensures multiset(Delivered(sockets, failing)) <= multiset(sockets)
    ensures forall w :: w in Delivered(sockets, failing) <==> w in sockets && w !in failing
  {
    if sockets != [] {
      var init := sockets[..|sockets| - 1];
      var last := sockets[|sockets| - 1];
      assert sockets == init + [last];
      DeliveredSound(init, failing);
    }
  }

  /** Trying one more socket extends the delivered list by it unless it fails. */
  lemma DeliveredSnoc(sockets: seq<Socket>, w: Socket, failing: set<Socket>)
    ensures Delivered(sockets + [w], failing) == Delivered(sockets, failing) + (if w !in failing then [w] else [])
  {
    assert (sockets + [w])[..|sockets|] == sockets;
  }

  /** One send per socket in order; the ones in `failing` raise and are skipped. */
  method SendEach(sockets: seq<Socket>, failing: set<Socket>) returns (attempted: seq<Socket>, delivered: seq<Socket>)
    ensures attempted == sockets
    ensures delivered == Delivered(sockets, failing)
    ensures multiset(delivered) <= multiset(attempted)
    ensures forall w :: w in delivered <==> w in attempted && w !in failing
  {
    attempted, delivered := [], [];
    var i := 0;
    while i < |sockets|
      invariant i <= |sockets|
      invariant attempted == sockets[..i]
      invariant delivered == Delivered(sockets[..i], failing)
    {
      assert sockets[..i + 1] == sockets[..i] + [sockets[i]];
      DeliveredSnoc(sockets[..i], sockets[i], failing);
      attempted := attempted + [sockets[i]];
      if sockets[i] !in failing {
        delivered := delivered + [sockets[i]];
      }
      i := i + 1;
    }
    assert sockets[..i] == sockets;
    DeliveredSound(sockets, failing);
  }

  /**
   * A socket that newly follows a service receives each of that service's log messages
   * twice: once as an open socket and once as a follower.
   */
  lemma FollowerReceivesTwice(active: seq<Socket>, byService: map<int, seq<Socket>>, w: Socket, id: int)
    requires id != 0
    requires w !in active && (id in byService ==> w !in byService[id])
    ensures var followers := (if id in byService then byService[id] else []) + [w];
            multiset(Recipients(active + [w], byService[id := followers], Some(id)))[w] == 2
  {
    var followers := (if id in byService then byService[id] else []) + [w];
    var r := Recipients(active + [w], byService[id := followers], Some(id));
    assert r == active + [w] + followers;
    assert multiset(r) == multiset(active) + multiset{w} + multiset(followers);
  }

  /** A message without a truthy service id reaches exactly the open sockets. */
  lemma UnroutedReachesAll(active: seq<Socket>, byService: map<int, seq<Socket>>, serviceId: Option<int>)
    requires !Subscribes(serviceId)
    ensures Recipients(active, byService, serviceId) == active
  {
  }
}
