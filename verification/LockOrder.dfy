/**
 * The mutexes of the SFU: on every path they are taken in one strict order of ranks, so no goroutines, however many,
 * can wait for each other in a circle; and the closing guards of peers, rooms and the server are entered with none
 * held.
 */
module LockOrder {
  import opened Options
  import Machines

  type Id = nat
  type Tid = nat

  datatype Lock =
    | Server
    | Room(id: Id)
    | Cascade(id: Id)      // cascadeMu of a room
    | Bridge(id: Id)
    | Peer(id: Id)
    | Router(id: Id)
    | OnPacket(id: Id)     // onPacketMu of a receiver
    | Stop(id: Id)         // closeOnce of a sender or a receiver: its body only cancels a context

  function Rank(l: Lock): nat {
    match l
    case Server => 0
    case Room(_) => 1
    case Cascade(_) => 2
    case Bridge(_) => 3
    case Peer(_) => 4
    case Router(_) => 5
    case OnPacket(_) => 6
    case Stop(_) => 7
  }

  /** closeOnce of the server, of a room and of a peer, whose bodies call each other. */
  datatype Guard = OfServer | OfRoom(id: Id) | OfPeer(id: Id)

  datatype Op = Take(l: Lock, write: bool) | Drop(l: Lock) | Call(guard: Guard)

  function Locked(l: Lock, write: bool, body: seq<Op>): seq<Op> { [Take(l, write)] + body + [Drop(l)] }

  /** What a method does with locks and guards. The body of a guard is a path of its own, and so are callbacks. */
  datatype Path =
    | CreateRoom(room: Id, router: Id, guest: bool)
    | UseServer(write: bool)                                  // onRoomClosed; lookups
    | ServerStats(pairs: seq<(Id, Id)>)                       // rooms and their routers
    | CloseRoom(room: Id)
    | CloseServer
    | ServerBody(rooms: seq<Id>)                              // inside Server.Close
    | Join(room: Id, peer: Id, router: Id)
    | LeaveRoom(room: Id, peer: Id, last: bool)
    | UseRoom(room: Id, write: bool)                          // snapshots of the peers
    | RoomStats(room: Id, router: Id)
    | RoomBody(room: Id, peers: seq<Id>, bridges: seq<(Id, seq<Id>)>, router: Id, stopped: seq<Id>)
    | UseBridges(room: Id, write: bool)                       // AddCascadeBridge, cluster messages; snapshots
    | RemoveBridge(room: Id, bridge: Id, router: Id, senders: seq<Id>)
    | BridgeAddTrack(bridge: Id, router: Id, refused: seq<Id>)
    | BridgeClose(bridge: Id, router: Id, senders: seq<Id>)
    | UseBridge(bridge: Id)                                   // HandleOffer, HandleAnswer, HandleCandidate, negotiate
    | PeerSubscribe(peer: Id, router: Id, refused: seq<Id>)
    | PeerUnsubscribe(peer: Id, router: Id, stopped: seq<Id>)
    | PeerFails(peer: Id)                                     // a state change that closes the peer
    | PeerBody(peer: Id, router: Id, stopped: seq<Id>, room: Id, present: bool, last: bool)
    | UsePeer(peer: Id)                                       // negotiate, HandleAnswer, state changes
    | AddReceiver(router: Id, receiver: Id)
    | UseRouter(router: Id, write: bool)                      // forward, GetReceivers, Stats
    | RemoveReceiver(router: Id, stopped: seq<Id>)
    | UseCallback(receiver: Id)                               // readLoop

  function Repeat(ops: seq<Op>, n: nat): seq<Op> { if n == 0 then [] else ops + Repeat(ops, n - 1) }

  function StatsOfRooms(rooms: seq<(Id, Id)>): seq<Op> {
    if rooms == [] then []
    else Locked(Room(rooms[0].0), false, Locked(Router(rooms[0].1), false, [])) + StatsOfRooms(rooms[1..])
  }

  /** Stop of each sender or receiver. */
  function Stops(ids: seq<Id>): seq<Op> {
    if ids == [] then [] else Locked(Stop(ids[0]), true, []) + Stops(ids[1..])
  }

  /** A method of the router that stops some of its senders and receivers. */
  function RouterStops(router: Id, ids: seq<Id>): seq<Op> { Locked(Router(router), true, Stops(ids)) }

  /** Unsubscribe and Stop for each sender of a bridge. */
  function DropSenders(router: Id, senders: seq<Id>): seq<Op> {
    if senders == [] then []
    else RouterStops(router, [senders[0]]) + Stops([senders[0]]) + DropSenders(router, senders[1..])
  }

  function CloseBridge(bridge: Id, router: Id, senders: seq<Id>): seq<Op> {
    Locked(Bridge(bridge), true, DropSenders(router, senders))
  }

  function CloseBridges(bridges: seq<(Id, seq<Id>)>, router: Id): seq<Op> {
    if bridges == [] then []
    else CloseBridge(bridges[0].0, router, bridges[0].1) + CloseBridges(bridges[1..], router)
  }

  function Calls(guards: seq<Guard>): seq<Op> {
    if guards == [] then [] else [Call(guards[0])] + Calls(guards[1..])
  }

  function PeerCalls(peers: seq<Id>): seq<Op> { Calls(seq(|peers|, i requires 0 <= i < |peers| => OfPeer(peers[i]))) }

  function RoomCalls(rooms: seq<Id>): seq<Op> { Calls(seq(|rooms|, i requires 0 <= i < |rooms| => OfRoom(rooms[i]))) }

  /** A departure is counted out of the map, and the last one closes the room. */
  function Departure(room: Id, last: bool): seq<Op> {
    Locked(Room(room), false, []) + if last then Calls([OfRoom(room)]) else []
  }

  function Program(path: Path): seq<Op> {
    match path
    case CreateRoom(room, router, guest) =>
      Locked(Server, true,
             Repeat(Locked(Router(router), true, []), 2) + Locked(Room(room), true, [])
             + if guest then Locked(Cascade(room), true, []) else [])
    case UseServer(write) => Locked(Server, write, [])
    case ServerStats(rooms) => Locked(Server, false, StatsOfRooms(rooms))
    case CloseRoom(room) => Locked(Server, false, []) + Calls([OfRoom(room)])
    case CloseServer => Calls([OfServer])
    case ServerBody(rooms) => Locked(Server, true, []) + RoomCalls(rooms)
    case Join(room, peer, router) =>
      Locked(Room(room), true, Locked(Peer(peer), true, []) + Locked(Router(router), false, []))
    case LeaveRoom(room, peer, last) =>
      Locked(Room(room), true, []) + (Calls([OfPeer(peer)]) + Departure(room, last))
    case UseRoom(room, write) => Locked(Room(room), write, [])
    case RoomStats(room, router) => Locked(Room(room), false, Locked(Router(router), false, []))
    case RoomBody(room, peers, bridges, router, stopped) =>
      Locked(Room(room), true, []) + (PeerCalls(peers) + (Locked(Cascade(room), true, [])
      + (CloseBridges(bridges, router) + (RouterStops(router, stopped)
      + (Locked(Server, true, []) + Locked(Server, false, []))))))
    case UseBridges(room, write) => Locked(Cascade(room), write, [])
    case RemoveBridge(room, bridge, router, senders) =>
      Locked(Cascade(room), true, CloseBridge(bridge, router, senders))
    case BridgeAddTrack(bridge, router, refused) =>
      Locked(Bridge(bridge), true, Locked(Router(router), true, []) + DropSenders(router, refused))
    case BridgeClose(bridge, router, senders) => CloseBridge(bridge, router, senders)
    case UseBridge(bridge) => Locked(Bridge(bridge), true, [])
    case PeerSubscribe(peer, router, refused) =>
      Locked(Peer(peer), true, Locked(Router(router), true, []))
      + if refused == [] then [] else RouterStops(router, refused)
    case PeerUnsubscribe(peer, router, stopped) => Locked(Peer(peer), true, RouterStops(router, stopped))
    case PeerFails(peer) => Locked(Peer(peer), true, []) + Calls([OfPeer(peer)])
    case PeerBody(peer, router, stopped, room, present, last) =>
      Locked(Peer(peer), true, RouterStops(router, stopped))
      + (Locked(Room(room), true, []) + if present then Departure(room, last) else [])
    case UsePeer(peer) => Locked(Peer(peer), true, [])
    case AddReceiver(router, receiver) => Locked(Router(router), true, Locked(OnPacket(receiver), true, []))
    case UseRouter(router, write) => Locked(Router(router), write, [])
    case RemoveReceiver(router, stopped) => RouterStops(router, stopped)
    case UseCallback(receiver) => Locked(OnPacket(receiver), false, [])
  }

  function Programs(paths: seq<Path>): seq<Op> {
    if paths == [] then [] else Program(paths[0]) + Programs(paths[1..])
  }

  // ---------------------------------------------------------------------------------------------------------------
  // The order.

  predicate Above(l: Lock, held: set<Lock>) { forall h :: h in held ==> Rank(h) < Rank(l) }

  /**
   * The locks held after some operations, if each lock taken ranks above all that are held then, and no guard is called
   * while one is held.
   */
  function After(held: set<Lock>, ops: seq<Op>): Option<set<Lock>>
    decreases |ops|
  {
    if ops == [] then Some(held)
    else
      match ops[0]
      case Take(l, _) => if Above(l, held) then After(held + {l}, ops[1..]) else None
      case Drop(l) => if l in held then After(held - {l}, ops[1..]) else None
      case Call(_) => if held == {} then After(held, ops[1..]) else None
  }

  /** In order, and everything taken is dropped again. */
  predicate Orderly(held: set<Lock>, ops: seq<Op>) { After(held, ops) == Some(held) }

  lemma {:induction false} AfterBoth(held: set<Lock>, a: seq<Op>, b: seq<Op>)
    requires After(held, a).Some?
    ensures After(held, a + b) == After(After(held, a).value, b)
    decreases |a|
  {
    if a == [] {
      assert a + b == b;
    } else {
      assert (a + b)[0] == a[0] && (a + b)[1..] == a[1..] + b;
      match a[0]
      case Take(l, _) => AfterBoth(held + {l}, a[1..], b);
      case Drop(l) => AfterBoth(held - {l}, a[1..], b);
      case Call(_) => AfterBoth(held, a[1..], b);
    }
  }

  lemma BothOrderly(held: set<Lock>, a: seq<Op>, b: seq<Op>)
    requires Orderly(held, a) && Orderly(held, b)
    ensures Orderly(held, a + b)
  {
    AfterBoth(held, a, b);
  }

  lemma LockedOrderly(held: set<Lock>, l: Lock, write: bool, body: seq<Op>)
    requires Above(l, held) && Orderly(held + {l}, body)
    ensures Orderly(held, Locked(l, write, body))
  {
    var ops := Locked(l, write, body);
    assert ops[0] == Take(l, write) && ops[1..] == body + [Drop(l)];
    AfterBoth(held + {l}, body, [Drop(l)]);
    assert l !in held && held + {l} - {l} == held;
    assert [Drop(l)][1..] == [];
  }

  lemma {:induction false} RepeatOrderly(held: set<Lock>, ops: seq<Op>, n: nat)
    requires Orderly(held, ops)
    ensures Orderly(held, Repeat(ops, n))
  {
    if n > 0 {
      RepeatOrderly(held, ops, n - 1);
      BothOrderly(held, ops, Repeat(ops, n - 1));
    }
  }

  lemma OneOrderly(held: set<Lock>, l: Lock, write: bool)
    requires Above(l, held)
    ensures Orderly(held, Locked(l, write, []))
  {
    LockedOrderly(held, l, write, []);
  }

  lemma {:induction false} StatsOrderly(rooms: seq<(Id, Id)>)
    ensures Orderly({Server}, StatsOfRooms(rooms))
  {
    if rooms != [] {
      OneOrderly({Server} + {Room(rooms[0].0)}, Router(rooms[0].1), false);
      LockedOrderly({Server}, Room(rooms[0].0), false, Locked(Router(rooms[0].1), false, []));
      StatsOrderly(rooms[1..]);
      BothOrderly({Server}, Locked(Room(rooms[0].0), false, Locked(Router(rooms[0].1), false, [])),
        StatsOfRooms(rooms[1..]));
    }
  }

  lemma {:induction false} StopsOrderly(held: set<Lock>, ids: seq<Id>)
    requires forall h :: h in held ==> Rank(h) < 7
    ensures Orderly(held, Stops(ids))
  {
    if ids != [] {
      OneOrderly(held, Stop(ids[0]), true);
      StopsOrderly(held, ids[1..]);
      BothOrderly(held, Locked(Stop(ids[0]), true, []), Stops(ids[1..]));
    }
  }

  lemma RouterStopsOrderly(held: set<Lock>, router: Id, ids: seq<Id>)
    requires Above(Router(router), held)
    ensures Orderly(held, RouterStops(router, ids))
  {
    StopsOrderly(held + {Router(router)}, ids);
    LockedOrderly(held, Router(router), true, Stops(ids));
  }

  lemma {:induction false} DropSendersOrderly(held: set<Lock>, router: Id, senders: seq<Id>)
    requires Above(Router(router), held)
    ensures Orderly(held, DropSenders(router, senders))
  {
    if senders != [] {
      RouterStopsOrderly(held, router, [senders[0]]);
      StopsOrderly(held, [senders[0]]);
      BothOrderly(held, RouterStops(router, [senders[0]]), Stops([senders[0]]));
      DropSendersOrderly(held, router, senders[1..]);
      BothOrderly(held, RouterStops(router, [senders[0]]) + Stops([senders[0]]), DropSenders(router, senders[1..]));
    }
  }

  lemma CloseBridgeOrderly(held: set<Lock>, bridge: Id, router: Id, senders: seq<Id>)
    requires Above(Bridge(bridge), held)
    ensures Orderly(held, CloseBridge(bridge, router, senders))
  {
    DropSendersOrderly(held + {Bridge(bridge)}, router, senders);
    LockedOrderly(held, Bridge(bridge), true, DropSenders(router, senders));
  }

  lemma {:induction false} CloseBridgesOrderly(bridges: seq<(Id, seq<Id>)>, router: Id)
    ensures Orderly({}, CloseBridges(bridges, router))
  {
    if bridges != [] {
      CloseBridgeOrderly({}, bridges[0].0, router, bridges[0].1);
      CloseBridgesOrderly(bridges[1..], router);
      BothOrderly({}, CloseBridge(bridges[0].0, router, bridges[0].1), CloseBridges(bridges[1..], router));
    }
  }

  lemma {:induction false} CallsOrderly(guards: seq<Guard>)
    ensures Orderly({}, Calls(guards))
  {
    if guards != [] {
      CallsOrderly(guards[1..]);
      BothOrderly({}, [Call(guards[0])], Calls(guards[1..]));
    }
  }

  lemma DepartureOrderly(room: Id, last: bool)
    ensures Orderly({}, Departure(room, last))
  {
    OneOrderly({}, Room(room), false);
    CallsOrderly([OfRoom(room)]);
    BothOrderly({}, Locked(Room(room), false, []), if last then Calls([OfRoom(room)]) else []);
  }

  lemma RoomBodyOrderly(room: Id, peers: seq<Id>, bridges: seq<(Id, seq<Id>)>, router: Id, stopped: seq<Id>)
    ensures Orderly({}, Program(RoomBody(room, peers, bridges, router, stopped)))
  {
    OneOrderly({}, Server, true);
    OneOrderly({}, Server, false);
    var tail := Locked(Server, true, []) + Locked(Server, false, []);
    BothOrderly({}, Locked(Server, true, []), Locked(Server, false, []));
    RouterStopsOrderly({}, router, stopped);
    BothOrderly({}, RouterStops(router, stopped), tail);
    CloseBridgesOrderly(bridges, router);
    BothOrderly({}, CloseBridges(bridges, router), RouterStops(router, stopped) + tail);
    var rest := CloseBridges(bridges, router) + (RouterStops(router, stopped) + tail);
    OneOrderly({}, Cascade(room), true);
    BothOrderly({}, Locked(Cascade(room), true, []), rest);
    CallsOrderly(seq(|peers|, i requires 0 <= i < |peers| => OfPeer(peers[i])));
    BothOrderly({}, PeerCalls(peers), Locked(Cascade(room), true, []) + rest);
    OneOrderly({}, Room(room), true);
    BothOrderly({}, Locked(Room(room), true, []), PeerCalls(peers) + (Locked(Cascade(room), true, []) + rest));
  }

  lemma PeerBodyOrderly(peer: Id, router: Id, stopped: seq<Id>, room: Id, present: bool, last: bool)
    ensures Orderly({}, Program(PeerBody(peer, router, stopped, room, present, last)))
  {
    RouterStopsOrderly({} + {Peer(peer)}, router, stopped);
    LockedOrderly({}, Peer(peer), true, RouterStops(router, stopped));
    OneOrderly({}, Room(room), true);
    DepartureOrderly(room, last);
    var rest := if present then Departure(room, last) else [];
    BothOrderly({}, Locked(Room(room), true, []), rest);
    BothOrderly({}, Locked(Peer(peer), true, RouterStops(router, stopped)), Locked(Room(room), true, []) + rest);
  }

  lemma BridgeAddTrackOrderly(bridge: Id, router: Id, refused: seq<Id>)
    ensures Orderly({}, Program(BridgeAddTrack(bridge, router, refused)))
  {
    OneOrderly({} + {Bridge(bridge)}, Router(router), true);
    DropSendersOrderly({} + {Bridge(bridge)}, router, refused);
    BothOrderly({} + {Bridge(bridge)}, Locked(Router(router), true, []), DropSenders(router, refused));
    LockedOrderly({}, Bridge(bridge), true, Locked(Router(router), true, []) + DropSenders(router, refused));
  }

  lemma CreateRoomOrderly(room: Id, router: Id, guest: bool)
    ensures Orderly({}, Program(CreateRoom(room, router, guest)))
  {
    var held := {} + {Server};
    OneOrderly(held, Router(router), true);
    OneOrderly(held, Room(room), true);
    OneOrderly(held, Cascade(room), true);
    RepeatOrderly(held, Locked(Router(router), true, []), 2);
    var start := Repeat(Locked(Router(router), true, []), 2) + Locked(Room(room), true, []);
    BothOrderly(held, Repeat(Locked(Router(router), true, []), 2), Locked(Room(room), true, []));
    BothOrderly(held, start, if guest then Locked(Cascade(room), true, []) else []);
    LockedOrderly({}, Server, true, start + if guest then Locked(Cascade(room), true, []) else []);
  }

  /** Two locks, one inside the other. */
  lemma TwoOrderly(outer: Lock, w: bool, inner: Lock, v: bool)
    requires Rank(outer) < Rank(inner)
    ensures Orderly({}, Locked(outer, w, Locked(inner, v, [])))
  {
    OneOrderly({} + {outer}, inner, v);
    LockedOrderly({}, outer, w, Locked(inner, v, []));
  }

  /** One lock, then one call. */
  lemma LockThenCall(l: Lock, write: bool, guards: seq<Guard>)
    ensures Orderly({}, Locked(l, write, []) + Calls(guards))
  {
    OneOrderly({}, l, write);
    CallsOrderly(guards);
    BothOrderly({}, Locked(l, write, []), Calls(guards));
  }

  lemma LeaveRoomOrderly(room: Id, peer: Id, last: bool)
    ensures Orderly({}, Program(LeaveRoom(room, peer, last)))
  {
    CallsOrderly([OfPeer(peer)]);
    DepartureOrderly(room, last);
    BothOrderly({}, Calls([OfPeer(peer)]), Departure(room, last));
    OneOrderly({}, Room(room), true);
    BothOrderly({}, Locked(Room(room), true, []), Calls([OfPeer(peer)]) + Departure(room, last));
  }

  /**
   * Main result, first half: every path takes its locks in the order of their ranks, drops them all, and calls guards
   * with none held.
   */
  lemma EveryPathIsOrderly(path: Path)
    ensures Orderly({}, Program(path))
  {
    match path
    case CreateRoom(room, router, guest) => CreateRoomOrderly(room, router, guest);
    case ServerStats(rooms) => ServerStatsOrderly(rooms);
    case CloseRoom(room) => LockThenCall(Server, false, [OfRoom(room)]);
    case CloseServer => CallsOrderly([OfServer]);
    case ServerBody(rooms) =>
      LockThenCall(Server, true, seq(|rooms|, i requires 0 <= i < |rooms| => OfRoom(rooms[i])));
    case Join(room, peer, router) => JoinOrderly(room, peer, router);
    case LeaveRoom(room, peer, last) => LeaveRoomOrderly(room, peer, last);
    case RoomStats(room, router) => TwoOrderly(Room(room), false, Router(router), false);
    case RoomBody(room, peers, bridges, router, stopped) => RoomBodyOrderly(room, peers, bridges, router, stopped);
    case RemoveBridge(room, bridge, router, senders) => RemoveBridgeOrderly(room, bridge, router, senders);
    case BridgeAddTrack(bridge, router, refused) => BridgeAddTrackOrderly(bridge, router, refused);
    case BridgeClose(bridge, router, senders) => CloseBridgeOrderly({}, bridge, router, senders);
    case PeerSubscribe(peer, router, refused) => PeerSubscribeOrderly(peer, router, refused);
    case PeerUnsubscribe(peer, router, stopped) =>
      RouterStopsOrderly({} + {Peer(peer)}, router, stopped);
      LockedOrderly({}, Peer(peer), true, RouterStops(router, stopped));
    case PeerFails(peer) => LockThenCall(Peer(peer), true, [OfPeer(peer)]);
    case PeerBody(peer, router, stopped, room, present, last) =>
      PeerBodyOrderly(peer, router, stopped, room, present, last);
    case AddReceiver(router, receiver) => TwoOrderly(Router(router), true, OnPacket(receiver), true);
    case RemoveReceiver(router, stopped) => RouterStopsOrderly({}, router, stopped);
    case _ => OneLockOrderly(path);
  }

  /** The paths with a single lock. */
  lemma OneLockOrderly(path: Path)
    requires path.UseServer? || path.UseRoom? || path.UseBridges? || path.UseBridge? || path.UsePeer? || path.UseRouter?
             || path.UseCallback?
    ensures Orderly({}, Program(path))
  {
    match path
    case UseServer(write) => OneOrderly({}, Server, write);
    case UseRoom(room, write) => OneOrderly({}, Room(room), write);
    case UseBridges(room, write) => OneOrderly({}, Cascade(room), write);
    case UseBridge(bridge) => OneOrderly({}, Bridge(bridge), true);
    case UsePeer(peer) => OneOrderly({}, Peer(peer), true);
    case UseRouter(router, write) => OneOrderly({}, Router(router), write);
    case UseCallback(receiver) => OneOrderly({}, OnPacket(receiver), false);
  }

  lemma ServerStatsOrderly(rooms: seq<(Id, Id)>)
    ensures Orderly({}, Program(ServerStats(rooms)))
  {
    assert {} + {Server} == {Server};
    StatsOrderly(rooms);
    LockedOrderly({}, Server, false, StatsOfRooms(rooms));
  }

  lemma JoinOrderly(room: Id, peer: Id, router: Id)
    ensures Orderly({}, Program(Join(room, peer, router)))
  {
    OneOrderly({} + {Room(room)}, Peer(peer), true);
    OneOrderly({} + {Room(room)}, Router(router), false);
    BothOrderly({} + {Room(room)}, Locked(Peer(peer), true, []), Locked(Router(router), false, []));
    LockedOrderly({}, Room(room), true, Locked(Peer(peer), true, []) + Locked(Router(router), false, []));
  }

  lemma RemoveBridgeOrderly(room: Id, bridge: Id, router: Id, senders: seq<Id>)
    ensures Orderly({}, Program(RemoveBridge(room, bridge, router, senders)))
  {
    CloseBridgeOrderly({} + {Cascade(room)}, bridge, router, senders);
    LockedOrderly({}, Cascade(room), true, CloseBridge(bridge, router, senders));
  }

  lemma PeerSubscribeOrderly(peer: Id, router: Id, refused: seq<Id>)
    ensures Orderly({}, Program(PeerSubscribe(peer, router, refused)))
  {
    TwoOrderly(Peer(peer), true, Router(router), true);
    RouterStopsOrderly({}, router, refused);
    BothOrderly({}, Locked(Peer(peer), true, Locked(Router(router), true, [])),
                if refused == [] then [] else RouterStops(router, refused));
  }

  lemma {:induction false} PathsOrderly(paths: seq<Path>)
    ensures Orderly({}, Programs(paths))
  {
    if paths != [] {
      EveryPathIsOrderly(paths[0]);
      PathsOrderly(paths[1..]);
      BothOrderly({}, Program(paths[0]), Programs(paths[1..]));
    }
  }

  // ---------------------------------------------------------------------------------------------------------------
  // Goroutines.

  /** What is left to do, the locks held with their modes, and the time of asking for the next lock, if asked. */
  datatype Thread = Thread(ops: seq<Op>, held: map<Lock, bool>, asked: Option<nat>)

  datatype State = State(threads: map<Tid, Thread>, clock: nat)

  datatype Step =
    | Go(t: Tid, paths: seq<Path>)
    | Ask(t: Tid)
    | Obtain(t: Tid)
    | Release(t: Tid)
    | Pass(t: Tid, body: seq<Path>)     // the call of a guard, with what is done inside

  predicate AtCall(s: State, t: Tid) { t in s.threads && s.threads[t].ops != [] && s.threads[t].ops[0].Call? }

  /** The goroutine is in none of its paths. */
  predicate Idle(s: State, t: Tid) { t in s.threads ==> s.threads[t].ops == [] }

  predicate Waiting(s: State, t: Tid) {
    t in s.threads && s.threads[t].asked.Some? && s.threads[t].ops != [] && s.threads[t].ops[0].Take?
  }

  predicate Clashes(s: State, u: Tid, l: Lock, write: bool)
    requires u in s.threads
  {
    l in s.threads[u].held && (write || s.threads[u].held[l])
  }

  /** No other goroutine holds the lock in a mode that excludes this one. */
  ghost predicate Available(s: State, t: Tid, l: Lock, write: bool) {
    forall u :: u in s.threads && u != t ==> !Clashes(s, u, l, write)
  }

  ghost function Next(s: State, step: Step): Option<State> {
    match step
    case Go(t, paths) =>
      if Idle(s, t) then Some(s.(threads := s.threads[t := Thread(Programs(paths), map[], None)])) else None
    case Ask(t) =>
      if t in s.threads && s.threads[t].asked.None? && s.threads[t].ops != [] && s.threads[t].ops[0].Take?
      then Some(State(s.threads[t := s.threads[t].(asked := Some(s.clock))], s.clock + 1)) else None
    case Obtain(t) =>
      if Waiting(s, t) && Available(s, t, s.threads[t].ops[0].l, s.threads[t].ops[0].write)
      then
        var th := s.threads[t];
        Some(s.(threads := s.threads[t := Thread(th.ops[1..], th.held[th.ops[0].l := th.ops[0].write], None)]))
      else None
    case Release(t) =>
      if t in s.threads && s.threads[t].ops != [] && s.threads[t].ops[0].Drop?
      then
        var th := s.threads[t];
        Some(s.(threads := s.threads[t := Thread(th.ops[1..], th.held - {th.ops[0].l}, None)]))
      else None
    case Pass(t, body) =>
      if AtCall(s, t)
      then
        var th := s.threads[t];
        Some(s.(threads := s.threads[t := Thread(Programs(body) + th.ops[1..], th.held, None)]))
      else None
  }

  ghost function Run(s: State, steps: seq<Step>): Option<State> { Machines.Run(Next, s, steps) }

  ghost predicate ThreadFine(s: State, t: Tid) {
    t in s.threads ==>
      && After(s.threads[t].held.Keys, s.threads[t].ops) == Some({})
      && (s.threads[t].asked.Some? ==> Waiting(s, t))
  }

  ghost predicate PairFine(s: State, t: Tid, u: Tid) {
    t in s.threads && u in s.threads && t != u ==>
      forall l :: l in s.threads[t].held && l in s.threads[u].held ==> !s.threads[t].held[l] && !s.threads[u].held[l]
  }

  ghost predicate Fine(s: State) {
    && (forall t {:trigger ThreadFine(s, t)} :: ThreadFine(s, t))
    && (forall t, u {:trigger PairFine(s, t, u)} :: PairFine(s, t, u))
  }

  lemma StepKeepsFine(s: State, s': State, step: Step)
    requires Fine(s) && Next(s, step) == Some(s')
    ensures Fine(s')
  {
    forall t ensures ThreadFine(s', t) { ThreadStaysFine(s, s', step, t); }
    forall t, u ensures PairFine(s', t, u) { assert PairFine(s, t, u) && PairFine(s, u, t); }
  }

  lemma ThreadStaysFine(s: State, s': State, step: Step, t: Tid)
    requires Fine(s) && Next(s, step) == Some(s')
    ensures ThreadFine(s', t)
  {
    assert ThreadFine(s, t);
    if step.t == t {
      match step
      case Go(_, paths) => PathsOrderly(paths); var none: map<Lock, bool> := map[]; assert none.Keys == {};
      case Ask(_) =>
      case Obtain(_) =>
        var th := s.threads[t];
        assert s'.threads[t].held.Keys == th.held.Keys + {th.ops[0].l};
      case Release(_) =>
        var th := s.threads[t];
        assert s'.threads[t].held.Keys == th.held.Keys - {th.ops[0].l};
      case Pass(_, body) =>
        var th := s.threads[t];
        PathsOrderly(body);
        AfterBoth(th.held.Keys, Programs(body), th.ops[1..]);
    }
  }

  lemma {:induction false} RunKeepsFine(s: State, steps: seq<Step>)
    requires Fine(s) && Run(s, steps).Some?
    ensures Fine(Run(s, steps).value)
    decreases |steps|
  {
    if steps != [] {
      StepKeepsFine(s, Next(s, steps[0]).value, steps[0]);
      RunKeepsFine(Next(s, steps[0]).value, steps[1..]);
    }
  }

  /** Whoever calls a guard holds no lock. */
  lemma NothingHeldAtCall(s: State, t: Tid)
    requires Fine(s) && AtCall(s, t)
    ensures s.threads[t].held == map[] && !Waiting(s, t)
  {
    assert ThreadFine(s, t);
  }

  // ---------------------------------------------------------------------------------------------------------------
  // Waiting.

  function Wanted(s: State, t: Tid): Op
    requires Waiting(s, t)
  {
    s.threads[t].ops[0]
  }

  /**
   * u holds what t wants, or asked for it earlier in a mode that excludes t (a reader waits behind a waiting writer).
   */
  predicate WaitsFor(s: State, t: Tid, u: Tid) {
    && Waiting(s, t) && u in s.threads && u != t
    && var want := Wanted(s, t);
       || Clashes(s, u, want.l, want.write)
       || (Waiting(s, u) && Wanted(s, u).l == want.l && (want.write || Wanted(s, u).write)
           && s.threads[u].asked.value < s.threads[t].asked.value)
  }

  /** Waiting leads to a lock of higher rank, or to an earlier request for a lock of the same rank. */
  predicate Later(s: State, t: Tid, u: Tid)
    requires Waiting(s, t) && Waiting(s, u)
  {
    var (r, q) := (Rank(Wanted(s, t).l), Rank(Wanted(s, u).l));
    r < q || (r == q && s.threads[u].asked.value < s.threads[t].asked.value)
  }

  lemma WaitingLeadsUp(s: State, t: Tid, u: Tid)
    requires Fine(s) && WaitsFor(s, t, u) && Waiting(s, u)
    ensures Later(s, t, u)
  {
    assert ThreadFine(s, u);
  }

  lemma {:induction false} ChainLeadsUp(s: State, chain: seq<Tid>)
    requires Fine(s) && |chain| >= 2 && (forall i :: 0 <= i < |chain| ==> Waiting(s, chain[i]))
    requires forall i :: 0 <= i < |chain| - 1 ==> WaitsFor(s, chain[i], chain[i + 1])
    ensures Later(s, chain[0], chain[|chain| - 1])
  {
    var n := |chain|;
    WaitingLeadsUp(s, chain[n - 2], chain[n - 1]);
    if n > 2 {
      var start := chain[..n - 1];
      forall i | 0 <= i < |start| - 1 ensures WaitsFor(s, start[i], start[i + 1]) {
        assert WaitsFor(s, chain[i], chain[i + 1]);
      }
      ChainLeadsUp(s, start);
    }
  }

  lemma InitFine()
    ensures Fine(State(map[], 0))
  {
    forall t ensures ThreadFine(State(map[], 0), t) { }
    forall t, u ensures PairFine(State(map[], 0), t, u) { }
  }

  /** Each waits for the next, and the last is the first. */
  predicate Circle(s: State, circle: seq<Tid>) {
    && |circle| >= 2 && circle[0] == circle[|circle| - 1]
    && forall i :: 0 <= i < |circle| - 1 ==> WaitsFor(s, circle[i], circle[i + 1])
  }

  lemma FineHasNoCircle(s: State, circle: seq<Tid>)
    requires Fine(s)
    ensures !Circle(s, circle)
  {
    if Circle(s, circle) {
      forall i | 0 <= i < |circle| ensures Waiting(s, circle[i]) {
        assert WaitsFor(s, circle[if i < |circle| - 1 then i else 0], circle[(if i < |circle| - 1 then i else 0) + 1]);
      }
      ChainLeadsUp(s, circle);
    }
  }

  /** Main result, second half: whatever runs, nobody waits in a circle. */
  lemma NoCircularWait(steps: seq<Step>, circle: seq<Tid>)
    requires Run(State(map[], 0), steps).Some?
    ensures !Circle(Run(State(map[], 0), steps).value, circle)
  {
    InitFine();
    RunKeepsFine(State(map[], 0), steps);
    FineHasNoCircle(Run(State(map[], 0), steps).value, circle);
  }

  predicate Unfinished(s: State, t: Tid) { t in s.threads && s.threads[t].ops != [] }

  /** Of some waiting goroutines, one that is later than no other. */
  lemma {:induction false} LastOf(s: State, ts: set<Tid>) returns (t: Tid)
    requires ts != {} && forall u :: u in ts ==> Waiting(s, u)
    ensures t in ts && forall u :: u in ts ==> !Later(s, t, u)
    decreases |ts|
  {
    t :| t in ts;
    if ts != {t} {
      var u := LastOf(s, ts - {t});
      var first := t;
      t := if Later(s, first, u) then u else first;
      forall x | x in ts ensures !Later(s, t, x) {
        assert x != first ==> x in ts - {first} && !Later(s, u, x);
      }
    }
  }

  /** Some goroutine always waits for nobody, so that it can go on. */
  lemma SomebodyGoesOn(steps: seq<Step>)
    requires Run(State(map[], 0), steps).Some?
    ensures var s := Run(State(map[], 0), steps).value;
            (exists t :: Unfinished(s, t)) ==>
              exists t, step: Step :: Unfinished(s, t) && (forall u :: !WaitsFor(s, t, u)) && step.t == t
                && Next(s, step).Some?
  {
    InitFine();
    RunKeepsFine(State(map[], 0), steps);
    var s := Run(State(map[], 0), steps).value;
    if t :| Unfinished(s, t) && AtCall(s, t) {
      NothingHeldAtCall(s, t);
      assert Next(s, Pass(t, [])).Some?;
    } else if exists t :: Unfinished(s, t) {
      var t, step := GoesOn(s);
    }
  }

  lemma GoesOn(s: State) returns (t: Tid, step: Step)
    requires Fine(s) && exists t :: Unfinished(s, t) && !AtCall(s, t)
    ensures Unfinished(s, t) && !AtCall(s, t) && (forall u :: !WaitsFor(s, t, u)) && step.t == t && Next(s, step).Some?
    ensures !step.Go? && !step.Pass?
  {
    if u :| Unfinished(s, u) && !AtCall(s, u) && !Waiting(s, u) {
      t := u;
      assert ThreadFine(s, t);
      step := if s.threads[t].ops[0].Take? then Ask(t) else Release(t);
    } else {
      var ts := set u | u in s.threads && Waiting(s, u);
      var some :| Unfinished(s, some) && !AtCall(s, some);
      assert some in ts;
      t := LastOf(s, ts);
      step := Obtain(t);
      forall u ensures !WaitsFor(s, t, u) {
        assert ThreadFine(s, u);
        if WaitsFor(s, t, u) {
          assert Unfinished(s, u);
          if AtCall(s, u) { NothingHeldAtCall(s, u); } else { WaitingLeadsUp(s, t, u); }
        }
      }
      assert Available(s, t, Wanted(s, t).l, Wanted(s, t).write) by {
        forall u | u in s.threads && u != t ensures !Clashes(s, u, Wanted(s, t).l, Wanted(s, t).write) {
          assert !WaitsFor(s, t, u);
        }
      }
    }
  }
}
