/**
 * Closing: Server.Close, Room.Close and Peer.Close call each other through sync.Once guards and callbacks.
 *
 * Any number of goroutines. Each has a stack of the calls it still has to finish; the top task runs next and may
 * push further calls. sync.Once blocks every caller but the first until the first has returned. Joins may come at
 * any time, also into a room that is already closing. Peer identities are not reused, and every room is a new object.
 */
module CloseProtocol {
  import opened Options
  import Machines

  type Gid = nat
  type Name = string
  type Room = nat
  type Peer = nat

  datatype Once = Fresh | Running(holder: Gid) | Done

  datatype Task =
    | CallPeerClose(p: Peer)                    // about to enter p.closeOnce.Do
    | PeerBody(p: Peer)                         // inside: unsubscribe, close the connection
    | PeerCallback(p: Peer)                     // inside: onPeerClosed
    | PeerDone(p: Peer)                         // leaving the guard
    | CallRoomClose(r: Room)                    // about to enter r.closeOnce.Do
    | RoomSwap(r: Room)                         // inside: take all peers out of the map
    | RoomLoop(r: Room, todo: set<Peer>)        // inside: close the peers taken out
    | PeerGauge(p: Peer)                        // inside the loop: PeerLeft after p.Close
    | RoomTail(r: Room)                         // inside: onClose, which is the server's onRoomClosed
    | RoomGauge(r: Room)                        // the rest of onRoomClosed: RoomClosed
    | RoomDone(r: Room)                         // leaving the guard
    | CallServerClose                           // about to enter s.closeOnce.Do
    | ServerSwap                                // inside: mark closed, take all rooms out of the registry
    | ServerLoop(rooms: set<Room>)              // inside: close the rooms taken out
    | ServerDone                                // leaving the guard
    | JoinTail(p: Peer)                         // the rest of Join: PeerJoined
    | CreateTail(r: Room)                       // the rest of CreateRoom: RoomCreated
  {
    predicate ForPeer() { CallPeerClose? || PeerBody? || PeerCallback? || PeerDone? }
    predicate ForRoom() { CallRoomClose? || RoomSwap? || RoomLoop? || RoomTail? || RoomDone? }
    predicate ForServer() { CallServerClose? || ServerSwap? || ServerLoop? || ServerDone? }
    function PeersHeld(): set<Peer> { if PeerBody? || PeerCallback? || PeerDone? then {p} else {} }
    function RoomsHeld(): set<Room> { if RoomSwap? || RoomLoop? || RoomTail? || RoomDone? then {r} else {} }
    predicate HoldsServer() { ServerSwap? || ServerLoop? || ServerDone? }
  }

  datatype Stack = Empty | Push(top: Task, below: Stack)

  datatype RoomInfo = RoomInfo(name: Name, members: set<Peer>, once: Once, used: bool)
  datatype PeerInfo = PeerInfo(room: Room, once: Once)

  /** Who took a peer out of its room's map: nobody yet, Room.Close's swap, or Leave and onPeerClosed. */
  datatype Removal = InMap | BySwap | ByPeer

  /** What has happened so far; no step looks at it. */
  datatype History = History(
    removal: map<Peer, Removal>,
    arrivals: set<Peer>,          // peers for which PeerJoined ran
    departures: set<Peer>,        // peers for which PeerLeft ran
    openings: set<Room>,          // rooms for which RoomCreated ran
    closings: set<Room>,          // rooms for which RoomClosed ran
    dropped: set<Room>,           // rooms that onRoomClosed took out of the registry
    swept: set<Room>,             // rooms that Server.Close took out of the registry
    fired: multiset<Room>)        // onClose calls

  datatype State = State(
    maxRooms: int,
    registry: map<Name, Room>,
    closed: bool,
    serverOnce: Once,
    rooms: map<Room, RoomInfo>,
    peers: map<Peer, PeerInfo>,
    threads: map<Gid, Stack>,
    peersGauge: int,
    roomsGauge: int,
    past: History)

  function Init(maxRooms: int): State {
    State(maxRooms, map[], false, Fresh, map[], map[], map[], 0, 0,
          History(map[], {}, {}, {}, {}, {}, {}, multiset{}))
  }

  datatype Step =
    | CreateRoom(g: Gid, r: Room, name: Name)
    | Join(g: Gid, p: Peer, r: Room)
    | Leave(g: Gid, p: Peer)
    | Disconnect(g: Gid, p: Peer)               // a connection callback calls p.Close
    | CloseRoom(g: Gid, name: Name)
    | CloseServer(g: Gid)
    | Advance(g: Gid, pick: nat)                // g runs its top task; pick is the loop's next element

  /** A call that starts a goroutine. */
  function Spawn(s: State, step: Step): Option<State>
    requires !step.Advance?
  {
    if step.g in s.threads then None
    else
      match step
      case CreateRoom(g, r, name) =>
        if s.closed || (s.maxRooms > 0 && |s.registry| >= s.maxRooms) || name in s.registry || r in s.rooms then None
        else Some(s.(registry := s.registry[name := r],
                     rooms := s.rooms[r := RoomInfo(name, {}, Fresh, false)],
                     threads := s.threads[g := Push(CreateTail(r), Empty)]))
      case Join(g, p, r) =>
        if r !in s.rooms || p in s.peers then None
        else Some(s.(rooms := s.rooms[r := s.rooms[r].(members := s.rooms[r].members + {p}, used := true)],
                     peers := s.peers[p := PeerInfo(r, Fresh)],
                     threads := s.threads[g := Push(JoinTail(p), Empty)],
                     past := s.past.(removal := s.past.removal[p := InMap])))
      case Leave(g, p) =>
        if p !in s.peers || s.peers[p].room !in s.rooms || p !in s.rooms[s.peers[p].room].members then None
        else
          var r := s.peers[p].room;
          var s' := TakeOut(s, p, r);
          var rest := if s'.rooms[r].members == {} then Push(CallRoomClose(r), Empty) else Empty;
          Some(s'.(threads := s.threads[g := Push(CallPeerClose(p), rest)]))
      case Disconnect(g, p) =>
        if p !in s.peers then None else Some(s.(threads := s.threads[g := Push(CallPeerClose(p), Empty)]))
      case CloseRoom(g, name) =>
        if name !in s.registry then None
        else Some(s.(threads := s.threads[g := Push(CallRoomClose(s.registry[name]), Empty)]))
      case CloseServer(g) =>
        Some(s.(threads := s.threads[g := Push(CallServerClose, Empty)]))
  }

  /** Leave and onPeerClosed: delete p from the map and decrement the gauge, under r.mu. */
  function TakeOut(s: State, p: Peer, r: Room): (s': State)
    requires r in s.rooms
  {
    s.(rooms := s.rooms[r := s.rooms[r].(members := s.rooms[r].members - {p})],
       peersGauge := s.peersGauge - 1,
       past := s.past.(removal := s.past.removal[p := ByPeer], departures := s.past.departures + {p}))
  }

  function WithStack(s: State, g: Gid, k: Stack): State {
    s.(threads := s.threads[g := k])
  }

  function WithPeerOnce(s: State, p: Peer, once: Once): State
    requires p in s.peers
  {
    s.(peers := s.peers[p := s.peers[p].(once := once)])
  }

  function WithRoomOnce(s: State, r: Room, once: Once): State
    requires r in s.rooms
  {
    s.(rooms := s.rooms[r := s.rooms[r].(once := once)])
  }

  function AdvancePeer(s: State, g: Gid, t: Task, k: Stack): Option<State>
    requires t.ForPeer()
  {
    var p := t.p;
    if p !in s.peers || s.peers[p].room !in s.rooms then None
    else
      var r := s.peers[p].room;
      match t
      case CallPeerClose(_) =>
        if s.peers[p].once.Fresh? then Some(WithStack(WithPeerOnce(s, p, Running(g)), g, Push(PeerBody(p), k)))
        else if s.peers[p].once.Done? then Some(WithStack(s, g, k))
        else None
      case PeerBody(_) => Some(WithStack(s, g, Push(PeerCallback(p), k)))
      case PeerCallback(_) =>
        if p !in s.rooms[r].members then Some(WithStack(s, g, Push(PeerDone(p), k)))
        else
          var s' := TakeOut(s, p, r);
          if s'.rooms[r].members == {}
          then Some(WithStack(s', g, Push(CallRoomClose(r), Push(PeerDone(p), k))))
          else Some(WithStack(s', g, Push(PeerDone(p), k)))
      case PeerDone(_) => Some(WithStack(WithPeerOnce(s, p, Done), g, k))
  }

  function AdvanceRoom(s: State, g: Gid, t: Task, k: Stack, pick: nat): Option<State>
    requires t.ForRoom()
  {
    var r := t.r;
    if r !in s.rooms then None
    else
      match t
      case CallRoomClose(_) =>
        if s.rooms[r].once.Fresh? then Some(WithStack(WithRoomOnce(s, r, Running(g)), g, Push(RoomSwap(r), k)))
        else if s.rooms[r].once.Done? then Some(WithStack(s, g, k))
        else None
      case RoomSwap(_) =>
        var out := s.rooms[r].members;
        Some(WithStack(s.(rooms := s.rooms[r := s.rooms[r].(members := {})],
                          past := s.past.(removal := map p | p in s.past.removal ::
                                                      if p in out then BySwap else s.past.removal[p])),
                       g, Push(RoomLoop(r, out), k)))
      case RoomLoop(_, todo) =>
        if todo == {} then Some(WithStack(s, g, Push(RoomTail(r), k)))
        else if pick !in todo then None
        else
          var rest := Push(RoomLoop(r, todo - {pick}), k);
          Some(WithStack(s, g, Push(CallPeerClose(pick), Push(PeerGauge(pick), rest))))
      case RoomTail(_) =>
        var name := s.rooms[r].name;
        var s' := s.(past := s.past.(fired := s.past.fired + multiset{r}));
        if name !in s.registry then Some(WithStack(s', g, Push(RoomDone(r), k)))
        else Some(WithStack(s'.(registry := s.registry - {name},
                                past := s'.past.(dropped := s.past.dropped + {s.registry[name]})),
                            g, Push(RoomGauge(r), Push(RoomDone(r), k))))
      case RoomDone(_) => Some(WithStack(WithRoomOnce(s, r, Done), g, k))
  }

  function AdvanceOther(s: State, g: Gid, t: Task, k: Stack, pick: nat): Option<State>
    requires !t.ForPeer() && !t.ForRoom()
  {
    match t
    case PeerGauge(p) =>
      Some(WithStack(s.(peersGauge := s.peersGauge - 1,
                        past := s.past.(departures := s.past.departures + {p})), g, k))
    case RoomGauge(r) =>
      Some(WithStack(s.(roomsGauge := s.roomsGauge - 1,
                        past := s.past.(closings := s.past.closings + {r})), g, k))
    case JoinTail(p) =>
      Some(WithStack(s.(peersGauge := s.peersGauge + 1,
                        past := s.past.(arrivals := s.past.arrivals + {p})), g, k))
    case CreateTail(r) =>
      Some(WithStack(s.(roomsGauge := s.roomsGauge + 1,
                        past := s.past.(openings := s.past.openings + {r})), g, k))
    case CallServerClose =>
      if s.serverOnce.Fresh? then Some(WithStack(s.(serverOnce := Running(g)), g, Push(ServerSwap, k)))
      else if s.serverOnce.Done? then Some(WithStack(s, g, k))
      else None
    case ServerSwap =>
      var out := s.registry.Values;
      Some(WithStack(s.(closed := true, registry := map[], past := s.past.(swept := s.past.swept + out)),
                     g, Push(ServerLoop(out), k)))
    case ServerLoop(todo) =>
      if todo == {} then Some(WithStack(s, g, Push(ServerDone, k)))
      else if pick !in todo then None
      else Some(WithStack(s, g, Push(CallRoomClose(pick), Push(ServerLoop(todo - {pick}), k))))
    case ServerDone => Some(WithStack(s.(serverOnce := Done), g, k))
  }

  function Next(s: State, step: Step): Option<State> {
    if !step.Advance? then Spawn(s, step)
    else if step.g !in s.threads || s.threads[step.g].Empty? then None
    else
      var t, k := s.threads[step.g].top, s.threads[step.g].below;
      if t.ForPeer() then AdvancePeer(s, step.g, t, k)
      else if t.ForRoom() then AdvanceRoom(s, step.g, t, k, step.pick)
      else AdvanceOther(s, step.g, t, k, step.pick)
  }

  /** All calls have returned. */
  predicate Quiet(s: State) {
    forall g :: g in s.threads ==> s.threads[g].Empty?
  }

  function Run(s: State, steps: seq<Step>): Option<State> { Machines.Run(Next, s, steps) }

  // ---------------------------------------------------------------------------------------------------------------
  // The shape of a stack, innermost call first: a peer closed by a room's loop, that room, the peer whose callback
  // closed the room, the server.

  /** The stack without the peer that a room's loop is closing, and without the rest of onRoomClosed. */
  function Core(k: Stack): Stack {
    if k.Empty? then k
    else if k.top.PeerGauge? || k.top.RoomGauge? then k.below
    else if k.top.ForPeer() && k.below.Push? && k.below.top.PeerGauge? then k.below.below
    else k
  }

  /** What lies below the room being closed. */
  function Outer(k: Stack): Stack {
    var c := Core(k);
    if c.Push? && c.top.ForRoom() then c.below else c
  }

  /** The guards inside which the stack's goroutine is. */
  function PeersHeld(k: Stack): set<Peer> {
    (if k.Push? then k.top.PeersHeld() else {}) + (if Outer(k).Push? then Outer(k).top.PeersHeld() else {})
  }

  function RoomsHeld(k: Stack): set<Room> {
    if Core(k).Push? then Core(k).top.RoomsHeld() else {}
  }

  predicate HoldsServer(k: Stack) {
    Outer(k).Push? && Outer(k).top.HoldsServer()
  }

  predicate Taken(s: State, p: Peer, how: Removal) {
    p in s.peers && p in s.past.removal && s.past.removal[p] == how
  }

  /** The peer that the room's loop is closing was taken out of that room's map by the swap. */
  predicate InnerShape(s: State, k: Stack) {
    var c := Core(k);
    if k == c then true
    else if k.top.RoomGauge? then c.Push? && c.top == RoomDone(k.top.r)
    else
      && c.Push? && c.top.RoomLoop?
      && var p := k.top.p;
         && Taken(s, p, BySwap) && s.peers[p].room == c.top.r && p !in c.top.todo
         && p !in s.past.departures
         && (k.top.ForPeer() ==> k.below.top == PeerGauge(p))
  }

  predicate CoreShape(s: State, c: Stack) {
    c.Push? && c.top.ForRoom() ==>
      && c.top.r in s.rooms
      && (c.top.RoomLoop? ==> forall p :: p in c.top.todo ==>
            Taken(s, p, BySwap) && s.peers[p].room == c.top.r && p !in s.past.departures)
      && (c.below.Push? ==> c.below.top.ServerLoop? || (c.below.top.PeerDone? && Taken(s, c.below.top.p, ByPeer)))
  }

  predicate OuterShape(s: State, o: Stack) {
    o.Push? ==>
      if o.top.ForPeer() then
        && o.top.p in s.peers && s.peers[o.top.p].room in s.rooms
        && (o.below.Push? ==>
              && o.below.top.CallRoomClose? && o.below.top.r in s.rooms && o.below.below.Empty?
              && Taken(s, o.top.p, ByPeer))
      else
        && o.below.Empty?
        && !o.top.ForRoom() && !o.top.PeerGauge? && !o.top.RoomGauge?
        && (o.top.ServerLoop? ==> o.top.rooms <= s.rooms.Keys)
  }

  predicate Shape(s: State, k: Stack) {
    && InnerShape(s, k)
    && CoreShape(s, Core(k))
    && OuterShape(s, Outer(k))
    && (Outer(k).Push? && Outer(k) != k && Outer(k).top.ForPeer() ==> Outer(k).below.Empty?)
  }

  ghost predicate Shapes(s: State) {
    forall g {:trigger Shape(s, s.threads[g])} :: g in s.threads ==> Shape(s, s.threads[g])
  }

  predicate PeerBook(s: State, p: Peer) {
    && (p in s.peers <==> p in s.past.removal)
    && (p in s.past.departures ==> p in s.past.removal && !s.past.removal[p].InMap?)
    && (p in s.peers ==>
          var r := s.peers[p].room;
          r in s.rooms && (p in s.rooms[r].members <==> s.past.removal[p] == InMap))
  }

  predicate MemberBook(s: State, r: Room, p: Peer) {
    r in s.rooms && p in s.rooms[r].members ==> p in s.peers && s.peers[p].room == r
  }

  /** Maps, members and removal records agree. */
  ghost predicate Books(s: State) {
    && (forall p {:trigger PeerBook(s, p)} :: PeerBook(s, p))
    && (forall r, p {:trigger MemberBook(s, r, p)} :: MemberBook(s, r, p))
    && (forall n :: n in s.registry ==> s.registry[n] in s.rooms)
  }

  /** What goroutine g holds; nothing once it has finished. */
  function PeersHeldBy(s: State, g: Gid): set<Peer> { if g in s.threads then PeersHeld(s.threads[g]) else {} }
  function RoomsHeldBy(s: State, g: Gid): set<Room> { if g in s.threads then RoomsHeld(s.threads[g]) else {} }
  predicate ServerHeldBy(s: State, g: Gid) { g in s.threads && HoldsServer(s.threads[g]) }

  predicate PeerGuard(s: State, p: Peer) {
    p in s.peers && s.peers[p].once.Running? ==> p in PeersHeldBy(s, s.peers[p].once.holder)
  }

  predicate RoomGuard(s: State, r: Room) {
    r in s.rooms && s.rooms[r].once.Running? ==> r in RoomsHeldBy(s, s.rooms[r].once.holder)
  }

  predicate RoomHolder(s: State, g: Gid, r: Room) {
    r in RoomsHeldBy(s, g) ==> r in s.rooms && s.rooms[r].once == Running(g)
  }

  /** Whoever runs inside a guard has the matching task on its stack, and conversely for rooms. */
  ghost predicate PeerGuards(s: State) { forall p {:trigger PeerGuard(s, p)} :: PeerGuard(s, p) }
  ghost predicate RoomGuards(s: State) { forall r {:trigger RoomGuard(s, r)} :: RoomGuard(s, r) }
  ghost predicate RoomHolders(s: State) { forall g, r {:trigger RoomHolder(s, g, r)} :: RoomHolder(s, g, r) }
  ghost predicate ServerGuard(s: State) { s.serverOnce.Running? ==> ServerHeldBy(s, s.serverOnce.holder) }

  /** The peers whose departure the loop in this stack still has to count. */
  function Pending(k: Stack): set<Peer> {
    var c := Core(k);
    (if k != c && !k.top.RoomGauge? then {k.top.p} else {}) +
    (if c.Push? && c.top.RoomLoop? then c.top.todo else {})
  }

  ghost predicate Inv(s: State) {
    Shapes(s) && Books(s) && PeerGuards(s) && RoomGuards(s) && ServerGuard(s) && RoomHolders(s)
  }

  /** What the shape of a stack depends on only ever changes in these ways. */
  ghost predicate Later(s: State, s': State) {
    && s.peers.Keys <= s'.peers.Keys && s.rooms.Keys <= s'.rooms.Keys
    && (forall p :: p in s.peers ==> s'.peers[p].room == s.peers[p].room)
    && (forall p :: p in s.peers && p in s.past.removal && !s.past.removal[p].InMap? ==>
          p in s'.past.removal && s'.past.removal[p] == s.past.removal[p])
  }

  lemma ShapeIsStable(s: State, s': State, k: Stack)
    requires Shape(s, k) && Later(s, s')
    requires forall p :: p in Pending(k) ==> p !in s'.past.departures
    ensures Shape(s', k)
  {
    var c := Core(k);
    if k != c && !k.top.RoomGauge? {
      assert k.top.p in Pending(k);
    }
    if c.Push? && c.top.RoomLoop? {
      assert c.top.todo <= Pending(k);
    }
  }

  /** A pending departure belongs to the room whose guard the stack's goroutine holds. */
  lemma PendingBelongs(s: State, g: Gid, p: Peer)
    requires Inv(s) && g in s.threads && p in Pending(s.threads[g])
    ensures Taken(s, p, BySwap) && p !in s.past.departures
    ensures s.peers[p].room in s.rooms && s.rooms[s.peers[p].room].once == Running(g)
  {
    assert Shape(s, s.threads[g]);
    assert s.peers[p].room in RoomsHeldBy(s, g);
    assert RoomHolder(s, g, s.peers[p].room);
  }

  /** A step of g leaves every other stack in shape. */
  lemma OthersKeepShape(s: State, s': State, g: Gid)
    requires Inv(s) && Books(s) && Later(s, s')
    requires forall h :: h in s'.threads && h != g ==> h in s.threads && s'.threads[h] == s.threads[h]
    requires forall p :: p in s'.past.departures && p !in s.past.departures ==>
               || (p in s.past.removal && s.past.removal[p].InMap?)
               || (g in s.threads && p in Pending(s.threads[g]))
    ensures forall h {:trigger Shape(s', s'.threads[h])} :: h in s'.threads && h != g ==> Shape(s', s'.threads[h])
  {
    forall h | h in s'.threads && h != g ensures Shape(s', s'.threads[h]) {
      assert Shape(s, s.threads[h]);
      forall p | p in Pending(s.threads[h]) ensures p !in s'.past.departures {
        PendingBelongs(s, h, p);
        if g in s.threads && p in Pending(s.threads[g]) {
          PendingBelongs(s, g, p);
        }
      }
      ShapeIsStable(s, s', s.threads[h]);
    }
  }

  /** Only g's stack differs. */
  predicate OnlyMoves(s: State, s': State, g: Gid) {
    g in s'.threads && s'.threads == s.threads[g := s'.threads[g]]
  }

  lemma OthersAreSame(s: State, s': State, g: Gid, h: Gid)
    requires OnlyMoves(s, s', g) && h != g
    ensures h in s.threads <==> h in s'.threads
    ensures h in s.threads ==> s'.threads[h] == s.threads[h]
  {
  }

  /** The guards of peers other than p survive a step of g, and p's does too when g gains or releases it properly. */
  lemma PeerGuardsSurvive(s: State, s': State, g: Gid, p: Peer)
    requires PeerGuards(s) && OnlyMoves(s, s', g)
    requires PeersHeldBy(s, g) - {p} <= PeersHeldBy(s', g)
    requires forall q :: q in s'.peers && q != p && s'.peers[q].once.Running? ==>
               q in s.peers && s.peers[q].once == s'.peers[q].once
    requires p in s'.peers && s'.peers[p].once.Running? ==>
               || (s'.peers[p].once == Running(g) && p in PeersHeldBy(s', g))
               || (p in s.peers && s'.peers[p].once == s.peers[p].once && PeersHeldBy(s, g) <= PeersHeldBy(s', g))
    ensures PeerGuards(s')
  {
    forall q ensures PeerGuard(s', q) {
      assert PeerGuard(s, q);
      if q in s'.peers && s'.peers[q].once.Running? && s'.peers[q].once.holder != g {
        OthersAreSame(s, s', g, s'.peers[q].once.holder);
      }
    }
  }

  lemma RoomGuardsSurvive(s: State, s': State, g: Gid, r: Room)
    requires RoomGuards(s) && RoomHolders(s) && OnlyMoves(s, s', g)
    requires s.rooms.Keys <= s'.rooms.Keys
    requires RoomsHeldBy(s, g) - {r} == RoomsHeldBy(s', g) - {r}
    requires forall q :: q in s.rooms && q != r ==> s.rooms[q].once == s'.rooms[q].once
    requires forall q :: q in s'.rooms && q !in s.rooms ==> s'.rooms[q].once.Fresh?
    requires r in s.rooms && s.rooms[r].once == s'.rooms[r].once ==> RoomsHeldBy(s, g) == RoomsHeldBy(s', g)
    requires r in s.rooms && s.rooms[r].once != s'.rooms[r].once ==>
               && s.rooms[r].once in {Fresh, Running(g)}
               && (s'.rooms[r].once == if r in RoomsHeldBy(s', g) then Running(g) else Done)
    requires r !in s.rooms ==> r !in RoomsHeldBy(s', g)
    ensures RoomGuards(s') && RoomHolders(s')
  {
    forall q ensures RoomGuard(s', q) {
      assert RoomGuard(s, q);
      assert q in RoomsHeldBy(s, g) - {r} <==> q in RoomsHeldBy(s', g) - {r};
      if q in s'.rooms && s'.rooms[q].once.Running? && s'.rooms[q].once.holder != g {
        OthersAreSame(s, s', g, s'.rooms[q].once.holder);
      }
    }
    forall h, q ensures RoomHolder(s', h, q) {
      assert RoomHolder(s, h, q);
      assert q in RoomsHeldBy(s, g) - {r} <==> q in RoomsHeldBy(s', g) - {r};
      if h != g {
        OthersAreSame(s, s', g, h);
      }
    }
  }

  lemma ServerGuardSurvives(s: State, s': State, g: Gid)
    requires ServerGuard(s) && OnlyMoves(s, s', g)
    requires s'.serverOnce == s.serverOnce == Running(g) ==> ServerHeldBy(s', g)
    requires s'.serverOnce != s.serverOnce ==>
               s'.serverOnce.Done? || (s'.serverOnce == Running(g) && ServerHeldBy(s', g))
    ensures ServerGuard(s')
  {
    if s'.serverOnce.Running? && s'.serverOnce.holder != g {
      OthersAreSame(s, s', g, s.serverOnce.holder);
    }
  }

  /** All stacks are in shape when g's new one is. */
  lemma ShapesSurvive(s: State, s': State, g: Gid)
    requires Inv(s) && Later(s, s') && OnlyMoves(s, s', g)
    requires Shape(s', s'.threads[g])
    requires forall p :: p in s'.past.departures && p !in s.past.departures ==>
               || (p in s.past.removal && s.past.removal[p].InMap?)
               || (g in s.threads && p in Pending(s.threads[g]))
    ensures Shapes(s')
  {
    forall h | h in s'.threads && h != g ensures h in s.threads && s'.threads[h] == s.threads[h] {
      OthersAreSame(s, s', g, h);
    }
    OthersKeepShape(s, s', g);
  }

  // ---------------------------------------------------------------------------------------------------------------
  // What one task does to the shape of its stack and to what the stack holds.

  lemma PeerMoves(s: State, t: Task, t': Task, k: Stack)
    requires Shape(s, Push(t, k)) && t.ForPeer() && t'.ForPeer() && t'.p == t.p
    ensures Shape(s, Push(t', k))
    ensures RoomsHeld(Push(t', k)) == RoomsHeld(Push(t, k)) && HoldsServer(Push(t', k)) == HoldsServer(Push(t, k))
    ensures PeersHeld(Push(t, k)) - {t.p} <= PeersHeld(Push(t', k))
    ensures t'.PeersHeld() <= PeersHeld(Push(t', k))
    ensures Pending(Push(t', k)) == Pending(Push(t, k))
  {
  }

  lemma PeerPops(s: State, t: Task, k: Stack)
    requires Shape(s, Push(t, k)) && t.ForPeer()
    ensures Shape(s, k)
    ensures RoomsHeld(k) == RoomsHeld(Push(t, k)) && HoldsServer(k) == HoldsServer(Push(t, k))
    ensures PeersHeld(Push(t, k)) - {t.p} <= PeersHeld(k)
    ensures t.CallPeerClose? ==> PeersHeld(Push(t, k)) == PeersHeld(k)
    ensures Pending(k) == Pending(Push(t, k))
  {
  }

  /** A peer that is still in its room's map is not being closed by that room's loop, nor by Leave. */
  lemma InMapIsOutermost(s: State, t: Task, k: Stack)
    requires Shape(s, Push(t, k)) && t.ForPeer() && Taken(s, t.p, InMap)
    ensures k.Empty?
  {
  }

  lemma RoomMoves(s: State, t: Task, t': Task, k: Stack)
    requires Shape(s, Push(t, k)) && t.ForRoom() && t'.ForRoom() && t'.r == t.r
    requires t'.RoomLoop? ==> forall p :: p in t'.todo ==>
               Taken(s, p, BySwap) && s.peers[p].room == t.r && p !in s.past.departures
    ensures Shape(s, Push(t', k))
    ensures PeersHeld(Push(t', k)) == PeersHeld(Push(t, k)) && HoldsServer(Push(t', k)) == HoldsServer(Push(t, k))
    ensures RoomsHeld(Push(t', k)) == t'.RoomsHeld()
  {
  }

  lemma RoomPops(s: State, t: Task, k: Stack)
    requires Shape(s, Push(t, k)) && t.ForRoom()
    ensures Shape(s, k)
    ensures PeersHeld(Push(t, k)) == PeersHeld(k) && HoldsServer(k) == HoldsServer(Push(t, k))
    ensures RoomsHeld(k) == {}
  {
  }

  lemma LoopCalls(s: State, r: Room, todo: set<Peer>, k: Stack, p: Peer)
    requires Shape(s, Push(RoomLoop(r, todo), k)) && p in todo
    ensures var k' := Push(CallPeerClose(p), Push(PeerGauge(p), Push(RoomLoop(r, todo - {p}), k)));
            && Shape(s, k') && Pending(k') == todo
            && PeersHeld(k') == PeersHeld(Push(RoomLoop(r, todo), k))
            && RoomsHeld(k') == {r} && HoldsServer(k') == HoldsServer(Push(RoomLoop(r, todo), k))
  {
  }

  lemma TailMoves(s: State, r: Room, k: Stack)
    requires Shape(s, Push(RoomTail(r), k))
    ensures var k' := Push(RoomGauge(r), Push(RoomDone(r), k));
            && Shape(s, k') && Pending(k') == {}
            && PeersHeld(k') == PeersHeld(Push(RoomTail(r), k))
            && RoomsHeld(k') == {r} && HoldsServer(k') == HoldsServer(Push(RoomTail(r), k))
  {
  }

  lemma GaugePops(s: State, t: Task, k: Stack)
    requires Shape(s, Push(t, k)) && (t.PeerGauge? || t.RoomGauge?)
    ensures Shape(s, k)
    ensures PeersHeld(Push(t, k)) == PeersHeld(k) && HoldsServer(k) == HoldsServer(Push(t, k))
    ensures RoomsHeld(k) == RoomsHeld(Push(t, k))
    ensures t.PeerGauge? ==> Pending(k) == Pending(Push(t, k)) - {t.p} && t.p in Pending(Push(t, k))
  {
  }

  lemma OtherMoves(s: State, t: Task, k: Stack)
    requires Shape(s, Push(t, k))
    requires t.ForServer() || t.JoinTail? || t.CreateTail?
    ensures k.Empty? && PeersHeld(Push(t, k)) == {} && RoomsHeld(Push(t, k)) == {}
    ensures HoldsServer(Push(t, k)) == t.HoldsServer()
  {
  }

  /** The stacks of a goroutine that runs Server.Close. */
  predicate ServerStack(s: State, k: Stack) {
    && k.Push?
    && (k.top.CallRoomClose? ==>
          k.top.r in s.rooms && k.below.Push? && k.below.top.ServerLoop? && ServerStack(s, k.below))
    && (!k.top.CallRoomClose? ==> k.top.HoldsServer() && k.below.Empty?)
    && (k.top.ServerLoop? ==> k.top.rooms <= s.rooms.Keys)
  }

  lemma ServerStackMoves(s: State, k: Stack)
    requires ServerStack(s, k)
    ensures Shape(s, k) && PeersHeld(k) == {} && RoomsHeld(k) == {} && HoldsServer(k) && Pending(k) == {}
  {
  }

  // ---------------------------------------------------------------------------------------------------------------
  // Every step keeps the invariant.

  /** The books do not depend on guards, stacks and gauges. */
  predicate SameBooks(s: State, s': State) {
    && s'.registry == s.registry && s'.past.removal == s.past.removal
    && (forall p :: p in s'.past.departures ==>
          p in s.past.departures || (p in s.past.removal && !s.past.removal[p].InMap?))
    && s'.peers.Keys == s.peers.Keys && s'.rooms.Keys == s.rooms.Keys
    && (forall p :: p in s.peers ==> s'.peers[p].room == s.peers[p].room)
    && (forall r :: r in s.rooms ==> s'.rooms[r].members == s.rooms[r].members)
  }

  lemma BooksSurvive(s: State, s': State)
    requires Books(s) && SameBooks(s, s')
    ensures Books(s') && Later(s, s')
  {
    forall p ensures PeerBook(s', p) { assert PeerBook(s, p); }
    forall r, p ensures MemberBook(s', r, p) { assert MemberBook(s, r, p); }
  }

  /** A step of g that touches neither guards nor books: it is enough to look at g's stack. */
  lemma QuietStepKeepsInv(s: State, s': State, g: Gid)
    requires Inv(s) && g in s.threads && OnlyMoves(s, s', g) && Books(s') && Later(s, s')
    requires Shape(s', s'.threads[g])
    requires PeersHeldBy(s, g) <= PeersHeldBy(s', g)
    requires RoomsHeldBy(s, g) == RoomsHeldBy(s', g)
    requires ServerHeldBy(s, g) ==> ServerHeldBy(s', g)
    requires s'.peers.Keys == s.peers.Keys && s'.rooms.Keys == s.rooms.Keys && s'.serverOnce == s.serverOnce
    requires forall p :: p in s.peers ==> s'.peers[p].once == s.peers[p].once
    requires forall r :: r in s.rooms ==> s'.rooms[r].once == s.rooms[r].once
    requires forall p :: p in s'.past.departures && p !in s.past.departures ==>
               || (p in s.past.removal && s.past.removal[p].InMap?) || p in Pending(s.threads[g])
    ensures Inv(s')
  {
    ShapesSurvive(s, s', g);
    PeerGuardsSurvive(s, s', g, 0);
    RoomGuardsSurvive(s, s', g, 0);
    ServerGuardSurvives(s, s', g);
  }

  /** The same when the step also enters or leaves the guard of p. */
  lemma PeerGuardStepKeepsInv(s: State, s': State, g: Gid, p: Peer)
    requires Inv(s) && g in s.threads && OnlyMoves(s, s', g) && SameBooks(s, s')
    requires Shape(s', s'.threads[g])
    requires PeersHeldBy(s, g) - {p} <= PeersHeldBy(s', g)
    requires RoomsHeldBy(s, g) == RoomsHeldBy(s', g)
    requires ServerHeldBy(s, g) ==> ServerHeldBy(s', g)
    requires s'.rooms == s.rooms && s'.serverOnce == s.serverOnce && s'.past == s.past
    requires forall q :: q in s'.peers && q != p ==> q in s.peers && s.peers[q].once == s'.peers[q].once
    requires p in s'.peers && s'.peers[p].once.Running? ==> s'.peers[p].once == Running(g) && p in PeersHeldBy(s', g)
    ensures Inv(s')
  {
    BooksSurvive(s, s');
    ShapesSurvive(s, s', g);
    PeerGuardsSurvive(s, s', g, p);
    RoomGuardsSurvive(s, s', g, 0);
    ServerGuardSurvives(s, s', g);
  }

  lemma RoomGuardStepKeepsInv(s: State, s': State, g: Gid, r: Room)
    requires Inv(s) && g in s.threads && OnlyMoves(s, s', g) && SameBooks(s, s') && r in s.rooms
    requires Shape(s', s'.threads[g])
    requires PeersHeldBy(s, g) <= PeersHeldBy(s', g)
    requires RoomsHeldBy(s, g) - {r} == RoomsHeldBy(s', g) - {r}
    requires ServerHeldBy(s, g) ==> ServerHeldBy(s', g)
    requires s'.peers == s.peers && s'.serverOnce == s.serverOnce && s'.past == s.past
    requires forall q :: q in s.rooms && q != r ==> s.rooms[q].once == s'.rooms[q].once
    requires s.rooms[r].once in {Fresh, Running(g)} && s.rooms[r].once != s'.rooms[r].once
    requires s'.rooms[r].once == if r in RoomsHeldBy(s', g) then Running(g) else Done
    ensures Inv(s')
  {
    BooksSurvive(s, s');
    ShapesSurvive(s, s', g);
    PeerGuardsSurvive(s, s', g, 0);
    RoomGuardsSurvive(s, s', g, r);
    ServerGuardSurvives(s, s', g);
  }

  lemma PeerOnceKeepsBooks(s: State, p: Peer, once: Once, g: Gid, k: Stack)
    requires Books(s) && p in s.peers
    ensures var s' := WithStack(WithPeerOnce(s, p, once), g, k); SameBooks(s, s') && Later(s, s')
  {
    BooksSurvive(s, WithStack(WithPeerOnce(s, p, once), g, k));
  }

  lemma RoomOnceKeepsBooks(s: State, r: Room, once: Once, g: Gid, k: Stack)
    requires Books(s) && r in s.rooms
    ensures var s' := WithStack(WithRoomOnce(s, r, once), g, k); SameBooks(s, s') && Later(s, s')
  {
    BooksSurvive(s, WithStack(WithRoomOnce(s, r, once), g, k));
  }

  lemma EnterPeer(s: State, g: Gid, p: Peer, k: Stack)
    requires Inv(s) && g in s.threads && s.threads[g] == Push(CallPeerClose(p), k)
    requires p in s.peers && s.peers[p].once.Fresh?
    ensures Inv(WithStack(WithPeerOnce(s, p, Running(g)), g, Push(PeerBody(p), k)))
  {
    var s' := WithStack(WithPeerOnce(s, p, Running(g)), g, Push(PeerBody(p), k));
    assert Shape(s, s.threads[g]);
    PeerMoves(s, CallPeerClose(p), PeerBody(p), k);
    PeerOnceKeepsBooks(s, p, Running(g), g, Push(PeerBody(p), k));
    ShapeIsStable(s, s', Push(PeerBody(p), k));
    PeerGuardStepKeepsInv(s, s', g, p);
  }

  lemma LeavePeer(s: State, g: Gid, p: Peer, k: Stack)
    requires Inv(s) && g in s.threads && s.threads[g] == Push(PeerDone(p), k) && p in s.peers
    ensures Inv(WithStack(WithPeerOnce(s, p, Done), g, k))
  {
    var s' := WithStack(WithPeerOnce(s, p, Done), g, k);
    assert Shape(s, s.threads[g]);
    PeerPops(s, PeerDone(p), k);
    PeerOnceKeepsBooks(s, p, Done, g, k);
    ShapeIsStable(s, s', k);
    PeerGuardStepKeepsInv(s, s', g, p);
  }

  /** Delete p from the map: the books follow, and nothing a stack depends on is lost. */
  lemma TakeOutKeepsBooks(s: State, p: Peer, r: Room)
    requires Books(s) && p in s.peers && s.peers[p].room == r && r in s.rooms && p in s.rooms[r].members
    ensures Books(TakeOut(s, p, r)) && Later(s, TakeOut(s, p, r)) && Taken(TakeOut(s, p, r), p, ByPeer)
    ensures Taken(s, p, InMap)
  {
    var s' := TakeOut(s, p, r);
    assert PeerBook(s, p);
    forall q ensures PeerBook(s', q) { assert PeerBook(s, q); }
    forall q, m ensures MemberBook(s', q, m) { assert MemberBook(s, q, m); }
  }

  lemma CallbackFindsNothing(s: State, g: Gid, p: Peer, k: Stack)
    requires Inv(s) && g in s.threads && s.threads[g] == Push(PeerCallback(p), k)
    ensures Inv(WithStack(s, g, Push(PeerDone(p), k)))
  {
    var s' := WithStack(s, g, Push(PeerDone(p), k));
    assert Shape(s, s.threads[g]);
    PeerMoves(s, PeerCallback(p), PeerDone(p), k);
    PeerMoves(s, PeerCallback(p), PeerCallback(p), k);
    BooksSurvive(s, s');
    ShapeIsStable(s, s', Push(PeerDone(p), k));
    QuietStepKeepsInv(s, s', g);
  }

  lemma CallbackTakesOut(s: State, g: Gid, p: Peer, r: Room, k: Stack, k': Stack)
    requires Inv(s) && g in s.threads && s.threads[g] == Push(PeerCallback(p), k)
    requires p in s.peers && s.peers[p].room == r && r in s.rooms && p in s.rooms[r].members
    requires k' == Push(PeerDone(p), k) || k' == Push(CallRoomClose(r), Push(PeerDone(p), k))
    ensures Inv(WithStack(TakeOut(s, p, r), g, k'))
  {
    var s' := WithStack(TakeOut(s, p, r), g, k');
    TakeOutKeepsBooks(s, p, r);
    BooksSurvive(TakeOut(s, p, r), s');
    assert Shape(s, s.threads[g]);
    InMapIsOutermost(s, PeerCallback(p), k);
    CallbackStack(s, s', p, r, k');
    QuietStepKeepsInv(s, s', g);
  }

  lemma CallbackStack(s: State, s': State, p: Peer, r: Room, k': Stack)
    requires k' == Push(PeerDone(p), Empty) || k' == Push(CallRoomClose(r), Push(PeerDone(p), Empty))
    requires Taken(s', p, ByPeer) && s'.peers[p].room == r && r in s'.rooms
    ensures Shape(s', k') && PeersHeld(k') == {p} == PeersHeld(Push(PeerCallback(p), Empty)) && RoomsHeld(k') == {}
    ensures RoomsHeld(Push(PeerCallback(p), Empty)) == {} && !HoldsServer(Push(PeerCallback(p), Empty))
  {
  }

  lemma EnterRoom(s: State, g: Gid, r: Room, k: Stack)
    requires Inv(s) && g in s.threads && s.threads[g] == Push(CallRoomClose(r), k)
    requires r in s.rooms && s.rooms[r].once.Fresh?
    ensures Inv(WithStack(WithRoomOnce(s, r, Running(g)), g, Push(RoomSwap(r), k)))
  {
    var s' := WithStack(WithRoomOnce(s, r, Running(g)), g, Push(RoomSwap(r), k));
    assert Shape(s, s.threads[g]);
    RoomMoves(s, CallRoomClose(r), RoomSwap(r), k);
    RoomMoves(s, CallRoomClose(r), CallRoomClose(r), k);
    RoomOnceKeepsBooks(s, r, Running(g), g, Push(RoomSwap(r), k));
    ShapeIsStable(s, s', Push(RoomSwap(r), k));
    RoomGuardStepKeepsInv(s, s', g, r);
  }

  lemma LeaveRoom(s: State, g: Gid, r: Room, k: Stack)
    requires Inv(s) && g in s.threads && s.threads[g] == Push(RoomDone(r), k) && r in s.rooms
    ensures Inv(WithStack(WithRoomOnce(s, r, Done), g, k))
  {
    var s' := WithStack(WithRoomOnce(s, r, Done), g, k);
    assert Shape(s, s.threads[g]);
    RoomPops(s, RoomDone(r), k);
    RoomMoves(s, RoomDone(r), RoomDone(r), k);
    assert RoomHolder(s, g, r);
    RoomOnceKeepsBooks(s, r, Done, g, k);
    ShapeIsStable(s, s', k);
    RoomGuardStepKeepsInv(s, s', g, r);
  }

  /** The swap: everybody still in the map is now the loop's business. */
  lemma SwapKeepsInv(s: State, g: Gid, r: Room, k: Stack)
    requires Inv(s) && g in s.threads && s.threads[g] == Push(RoomSwap(r), k) && r in s.rooms
    ensures Inv(AdvanceRoom(s, g, RoomSwap(r), k, 0).value)
  {
    var s' := AdvanceRoom(s, g, RoomSwap(r), k, 0).value;
    var out := s.rooms[r].members;
    assert Shape(s, s.threads[g]);
    forall p ensures PeerBook(s', p) { assert PeerBook(s, p); assert MemberBook(s, r, p); }
    forall q, p ensures MemberBook(s', q, p) { assert MemberBook(s, q, p); }
    forall p | p in s.past.removal && !s.past.removal[p].InMap? ensures s'.past.removal[p] == s.past.removal[p] {
      assert PeerBook(s, p);
      assert MemberBook(s, r, p);
    }
    forall p | p in out ensures Taken(s', p, BySwap) && s'.peers[p].room == r && p !in s'.past.departures {
      assert PeerBook(s, p);
      assert MemberBook(s, r, p);
    }
    ShapeIsStable(s, s', Push(RoomSwap(r), k));
    RoomMoves(s, RoomSwap(r), RoomSwap(r), k);
    RoomMoves(s', RoomSwap(r), RoomLoop(r, out), k);
    QuietStepKeepsInv(s, s', g);
  }

  /** Room tasks that change neither a guard nor the books. */
  lemma RoomTaskMoves(s: State, g: Gid, r: Room, t: Task, k: Stack, k': Stack)
    requires Inv(s) && g in s.threads && s.threads[g] == Push(t, k)
    requires (t == RoomLoop(r, {}) && k' == Push(RoomTail(r), k)) || (t == RoomTail(r) && k' == Push(RoomDone(r), k)) ||
             (t == RoomTail(r) && k' == Push(RoomGauge(r), Push(RoomDone(r), k)))
    ensures Shape(s, k') && PeersHeld(k') == PeersHeld(Push(t, k)) && HoldsServer(k') == HoldsServer(Push(t, k))
    ensures RoomsHeld(k') == {r} == RoomsHeld(Push(t, k)) && Pending(k') == {}
  {
    assert Shape(s, s.threads[g]);
    RoomMoves(s, t, t, k);
    if t.RoomLoop? { RoomMoves(s, t, RoomTail(r), k); }
    else { RoomMoves(s, t, RoomDone(r), k); TailMoves(s, r, k); }
  }

  lemma LoopEndsKeepsInv(s: State, g: Gid, r: Room, k: Stack)
    requires Inv(s) && g in s.threads && s.threads[g] == Push(RoomLoop(r, {}), k)
    ensures Inv(WithStack(s, g, Push(RoomTail(r), k)))
  {
    var s' := WithStack(s, g, Push(RoomTail(r), k));
    RoomTaskMoves(s, g, r, RoomLoop(r, {}), k, Push(RoomTail(r), k));
    BooksSurvive(s, s');
    ShapeIsStable(s, s', Push(RoomTail(r), k));
    QuietStepKeepsInv(s, s', g);
  }

  lemma LoopCallsKeepsInv(s: State, g: Gid, r: Room, todo: set<Peer>, k: Stack, p: Peer)
    requires Inv(s) && g in s.threads && s.threads[g] == Push(RoomLoop(r, todo), k) && p in todo
    ensures Inv(WithStack(s, g, Push(CallPeerClose(p), Push(PeerGauge(p), Push(RoomLoop(r, todo - {p}), k)))))
  {
    var k' := Push(CallPeerClose(p), Push(PeerGauge(p), Push(RoomLoop(r, todo - {p}), k)));
    var s' := WithStack(s, g, k');
    assert Shape(s, s.threads[g]);
    LoopCalls(s, r, todo, k, p);
    BooksSurvive(s, s');
    forall q | q in todo ensures q !in s.past.departures { PendingBelongs(s, g, q); }
    ShapeIsStable(s, s', k');
    QuietStepKeepsInv(s, s', g);
  }

  lemma TailKeepsBooks(s: State, s': State, g: Gid, r: Room, k: Stack)
    requires Books(s) && r in s.rooms && AdvanceRoom(s, g, RoomTail(r), k, 0) == Some(s')
    ensures Books(s') && Later(s, s')
  {
    forall p ensures PeerBook(s', p) { assert PeerBook(s, p); }
    forall q, p ensures MemberBook(s', q, p) { assert MemberBook(s, q, p); }
  }

  lemma TailKeepsInv(s: State, g: Gid, r: Room, k: Stack)
    requires Inv(s) && g in s.threads && s.threads[g] == Push(RoomTail(r), k) && r in s.rooms
    ensures Inv(AdvanceRoom(s, g, RoomTail(r), k, 0).value)
  {
    var s' := AdvanceRoom(s, g, RoomTail(r), k, 0).value;
    RoomTaskMoves(s, g, r, RoomTail(r), k, s'.threads[g]);
    TailKeepsBooks(s, s', g, r, k);
    ShapeIsStable(s, s', s'.threads[g]);
    QuietStepKeepsInv(s, s', g);
  }

  /** The rest of Room.Close's loop body, or of onRoomClosed: a gauge. */
  lemma GaugeKeepsInv(s: State, g: Gid, t: Task, k: Stack)
    requires Inv(s) && g in s.threads && s.threads[g] == Push(t, k) && (t.PeerGauge? || t.RoomGauge?)
    ensures Inv(AdvanceOther(s, g, t, k, 0).value)
  {
    var s' := AdvanceOther(s, g, t, k, 0).value;
    assert Shape(s, s.threads[g]);
    GaugePops(s, t, k);
    if t.PeerGauge? { PendingBelongs(s, g, t.p); }
    forall q | q in Pending(k) ensures q !in s'.past.departures {
      if t.PeerGauge? { PendingBelongs(s, g, q); }
    }
    BooksSurvive(s, s');
    ShapeIsStable(s, s', k);
    QuietStepKeepsInv(s, s', g);
  }

  lemma LastTaskFacts(s: State, s': State, g: Gid, t: Task)
    requires g in s.threads && s.threads[g] == Push(t, Empty)
    requires t.ForServer() || t.JoinTail? || t.CreateTail?
    requires AdvanceOther(s, g, t, Empty, 0) == Some(s') && s'.threads[g].Empty?
    ensures OnlyMoves(s, s', g) && SameBooks(s, s')
    ensures s'.serverOnce == s.serverOnce ==> !t.HoldsServer() || s.serverOnce.Done?
    ensures s'.serverOnce != s.serverOnce ==> s'.serverOnce.Done?
    ensures s'.rooms == s.rooms && s'.peers == s.peers && s'.past.departures == s.past.departures
  {
  }

  /** Goroutines that end: Join, CreateRoom, Server.Close. */
  lemma LastTaskKeepsInv(s: State, s': State, g: Gid, t: Task, k: Stack)
    requires Inv(s) && g in s.threads && s.threads[g] == Push(t, k)
    requires t.ForServer() || t.JoinTail? || t.CreateTail?
    requires AdvanceOther(s, g, t, k, 0) == Some(s') && s'.threads[g].Empty?
    ensures Inv(s')
  {
    assert Shape(s, s.threads[g]);
    OtherMoves(s, t, k);
    LastTaskFacts(s, s', g, t);
    BooksSurvive(s, s');
    ShapesSurvive(s, s', g);
    PeerGuardsSurvive(s, s', g, 0);
    RoomGuardsSurvive(s, s', g, 0);
    ServerGuardSurvives(s, s', g);
  }

  lemma ServerTaskStack(s: State, s': State, g: Gid, t: Task, pick: nat)
    requires g in s.threads && s.threads[g] == Push(t, Empty) && t.ForServer()
    requires t.ServerLoop? ==> t.rooms <= s.rooms.Keys
    requires forall n :: n in s.registry ==> s.registry[n] in s.rooms
    requires AdvanceOther(s, g, t, Empty, pick) == Some(s') && s'.threads[g].Push?
    ensures ServerStack(s, s'.threads[g])
  {
    if t.ServerSwap? {
      assert s'.threads[g] == Push(ServerLoop(s.registry.Values), Empty);
    }
  }

  lemma ServerTaskFields(s: State, s': State, g: Gid, t: Task, pick: nat)
    requires t.ForServer() && AdvanceOther(s, g, t, Empty, pick) == Some(s') && s'.threads[g].Push?
    ensures OnlyMoves(s, s', g)
    ensures s'.serverOnce == s.serverOnce || s'.serverOnce == Running(g)
    ensures s'.rooms == s.rooms && s'.peers == s.peers && s'.past == s.past.(swept := s'.past.swept)
    ensures s'.registry == s.registry || s'.registry == map[]
  {
  }

  lemma ServerTaskKeepsInv(s: State, s': State, g: Gid, t: Task, k: Stack, pick: nat)
    requires Inv(s) && g in s.threads && s.threads[g] == Push(t, k) && t.ForServer()
    requires AdvanceOther(s, g, t, k, pick) == Some(s') && s'.threads[g].Push?
    ensures Inv(s')
  {
    assert Shape(s, s.threads[g]);
    OtherMoves(s, t, k);
    ServerTaskFields(s, s', g, t, pick);
    ServerTaskStack(s, s', g, t, pick);
    forall p ensures PeerBook(s', p) { assert PeerBook(s, p); }
    forall q, p ensures MemberBook(s', q, p) { assert MemberBook(s, q, p); }
    ServerStackMoves(s, s'.threads[g]);
    ShapeIsStable(s, s', s'.threads[g]);
    ShapesSurvive(s, s', g);
    PeerGuardsSurvive(s, s', g, 0);
    RoomGuardsSurvive(s, s', g, 0);
    ServerGuardSurvives(s, s', g);
  }

  /** CallPeerClose and CallRoomClose on a guard that is Done return at once. */
  lemma ReturnsAtOnce(s: State, g: Gid, t: Task, k: Stack)
    requires Inv(s) && g in s.threads && s.threads[g] == Push(t, k) && (t.CallPeerClose? || t.CallRoomClose?)
    ensures Inv(WithStack(s, g, k))
  {
    var s' := WithStack(s, g, k);
    assert Shape(s, s.threads[g]);
    if t.CallPeerClose? { PeerPops(s, t, k); PeerMoves(s, t, t, k); }
    else { RoomPops(s, t, k); RoomMoves(s, t, t, k); }
    BooksSurvive(s, s');
    forall q | q in Pending(k) ensures q !in s.past.departures { if t.CallPeerClose? { PendingBelongs(s, g, q); } }
    ShapeIsStable(s, s', k);
    QuietStepKeepsInv(s, s', g);
  }

  /** A new goroutine holds nothing; it is enough to look at its stack and at the books. */
  lemma NewGoroutineKeepsInv(s: State, s': State, g: Gid)
    requires Inv(s) && g !in s.threads && OnlyMoves(s, s', g) && Books(s') && Later(s, s')
    requires Shape(s', s'.threads[g]) && PeersHeld(s'.threads[g]) == {} && RoomsHeld(s'.threads[g]) == {}
    requires s'.serverOnce == s.serverOnce
    requires forall p :: p in s'.peers ==> s'.peers[p].once == (if p in s.peers then s.peers[p].once else Fresh)
    requires forall r :: r in s'.rooms ==> s'.rooms[r].once == (if r in s.rooms then s.rooms[r].once else Fresh)
    requires forall p :: p in s'.past.departures && p !in s.past.departures ==>
               p in s.past.removal && s.past.removal[p].InMap?
    ensures Inv(s')
  {
    ShapesSurvive(s, s', g);
    PeerGuardsSurvive(s, s', g, 0);
    RoomGuardsSurvive(s, s', g, 0);
    ServerGuardSurvives(s, s', g);
  }

  lemma LeaveStarts(s: State, s': State, g: Gid, p: Peer)
    requires Inv(s) && Spawn(s, Leave(g, p)) == Some(s')
    ensures Inv(s')
  {
    var r := s.peers[p].room;
    TakeOutKeepsBooks(s, p, r);
    BooksSurvive(TakeOut(s, p, r), s');
    assert PeerBook(s', p);
    NewGoroutineKeepsInv(s, s', g);
  }

  lemma JoinStarts(s: State, s': State, g: Gid, p: Peer, r: Room)
    requires Inv(s) && Spawn(s, Join(g, p, r)) == Some(s')
    ensures Inv(s')
  {
    assert PeerBook(s, p);
    forall q ensures PeerBook(s', q) { assert PeerBook(s, q); }
    forall q, m ensures MemberBook(s', q, m) { assert MemberBook(s, q, m); }
    NewGoroutineKeepsInv(s, s', g);
  }

  lemma CreateRoomStarts(s: State, s': State, g: Gid, r: Room, name: Name)
    requires Inv(s) && Spawn(s, CreateRoom(g, r, name)) == Some(s')
    ensures Inv(s')
  {
    NewRoomKeepsBooks(s, s', g, r, name);
    NewGoroutineKeepsInv(s, s', g);
  }

  lemma NewRoomKeepsBooks(s: State, s': State, g: Gid, r: Room, name: Name)
    requires Books(s) && Spawn(s, CreateRoom(g, r, name)) == Some(s')
    ensures Books(s') && Later(s, s')
  {
    forall q ensures PeerBook(s', q) { assert PeerBook(s, q); }
    forall q, m ensures MemberBook(s', q, m) { assert MemberBook(s, q, m); }
  }

  lemma CloseStarts(s: State, s': State, step: Step)
    requires Inv(s) && (step.Disconnect? || step.CloseRoom? || step.CloseServer?) && Spawn(s, step) == Some(s')
    ensures Inv(s')
  {
    CloseStack(s, s', step);
    BooksSurvive(s, s');
    NewGoroutineKeepsInv(s, s', step.g);
  }

  lemma CloseStack(s: State, s': State, step: Step)
    requires Books(s) && (step.Disconnect? || step.CloseRoom? || step.CloseServer?) && Spawn(s, step) == Some(s')
    ensures s' == s.(threads := s.threads[step.g := s'.threads[step.g]])
    ensures Shape(s', s'.threads[step.g]) && PeersHeld(s'.threads[step.g]) == {} && RoomsHeld(s'.threads[step.g]) == {}
  {
    if step.Disconnect? { assert PeerBook(s, step.p); }
  }

  lemma StepKeepsInv(s: State, s': State, step: Step)
    requires Inv(s) && Next(s, step) == Some(s')
    ensures Inv(s')
  {
    match step
    case CreateRoom(g, r, name) => CreateRoomStarts(s, s', g, r, name);
    case Join(g, p, r) => JoinStarts(s, s', g, p, r);
    case Leave(g, p) => LeaveStarts(s, s', g, p);
    case Advance(g, pick) => AdvanceKeepsInv(s, s', g, pick);
    case _ => CloseStarts(s, s', step);
  }

  lemma AdvanceKeepsInv(s: State, s': State, g: Gid, pick: nat)
    requires Inv(s) && Next(s, Advance(g, pick)) == Some(s')
    ensures Inv(s')
  {
    var t, k := s.threads[g].top, s.threads[g].below;
    if t.ForPeer() { PeerTaskKeepsInv(s, s', g, t, k); }
    else if t.ForRoom() { RoomTaskKeepsInv(s, s', g, t, k, pick); }
    else if t.PeerGauge? || t.RoomGauge? { GaugeKeepsInv(s, g, t, k); }
    else {
      assert Shape(s, s.threads[g]);
      OtherMoves(s, t, k);
      if s'.threads[g].Push? { ServerTaskKeepsInv(s, s', g, t, k, pick); }
      else { LastTaskKeepsInv(s, s', g, t, k); }
    }
  }

  lemma PeerTaskKeepsInv(s: State, s': State, g: Gid, t: Task, k: Stack)
    requires Inv(s) && g in s.threads && s.threads[g] == Push(t, k)
    requires t.ForPeer() && AdvancePeer(s, g, t, k) == Some(s')
    ensures Inv(s')
  {
    match t
    case CallPeerClose(p) => if s.peers[p].once.Fresh? { EnterPeer(s, g, p, k); } else { ReturnsAtOnce(s, g, t, k); }
    case PeerBody(p) => PeerBodyKeepsInv(s, g, p, k);
    case PeerCallback(p) => CallbackKeepsInv(s, s', g, p, k);
    case PeerDone(p) => LeavePeer(s, g, p, k);
  }

  lemma RoomTaskKeepsInv(s: State, s': State, g: Gid, t: Task, k: Stack, pick: nat)
    requires Inv(s) && g in s.threads && s.threads[g] == Push(t, k) && t.ForRoom()
    requires AdvanceRoom(s, g, t, k, pick) == Some(s')
    ensures Inv(s')
  {
    match t
    case CallRoomClose(r) => if s.rooms[r].once.Fresh? { EnterRoom(s, g, r, k); } else { ReturnsAtOnce(s, g, t, k); }
    case RoomSwap(r) => SwapKeepsInv(s, g, r, k);
    case RoomLoop(r, todo) =>
      if todo == {} { LoopEndsKeepsInv(s, g, r, k); } else { LoopCallsKeepsInv(s, g, r, todo, k, pick); }
    case RoomTail(r) => TailKeepsInv(s, g, r, k);
    case RoomDone(r) => LeaveRoom(s, g, r, k);
  }

  lemma PeerBodyKeepsInv(s: State, g: Gid, p: Peer, k: Stack)
    requires Inv(s) && g in s.threads && s.threads[g] == Push(PeerBody(p), k)
    ensures Inv(WithStack(s, g, Push(PeerCallback(p), k)))
  {
    var s' := WithStack(s, g, Push(PeerCallback(p), k));
    assert Shape(s, s.threads[g]);
    PeerMoves(s, PeerBody(p), PeerCallback(p), k);
    PeerMoves(s, PeerBody(p), PeerBody(p), k);
    BooksSurvive(s, s');
    ShapeIsStable(s, s', Push(PeerCallback(p), k));
    QuietStepKeepsInv(s, s', g);
  }

  lemma CallbackKeepsInv(s: State, s': State, g: Gid, p: Peer, k: Stack)
    requires Inv(s) && g in s.threads && s.threads[g] == Push(PeerCallback(p), k)
    requires AdvancePeer(s, g, PeerCallback(p), k) == Some(s')
    ensures Inv(s')
  {
    var r := s.peers[p].room;
    if p !in s.rooms[r].members {
      CallbackFindsNothing(s, g, p, k);
    } else {
      CallbackTakesOut(s, g, p, r, k, s'.threads[g]);
    }
  }

  lemma {:induction false} RunKeepsInv(s: State, steps: seq<Step>)
    requires Inv(s) && Run(s, steps).Some?
    ensures Inv(Run(s, steps).value)
    decreases |steps|
  {
    if steps != [] {
      StepKeepsInv(s, Next(s, steps[0]).value, steps[0]);
      RunKeepsInv(Next(s, steps[0]).value, steps[1..]);
    }
  }
}
