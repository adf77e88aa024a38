/**
 * What the gauges and the registry say over whole runs of the closing protocol: every departing peer is counted once,
 * onClose fires at most once and finds its own room in the registry, an emptied room is never forgotten, and the
 * rooms gauge is off by exactly the rooms that Server.Close took out of the registry.
 */
module CloseCounting {
  import opened Options
  import opened Collections
  import opened CloseProtocol

  predicate Joining(s: State, g: Gid, p: Peer) {
    g in s.threads && s.threads[g] == Push(JoinTail(p), Empty)
  }

  predicate Opening(s: State, g: Gid, r: Room) {
    g in s.threads && s.threads[g] == Push(CreateTail(r), Empty)
  }

  /** g is between taking r out of the registry and the gauge. */
  predicate Dropping(s: State, g: Gid, r: Room) {
    g in s.threads && s.threads[g].Push? && s.threads[g].top == RoomGauge(r)
  }

  /** g has yet to call onClose for r. */
  predicate BeforeTail(s: State, g: Gid, r: Room) {
    && g in s.threads && Core(s.threads[g]).Push?
    && Core(s.threads[g]).top.ForRoom() && Core(s.threads[g]).top.r == r
    && !Core(s.threads[g]).top.CallRoomClose? && !Core(s.threads[g]).top.RoomDone?
  }

  predicate CallsClose(k: Stack, r: Room) {
    k.Push? && (k.top == CallRoomClose(r) || (k.below.Push? && k.below.top == CallRoomClose(r)))
  }

  /** g will call r.Close, now or after the peer it is closing in Leave. */
  predicate WillClose(s: State, g: Gid, r: Room) {
    g in s.threads && CallsClose(s.threads[g], r)
  }

  function PendingBy(s: State, g: Gid): set<Peer> {
    if g in s.threads then Pending(s.threads[g]) else {}
  }

  predicate Listed(s: State, r: Room) {
    r in s.rooms && s.rooms[r].name in s.registry && s.registry[s.rooms[r].name] == r
  }

  ghost predicate Arrives(s: State, p: Peer) {
    && (p in s.past.arrivals ==> p in s.peers)
    && (p in s.peers && p !in s.past.arrivals ==> exists g :: Joining(s, g, p))
  }

  ghost predicate ArrivesOnce(s: State, g: Gid, p: Peer) {
    Joining(s, g, p) ==> p in s.peers && p !in s.past.arrivals && forall h :: Joining(s, h, p) ==> h == g
  }

  predicate Departs(s: State, p: Peer) {
    p in s.peers && p in s.past.removal && p !in s.past.departures ==>
      && !s.past.removal[p].ByPeer?
      && (s.past.removal[p].BySwap? ==>
            var r := s.peers[p].room;
            r in s.rooms && s.rooms[r].once.Running? && p in PendingBy(s, s.rooms[r].once.holder))
  }

  ghost predicate Opens(s: State, r: Room) {
    && (r in s.past.openings ==> r in s.rooms)
    && (r in s.rooms && r !in s.past.openings ==> exists g :: Opening(s, g, r))
  }

  ghost predicate OpensOnce(s: State, g: Gid, r: Room) {
    Opening(s, g, r) ==> r in s.rooms && r !in s.past.openings && forall h :: Opening(s, h, r) ==> h == g
  }

  /** A room is in the registry, dropped by onRoomClosed, or swept by Server.Close: exactly one of the three. */
  predicate Fate(s: State, r: Room) {
    && (r in s.rooms ==> (Listed(s, r) || r in s.past.dropped || r in s.past.swept))
    && (r in s.past.dropped ==> r in s.rooms && !Listed(s, r) && r !in s.past.swept)
    && (r in s.past.swept ==> r in s.rooms && !Listed(s, r) && s.closed)
  }

  ghost predicate Closes(s: State, r: Room) {
    && (r in s.past.closings ==> r in s.past.dropped)
    && (r in s.past.dropped && r !in s.past.closings ==> exists g :: Dropping(s, g, r))
  }

  predicate ClosesOnce(s: State, g: Gid, r: Room) {
    Dropping(s, g, r) ==> r in s.past.dropped && r !in s.past.closings
  }

  predicate Fires(s: State, r: Room) {
    && s.past.fired[r] <= 1
    && (s.past.fired[r] == 0 ==> r !in s.past.dropped)
    && (r !in s.rooms || s.rooms[r].once.Fresh? ==> s.past.fired[r] == 0)
  }

  /** onClose fires before the guard is left, and afterwards the room is not in the registry. */
  predicate Ends(s: State, r: Room) {
    r in s.rooms ==>
      && (s.rooms[r].once.Done? ==> s.past.fired[r] >= 1)
      && (s.rooms[r].once.Running? && s.past.fired[r] == 0 ==> BeforeTail(s, s.rooms[r].once.holder, r))
      && (s.past.fired[r] >= 1 ==> !Listed(s, r))
  }

  predicate FiresOnce(s: State, g: Gid, r: Room) {
    BeforeTail(s, g, r) ==> s.past.fired[r] == 0
  }

  ghost predicate Remembered(s: State, r: Room) {
    r in s.rooms && s.rooms[r].used && s.rooms[r].members == {} && s.rooms[r].once.Fresh? ==>
      exists g :: WillClose(s, g, r)
  }

  predicate GaugeSizes(s: State) {
    && s.past.departures <= s.peers.Keys
    && s.peersGauge == |s.past.arrivals| - |s.past.departures|
    && s.roomsGauge == |s.past.openings| - |s.past.closings|
  }

  predicate RegistryOk(s: State) {
    && (forall n :: n in s.registry ==> s.registry[n] in s.rooms && s.rooms[s.registry[n]].name == n)
    && (s.closed ==> s.registry == map[])
    && (s.maxRooms > 0 ==> |s.registry| <= s.maxRooms)
  }

  predicate Gauges(s: State) { GaugeSizes(s) && RegistryOk(s) }

  ghost predicate PeerCounts(s: State) {
    && (forall p {:trigger Arrives(s, p)} :: Arrives(s, p))
    && (forall g, p {:trigger ArrivesOnce(s, g, p)} :: ArrivesOnce(s, g, p))
    && (forall p {:trigger Departs(s, p)} :: Departs(s, p))
  }

  ghost predicate RoomCounts(s: State) {
    && (forall r {:trigger Opens(s, r)} :: Opens(s, r))
    && (forall g, r {:trigger OpensOnce(s, g, r)} :: OpensOnce(s, g, r))
    && (forall r {:trigger Fate(s, r)} :: Fate(s, r))
    && (forall r {:trigger Closes(s, r)} :: Closes(s, r))
    && (forall g, r {:trigger ClosesOnce(s, g, r)} :: ClosesOnce(s, g, r))
    && (forall r {:trigger Fires(s, r)} :: Fires(s, r))
    && (forall g, r {:trigger FiresOnce(s, g, r)} :: FiresOnce(s, g, r))
    && (forall r {:trigger Remembered(s, r)} :: Remembered(s, r))
    && (forall r {:trigger Ends(s, r)} :: Ends(s, r))
  }

  /** The counting invariant, on top of the one that makes the protocol work. */
  ghost predicate Counted(s: State) {
    Inv(s) && Gauges(s) && PeerCounts(s) && RoomCounts(s)
  }

  // ---------------------------------------------------------------------------------------------------------------
  // What one task leaves behind in the records.

  lemma PeerEffect(s: State, s': State, g: Gid, t: Task, k: Stack)
    requires t.ForPeer() && AdvancePeer(s, g, t, k) == Some(s')
    ensures s'.registry == s.registry && s'.closed == s.closed && s'.roomsGauge == s.roomsGauge
    ensures s'.past == s.past.(removal := s'.past.removal, departures := s'.past.departures)
    ensures s'.peers.Keys == s.peers.Keys && s'.rooms.Keys == s.rooms.Keys && s'.maxRooms == s.maxRooms
  {
  }

  lemma RoomEffect(s: State, s': State, g: Gid, t: Task, k: Stack, pick: nat)
    requires t.ForRoom() && AdvanceRoom(s, g, t, k, pick) == Some(s')
    ensures s'.closed == s.closed && s'.roomsGauge == s.roomsGauge && s'.peersGauge == s.peersGauge
    ensures s'.peers == s.peers && s'.rooms.Keys == s.rooms.Keys && s'.maxRooms == s.maxRooms
    ensures s'.past == s.past.(removal := s'.past.removal, dropped := s'.past.dropped, fired := s'.past.fired)
    ensures t.RoomTail? ||
            (s'.registry == s.registry && s'.past.dropped == s.past.dropped && s'.past.fired == s.past.fired)
  {
    if t.RoomTail? { TailEffect(s, s', g, t.r, k); }
    else if t.RoomSwap? { SwapEffect(s, s', g, t.r, k); }
    else { GuardEffect(s, s', g, t, k, pick); }
  }

  lemma GuardEffect(s: State, s': State, g: Gid, t: Task, k: Stack, pick: nat)
    requires t.ForRoom() && !t.RoomTail? && !t.RoomSwap? && AdvanceRoom(s, g, t, k, pick) == Some(s')
    ensures s'.rooms.Keys == s.rooms.Keys && s' == s.(rooms := s'.rooms, threads := s'.threads)
  {
  }

  lemma SwapEffect(s: State, s': State, g: Gid, r: Room, k: Stack)
    requires AdvanceRoom(s, g, RoomSwap(r), k, 0) == Some(s')
    ensures s'.rooms.Keys == s.rooms.Keys
    ensures s' == s.(rooms := s'.rooms, threads := s'.threads, past := s.past.(removal := s'.past.removal))
  {
  }

  lemma TailEffect(s: State, s': State, g: Gid, r: Room, k: Stack)
    requires AdvanceRoom(s, g, RoomTail(r), k, 0) == Some(s')
    ensures s'.closed == s.closed && s'.roomsGauge == s.roomsGauge && s'.peersGauge == s.peersGauge
    ensures s'.peers == s.peers && s'.rooms == s.rooms && s'.maxRooms == s.maxRooms
    ensures s'.past == s.past.(dropped := s'.past.dropped, fired := s'.past.fired)
  {
  }

  lemma OtherEffect(s: State, s': State, g: Gid, t: Task, k: Stack, pick: nat)
    requires !t.ForPeer() && !t.ForRoom() && AdvanceOther(s, g, t, k, pick) == Some(s')
    ensures s'.rooms == s.rooms && s'.peers == s.peers && s'.maxRooms == s.maxRooms
    ensures s'.past == s.past.(departures := s'.past.departures, arrivals := s'.past.arrivals,
              openings := s'.past.openings, closings := s'.past.closings, swept := s'.past.swept)
    ensures t.ServerSwap? || (s'.closed == s.closed && s'.registry == s.registry && s'.past.swept == s.past.swept)
    ensures s'.past.departures == if t.PeerGauge? then s.past.departures + {t.p} else s.past.departures
    ensures s'.past.arrivals == if t.JoinTail? then s.past.arrivals + {t.p} else s.past.arrivals
    ensures s'.past.openings == if t.CreateTail? then s.past.openings + {t.r} else s.past.openings
    ensures s'.past.closings == if t.RoomGauge? then s.past.closings + {t.r} else s.past.closings
  {
    match t
    case PeerGauge(_) =>
    case RoomGauge(_) =>
    case JoinTail(_) =>
    case CreateTail(_) =>
    case _ => ServerEffect(s, s', g, t, k, pick);
  }

  lemma ServerEffect(s: State, s': State, g: Gid, t: Task, k: Stack, pick: nat)
    requires t.ForServer() && AdvanceOther(s, g, t, k, pick) == Some(s')
    ensures s'.rooms == s.rooms && s'.peers == s.peers && s'.maxRooms == s.maxRooms
    ensures s'.past == s.past.(swept := s'.past.swept)
    ensures t.ServerSwap? || (s'.closed == s.closed && s'.registry == s.registry && s'.past == s.past)
  {
    if t.CallServerClose? || t.ServerDone? { ServerGuardEffect(s, s', g, t, k, pick); }
  }

  lemma ServerGuardEffect(s: State, s': State, g: Gid, t: Task, k: Stack, pick: nat)
    requires (t.CallServerClose? || t.ServerDone?) && AdvanceOther(s, g, t, k, pick) == Some(s')
    ensures s' == s.(serverOnce := s'.serverOnce, threads := s'.threads)
  {
  }

  /** The new stack of g never starts with the rest of Join or CreateRoom, and with RoomGauge only after the drop. */
  lemma NewTop(s: State, s': State, g: Gid, pick: nat)
    requires Shapes(s) && Next(s, Advance(g, pick)) == Some(s')
    ensures OnlyMoves(s, s', g)
    ensures s'.threads[g].Push? ==> !s'.threads[g].top.JoinTail? && !s'.threads[g].top.CreateTail?
    ensures s'.threads[g].Push? && s'.threads[g].top.RoomGauge? ==> s.threads[g].top == RoomTail(s'.threads[g].top.r)
  {
    assert Shape(s, s.threads[g]);
    var t, k := s.threads[g].top, s.threads[g].below;
    if t.ForPeer() { NewTopPeer(s, s', g, t, k); }
    else if t.ForRoom() { NewTopRoom(s, s', g, t, k, pick); }
    else { NewTopOther(s, s', g, t, k, pick); }
  }

  lemma RoomIsSame(s: State, s': State, g: Gid, pick: nat, r: Room)
    requires Next(s, Advance(g, pick)) == Some(s') && r in s.rooms
    ensures r in s'.rooms && s'.rooms[r].name == s.rooms[r].name && s'.rooms[r].used == s.rooms[r].used
    ensures s'.rooms[r].once == s.rooms[r].once
            || (s.threads[g].top == CallRoomClose(r) && s'.rooms[r].once == Running(g))
            || (s.threads[g].top == RoomDone(r) && s'.rooms[r].once == Done)
  {
    var t, k := s.threads[g].top, s.threads[g].below;
    if t.ForPeer() { RoomIsSameForPeerTask(s, s', g, t, k, r); }
    else if t.ForRoom() { RoomIsSameForRoomTask(s, s', g, t, k, pick, r); }
    else { OtherEffect(s, s', g, t, k, pick); }
  }

  lemma RoomIsSameForPeerTask(s: State, s': State, g: Gid, t: Task, k: Stack, r: Room)
    requires t.ForPeer() && AdvancePeer(s, g, t, k) == Some(s') && r in s.rooms
    ensures r in s'.rooms && s'.rooms[r] == s.rooms[r].(members := s'.rooms[r].members)
  {
  }

  lemma RoomIsSameForRoomTask(s: State, s': State, g: Gid, t: Task, k: Stack, pick: nat, r: Room)
    requires t.ForRoom() && AdvanceRoom(s, g, t, k, pick) == Some(s') && r in s.rooms
    ensures r in s'.rooms && s'.rooms[r] == s.rooms[r].(members := s'.rooms[r].members, once := s'.rooms[r].once)
    ensures s'.rooms[r].once == s.rooms[r].once
            || (t == CallRoomClose(r) && s'.rooms[r].once == Running(g))
            || (t == RoomDone(r) && s'.rooms[r].once == Done)
  {
  }

  lemma PeerIsSame(s: State, s': State, g: Gid, pick: nat, p: Peer)
    requires Next(s, Advance(g, pick)) == Some(s') && p in s.peers
    ensures p in s'.peers && s'.peers[p].room == s.peers[p].room
  {
    var t, k := s.threads[g].top, s.threads[g].below;
    if t.ForPeer() { PeerIsSameForPeerTask(s, s', g, t, k, p); }
    else if t.ForRoom() { RoomEffect(s, s', g, t, k, pick); }
    else { OtherEffect(s, s', g, t, k, pick); }
  }

  lemma PeerIsSameForPeerTask(s: State, s': State, g: Gid, t: Task, k: Stack, p: Peer)
    requires t.ForPeer() && AdvancePeer(s, g, t, k) == Some(s') && p in s.peers
    ensures p in s'.peers && s'.peers[p].room == s.peers[p].room
  {
  }

  predicate PlainTop(k: Stack) {
    k.Push? ==> !k.top.JoinTail? && !k.top.CreateTail? && !k.top.RoomGauge?
  }

  lemma BelowIsPlain(s: State, t: Task, k: Stack)
    requires Shape(s, Push(t, k))
    ensures PlainTop(k)
  {
  }

  lemma NewTopPeer(s: State, s': State, g: Gid, t: Task, k: Stack)
    requires Shape(s, Push(t, k)) && t.ForPeer() && AdvancePeer(s, g, t, k) == Some(s')
    ensures OnlyMoves(s, s', g) && PlainTop(s'.threads[g])
  {
    BelowIsPlain(s, t, k);
    NewTopOfPeer(s, s', g, t, k);
  }

  lemma NewTopOfPeer(s: State, s': State, g: Gid, t: Task, k: Stack)
    requires PlainTop(k) && t.ForPeer() && AdvancePeer(s, g, t, k) == Some(s')
    ensures OnlyMoves(s, s', g) && PlainTop(s'.threads[g])
  {
    if t.PeerCallback? { NewTopOfCallback(s, s', g, t, k); } else { NewTopOfGuard(s, s', g, t, k); }
  }

  lemma NewTopOfCallback(s: State, s': State, g: Gid, t: Task, k: Stack)
    requires t.PeerCallback? && AdvancePeer(s, g, t, k) == Some(s')
    ensures OnlyMoves(s, s', g) && PlainTop(s'.threads[g])
  {
  }

  lemma NewTopOfGuard(s: State, s': State, g: Gid, t: Task, k: Stack)
    requires PlainTop(k) && t.ForPeer() && !t.PeerCallback? && AdvancePeer(s, g, t, k) == Some(s')
    ensures OnlyMoves(s, s', g) && PlainTop(s'.threads[g])
  {
  }

  lemma NewTopRoom(s: State, s': State, g: Gid, t: Task, k: Stack, pick: nat)
    requires Shape(s, Push(t, k)) && t.ForRoom() && AdvanceRoom(s, g, t, k, pick) == Some(s')
    ensures OnlyMoves(s, s', g)
    ensures PlainTop(s'.threads[g]) || (t.RoomTail? && s'.threads[g].top == RoomGauge(t.r))
  {
    BelowIsPlain(s, t, k);
  }

  lemma NewTopOther(s: State, s': State, g: Gid, t: Task, k: Stack, pick: nat)
    requires Shape(s, Push(t, k)) && !t.ForPeer() && !t.ForRoom() && AdvanceOther(s, g, t, k, pick) == Some(s')
    ensures OnlyMoves(s, s', g) && PlainTop(s'.threads[g])
  {
    BelowIsPlain(s, t, k);
    if t.ForServer() { NewTopOfServer(s, s', g, t, k, pick); } else { NewTopOfTail(s, s', g, t, k, pick); }
  }

  lemma NewTopOfServer(s: State, s': State, g: Gid, t: Task, k: Stack, pick: nat)
    requires PlainTop(k) && t.ForServer() && AdvanceOther(s, g, t, k, pick) == Some(s')
    ensures OnlyMoves(s, s', g) && PlainTop(s'.threads[g])
  {
    ServerTaskMoves(s, s', g, t, k, pick);
  }

  lemma ServerTaskMoves(s: State, s': State, g: Gid, t: Task, k: Stack, pick: nat)
    requires t.ForServer() && AdvanceOther(s, g, t, k, pick) == Some(s')
    ensures OnlyMoves(s, s', g)
  {
  }

  lemma NewTopOfTail(s: State, s': State, g: Gid, t: Task, k: Stack, pick: nat)
    requires PlainTop(k) && !t.ForPeer() && !t.ForRoom() && !t.ForServer() && AdvanceOther(s, g, t, k, pick) == Some(s')
    ensures OnlyMoves(s, s', g) && PlainTop(s'.threads[g])
  {
  }

  lemma AdvanceEffect(s: State, s': State, g: Gid, pick: nat)
    requires Shapes(s) && Next(s, Advance(g, pick)) == Some(s')
    ensures var t := s.threads[g].top;
            && s'.peers.Keys == s.peers.Keys && s'.rooms.Keys == s.rooms.Keys && s'.maxRooms == s.maxRooms
            && s'.past.arrivals == (if t.JoinTail? then s.past.arrivals + {t.p} else s.past.arrivals)
            && s'.past.openings == (if t.CreateTail? then s.past.openings + {t.r} else s.past.openings)
            && s'.past.closings == (if t.RoomGauge? then s.past.closings + {t.r} else s.past.closings)
            && (t.RoomTail? || t.ServerSwap? || (s'.registry == s.registry && s'.closed == s.closed))
            && (t.RoomTail? || s'.past.dropped == s.past.dropped)
            && (t.ServerSwap? || s'.past.swept == s.past.swept)
            && (!t.RoomTail? ==> s'.past.fired == s.past.fired)
  {
    var t, k := s.threads[g].top, s.threads[g].below;
    if t.ForPeer() { PeerEffect(s, s', g, t, k); }
    else if t.ForRoom() { RoomEffect(s, s', g, t, k, pick); }
    else { OtherEffect(s, s', g, t, k, pick); }
  }

  // ---------------------------------------------------------------------------------------------------------------
  // Arrivals: PeerJoined runs once for every peer that joined.

  lemma ArrivesKept(s: State, s': State, g: Gid, pick: nat, p: Peer)
    requires Shapes(s) && PeerCounts(s) && Next(s, Advance(g, pick)) == Some(s')
    ensures Arrives(s', p)
  {
    AdvanceEffect(s, s', g, pick);
    NewTop(s, s', g, pick);
    assert Arrives(s, p) && ArrivesOnce(s, g, p);
    assert Shape(s, s.threads[g]);
    if s.threads[g].top == JoinTail(p) { TailIsAlone(s, s.threads[g]); assert Joining(s, g, p); }
    if p in s'.peers && p !in s'.past.arrivals {
      var h :| Joining(s, h, p);
      if h != g { OthersAreSame(s, s', g, h); }
      assert Joining(s', h, p);
    }
  }

  lemma TailIsAlone(s: State, k: Stack)
    requires Shape(s, k) && k.Push? && (k.top.JoinTail? || k.top.CreateTail?)
    ensures k.below.Empty?
  {
  }

  lemma TopJoins(s: State, g: Gid, p: Peer)
    requires Shapes(s) && g in s.threads && s.threads[g].Push? && s.threads[g].top == JoinTail(p)
    ensures Joining(s, g, p)
  {
    assert Shape(s, s.threads[g]);
    TailIsAlone(s, s.threads[g]);
  }

  lemma TopOpens(s: State, g: Gid, r: Room)
    requires Shapes(s) && g in s.threads && s.threads[g].Push? && s.threads[g].top == CreateTail(r)
    ensures Opening(s, g, r)
  {
    assert Shape(s, s.threads[g]);
    TailIsAlone(s, s.threads[g]);
  }

  lemma ArrivesOnceKept(s: State, s': State, g: Gid, pick: nat, j: Gid, p: Peer)
    requires Shapes(s) && PeerCounts(s) && Next(s, Advance(g, pick)) == Some(s')
    ensures ArrivesOnce(s', j, p)
  {
    if Joining(s', j, p) {
      AdvanceEffect(s, s', g, pick);
      NewTop(s, s', g, pick);
      OthersAreSame(s, s', g, j);
      assert ArrivesOnce(s, j, p);
      assert Shape(s, s.threads[g]);
      if s.threads[g].top == JoinTail(p) { TopJoins(s, g, p); }
      forall h | Joining(s', h, p) ensures h == j {
        OthersAreSame(s, s', g, h);
        assert Joining(s, h, p);
      }
    }
  }

  lemma OpensKept(s: State, s': State, g: Gid, pick: nat, r: Room)
    requires Shapes(s) && RoomCounts(s) && Next(s, Advance(g, pick)) == Some(s')
    ensures Opens(s', r)
  {
    AdvanceEffect(s, s', g, pick);
    NewTop(s, s', g, pick);
    assert Opens(s, r) && OpensOnce(s, g, r);
    assert Shape(s, s.threads[g]);
    if s.threads[g].top == CreateTail(r) { TailIsAlone(s, s.threads[g]); assert Opening(s, g, r); }
    if r in s'.rooms && r !in s'.past.openings {
      var h :| Opening(s, h, r);
      if h != g { OthersAreSame(s, s', g, h); }
      assert Opening(s', h, r);
    }
  }

  lemma OpensOnceKept(s: State, s': State, g: Gid, pick: nat, j: Gid, r: Room)
    requires Shapes(s) && RoomCounts(s) && Next(s, Advance(g, pick)) == Some(s')
    ensures OpensOnce(s', j, r)
  {
    if Opening(s', j, r) {
      AdvanceEffect(s, s', g, pick);
      NewTop(s, s', g, pick);
      OthersAreSame(s, s', g, j);
      assert OpensOnce(s, j, r);
      assert Shape(s, s.threads[g]);
      if s.threads[g].top == CreateTail(r) { TopOpens(s, g, r); }
      forall h | Opening(s', h, r) ensures h == j {
        OthersAreSame(s, s', g, h);
        assert Opening(s, h, r);
      }
    }
  }

  // ---------------------------------------------------------------------------------------------------------------
  // Departures: counted at once by Leave and onPeerClosed, or later by the loop of Room.Close, never twice.

  lemma PendingKeptByPeerTask(s: State, s': State, g: Gid, t: Task, k: Stack, p: Peer)
    requires Inv(s) && g in s.threads && s.threads[g] == Push(t, k) && t.ForPeer()
    requires AdvancePeer(s, g, t, k) == Some(s') && p in Pending(Push(t, k))
    ensures p in PendingBy(s', g)
  {
    assert Shape(s, s.threads[g]) && PeerBook(s, t.p);
    PeerPops(s, t, k);
    PeerMoves(s, t, PeerBody(t.p), k);
    PeerMoves(s, t, PeerCallback(t.p), k);
    PeerMoves(s, t, PeerDone(t.p), k);
    if t.PeerCallback? && t.p in s.rooms[s.peers[t.p].room].members {
      InMapIsOutermost(s, t, k);
    }
  }

  lemma PendingKept(s: State, s': State, g: Gid, pick: nat, p: Peer)
    requires Inv(s) && Next(s, Advance(g, pick)) == Some(s')
    requires p in PendingBy(s, g) && p !in s'.past.departures
    ensures p in PendingBy(s', g) && !s.threads[g].top.RoomDone?
  {
    var t, k := s.threads[g].top, s.threads[g].below;
    assert Shape(s, s.threads[g]);
    if t.ForPeer() {
      PendingKeptByPeerTask(s, s', g, t, k, p);
    } else if t.RoomLoop? {
      LoopCalls(s, t.r, t.todo, k, pick);
    } else if t.PeerGauge? {
      GaugePops(s, t, k);
    }
  }

  lemma SwapMakesPending(s: State, s': State, g: Gid, r: Room, k: Stack)
    requires Inv(s) && g in s.threads && s.threads[g] == Push(RoomSwap(r), k)
    requires AdvanceRoom(s, g, RoomSwap(r), k, 0) == Some(s')
    ensures PendingBy(s', g) == s.rooms[r].members && s'.rooms[r].once == Running(g)
  {
    assert Shape(s, s.threads[g]);
    RoomMoves(s, RoomSwap(r), RoomSwap(r), k);
    assert r in RoomsHeldBy(s, g);
    assert RoomHolder(s, g, r);
  }

  lemma DepartsKept(s: State, s': State, g: Gid, pick: nat, p: Peer)
    requires Inv(s) && PeerCounts(s) && Next(s, Advance(g, pick)) == Some(s')
    ensures Departs(s', p)
  {
    if p in s'.peers && p in s'.past.removal && p !in s'.past.departures && !s'.past.removal[p].InMap? {
      assert Departs(s, p) && PeerBook(s, p);
      var t, k := s.threads[g].top, s.threads[g].below;
      AdvanceEffect(s, s', g, pick);
      PeerIsSame(s, s', g, pick, p);
      var r := s.peers[p].room;
      RoomIsSame(s, s', g, pick, r);
      RemovalChanges(s, s', g, pick, p);
      if s'.past.removal[p] != s.past.removal[p] {
        SwapMakesPending(s, s', g, r, k);
      } else {
        var h := s.rooms[r].once.holder;
        assert RoomGuard(s, r);
        if h == g {
          PendingKept(s, s', g, pick, p);
        } else {
          NewTop(s, s', g, pick);
          OthersAreSame(s, s', g, h);
          if t == RoomDone(r) { HoldsDone(s, g, r, k); }
        }
      }
    }
  }

  lemma HoldsDone(s: State, g: Gid, r: Room, k: Stack)
    requires Inv(s) && g in s.threads && s.threads[g] == Push(RoomDone(r), k)
    ensures r in s.rooms && s.rooms[r].once == Running(g)
  {
    assert Shape(s, s.threads[g]);
    RoomMoves(s, RoomDone(r), RoomDone(r), k);
    assert r in RoomsHeldBy(s, g);
    assert RoomHolder(s, g, r);
  }

  lemma RemovalChanges(s: State, s': State, g: Gid, pick: nat, p: Peer)
    requires Books(s) && p in s.peers && Next(s, Advance(g, pick)) == Some(s')
    ensures p in s.past.removal && p in s'.past.removal && s.past.departures <= s'.past.departures
    ensures s'.past.removal[p] != s.past.removal[p] ==>
              || p in s'.past.departures
              || (s.threads[g].top == RoomSwap(s.peers[p].room) && p in s.rooms[s.peers[p].room].members)
  {
    var t, k := s.threads[g].top, s.threads[g].below;
    assert PeerBook(s, p);
    if t.ForPeer() { PeerRemovals(s, s', g, t, k, p); }
    else if t.RoomSwap? { assert MemberBook(s, t.r, p); SwapRemovals(s, s', g, t.r, k, p); }
    else if t.ForRoom() { RoomEffect(s, s', g, t, k, pick); NoRemovals(s, s', g, t, k, pick); }
    else { OtherEffect(s, s', g, t, k, pick); }
  }

  lemma NoRemovals(s: State, s': State, g: Gid, t: Task, k: Stack, pick: nat)
    requires t.ForRoom() && !t.RoomSwap? && AdvanceRoom(s, g, t, k, pick) == Some(s')
    ensures s'.past.removal == s.past.removal
  {
  }

  lemma PeerRemovals(s: State, s': State, g: Gid, t: Task, k: Stack, p: Peer)
    requires t.ForPeer() && p in s.past.removal && AdvancePeer(s, g, t, k) == Some(s')
    ensures p in s'.past.removal && s.past.departures <= s'.past.departures
    ensures s'.past.removal[p] != s.past.removal[p] ==> p in s'.past.departures
  {
  }

  lemma SwapRemovals(s: State, s': State, g: Gid, r: Room, k: Stack, p: Peer)
    requires p in s.past.removal && AdvanceRoom(s, g, RoomSwap(r), k, 0) == Some(s') && r in s.rooms
    ensures p in s'.past.removal && s.past.departures <= s'.past.departures
    ensures s'.past.removal[p] != s.past.removal[p] ==> p in s.rooms[r].members
  {
  }

  // ---------------------------------------------------------------------------------------------------------------
  // Rooms: onClose fires once per room, and until Server.Close it finds that very room in the registry.

  lemma TailFindsItself(s: State, g: Gid, r: Room)
    requires Inv(s) && Gauges(s) && RoomCounts(s) && BeforeTail(s, g, r)
    ensures r in s.rooms && s.rooms[r].once == Running(g) && s.past.fired[r] == 0 && r !in s.past.dropped
    ensures s.closed ==> s.registry == map[]
    ensures !s.closed ==> Listed(s, r)
  {
    assert FiresOnce(s, g, r) && Fires(s, r) && Fate(s, r);
    assert Shape(s, s.threads[g]);
    assert r in RoomsHeldBy(s, g);
    assert RoomHolder(s, g, r);
  }

  lemma FateKept(s: State, s': State, g: Gid, pick: nat, r: Room)
    requires Inv(s) && Gauges(s) && RoomCounts(s) && Next(s, Advance(g, pick)) == Some(s')
    ensures Fate(s', r)
  {
    var t, k := s.threads[g].top, s.threads[g].below;
    AdvanceEffect(s, s', g, pick);
    assert Fate(s, r);
    if r in s.rooms { RoomIsSame(s, s', g, pick, r); }
    if t.RoomTail? {
      if s.rooms[t.r].name in s.registry { assert Fate(s, s.registry[s.rooms[t.r].name]); }
    }
  }

  lemma FiresKept(s: State, s': State, g: Gid, pick: nat, r: Room)
    requires Inv(s) && Gauges(s) && RoomCounts(s) && Next(s, Advance(g, pick)) == Some(s')
    ensures Fires(s', r)
  {
    var t := s.threads[g].top;
    AdvanceEffect(s, s', g, pick);
    assert Fires(s, r);
    if r in s.rooms { RoomIsSame(s, s', g, pick, r); }
    if t.RoomTail? { TailFindsItself(s, g, t.r); }
  }

  /** g has yet to fire r's onClose only if it had already, or has just entered r's guard. */
  lemma BeforeTailBefore(s: State, s': State, g: Gid, pick: nat, r: Room)
    requires Shapes(s) && Next(s, Advance(g, pick)) == Some(s') && BeforeTail(s', g, r)
    ensures (BeforeTail(s, g, r) && !s.threads[g].top.RoomTail?) ||
            (s.threads[g].top == CallRoomClose(r) && r in s.rooms && s.rooms[r].once.Fresh?)
  {
    var t, k := s.threads[g].top, s.threads[g].below;
    assert Shape(s, s.threads[g]);
    if t.ForPeer() { PeerCore(s, s', g, t, k, r); }
    else if t.ForRoom() { RoomCore(s, s', g, t, k, pick, r); }
    else { OtherCore(s, s', g, t, k, pick, r); }
  }

  lemma OtherCore(s: State, s': State, g: Gid, t: Task, k: Stack, pick: nat, r: Room)
    requires g in s.threads && s.threads[g] == Push(t, k) && Shape(s, Push(t, k)) && !t.ForPeer() && !t.ForRoom()
    requires AdvanceOther(s, g, t, k, pick) == Some(s') && BeforeTail(s', g, r)
    ensures BeforeTail(s, g, r)
  {
  }

  lemma PeerCore(s: State, s': State, g: Gid, t: Task, k: Stack, r: Room)
    requires g in s.threads && s.threads[g] == Push(t, k) && Shape(s, Push(t, k)) && t.ForPeer()
    requires AdvancePeer(s, g, t, k) == Some(s') && BeforeTail(s', g, r)
    ensures BeforeTail(s, g, r)
  {
  }

  lemma RoomCore(s: State, s': State, g: Gid, t: Task, k: Stack, pick: nat, r: Room)
    requires g in s.threads && s.threads[g] == Push(t, k) && Shape(s, Push(t, k)) && t.ForRoom()
    requires AdvanceRoom(s, g, t, k, pick) == Some(s') && BeforeTail(s', g, r)
    ensures (BeforeTail(s, g, r) && !t.RoomTail?) || (t == CallRoomClose(r) && s.rooms[r].once.Fresh?)
  {
  }

  /** A goroutine that has yet to fire r's onClose still has, unless it has just done so. */
  lemma BeforeTailAfter(s: State, s': State, g: Gid, pick: nat, r: Room)
    requires Inv(s) && Next(s, Advance(g, pick)) == Some(s') && BeforeTail(s, g, r) && s.threads[g].top != RoomTail(r)
    ensures BeforeTail(s', g, r)
  {
    var t, k := s.threads[g].top, s.threads[g].below;
    assert Shape(s, s.threads[g]);
    if t.ForPeer() { PeerCoreAfter(s, s', g, t, k, r); }
    else if t.ForRoom() { RoomCoreAfter(s, s', g, t, k, pick, r); }
  }

  lemma PeerCoreAfter(s: State, s': State, g: Gid, t: Task, k: Stack, r: Room)
    requires Books(s) && g in s.threads && s.threads[g] == Push(t, k) && Shape(s, Push(t, k)) && t.ForPeer()
    requires AdvancePeer(s, g, t, k) == Some(s') && BeforeTail(s, g, r)
    ensures BeforeTail(s', g, r)
  {
    assert PeerBook(s, t.p);
  }

  lemma RoomCoreAfter(s: State, s': State, g: Gid, t: Task, k: Stack, pick: nat, r: Room)
    requires g in s.threads && s.threads[g] == Push(t, k) && Shape(s, Push(t, k)) && t.ForRoom()
    requires AdvanceRoom(s, g, t, k, pick) == Some(s') && BeforeTail(s, g, r) && t != RoomTail(r)
    ensures BeforeTail(s', g, r)
  {
  }

  lemma RegistryShrinks(s: State, s': State, g: Gid, pick: nat, r: Room)
    requires Shapes(s) && Next(s, Advance(g, pick)) == Some(s') && r in s.rooms
    ensures Listed(s', r) ==> Listed(s, r) && s.threads[g].top != RoomTail(r)
  {
    AdvanceEffect(s, s', g, pick);
    RoomIsSame(s, s', g, pick, r);
  }

  lemma FiredGrows(s: State, s': State, g: Gid, pick: nat, r: Room)
    requires Shapes(s) && Next(s, Advance(g, pick)) == Some(s')
    ensures s'.past.fired[r] == s.past.fired[r] + if s.threads[g].top == RoomTail(r) then 1 else 0
  {
    AdvanceEffect(s, s', g, pick);
  }

  lemma EndsKept(s: State, s': State, g: Gid, pick: nat, r: Room)
    requires Inv(s) && RoomCounts(s) && Next(s, Advance(g, pick)) == Some(s')
    ensures Ends(s', r)
  {
    AdvanceEffect(s, s', g, pick);
    if r in s.rooms {
      var t, k := s.threads[g].top, s.threads[g].below;
      assert Ends(s, r) && Fires(s, r);
      RoomIsSame(s, s', g, pick, r);
      RegistryShrinks(s, s', g, pick, r);
      FiredGrows(s, s', g, pick, r);
      if t == RoomDone(r) { HoldsDone(s, g, r, k); }
      if s'.rooms[r].once.Running? && s'.past.fired[r] == 0 { TailStaysAhead(s, s', g, pick, r); }
    }
  }

  lemma TailStaysAhead(s: State, s': State, g: Gid, pick: nat, r: Room)
    requires Inv(s) && Ends(s, r) && Next(s, Advance(g, pick)) == Some(s') && r in s.rooms && r in s'.rooms
    requires s'.rooms[r].once.Running? && s.past.fired[r] == 0 && s.threads[g].top != RoomTail(r)
    ensures BeforeTail(s', s'.rooms[r].once.holder, r)
  {
    RoomIsSame(s, s', g, pick, r);
    if s'.rooms[r].once == s.rooms[r].once {
      var h := s.rooms[r].once.holder;
      if h == g { BeforeTailAfter(s, s', g, pick, r); } else { NewTop(s, s', g, pick); OthersAreSame(s, s', g, h); }
    }
  }

  lemma FiresOnceKept(s: State, s': State, g: Gid, pick: nat, j: Gid, r: Room)
    requires Inv(s) && Gauges(s) && RoomCounts(s) && Next(s, Advance(g, pick)) == Some(s')
    ensures FiresOnce(s', j, r)
  {
    if BeforeTail(s', j, r) {
      var t := s.threads[g].top;
      AdvanceEffect(s, s', g, pick);
      assert Fires(s, r) && FiresOnce(s, j, r);
      if j == g {
        BeforeTailBefore(s, s', g, pick, r);
      } else {
        NewTop(s, s', g, pick);
        OthersAreSame(s, s', g, j);
        TailFindsItself(s, j, r);
        if t == RoomTail(r) { TailFindsItself(s, g, r); }
      }
    }
  }

  lemma ClosesKept(s: State, s': State, g: Gid, pick: nat, r: Room)
    requires Inv(s) && Gauges(s) && RoomCounts(s) && Next(s, Advance(g, pick)) == Some(s')
    ensures Closes(s', r)
  {
    var t := s.threads[g].top;
    AdvanceEffect(s, s', g, pick);
    assert Closes(s, r) && ClosesOnce(s, g, r);
    if t.RoomTail? { TailFindsItself(s, g, t.r); }
    if t.RoomGauge? { assert Dropping(s, g, t.r) && ClosesOnce(s, g, t.r); }
    if r in s'.past.dropped && r !in s'.past.closings {
      if r in s.past.dropped {
        var h :| Dropping(s, h, r);
        NewTop(s, s', g, pick);
        if h != g { OthersAreSame(s, s', g, h); }
        assert Dropping(s', h, r);
      } else {
        assert Dropping(s', g, r);
      }
    }
  }

  lemma DroppingHolds(s: State, g: Gid, r: Room)
    requires Inv(s) && Dropping(s, g, r)
    ensures r in s.rooms && s.rooms[r].once == Running(g)
  {
    assert Shape(s, s.threads[g]);
    assert r in RoomsHeldBy(s, g);
    assert RoomHolder(s, g, r);
  }

  lemma ClosesOnceKept(s: State, s': State, g: Gid, pick: nat, j: Gid, r: Room)
    requires Inv(s) && Gauges(s) && RoomCounts(s) && Next(s, Advance(g, pick)) == Some(s')
    ensures ClosesOnce(s', j, r)
  {
    if Dropping(s', j, r) {
      var t := s.threads[g].top;
      AdvanceEffect(s, s', g, pick);
      NewTop(s, s', g, pick);
      if j == g {
        TailFindsItself(s, g, r);
        assert Closes(s, r);
      } else {
        OthersAreSame(s, s', g, j);
        assert ClosesOnce(s, j, r);
        DroppingHolds(s, j, r);
        if t == RoomGauge(r) { DroppingHolds(s, g, r); }
      }
    }
  }

  // ---------------------------------------------------------------------------------------------------------------
  // An emptied room is never forgotten: whoever took the last peer out is going to close it.

  lemma RememberedKept(s: State, s': State, g: Gid, pick: nat, r: Room)
    requires Inv(s) && RoomCounts(s) && Next(s, Advance(g, pick)) == Some(s')
    ensures Remembered(s', r)
  {
    if r in s'.rooms && s'.rooms[r].used && s'.rooms[r].members == {} && s'.rooms[r].once.Fresh? {
      AdvanceEffect(s, s', g, pick);
      RoomIsSame(s, s', g, pick, r);
      NewTop(s, s', g, pick);
      var t, k := s.threads[g].top, s.threads[g].below;
      assert Remembered(s, r) && Shape(s, s.threads[g]);
      if s.rooms[r].members == {} {
        var h :| WillClose(s, h, r);
        if h == g { WillCloseKept(s, s', g, pick, r); } else { OthersAreSame(s, s', g, h); }
        assert WillClose(s', h, r);
      } else {
        EmptyingRemembers(s, s', g, pick, r);
        assert WillClose(s', g, r);
      }
    }
  }

  lemma EmptyingRemembers(s: State, s': State, g: Gid, pick: nat, r: Room)
    requires Inv(s) && Next(s, Advance(g, pick)) == Some(s')
    requires r in s.rooms && r in s'.rooms && s.rooms[r].members != {} && s'.rooms[r].members == {}
    requires s.rooms[r].once.Fresh?
    ensures WillClose(s', g, r)
  {
    assert Shape(s, s.threads[g]);
    assert RoomHolder(s, g, r);
  }

  lemma WillCloseKept(s: State, s': State, g: Gid, pick: nat, r: Room)
    requires Inv(s) && Next(s, Advance(g, pick)) == Some(s') && WillClose(s, g, r)
    requires r in s.rooms && r in s'.rooms && s.rooms[r].once.Fresh? && s'.rooms[r].once.Fresh?
    ensures WillClose(s', g, r)
  {
    var t, k := s.threads[g].top, s.threads[g].below;
    assert Shape(s, s.threads[g]);
    if t.ForPeer() {
      assert PeerBook(s, t.p);
      if t.p in s.rooms[s.peers[t.p].room].members { InMapIsOutermost(s, t, k); }
    }
  }

  // ---------------------------------------------------------------------------------------------------------------
  // Gauges, and the invariant as a whole.

  lemma GaugesKept(s: State, s': State, g: Gid, pick: nat)
    requires Inv(s) && Gauges(s) && PeerCounts(s) && RoomCounts(s) && Next(s, Advance(g, pick)) == Some(s')
    ensures Gauges(s')
  {
    var t, k := s.threads[g].top, s.threads[g].below;
    assert Shape(s, s.threads[g]);
    if t.ForPeer() { PeerGauges(s, s', g, t, k); }
    else if t.ForRoom() { RoomGauges(s, s', g, t, k, pick); }
    else { OtherGauges(s, s', g, t, k, pick); }
  }

  lemma PeerGaugeFields(s: State, s': State, g: Gid, t: Task, k: Stack)
    requires Books(s) && t.ForPeer() && AdvancePeer(s, g, t, k) == Some(s')
    ensures (s'.peersGauge == s.peersGauge && s'.past.departures == s.past.departures)
            || (s'.peersGauge == s.peersGauge - 1 && s'.past.departures == s.past.departures + {t.p}
                && t.p !in s.past.departures && t.p in s.peers)
  {
    assert PeerBook(s, t.p);
  }

  lemma PeerGauges(s: State, s': State, g: Gid, t: Task, k: Stack)
    requires Books(s) && Gauges(s) && t.ForPeer() && AdvancePeer(s, g, t, k) == Some(s')
    ensures Gauges(s')
  {
    PeerEffect(s, s', g, t, k);
    PeerGaugeFields(s, s', g, t, k);
    PeerNames(s, s', g, t, k);
  }

  lemma PeerNames(s: State, s': State, g: Gid, t: Task, k: Stack)
    requires RegistryOk(s) && t.ForPeer() && AdvancePeer(s, g, t, k) == Some(s')
    ensures RegistryOk(s')
  {
    PeerEffect(s, s', g, t, k);
    forall n | n in s'.registry ensures s'.rooms[s'.registry[n]].name == n { assert n in s.registry; }
  }

  lemma RoomGauges(s: State, s': State, g: Gid, t: Task, k: Stack, pick: nat)
    requires Gauges(s) && t.ForRoom() && AdvanceRoom(s, g, t, k, pick) == Some(s')
    ensures Gauges(s')
  {
    RoomEffect(s, s', g, t, k, pick);
    forall n | n in s'.registry ensures s'.registry[n] in s'.rooms && s'.rooms[s'.registry[n]].name == n {
      assert n in s.registry;
    }
    if t.RoomTail? { SubsetSize(s'.registry.Keys, s.registry.Keys); }
  }

  lemma OtherGauges(s: State, s': State, g: Gid, t: Task, k: Stack, pick: nat)
    requires Inv(s) && Gauges(s) && PeerCounts(s) && RoomCounts(s)
    requires g in s.threads && s.threads[g] == Push(t, k) && !t.ForPeer() && !t.ForRoom()
    requires AdvanceOther(s, g, t, k, pick) == Some(s')
    ensures Gauges(s')
  {
    CountedForTheFirstTime(s, g, t, k);
    OtherEffect(s, s', g, t, k, pick);
    OtherGaugeFields(s, s', g, t, k, pick);
    OneMoreCounted(s, s', t);
    OtherKeepsRegistry(s, s', g, t, k, pick);
  }

  lemma OtherGaugeFields(s: State, s': State, g: Gid, t: Task, k: Stack, pick: nat)
    requires !t.ForPeer() && !t.ForRoom() && AdvanceOther(s, g, t, k, pick) == Some(s')
    ensures s'.peersGauge - s.peersGauge == if t.JoinTail? then 1 else if t.PeerGauge? then -1 else 0
    ensures s'.roomsGauge - s.roomsGauge == if t.CreateTail? then 1 else if t.RoomGauge? then -1 else 0
  {
  }

  lemma OneMoreCounted(s: State, s': State, t: Task)
    requires GaugeSizes(s) && s'.peers == s.peers
    requires s'.peersGauge - s.peersGauge == if t.JoinTail? then 1 else if t.PeerGauge? then -1 else 0
    requires s'.roomsGauge - s.roomsGauge == if t.CreateTail? then 1 else if t.RoomGauge? then -1 else 0
    requires s'.past.departures == if t.PeerGauge? then s.past.departures + {t.p} else s.past.departures
    requires s'.past.arrivals == if t.JoinTail? then s.past.arrivals + {t.p} else s.past.arrivals
    requires s'.past.openings == if t.CreateTail? then s.past.openings + {t.r} else s.past.openings
    requires s'.past.closings == if t.RoomGauge? then s.past.closings + {t.r} else s.past.closings
    requires t.JoinTail? ==> t.p !in s.past.arrivals
    requires t.CreateTail? ==> t.r !in s.past.openings
    requires t.RoomGauge? ==> t.r !in s.past.closings
    requires t.PeerGauge? ==> t.p !in s.past.departures && t.p in s.peers
    ensures GaugeSizes(s')
  {
  }

  lemma OtherKeepsRegistry(s: State, s': State, g: Gid, t: Task, k: Stack, pick: nat)
    requires RegistryOk(s) && !t.ForPeer() && !t.ForRoom() && AdvanceOther(s, g, t, k, pick) == Some(s')
    ensures RegistryOk(s')
  {
    OtherEffect(s, s', g, t, k, pick);
    OtherRegistry(s, s', g, t, k, pick);
  }

  lemma OtherRegistry(s: State, s': State, g: Gid, t: Task, k: Stack, pick: nat)
    requires !t.ForPeer() && !t.ForRoom() && AdvanceOther(s, g, t, k, pick) == Some(s')
    ensures s'.registry == (if t.ServerSwap? then map[] else s.registry)
    ensures s'.closed == (t.ServerSwap? || s.closed)
  {
  }

  lemma CountedForTheFirstTime(s: State, g: Gid, t: Task, k: Stack)
    requires Inv(s) && PeerCounts(s) && RoomCounts(s) && g in s.threads && s.threads[g] == Push(t, k)
    ensures t.JoinTail? ==> t.p !in s.past.arrivals
    ensures t.CreateTail? ==> t.r !in s.past.openings
    ensures t.RoomGauge? ==> t.r !in s.past.closings
    ensures t.PeerGauge? ==> t.p !in s.past.departures && t.p in s.peers
  {
    assert Shape(s, s.threads[g]);
    match t
    case JoinTail(p) => TopJoins(s, g, p); assert ArrivesOnce(s, g, p);
    case CreateTail(r) => TopOpens(s, g, r); assert OpensOnce(s, g, r);
    case RoomGauge(r) => assert Dropping(s, g, r) && ClosesOnce(s, g, r);
    case PeerGauge(p) => GaugePops(s, t, k); PendingBelongs(s, g, p);
    case _ =>
  }

  lemma AdvanceKeepsCounted(s: State, s': State, g: Gid, pick: nat)
    requires Counted(s) && Next(s, Advance(g, pick)) == Some(s')
    ensures Counted(s')
  {
    StepKeepsInv(s, s', Advance(g, pick));
    GaugesKept(s, s', g, pick);
    forall p ensures Arrives(s', p) { ArrivesKept(s, s', g, pick, p); }
    forall j, p ensures ArrivesOnce(s', j, p) { ArrivesOnceKept(s, s', g, pick, j, p); }
    forall p ensures Departs(s', p) { DepartsKept(s, s', g, pick, p); }
    forall r ensures Opens(s', r) { OpensKept(s, s', g, pick, r); }
    forall j, r ensures OpensOnce(s', j, r) { OpensOnceKept(s, s', g, pick, j, r); }
    forall r ensures Fate(s', r) { FateKept(s, s', g, pick, r); }
    forall r ensures Closes(s', r) { ClosesKept(s, s', g, pick, r); }
    forall j, r ensures ClosesOnce(s', j, r) { ClosesOnceKept(s, s', g, pick, j, r); }
    forall r ensures Fires(s', r) { FiresKept(s, s', g, pick, r); }
    forall j, r ensures FiresOnce(s', j, r) { FiresOnceKept(s, s', g, pick, j, r); }
    forall r ensures Remembered(s', r) { RememberedKept(s, s', g, pick, r); }
    forall r ensures Ends(s', r) { EndsKept(s, s', g, pick, r); }
  }

  lemma SpawnMoves(s: State, s': State, step: Step)
    requires !step.Advance? && Spawn(s, step) == Some(s')
    ensures OnlyMoves(s, s', step.g) && step.g !in s.threads && step.g in s'.threads
  {
  }

  lemma SpawnRecords(s: State, s': State, step: Step)
    requires !step.Advance? && Spawn(s, step) == Some(s')
    ensures s'.past == s.past.(removal := s'.past.removal, departures := s'.past.departures)
    ensures s'.closed == s.closed && s'.maxRooms == s.maxRooms && s'.roomsGauge == s.roomsGauge
  {
  }

  lemma SpawnedPeers(s: State, s': State, step: Step)
    requires Inv(s) && PeerCounts(s) && !step.Advance? && Spawn(s, step) == Some(s')
    ensures PeerCounts(s')
  {
    var g := step.g;
    SpawnMoves(s, s', step);
    SpawnRecords(s, s', step);
    forall p ensures Arrives(s', p) {
      assert Arrives(s, p);
      if p in s'.peers && p !in s'.past.arrivals {
        if p in s.peers {
          var h :| Joining(s, h, p);
          OthersAreSame(s, s', g, h);
          assert Joining(s', h, p);
        } else {
          assert Joining(s', g, p);
        }
      }
    }
    forall j, p ensures ArrivesOnce(s', j, p) {
      if Joining(s', j, p) {
        assert Arrives(s, p) && ArrivesOnce(s, j, p);
        if j != g { OthersAreSame(s, s', g, j); }
        forall h | Joining(s', h, p) ensures h == j {
          assert ArrivesOnce(s, h, p);
          if h != g { OthersAreSame(s, s', g, h); }
        }
      }
    }
    forall p ensures Departs(s', p) { SpawnedDeparts(s, s', step, p); }
  }

  lemma SpawnedDeparts(s: State, s': State, step: Step, p: Peer)
    requires Inv(s) && PeerCounts(s) && !step.Advance? && Spawn(s, step) == Some(s')
    ensures Departs(s', p)
  {
    if p in s'.peers && p in s'.past.removal && p !in s'.past.departures && !s'.past.removal[p].InMap? {
      SpawnMoves(s, s', step);
      assert Departs(s, p) && PeerBook(s, p);
      var r := s.peers[p].room;
      assert RoomGuard(s, r);
      OthersAreSame(s, s', step.g, s.rooms[r].once.holder);
    }
  }

  lemma SpawnedRoom(s: State, s': State, step: Step, r: Room)
    requires !step.Advance? && Spawn(s, step) == Some(s') && r in s.rooms
    ensures r in s'.rooms && s'.rooms[r].name == s.rooms[r].name && s'.rooms[r].once == s.rooms[r].once
    ensures Listed(s', r) == Listed(s, r)
    ensures s'.rooms[r].used && s'.rooms[r].members == {} ==>
              (s.rooms[r].used && s.rooms[r].members == {}) || s.rooms[r].members != {}
    ensures s'.rooms[r].members == {} && s.rooms[r].members != {} ==> WillClose(s', step.g, r)
  {
  }

  lemma SpawnedOpens(s: State, s': State, step: Step, r: Room)
    requires RoomCounts(s) && !step.Advance? && Spawn(s, step) == Some(s')
    ensures Opens(s', r)
  {
    assert Opens(s, r);
    SpawnMoves(s, s', step);
    SpawnRecords(s, s', step);
    if r in s'.rooms && r !in s'.past.openings {
      if r in s.rooms {
        var h :| Opening(s, h, r);
        OthersAreSame(s, s', step.g, h);
        assert Opening(s', h, r);
      } else {
        assert Opening(s', step.g, r);
      }
    }
  }

  lemma SpawnedOpensOnce(s: State, s': State, step: Step, j: Gid, r: Room)
    requires RoomCounts(s) && !step.Advance? && Spawn(s, step) == Some(s')
    ensures OpensOnce(s', j, r)
  {
    if Opening(s', j, r) {
      SpawnMoves(s, s', step);
      SpawnRecords(s, s', step);
      assert Opens(s, r) && OpensOnce(s, j, r);
      if j != step.g { OthersAreSame(s, s', step.g, j); }
      forall h | Opening(s', h, r) ensures h == j {
        assert OpensOnce(s, h, r);
        if h != step.g { OthersAreSame(s, s', step.g, h); }
      }
    }
  }

  lemma SpawnedFate(s: State, s': State, step: Step, r: Room)
    requires RoomCounts(s) && !step.Advance? && Spawn(s, step) == Some(s')
    ensures Fate(s', r) && Fires(s', r)
  {
    assert Fate(s, r) && Fires(s, r);
    SpawnRecords(s, s', step);
    if r in s.rooms { SpawnedRoom(s, s', step, r); }
  }

  lemma SpawnedCloses(s: State, s': State, step: Step, r: Room)
    requires RoomCounts(s) && !step.Advance? && Spawn(s, step) == Some(s')
    ensures Closes(s', r) && Remembered(s', r)
  {
    assert Closes(s, r) && Remembered(s, r);
    SpawnMoves(s, s', step);
    SpawnRecords(s, s', step);
    if r in s'.past.dropped && r !in s'.past.closings {
      var h :| Dropping(s, h, r);
      OthersAreSame(s, s', step.g, h);
      assert Dropping(s', h, r);
    }
    if r in s.rooms {
      SpawnedRoom(s, s', step, r);
      if s.rooms[r].used && s.rooms[r].members == {} && s.rooms[r].once.Fresh? {
        var h :| WillClose(s, h, r);
        OthersAreSame(s, s', step.g, h);
        assert WillClose(s', h, r);
      }
    }
  }

  lemma SpawnedEnds(s: State, s': State, step: Step, r: Room)
    requires RoomCounts(s) && !step.Advance? && Spawn(s, step) == Some(s')
    ensures Ends(s', r)
  {
    assert Ends(s, r) && Fires(s, r);
    SpawnRecords(s, s', step);
    if r in s.rooms {
      SpawnedRoom(s, s', step, r);
      SpawnMoves(s, s', step);
      if s.rooms[r].once.Running? && s.past.fired[r] == 0 { OthersAreSame(s, s', step.g, s.rooms[r].once.holder); }
    }
  }

  lemma SpawnedTails(s: State, s': State, step: Step, j: Gid, r: Room)
    requires RoomCounts(s) && !step.Advance? && Spawn(s, step) == Some(s')
    ensures ClosesOnce(s', j, r) && FiresOnce(s', j, r)
  {
    assert ClosesOnce(s, j, r) && FiresOnce(s, j, r);
    SpawnMoves(s, s', step);
    SpawnRecords(s, s', step);
    if j != step.g { OthersAreSame(s, s', step.g, j); }
  }

  lemma SpawnedRooms(s: State, s': State, step: Step)
    requires RoomCounts(s) && !step.Advance? && Spawn(s, step) == Some(s')
    ensures RoomCounts(s')
  {
    forall r ensures Opens(s', r) { SpawnedOpens(s, s', step, r); }
    forall j, r ensures OpensOnce(s', j, r) { SpawnedOpensOnce(s, s', step, j, r); }
    forall r ensures Fate(s', r) { SpawnedFate(s, s', step, r); }
    forall r ensures Fires(s', r) { SpawnedFate(s, s', step, r); }
    forall r ensures Closes(s', r) { SpawnedCloses(s, s', step, r); }
    forall r ensures Remembered(s', r) { SpawnedCloses(s, s', step, r); }
    forall r ensures Ends(s', r) { SpawnedEnds(s, s', step, r); }
    forall j, r ensures ClosesOnce(s', j, r) { SpawnedTails(s, s', step, j, r); }
    forall j, r ensures FiresOnce(s', j, r) { SpawnedTails(s, s', step, j, r); }
  }

  lemma SpawnedGauges(s: State, s': State, step: Step)
    requires Books(s) && Gauges(s) && !step.Advance? && Spawn(s, step) == Some(s')
    ensures Gauges(s')
  {
    SpawnRecords(s, s', step);
    forall n | n in s'.registry ensures s'.registry[n] in s'.rooms && s'.rooms[s'.registry[n]].name == n {
      if n in s.registry { SpawnedRoom(s, s', step, s.registry[n]); }
    }
    SpawnedSizes(s, s', step);
  }

  lemma SpawnedSizes(s: State, s': State, step: Step)
    requires Books(s) && Gauges(s) && !step.Advance? && Spawn(s, step) == Some(s')
    ensures s'.past.departures <= s'.peers.Keys
    ensures s'.peersGauge + |s'.past.departures| == s.peersGauge + |s.past.departures|
    ensures s'.maxRooms > 0 ==> |s'.registry| <= s'.maxRooms
    ensures s'.closed ==> s'.registry == map[]
  {
    if step.Leave? { assert PeerBook(s, step.p); }
    if step.CreateRoom? { assert s'.registry.Keys == s.registry.Keys + {step.name}; }
  }

  lemma StepKeepsCounted(s: State, s': State, step: Step)
    requires Counted(s) && Next(s, step) == Some(s')
    ensures Counted(s')
  {
    if step.Advance? {
      AdvanceKeepsCounted(s, s', step.g, step.pick);
    } else {
      StepKeepsInv(s, s', step);
      SpawnedPeers(s, s', step);
      SpawnedRooms(s, s', step);
      SpawnedGauges(s, s', step);
    }
  }

  lemma {:induction false} RunKeepsCounted(s: State, steps: seq<Step>)
    requires Counted(s) && Run(s, steps).Some?
    ensures Counted(Run(s, steps).value)
    decreases |steps|
  {
    if steps != [] {
      StepKeepsCounted(s, Next(s, steps[0]).value, steps[0]);
      RunKeepsCounted(Next(s, steps[0]).value, steps[1..]);
    }
  }

  // ---------------------------------------------------------------------------------------------------------------
  // What the invariant means for a caller.

  function Members(s: State): set<Peer> {
    set r, p | r in s.rooms && p in s.rooms[r].members :: p
  }

  function Uncounted(s: State): set<Peer> { s.peers.Keys - s.past.arrivals }

  /** Taken out of a room by Room.Close and not yet counted by its loop. */
  function Uncleared(s: State): set<Peer> {
    set p | p in s.past.removal && s.past.removal[p].BySwap? && p !in s.past.departures
  }

  /**
   * Main result: at every moment the peers gauge is the number of peers in rooms, plus those a running Room.Close has
   * yet to count, minus those whose Join has yet to count them. Each of the latter has a goroutine that will.
   */
  lemma PeersGaugeIsExact(maxRooms: int, steps: seq<Step>)
    requires Run(Init(maxRooms), steps).Some?
    ensures var s := Run(Init(maxRooms), steps).value;
            && s.peersGauge == |Members(s)| + |Uncleared(s)| - |Uncounted(s)|
            && (forall p :: p in Uncounted(s) ==> exists g :: Joining(s, g, p))
            && (forall p :: p in Uncleared(s) ==> exists g :: p in PendingBy(s, g))
  {
    InitIsCounted(maxRooms);
    RunKeepsCounted(Init(maxRooms), steps);
    var s := Run(Init(maxRooms), steps).value;
    forall p ensures p in Members(s) + Uncleared(s) <==> p in s.peers.Keys - s.past.departures {
      assert PeerBook(s, p) && Departs(s, p);
      if p in Members(s) {
        var r :| r in s.rooms && p in s.rooms[r].members;
        assert MemberBook(s, r, p);
      }
    }
    forall p | p in Members(s) ensures p !in Uncleared(s) {
      var r :| r in s.rooms && p in s.rooms[r].members;
      assert MemberBook(s, r, p) && PeerBook(s, p);
    }
    assert Members(s) + Uncleared(s) == s.peers.Keys - s.past.departures;
    assert |Members(s) + Uncleared(s)| == |Members(s)| + |Uncleared(s)|;
    assert s.past.departures <= s.peers.Keys;
    assert s.past.arrivals <= s.peers.Keys by {
      forall p | p in s.past.arrivals ensures p in s.peers { assert Arrives(s, p); }
    }
    forall p | p in Uncounted(s) ensures exists g :: Joining(s, g, p) { assert Arrives(s, p); }
    forall p | p in Uncleared(s) ensures exists g :: p in PendingBy(s, g) { assert Departs(s, p) && PeerBook(s, p); }
  }

  /**
   * Main result: at every moment the rooms gauge is the size of the registry, plus the rooms that Server.Close took out
   * of it, plus those taken out by onRoomClosed and not yet counted, minus those whose CreateRoom has yet to count
   * them. Each of the last two kinds has a goroutine that will.
   */
  lemma RoomsGaugeIsExact(maxRooms: int, steps: seq<Step>)
    requires Run(Init(maxRooms), steps).Some?
    ensures var s := Run(Init(maxRooms), steps).value;
            && s.roomsGauge == |s.registry| + |s.past.swept| + |s.past.dropped - s.past.closings|
                               - |s.rooms.Keys - s.past.openings|
            && (forall r :: r in s.past.dropped - s.past.closings ==> exists g :: Dropping(s, g, r))
            && (forall r :: r in s.rooms.Keys - s.past.openings ==> exists g :: Opening(s, g, r))
  {
    InitIsCounted(maxRooms);
    RunKeepsCounted(Init(maxRooms), steps);
    var s := Run(Init(maxRooms), steps).value;
    FatesAddUp(s);
    forall r | r in s.past.openings ensures r in s.rooms { assert Opens(s, r); }
    forall r | r in s.past.closings ensures r in s.past.dropped { assert Closes(s, r); }
    PartSize(s.past.openings, s.rooms.Keys);
    PartSize(s.past.closings, s.past.dropped);
    forall r | r in s.past.dropped - s.past.closings ensures exists g :: Dropping(s, g, r) { assert Closes(s, r); }
    forall r | r in s.rooms.Keys - s.past.openings ensures exists g :: Opening(s, g, r) { assert Opens(s, r); }
  }

  lemma PartSize<T>(part: set<T>, whole: set<T>)
    requires part <= whole
    ensures |whole - part| == |whole| - |part|
  {
  }

  /**
   * Main result: once all calls have returned, the rooms gauge is the size of the registry plus the rooms that
   * Server.Close took out of it, so the gauge is right exactly when Server.Close found the registry empty or never ran.
   */
  lemma RoomsGaugeWhenQuiet(maxRooms: int, steps: seq<Step>)
    requires Run(Init(maxRooms), steps).Some?
    requires Quiet(Run(Init(maxRooms), steps).value)
    ensures var s := Run(Init(maxRooms), steps).value;
            && s.roomsGauge == |s.registry| + |s.past.swept|
            && (s.roomsGauge == |s.registry| <==> s.past.swept == {})
            && s.peersGauge == |Members(s)|
  {
    RoomsGaugeIsExact(maxRooms, steps);
    PeersGaugeIsExact(maxRooms, steps);
    var s := Run(Init(maxRooms), steps).value;
    assert Uncounted(s) == {} && Uncleared(s) == {};
    assert s.past.dropped - s.past.closings == {} && s.rooms.Keys - s.past.openings == {};
  }

  /** Peers that sit in a room which has not closed. */
  function OpenMembers(s: State): set<Peer> {
    set r, p | r in s.rooms && !s.rooms[r].once.Done? && p in s.rooms[r].members :: p
  }

  /** Peers whose Join came after the room had closed. */
  function ClosedMembers(s: State): set<Peer> {
    set r, p | r in s.rooms && s.rooms[r].once.Done? && p in s.rooms[r].members :: p
  }

  /**
   * Main result: once all calls have returned, the peers gauge is too high by the peers that sit in closed rooms, and
   * it is the number of peers in open rooms if and only if there are none.
   */
  lemma PeersGaugeWhenQuiet(maxRooms: int, steps: seq<Step>)
    requires Run(Init(maxRooms), steps).Some?
    requires Quiet(Run(Init(maxRooms), steps).value)
    ensures var s := Run(Init(maxRooms), steps).value;
            && s.peersGauge == |OpenMembers(s)| + |ClosedMembers(s)|
            && (s.peersGauge == |OpenMembers(s)| <==>
                forall r :: r in s.rooms && s.rooms[r].once.Done? ==> s.rooms[r].members == {})
  {
    PeersGaugeIsExact(maxRooms, steps);
    InitIsCounted(maxRooms);
    RunKeepsCounted(Init(maxRooms), steps);
    var s := Run(Init(maxRooms), steps).value;
    assert Uncounted(s) == {} && Uncleared(s) == {};
    OpenOrClosed(s);
    NobodyInClosedRooms(s);
  }

  lemma OpenOrClosed(s: State)
    requires forall r, p :: MemberBook(s, r, p)
    ensures |Members(s)| == |OpenMembers(s)| + |ClosedMembers(s)|
  {
    assert Members(s) == OpenMembers(s) + ClosedMembers(s);
    forall p | p in OpenMembers(s) ensures p !in ClosedMembers(s) {
      forall r | r in s.rooms && p in s.rooms[r].members ensures p in s.peers && r == s.peers[p].room {
        assert MemberBook(s, r, p);
      }
    }
  }

  lemma NobodyInClosedRooms(s: State)
    ensures ClosedMembers(s) == {} <==> forall r :: r in s.rooms && s.rooms[r].once.Done? ==> s.rooms[r].members == {}
  {
    if ClosedMembers(s) == {} {
      forall r, p | r in s.rooms && s.rooms[r].once.Done? ensures p !in s.rooms[r].members {
        assert p !in ClosedMembers(s);
      }
    }
  }

  lemma FatesAddUp(s: State)
    requires RoomCounts(s) && RegistryOk(s)
    ensures |s.rooms.Keys| == |s.registry| + |s.past.dropped| + |s.past.swept|
  {
    var (rooms, listed, dropped, swept) := (s.rooms.Keys, s.registry.Values, s.past.dropped, s.past.swept);
    forall r ensures (r in rooms <==> r in listed || r in dropped || r in swept)
                     && (r in listed ==> r !in dropped && r !in swept) && (r in dropped ==> r !in swept) {
      FateIsOne(s, r);
    }
    ThreeParts(rooms, listed, dropped, swept);
    RegistryIsInjective(s.registry);
  }

  lemma ThreeParts<T>(all: set<T>, a: set<T>, b: set<T>, c: set<T>)
    requires forall x :: x in all <==> x in a || x in b || x in c
    requires a !! b && a !! c && b !! c
    ensures |all| == |a| + |b| + |c|
  {
    assert all == a + b + c;
  }

  lemma FateIsOne(s: State, r: Room)
    requires RoomCounts(s) && RegistryOk(s)
    ensures r in s.rooms <==> r in s.registry.Values || r in s.past.dropped || r in s.past.swept
    ensures r in s.registry.Values ==> r !in s.past.dropped && r !in s.past.swept
    ensures r in s.past.dropped ==> r !in s.past.swept
  {
    assert Fate(s, r);
    if Listed(s, r) { assert s.rooms[r].name in s.registry.Keys; }
  }

  lemma {:induction false} RegistryIsInjective(registry: map<Name, Room>)
    requires forall m, n :: m in registry && n in registry && registry[m] == registry[n] ==> m == n
    ensures |registry.Values| == |registry|
    decreases |registry|
  {
    if registry != map[] {
      var n :| n in registry;
      var rest := registry - {n};
      assert rest.Keys == registry.Keys - {n};
      assert |rest| < |registry|;
      RegistryIsInjective(rest);
      assert registry.Values == rest.Values + {registry[n]} by {
        forall r | r in registry.Values ensures r in rest.Values + {registry[n]} {
          var m :| m in registry && registry[m] == r;
          if m != n { assert m in rest.Keys; }
        }
        assert n in registry.Keys;
      }
      assert registry[n] !in rest.Values;
    } else {
      assert registry.Values == {};
    }
  }

  /**
   * Main result: onClose has fired at most once for every room, and once when the room is closed; when it is about to
   * fire before Server.Close, the registry entry under the room's name is that very room; and while the limit is
   * positive the registry respects it.
   */
  lemma OnCloseFiresOnce(maxRooms: int, steps: seq<Step>, r: Room)
    requires Run(Init(maxRooms), steps).Some?
    ensures var s := Run(Init(maxRooms), steps).value;
            && s.past.fired[r] <= 1
            && (r in s.rooms && s.rooms[r].once.Done? ==> s.past.fired[r] == 1 && !Listed(s, r))
            && (forall g :: BeforeTail(s, g, r) && !s.closed ==> Listed(s, r))
            && (maxRooms > 0 ==> |s.registry| <= maxRooms)
  {
    InitIsCounted(maxRooms);
    RunKeepsCounted(Init(maxRooms), steps);
    var s := Run(Init(maxRooms), steps).value;
    assert Fires(s, r) && Ends(s, r);
    forall g | BeforeTail(s, g, r) && !s.closed ensures Listed(s, r) { TailFindsItself(s, g, r); }
    LimitIsFixed(Init(maxRooms), steps);
  }

  /**
   * Main result: a room that had a peer and is empty is closed, being closed, or some goroutine is on its way to it.
   */
  lemma EmptyRoomsAreClosed(maxRooms: int, steps: seq<Step>, r: Room)
    requires Run(Init(maxRooms), steps).Some?
    requires var s := Run(Init(maxRooms), steps).value; r in s.rooms && s.rooms[r].used && s.rooms[r].members == {}
    ensures var s := Run(Init(maxRooms), steps).value;
            && (!s.rooms[r].once.Fresh? || exists g :: WillClose(s, g, r))
            && (Quiet(s) ==> s.rooms[r].once.Done? && s.past.fired[r] == 1 && !Listed(s, r))
  {
    InitIsCounted(maxRooms);
    RunKeepsCounted(Init(maxRooms), steps);
    OnCloseFiresOnce(maxRooms, steps, r);
    var s := Run(Init(maxRooms), steps).value;
    assert Remembered(s, r) && RoomGuard(s, r);
  }

  /**
   * Main result: a registered room that ever had a peer still has one, or a goroutine is on its way to take the room
   * out of the registry; once all calls have returned every registered room that ever had a peer has one.
   */
  lemma RegisteredRoomsHavePeers(maxRooms: int, steps: seq<Step>, r: Room)
    requires Run(Init(maxRooms), steps).Some?
    requires var s := Run(Init(maxRooms), steps).value; Listed(s, r) && s.rooms[r].used
    ensures var s := Run(Init(maxRooms), steps).value;
            && (s.rooms[r].members != {} || exists g :: WillClose(s, g, r) || BeforeTail(s, g, r))
            && (Quiet(s) ==> s.rooms[r].members != {})
  {
    InitIsCounted(maxRooms);
    RunKeepsCounted(Init(maxRooms), steps);
    var s := Run(Init(maxRooms), steps).value;
    assert Remembered(s, r) && Ends(s, r);
    if s.rooms[r].members == {} && s.rooms[r].once.Running? { assert BeforeTail(s, s.rooms[r].once.holder, r); }
  }

  lemma {:induction false} LimitIsFixed(s: State, steps: seq<Step>)
    requires Run(s, steps).Some?
    ensures Run(s, steps).value.maxRooms == s.maxRooms
    decreases |steps|
  {
    if steps != [] {
      StepKeepsLimit(s, Next(s, steps[0]).value, steps[0]);
      LimitIsFixed(Next(s, steps[0]).value, steps[1..]);
    }
  }

  lemma StepKeepsLimit(s: State, s': State, step: Step)
    requires Next(s, step) == Some(s')
    ensures s'.maxRooms == s.maxRooms
  {
    if !step.Advance? {
      SpawnRecords(s, s', step);
    } else {
      var t, k := s.threads[step.g].top, s.threads[step.g].below;
      if t.ForPeer() { PeerEffect(s, s', step.g, t, k); }
      else if t.ForRoom() { RoomEffect(s, s', step.g, t, k, step.pick); }
      else { OtherEffect(s, s', step.g, t, k, step.pick); }
    }
  }

  lemma InitIsCounted(maxRooms: int)
    ensures Counted(Init(maxRooms))
  {
  }
}
