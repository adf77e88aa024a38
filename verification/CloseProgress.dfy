/**
 * What the closing protocol promises about waiting: no circle of goroutines waits on Once guards, somebody can always
 * go on, and the cascade of calls ends after a number of tasks that the state it starts from bounds.
 */
module CloseProgress {
  import opened Options
  import opened Collections
  import opened CloseProtocol

  /** The goroutine for which g waits: the one inside the guard that g's next call wants. */
  function WaitsFor(s: State, g: Gid): Option<Gid> {
    if g !in s.threads || s.threads[g].Empty? then None
    else
      match s.threads[g].top
      case CallPeerClose(p) =>
        if p in s.peers && s.peers[p].once.Running? then Some(s.peers[p].once.holder) else None
      case CallRoomClose(r) =>
        if r in s.rooms && s.rooms[r].once.Running? then Some(s.rooms[r].once.holder) else None
      case CallServerClose =>
        if s.serverOnce.Running? then Some(s.serverOnce.holder) else None
      case _ => None
  }

  /**
   * The server waits for rooms, leavers for peers, callbacks for rooms, and a room's loop for peers that never wait.
   */
  function Rank(k: Stack): nat {
    if k.Empty? then 0
    else if k.top.CallServerClose? then 4
    else if k.top.CallPeerClose? && RoomsHeld(k) == {} then 3
    else if k.top.CallRoomClose? then 2
    else if k.top.CallPeerClose? then 1
    else 0
  }

  lemma HolderOfPeer(s: State, k: Stack, p: Peer)
    requires Shape(s, k) && p in PeersHeld(k)
    ensures k.Push? && Rank(k) <= 2
    ensures Taken(s, p, BySwap) ==> Rank(k) == 0
  {
  }

  lemma HolderOfRoom(s: State, k: Stack, r: Room)
    requires Shape(s, k) && r in RoomsHeld(k)
    ensures k.Push? && Rank(k) <= 1
  {
  }

  lemma HolderOfServer(s: State, k: Stack)
    requires Shape(s, k) && HoldsServer(k)
    ensures k.Push? && Rank(k) <= 3
  {
  }

  /** A loop only ever closes peers that the swap took, and those never wait for the room. */
  lemma LoopWaitsForSwapped(s: State, k: Stack)
    requires Shape(s, k) && k.Push? && k.top.CallPeerClose? && RoomsHeld(k) != {}
    ensures Taken(s, k.top.p, BySwap)
  {
  }

  lemma WaitingDescends(s: State, g: Gid)
    requires Inv(s) && WaitsFor(s, g).Some?
    ensures var h := WaitsFor(s, g).value;
            h in s.threads && s.threads[h].Push? && Rank(s.threads[h]) < Rank(s.threads[g])
  {
    var h := WaitsFor(s, g).value;
    var k := s.threads[g];
    assert Shape(s, k);
    match k.top
    case CallPeerClose(p) =>
      assert PeerGuard(s, p);
      assert Shape(s, s.threads[h]);
      HolderOfPeer(s, s.threads[h], p);
      if RoomsHeld(k) != {} { LoopWaitsForSwapped(s, k); }
    case CallRoomClose(r) =>
      assert RoomGuard(s, r);
      assert Shape(s, s.threads[h]);
      HolderOfRoom(s, s.threads[h], r);
    case CallServerClose =>
      assert Shape(s, s.threads[h]);
      HolderOfServer(s, s.threads[h]);
  }

  ghost predicate WaitChain(s: State, gs: seq<Gid>) {
    forall i :: 0 <= i < |gs| - 1 ==> WaitsFor(s, gs[i]) == Some(gs[i + 1])
  }

  lemma {:induction false} RanksDescend(s: State, gs: seq<Gid>, i: nat, j: nat)
    requires Inv(s) && WaitChain(s, gs) && i < j < |gs|
    ensures gs[i] in s.threads && gs[j] in s.threads && Rank(s.threads[gs[j]]) + (j - i) <= Rank(s.threads[gs[i]])
    decreases j - i
  {
    assert WaitsFor(s, gs[i]) == Some(gs[i + 1]);
    WaitingDescends(s, gs[i]);
    if i + 1 < j {
      RanksDescend(s, gs, i + 1, j);
    }
  }

  /** Main result: in no run do goroutines wait for each other in a circle, and none waits for itself. */
  lemma NoWaitCycle(maxRooms: int, steps: seq<Step>, gs: seq<Gid>)
    requires Run(Init(maxRooms), steps).Some?
    requires WaitChain(Run(Init(maxRooms), steps).value, gs)
    ensures forall i, j :: 0 <= i < j < |gs| ==> gs[i] != gs[j]
    ensures |gs| <= 5
  {
    InitHasInv(maxRooms);
    RunKeepsInv(Init(maxRooms), steps);
    var s := Run(Init(maxRooms), steps).value;
    forall i, j | 0 <= i < j < |gs| ensures gs[i] != gs[j] {
      RanksDescend(s, gs, i, j);
    }
    if |gs| > 1 {
      RanksDescend(s, gs, 0, |gs| - 1);
    }
  }

  lemma InitHasInv(maxRooms: int)
    ensures Inv(Init(maxRooms))
  {
  }

  /** A goroutine that waits for nobody can take its next step. */
  lemma UnblockedRuns(s: State, g: Gid) returns (pick: nat)
    requires Inv(s) && g in s.threads && s.threads[g].Push? && WaitsFor(s, g).None?
    ensures Next(s, Advance(g, pick)).Some?
  {
    assert Shape(s, s.threads[g]);
    pick := 0;
    var t := s.threads[g].top;
    if t.RoomLoop? && t.todo != {} {
      pick :| pick in t.todo;
    } else if t.ServerLoop? && t.rooms != {} {
      pick :| pick in t.rooms;
    } else if t.ForPeer() {
      assert PeerBook(s, t.p);
    }
  }

  /** As long as a call is unfinished, some goroutine can go on. */
  lemma {:induction false} SomebodyRuns(s: State, g: Gid) returns (h: Gid, pick: nat)
    requires Inv(s) && g in s.threads && s.threads[g].Push?
    ensures Next(s, Advance(h, pick)).Some?
    decreases Rank(s.threads[g])
  {
    if WaitsFor(s, g).None? {
      h := g;
      pick := UnblockedRuns(s, g);
    } else {
      WaitingDescends(s, g);
      h, pick := SomebodyRuns(s, WaitsFor(s, g).value);
    }
  }

  // ---------------------------------------------------------------------------------------------------------------
  // Termination: every task pays for the tasks it may push.

  function Weight(t: Task): nat {
    match t
    case CallPeerClose(_) => 4
    case PeerBody(_) => 3
    case PeerCallback(_) => 2
    case CallRoomClose(_) => 6
    case RoomSwap(_) => 5
    case RoomLoop(_, todo) => 4 + 6 * |todo|
    case RoomTail(_) => 3
    case CallServerClose => 4
    case ServerSwap => 3
    case ServerLoop(rooms) => 2 + 7 * |rooms|
    case _ => 1
  }

  function StackWeight(k: Stack): nat {
    if k.Empty? then 0 else Weight(k.top) + StackWeight(k.below)
  }

  function Weights(s: State): map<Gid, nat> {
    map g | g in s.threads :: StackWeight(s.threads[g])
  }

  function StillInMap(s: State): set<Peer> {
    set p | p in s.past.removal && s.past.removal[p].InMap?
  }

  /** Unfinished tasks, plus what peers and rooms not yet taken out may still cost. */
  ghost function Potential(s: State): nat {
    Sum(Weights(s)) + 6 * |StillInMap(s)| + 7 * |s.registry|
  }

  /** Exchanging one goroutine's stack changes the sum by the difference of the weights. */
  lemma StackChange(s: State, s': State, g: Gid, k': Stack)
    requires g in s.threads && s'.threads == WithStack(s, g, k').threads
    ensures Sum(Weights(s')) + StackWeight(s.threads[g]) == Sum(Weights(s)) + StackWeight(k')
  {
    SumWithout(Weights(s), g);
    SumWithout(Weights(s'), g);
    assert Weights(s') - {g} == Weights(s) - {g};
  }

  /** A step that pays for its new tasks out of the old one. */
  lemma TaskPays(s: State, s': State, g: Gid, k': Stack)
    requires g in s.threads && s'.threads == WithStack(s, g, k').threads
    requires StackWeight(k') + 6 * |StillInMap(s')| + 7 * |s'.registry|
             < StackWeight(s.threads[g]) + 6 * |StillInMap(s)| + 7 * |s.registry|
    ensures Potential(s') < Potential(s)
  {
    StackChange(s, s', g, k');
  }

  lemma TakeOutLeavesOneLess(s: State, s': State, g: Gid, p: Peer, k': Stack)
    requires Books(s) && p in s.peers && s.peers[p].room in s.rooms && p in s.rooms[s.peers[p].room].members
    requires s' == WithStack(TakeOut(s, p, s.peers[p].room), g, k')
    ensures |StillInMap(s')| + 1 == |StillInMap(s)| && s'.registry == s.registry
  {
    assert PeerBook(s, p);
    assert StillInMap(s') == StillInMap(s) - {p} && p in StillInMap(s);
  }

  lemma PeerTaskCosts(s: State, s': State, g: Gid, t: Task, k: Stack)
    requires Books(s) && g in s.threads && s.threads[g] == Push(t, k) && t.ForPeer()
    requires AdvancePeer(s, g, t, k) == Some(s')
    ensures Potential(s') < Potential(s)
  {
    var p := t.p;
    match t
    case CallPeerClose(_) => TaskPays(s, s', g, if s.peers[p].once.Fresh? then Push(PeerBody(p), k) else k);
    case PeerBody(_) => TaskPays(s, s', g, Push(PeerCallback(p), k));
    case PeerDone(_) => TaskPays(s, s', g, k);
    case PeerCallback(_) =>
      if p in s.rooms[s.peers[p].room].members {
        var closing := Push(CallRoomClose(s.peers[p].room), Push(PeerDone(p), k));
        assert StackWeight(closing) == 6 + StackWeight(Push(PeerDone(p), k));
        TakeOutLeavesOneLess(s, s', g, p, s'.threads[g]);
        TaskPays(s, s', g, s'.threads[g]);
      } else {
        TaskPays(s, s', g, Push(PeerDone(p), k));
      }
  }

  lemma SwapCosts(s: State, s': State, g: Gid, r: Room, k: Stack)
    requires Books(s) && g in s.threads && s.threads[g] == Push(RoomSwap(r), k)
    requires AdvanceRoom(s, g, RoomSwap(r), k, 0) == Some(s')
    ensures Potential(s') < Potential(s)
  {
    var out := s.rooms[r].members;
    StackChange(s, s', g, Push(RoomLoop(r, out), k));
    forall p | p in out ensures p in StillInMap(s) { assert PeerBook(s, p); assert MemberBook(s, r, p); }
    assert StillInMap(s') == StillInMap(s) - out;
    assert StillInMap(s) == StillInMap(s') + out;
  }

  lemma LoopPays(r: Room, todo: set<Peer>, p: Peer, k: Stack)
    requires p in todo
    ensures StackWeight(Push(CallPeerClose(p), Push(PeerGauge(p), Push(RoomLoop(r, todo - {p}), k))))
            < StackWeight(Push(RoomLoop(r, todo), k))
  {
    var inner := Push(RoomLoop(r, todo - {p}), k);
    assert StackWeight(Push(PeerGauge(p), inner)) == 1 + StackWeight(inner);
  }

  lemma RoomTaskCosts(s: State, s': State, g: Gid, t: Task, k: Stack, pick: nat)
    requires g in s.threads && s.threads[g] == Push(t, k) && t.ForRoom() && !t.RoomSwap?
    requires AdvanceRoom(s, g, t, k, pick) == Some(s')
    ensures Potential(s') < Potential(s)
  {
    var r := t.r;
    match t
    case CallRoomClose(_) => TaskPays(s, s', g, if s.rooms[r].once.Fresh? then Push(RoomSwap(r), k) else k);
    case RoomDone(_) => TaskPays(s, s', g, k);
    case RoomLoop(_, todo) =>
      if todo == {} {
        TaskPays(s, s', g, Push(RoomTail(r), k));
      } else {
        LoopPays(r, todo, pick, k);
        TaskPays(s, s', g, Push(CallPeerClose(pick), Push(PeerGauge(pick), Push(RoomLoop(r, todo - {pick}), k))));
      }
    case RoomTail(_) => TailCosts(s, s', g, r, k);
  }

  lemma TailCosts(s: State, s': State, g: Gid, r: Room, k: Stack)
    requires g in s.threads && s.threads[g] == Push(RoomTail(r), k)
    requires AdvanceRoom(s, g, RoomTail(r), k, 0) == Some(s')
    ensures Potential(s') < Potential(s)
  {
    assert StackWeight(Push(RoomDone(r), k)) == 1 + StackWeight(k);
    TailRegistry(s, s', g, r, k);
    TaskPays(s, s', g, s'.threads[g]);
  }

  lemma TailRegistry(s: State, s': State, g: Gid, r: Room, k: Stack)
    requires AdvanceRoom(s, g, RoomTail(r), k, 0) == Some(s')
    ensures s'.past.removal == s.past.removal
    ensures
      || (|s'.registry| + 1 == |s.registry|
          && s'.threads == WithStack(s, g, Push(RoomGauge(r), Push(RoomDone(r), k))).threads)
      || (|s'.registry| == |s.registry| && s'.threads == WithStack(s, g, Push(RoomDone(r), k)).threads)
  {
    TailMoves(s, s', g, r, k);
    if s.rooms[r].name in s.registry { DropPays(s.registry, s.rooms[r].name); }
  }

  lemma TailMoves(s: State, s': State, g: Gid, r: Room, k: Stack)
    requires AdvanceRoom(s, g, RoomTail(r), k, 0) == Some(s')
    ensures r in s.rooms && s'.past.removal == s.past.removal
    ensures if s.rooms[r].name in s.registry
            then s'.registry == s.registry - {s.rooms[r].name}
                 && s'.threads == WithStack(s, g, Push(RoomGauge(r), Push(RoomDone(r), k))).threads
            else s'.registry == s.registry && s'.threads == WithStack(s, g, Push(RoomDone(r), k)).threads
  {
  }

  lemma DropPays(registry: map<Name, Room>, name: Name)
    requires name in registry
    ensures |registry - {name}| + 1 == |registry|
  {
    assert (registry - {name}).Keys == registry.Keys - {name};
  }

  lemma ServerSwapCosts(s: State, s': State, g: Gid, k: Stack)
    requires g in s.threads && s.threads[g] == Push(ServerSwap, k)
    requires AdvanceOther(s, g, ServerSwap, k, 0) == Some(s')
    ensures Potential(s') < Potential(s)
  {
    assert StillInMap(s') == StillInMap(s);
    StackChange(s, s', g, Push(ServerLoop(s.registry.Values), k));
  }

  lemma ServerLoopCosts(s: State, s': State, g: Gid, todo: set<Room>, k: Stack, pick: nat)
    requires g in s.threads && s.threads[g] == Push(ServerLoop(todo), k)
    requires AdvanceOther(s, g, ServerLoop(todo), k, pick) == Some(s')
    ensures Potential(s') < Potential(s)
  {
    if todo == {} {
      TaskPays(s, s', g, Push(ServerDone, k));
    } else {
      var inner := Push(ServerLoop(todo - {pick}), k);
      assert StackWeight(Push(CallRoomClose(pick), inner)) == 6 + StackWeight(inner);
      TaskPays(s, s', g, Push(CallRoomClose(pick), inner));
    }
  }

  lemma OtherTaskCosts(s: State, s': State, g: Gid, t: Task, k: Stack, pick: nat)
    requires g in s.threads && s.threads[g] == Push(t, k) && !t.ForPeer() && !t.ForRoom()
    requires AdvanceOther(s, g, t, k, pick) == Some(s')
    ensures Potential(s') < Potential(s)
  {
    match t
    case CallServerClose => TaskPays(s, s', g, if s.serverOnce.Fresh? then Push(ServerSwap, k) else k);
    case ServerSwap => ServerSwapCosts(s, s', g, k);
    case ServerLoop(todo) => ServerLoopCosts(s, s', g, todo, k, pick);
    case _ => TaskPays(s, s', g, k);
  }

  lemma AdvanceCostsPotential(s: State, g: Gid, pick: nat)
    requires Inv(s) && Next(s, Advance(g, pick)).Some?
    ensures Potential(Next(s, Advance(g, pick)).value) < Potential(s)
  {
    var s' := Next(s, Advance(g, pick)).value;
    var t, k := s.threads[g].top, s.threads[g].below;
    if t.ForPeer() { PeerTaskCosts(s, s', g, t, k); }
    else if t.RoomSwap? { SwapCosts(s, s', g, t.r, k); }
    else if t.ForRoom() { RoomTaskCosts(s, s', g, t, k, pick); }
    else { OtherTaskCosts(s, s', g, t, k, pick); }
  }

  predicate OnlyAdvances(steps: seq<Step>) {
    forall i :: 0 <= i < |steps| ==> steps[i].Advance?
  }

  /** Main result: without new calls the cascade ends after at most Potential(s) tasks. */
  lemma {:induction false} CascadeTerminates(s: State, steps: seq<Step>)
    requires Inv(s) && OnlyAdvances(steps) && Run(s, steps).Some?
    ensures |steps| + Potential(Run(s, steps).value) <= Potential(s)
    decreases |steps|
  {
    if steps != [] {
      AdvanceCostsPotential(s, steps[0].g, steps[0].pick);
      StepKeepsInv(s, Next(s, steps[0]).value, steps[0]);
      CascadeTerminates(Next(s, steps[0]).value, steps[1..]);
    }
  }

  /** Main result: from every state of the protocol all calls can be finished, without any new call. */
  lemma {:induction false} EveryCallFinishes(s: State)
    requires Inv(s)
    ensures exists steps :: OnlyAdvances(steps) && Run(s, steps).Some? && Quiet(Run(s, steps).value)
    decreases Potential(s)
  {
    if Quiet(s) {
      assert OnlyAdvances([]) && Run(s, []) == Some(s);
    } else {
      var g :| g in s.threads && s.threads[g].Push?;
      var h, pick := SomebodyRuns(s, g);
      var step := Advance(h, pick);
      var s' := Next(s, step).value;
      AdvanceCostsPotential(s, h, pick);
      StepKeepsInv(s, s', step);
      EveryCallFinishes(s');
      var rest :| OnlyAdvances(rest) && Run(s', rest).Some? && Quiet(Run(s', rest).value);
      assert ([step] + rest)[1..] == rest;
      assert OnlyAdvances([step] + rest) && Run(s, [step] + rest) == Run(s', rest);
    }
  }
}
