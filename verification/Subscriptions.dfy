/**
 * Subscriptions of one room under every interleaving of Join, AddReceiver, RemoveReceiver, Leave, Peer.Close and
 * incoming cascade offers, by any number of goroutines.
 *
 * A joining peer enters the room and then looks at the router's tracks; a new track enters the router and then looks
 * at the room's peers. Both then subscribe what they saw, one pair at a time. Peer identities and track identities are
 * not reused.
 */
module Subscriptions {
  import opened Options
  import Machines

  type Gid = nat
  type Track = nat
  type Peer = nat
  type Node = nat
  type Bridge = nat

  /** A subscriber or an owner: a peer of this room, or the virtual peer "cascade-<node>". */
  datatype Id = Local(p: Peer) | Remote(n: Node)

  type Pair = (Track, Peer)
  type Hop = (Track, Bridge)

  /** What a goroutine has still to do. */
  datatype Work =
    | Joined(p: Peer)                                  // Join: inserted, r.mu still held
    | Published(t: Track)                              // AddReceiver: in the router, peers not looked at yet
    | Subscribing(todo: set<Pair>, after: Option<Track>)
    | Attaching(t: Track, p: Peer, todo: set<Pair>, after: Option<Track>)    // SubscribeToTrack: p.mu held
    | RollingBack(t: Track, p: Peer, todo: set<Pair>, after: Option<Track>)  // AddTrack failed, p.mu released
    | Bridging(t: Track)                               // onReceiverAdded: peers done, bridges not looked at yet
    | Carrying(hops: set<Hop>)
    | BridgeAdded(b: Bridge)                           // HandleClusterMessage: registered, tracks not looked at yet
    | Unpublished(t: Track)                            // RemoveReceiver: out of the router, peers not looked at yet
    | Unsubscribing(todo: set<Pair>)
    | Finished

  datatype State = State(
    peers: set<Peer>,               // room.peers
    known: set<Peer>,               // every peer that ever joined
    closed: set<Peer>,              // Peer.Close has run its locked part
    cut: set<Peer>,                 // Peer.Close has closed the connection
    owners: map<Track, Id>,         // every track ever published
    present: set<Track>,            // router.receivers
    table: set<(Track, Id)>,        // router.senders
    rtp: set<Pair>,                 // peer.rtpSenders
    writer: Option<Gid>,            // who holds r.mu for writing across steps
    locks: map<Peer, Gid>,          // who holds p.mu across steps
    bridges: map<Node, Bridge>,     // room.cascadeBridges
    remotes: map<Bridge, Node>,
    carried: set<Hop>,              // bridge.senders
    threads: map<Gid, Work>,
    failed: set<(Track, Id)>,       // pairs for which AddTrack failed at least once
    stuck: set<Pair>,               // pairs for which RemoveTrack failed at least once
    gap: set<Pair>)                 // subscriptions made between the two halves of Peer.Close

  datatype Step =
    | JoinBegin(g: Gid, p: Peer)
    | JoinSnapshot(g: Gid)
    | Publish(g: Gid, t: Track, owner: Id)
    | PeerSnapshot(g: Gid)
    | Subscribe(g: Gid, t: Track, p: Peer)
    | AddTrackOk(g: Gid)
    | AddTrackFails(g: Gid)
    | RollBack(g: Gid)
    | LoopEnds(g: Gid)
    | BridgeSnapshot(g: Gid)
    | Carry(g: Gid, t: Track, b: Bridge, ok: bool)
    | OfferArrives(g: Gid, n: Node, b: Bridge)
    | TrackSnapshot(g: Gid)
    | Unpublish(g: Gid, t: Track)
    | UnsubscribeSnapshot(g: Gid)
    | Unsubscribe(g: Gid, t: Track, p: Peer, ok: bool)
    | TakeOut(g: Gid, p: Peer)          // Leave or onPeerClosed removes p from the map
    | CloseLocked(g: Gid, p: Peer)      // Peer.Close up to its unlock
    | CloseConnection(g: Gid, p: Peer)  // Peer.Close: pc.Close

  function Init(bridges: map<Node, Bridge>, remotes: map<Bridge, Node>): State {
    State({}, {}, {}, {}, map[], {}, {}, {}, None, map[], bridges, remotes, {}, map[], {}, {}, {})
  }

  function Doing(s: State, g: Gid): Work { if g in s.threads then s.threads[g] else Finished }

  predicate Free(s: State, g: Gid) { g !in s.threads }

  /** The pairs Join subscribes: every present track that p does not own. */
  function TracksFor(s: State, p: Peer): set<Pair> {
    set t | t in s.present && t in s.owners && s.owners[t] != Local(p) :: (t, p)
  }

  /** The pairs onReceiverAdded and onReceiverRemoved work on: every peer but the owner. */
  function PeersFor(s: State, t: Track): set<Pair> {
    set p | p in s.peers && t in s.owners && s.owners[t] != Local(p) :: (t, p)
  }

  function HopsFor(s: State, t: Track): set<Hop> {
    set n | n in s.bridges && t in s.owners && s.owners[t] != Remote(n) :: (t, s.bridges[n])
  }

  function HopsOf(s: State, b: Bridge): set<Hop> {
    set t | t in s.present && t in s.owners && b in s.remotes && s.owners[t] != Remote(s.remotes[b]) :: (t, b)
  }

  /** Router.UnsubscribeAll. */
  function WithoutEntries(table: set<(Track, Id)>, p: Peer): (rest: set<(Track, Id)>)
    ensures rest <= table
  {
    set e | e in table && e.1 != Local(p)
  }

  /** The senders of the other peers; p's own map is replaced by an empty one. */
  function WithoutSenders(rtp: set<Pair>, p: Peer): (rest: set<Pair>)
    ensures rest <= rtp
  {
    set e | e in rtp && e.1 != p
  }

  /** The loops that subscribe peers to tracks. */
  predicate InLoop(step: Step) {
    step.Subscribe? || step.AddTrackOk? || step.AddTrackFails? || step.RollBack? || step.LoopEnds?
  }

  predicate OfBridge(step: Step) { step.BridgeSnapshot? || step.Carry? || step.OfferArrives? || step.TrackSnapshot? }

  function ActInLoop(s: State, w: Work, step: Step): Option<(State, Work)>
    requires InLoop(step)
  {
    match step
    case Subscribe(g, t, p) =>
      if !w.Subscribing? || (t, p) !in w.todo || p in s.locks then None
      else if t !in s.present then Some((s, Subscribing(w.todo - {(t, p)}, w.after)))
      else Some((s.(table := s.table + {(t, Local(p))}, locks := s.locks[p := g]),
                 Attaching(t, p, w.todo - {(t, p)}, w.after)))
    case AddTrackOk(g) =>
      if !w.Attaching? || w.p in s.cut then None
      else
        var late := w.p in s.closed && (w.t, Local(w.p)) in s.table;
        Some((s.(rtp := s.rtp + {(w.t, w.p)}, locks := s.locks - {w.p},
                 gap := if late then s.gap + {(w.t, w.p)} else s.gap),
              Subscribing(w.todo, w.after)))
    case AddTrackFails(g) =>
      if !w.Attaching? then None
      else Some((s.(failed := s.failed + {(w.t, Local(w.p))}, locks := s.locks - {w.p}),
                 RollingBack(w.t, w.p, w.todo, w.after)))
    case RollBack(g) =>
      if !w.RollingBack? then None
      else Some((s.(table := s.table - {(w.t, Local(w.p))}, gap := s.gap - {(w.t, w.p)}), Subscribing(w.todo, w.after)))
    case LoopEnds(g) =>
      if w.Subscribing? && w.todo == {} then Some((s, if w.after.Some? then Bridging(w.after.value) else Finished))
      else if (w.Carrying? && w.hops == {}) || (w.Unsubscribing? && w.todo == {}) then Some((s, Finished))
      else None
  }

  function ActOfBridge(s: State, w: Work, step: Step): Option<(State, Work)>
    requires OfBridge(step)
  {
    match step
    case BridgeSnapshot(g) =>
      if w.Bridging? then Some((s, Carrying(HopsFor(s, w.t)))) else None
    case Carry(g, t, b, ok) =>
      if !w.Carrying? || (t, b) !in w.hops || b !in s.remotes then None
      else
        var id := Remote(s.remotes[b]);
        var s' :=
          if (t, b) in s.carried || t !in s.present then s
          else if ok then s.(table := s.table + {(t, id)}, carried := s.carried + {(t, b)})
          else s.(table := s.table - {(t, id)}, failed := s.failed + {(t, id)});
        Some((s', Carrying(w.hops - {(t, b)})))
    case OfferArrives(g, n, b) =>
      if Free(s, g) && b !in s.remotes
      then Some((s.(bridges := s.bridges[n := b], remotes := s.remotes[b := n]), BridgeAdded(b)))
      else None
    case TrackSnapshot(g) =>
      if w.BridgeAdded? then Some((s, Carrying(HopsOf(s, w.b)))) else None
  }

  function ActOfRoom(s: State, w: Work, step: Step): Option<(State, Work)>
    requires !InLoop(step) && !OfBridge(step)
  {
    match step
    case JoinBegin(g, p) =>
      if Free(s, g) && s.writer.None? && p !in s.known
      then Some((s.(peers := s.peers + {p}, known := s.known + {p}, writer := Some(g)), Joined(p)))
      else None
    case JoinSnapshot(g) =>
      if w.Joined? then Some((s.(writer := None), Subscribing(TracksFor(s, w.p), None))) else None
    case Publish(g, t, owner) =>
      if Free(s, g) && t !in s.owners
      then Some((s.(owners := s.owners[t := owner], present := s.present + {t}), Published(t)))
      else None
    case PeerSnapshot(g) =>
      if w.Published? && s.writer.None? then Some((s, Subscribing(PeersFor(s, w.t), Some(w.t)))) else None
    case Unpublish(g, t) =>
      if Free(s, g) && t in s.present
      then Some((s.(present := s.present - {t},
                    table := (set e | e in s.table && e.0 != t),
                    gap := (set e | e in s.gap && e.0 != t)), Unpublished(t)))
      else None
    case UnsubscribeSnapshot(g) =>
      if w.Unpublished? && s.writer.None? then Some((s, Unsubscribing(PeersFor(s, w.t)))) else None
    case Unsubscribe(g, t, p, ok) =>
      if !w.Unsubscribing? || (t, p) !in w.todo || p in s.locks then None
      else
        var s' :=
          if (t, p) !in s.rtp then s
          else if ok then s.(rtp := s.rtp - {(t, p)}, table := s.table - {(t, Local(p))})
          else s.(stuck := s.stuck + {(t, p)});
        Some((s', Unsubscribing(w.todo - {(t, p)})))
    case TakeOut(g, p) =>
      if Free(s, g) && s.writer.None? && p in s.peers
      then Some((s.(peers := s.peers - {p}), Finished)) else None
    case CloseLocked(g, p) =>
      if Free(s, g) && p in s.known && p !in s.closed && p !in s.locks
      then Some((s.(closed := s.closed + {p},
                    table := WithoutEntries(s.table, p),
                    rtp := WithoutSenders(s.rtp, p)), Finished))
      else None
    case CloseConnection(g, p) =>
      if Free(s, g) && p in s.closed then Some((s.(cut := s.cut + {p}), Finished)) else None
  }

  /** What the step does to the room, and what its goroutine does next; None when the step is not possible in s. */
  function Act(s: State, step: Step): Option<(State, Work)> {
    var w := Doing(s, step.g);
    if InLoop(step) then ActInLoop(s, w, step)
    else if OfBridge(step) then ActOfBridge(s, w, step)
    else ActOfRoom(s, w, step)
  }

  function Next(s: State, step: Step): Option<State> {
    var done := Act(s, step);
    if done.None? then None else Some(done.value.0.(threads := s.threads[step.g := done.value.1]))
  }

  function Run(s: State, steps: seq<Step>): Option<State> { Machines.Run(Next, s, steps) }

  // ---------------------------------------------------------------------------------------------------------------
  // What a goroutine still owes.

  function Todo(w: Work): set<Pair> {
    if w.Subscribing? || w.Attaching? || w.RollingBack? then w.todo else {}
  }

  function After(w: Work): Option<Track> {
    if w.Subscribing? || w.Attaching? || w.RollingBack? then w.after else None
  }

  /** w is going to subscribe p to t. */
  predicate Owes(w: Work, t: Track, p: Peer) {
    w == Joined(p) || w == Published(t) || (t, p) in Todo(w)
  }

  /** w is inside SubscribeToTrack for t and p, past Router.Subscribe. */
  predicate InFlight(w: Work, t: Track, p: Peer) {
    (w.Attaching? || w.RollingBack?) && w.t == t && w.p == p
  }

  /** w is going to unsubscribe p from t. */
  predicate Clears(w: Work, t: Track, p: Peer) {
    w == Unpublished(t) || (w.Unsubscribing? && (t, p) in w.todo)
  }

  /** w is going to offer t to bridge b. */
  predicate OwesHop(w: Work, t: Track, b: Bridge) {
    || w == BridgeAdded(b) || w == Published(t) || w == Bridging(t) || After(w) == Some(t)
    || (w.Carrying? && (t, b) in w.hops)
  }

  predicate Live(s: State, p: Peer) { p in s.peers && p !in s.closed }

  /** p should receive t: t is published, p is in the room and alive, and t is not p's own track. */
  predicate Wanted(s: State, t: Track, p: Peer) {
    Live(s, p) && t in s.present && t in s.owners && s.owners[t] != Local(p)
  }

  ghost predicate NotLost(s: State, t: Track, p: Peer) {
    Wanted(s, t, p) ==>
      (t, Local(p)) in s.table || (t, Local(p)) in s.failed || exists g :: Owes(Doing(s, g), t, p)
  }

  /** An entry of the table: its track is published, its peer known and not the owner; and it has an RTP sender. */
  ghost predicate Entry(s: State, t: Track, p: Peer) {
    (t, Local(p)) in s.table ==>
      && t in s.present && p in s.known && t in s.owners && s.owners[t] != Local(p)
      && ((t, p) in s.rtp || exists g :: InFlight(Doing(s, g), t, p))
  }

  predicate HasEntry(s: State, t: Track, p: Peer) {
    (t, p) in s.rtp ==>
      && t in s.owners && s.owners[t] != Local(p) && p in s.known
      && (t in s.present ==> (t, Local(p)) in s.table || (t, Local(p)) in s.failed)
  }

  /** An RTP sender of a track that is gone will be taken away, unless the connection refused that. */
  ghost predicate NotStale(s: State, t: Track, p: Peer) {
    (t, p) in s.rtp && Live(s, p) && t !in s.present ==> (t, p) in s.stuck || exists g :: Clears(Doing(s, g), t, p)
  }

  /** An entry of a closed peer is being set up, or was set up in the gap inside Peer.Close. */
  ghost predicate Ghost(s: State, t: Track, p: Peer) {
    && ((t, Local(p)) in s.table && p in s.closed ==> (t, p) in s.gap || exists g :: InFlight(Doing(s, g), t, p))
    && ((t, p) in s.gap ==> (t, Local(p)) in s.table && p in s.closed)
  }

  ghost predicate HopNotLost(s: State, t: Track, n: Node) {
    n in s.bridges && t in s.present && t in s.owners && s.owners[t] != Remote(n) ==>
      || (t, s.bridges[n]) in s.carried || (t, Remote(n)) in s.failed
      || exists g :: OwesHop(Doing(s, g), t, s.bridges[n])
  }

  predicate HopHasEntry(s: State, t: Track, b: Bridge) {
    (t, b) in s.carried ==>
      && t in s.owners && b in s.remotes
      && (t in s.present ==> (t, Remote(s.remotes[b])) in s.table || (t, Remote(s.remotes[b])) in s.failed)
  }

  predicate RemoteEntry(s: State, t: Track, n: Node) {
    (t, Remote(n)) in s.table ==> t in s.present && t in s.owners && s.owners[t] != Remote(n)
  }

  /** What a goroutine's work says about the state. */
  ghost predicate WorkOk(s: State, g: Gid) {
    var w := Doing(s, g);
    && (w.Joined? ==> s.writer == Some(g) && w.p in s.known)
    && (w.Published? || w.Bridging? ==> w.t in s.owners)
    && (After(w).Some? ==> After(w).value in s.owners)
    && (forall t, p :: (t, p) in Todo(w) ==> t in s.owners && s.owners[t] != Local(p) && p in s.known)
    && (w.Attaching? || w.RollingBack? ==> w.t in s.owners && s.owners[w.t] != Local(w.p) && w.p in s.known)
    && (w.Carrying? ==> forall t, b :: (t, b) in w.hops ==>
          t in s.owners && b in s.remotes && s.owners[t] != Remote(s.remotes[b]))
    && (w.RollingBack? ==> (w.t, Local(w.p)) in s.failed)
    && (w.Unpublished? ==> w.t in s.owners && w.t !in s.present)
    && (w.Unsubscribing? ==> forall t, p :: (t, p) in w.todo ==> t in s.owners && t !in s.present)
  }

  /** A goroutine inside SubscribeToTrack holds p.mu; if the track goes away meanwhile, its remover will see to it. */
  ghost predicate AttachOk(s: State, g: Gid) {
    var w := Doing(s, g);
    w.Attaching? ==>
      && w.p in s.locks && s.locks[w.p] == g
      && (w.t in s.present ==> (w.t, Local(w.p)) in s.table || (w.t, Local(w.p)) in s.failed)
      && (Live(s, w.p) && w.t !in s.present ==> exists h :: Clears(Doing(s, h), w.t, w.p))
  }

  predicate TrackSets(s: State) { s.present <= s.owners.Keys }

  predicate PeerSets(s: State) { s.peers <= s.known && s.cut <= s.closed <= s.known }

  predicate BridgeSets(s: State) {
    forall n :: n in s.bridges ==> s.bridges[n] in s.remotes && s.remotes[s.bridges[n]] == n
  }

  predicate Sets(s: State) { TrackSets(s) && PeerSets(s) && BridgeSets(s) }

  ghost predicate PeerInv(s: State) {
    && (forall t, p {:trigger NotLost(s, t, p)} :: NotLost(s, t, p))
    && (forall t, p {:trigger Entry(s, t, p)} :: Entry(s, t, p))
    && (forall t, p {:trigger HasEntry(s, t, p)} :: HasEntry(s, t, p))
    && (forall t, p {:trigger NotStale(s, t, p)} :: NotStale(s, t, p))
    && (forall t, p {:trigger Ghost(s, t, p)} :: Ghost(s, t, p))
  }

  ghost predicate BridgeInv(s: State) {
    && (forall t, n {:trigger HopNotLost(s, t, n)} :: HopNotLost(s, t, n))
    && (forall t, b {:trigger HopHasEntry(s, t, b)} :: HopHasEntry(s, t, b))
    && (forall t, n {:trigger RemoteEntry(s, t, n)} :: RemoteEntry(s, t, n))
  }

  ghost predicate Inv(s: State) {
    && Sets(s) && PeerInv(s) && BridgeInv(s)
    && (forall g {:trigger WorkOk(s, g)} :: WorkOk(s, g))
    && (forall g {:trigger AttachOk(s, g)} :: AttachOk(s, g))
  }

  /** Only the goroutine of the step changes its work. */
  lemma OthersGoOn(s: State, s': State, step: Step, g: Gid)
    requires Next(s, step) == Some(s') && g != step.g
    ensures Doing(s', g) == Doing(s, g)
  {
  }

  // ---------------------------------------------------------------------------------------------------------------
  // What the steps of each kind leave alone.

  predicate OfRoom(step: Step) { !InLoop(step) && !OfBridge(step) }

  /** Peers, tracks and everything between them are as before. */
  ghost predicate PeersUntouched(s: State, s': State) {
    && s'.peers == s.peers && s'.known == s.known && s'.closed == s.closed && s'.cut == s.cut
    && s'.owners == s.owners && s'.present == s.present && s'.rtp == s.rtp && s'.writer == s.writer
    && s'.locks == s.locks && s'.gap == s.gap && s'.stuck == s.stuck
    && (forall t, p :: (t, Local(p)) in s'.table <==> (t, Local(p)) in s.table)
    && (forall t, p :: (t, Local(p)) in s'.failed <==> (t, Local(p)) in s.failed)
  }

  /** The bridges and what they carry are as before, except for tracks that have gone. */
  ghost predicate BridgesUntouched(s: State, s': State) {
    && s'.bridges == s.bridges && s'.remotes == s.remotes && s'.carried == s.carried
    && (forall t :: t in s.owners ==> t in s'.owners && s'.owners[t] == s.owners[t])
    && (forall t, n :: (t, Remote(n)) in s'.failed <==> (t, Remote(n)) in s.failed)
    && (forall t, n ::
          (t, Remote(n)) in s'.table <==> (t, Remote(n)) in s.table && (t in s.present ==> t in s'.present))
    && (forall t :: t in s'.present ==> t in s.present || t !in s.owners)
  }

  /** Work that is not about any pair of a track and a peer. */
  predicate AwayFromPeers(w: Work) { w.Bridging? || w.Carrying? || w.BridgeAdded? || w.Finished? }

  lemma BridgeFields(s: State, s': State, step: Step)
    requires OfBridge(step) && Next(s, step) == Some(s')
    ensures s' == s.(table := s'.table, carried := s'.carried, failed := s'.failed, bridges := s'.bridges,
                     remotes := s'.remotes, threads := s'.threads)
    ensures AwayFromPeers(Doing(s, step.g)) && AwayFromPeers(Doing(s', step.g))
  {
  }

  lemma BridgeEntries(s: State, s': State, step: Step, t: Track, p: Peer)
    requires OfBridge(step) && Next(s, step) == Some(s')
    ensures (t, Local(p)) in s'.table <==> (t, Local(p)) in s.table
    ensures (t, Local(p)) in s'.failed <==> (t, Local(p)) in s.failed
  {
  }

  lemma BridgesLeavePeers(s: State, s': State, step: Step)
    requires OfBridge(step) && Next(s, step) == Some(s')
    ensures PeersUntouched(s, s') && AwayFromPeers(Doing(s, step.g)) && AwayFromPeers(Doing(s', step.g))
  {
    BridgeFields(s, s', step);
    forall t: Track, p: Peer ensures ((t, Local(p)) in s'.table <==> (t, Local(p)) in s.table)
                        && ((t, Local(p)) in s'.failed <==> (t, Local(p)) in s.failed) {
      BridgeEntries(s, s', step, t, p);
    }
  }

  lemma LoopFields(s: State, s': State, step: Step)
    requires InLoop(step) && Next(s, step) == Some(s')
    ensures s' == s.(table := s'.table, locks := s'.locks, rtp := s'.rtp, failed := s'.failed, gap := s'.gap,
                     threads := s'.threads)
    ensures s.failed <= s'.failed
  {
  }

  lemma LoopsLeaveBridges(s: State, s': State, step: Step)
    requires Sets(s) && WorkOk(s, step.g) && InLoop(step) && Next(s, step) == Some(s') && BridgeInv(s)
    ensures BridgesUntouched(s, s')
  {
    LoopFields(s, s', step);
    forall t: Track, n: Node ensures ((t, Remote(n)) in s'.failed <==> (t, Remote(n)) in s.failed)
                        && ((t, Remote(n)) in s'.table <==> (t, Remote(n)) in s.table) {
      LoopEntries(s, s', step, t, n);
    }
  }

  lemma LoopEntries(s: State, s': State, step: Step, t: Track, n: Node)
    requires InLoop(step) && Next(s, step) == Some(s')
    ensures (t, Remote(n)) in s'.failed <==> (t, Remote(n)) in s.failed
    ensures (t, Remote(n)) in s'.table <==> (t, Remote(n)) in s.table
  {
  }

  lemma RoomFields(s: State, s': State, step: Step)
    requires OfRoom(step) && Next(s, step) == Some(s')
    ensures s'.bridges == s.bridges && s'.remotes == s.remotes && s'.carried == s.carried && s'.failed == s.failed
    ensures s.known <= s'.known
  {
  }

  lemma RoomTracks(s: State, s': State, step: Step)
    requires OfRoom(step) && Next(s, step) == Some(s')
    ensures s'.owners == if step.Publish? then s.owners[step.t := step.owner] else s.owners
    ensures s'.present == if step.Publish? then s.present + {step.t}
                          else if step.Unpublish? then s.present - {step.t} else s.present
    ensures step.Publish? ==> step.t !in s.owners
  {
  }

  lemma RoomEntries(s: State, s': State, step: Step, t: Track, n: Node)
    requires OfRoom(step) && Next(s, step) == Some(s')
    ensures (t, Remote(n)) in s'.table <==> (t, Remote(n)) in s.table && !(step.Unpublish? && step.t == t)
    ensures step.Unpublish? ==> step.t in s.present
  {
  }

  lemma RoomsLeaveBridges(s: State, s': State, step: Step)
    requires OfRoom(step) && Next(s, step) == Some(s')
    ensures BridgesUntouched(s, s')
  {
    RoomFields(s, s', step);
    RoomTracks(s, s', step);
    forall t: Track, n: Node
      ensures (t, Remote(n)) in s'.table <==> (t, Remote(n)) in s.table && (t in s.present ==> t in s'.present)
    {
      RoomEntries(s, s', step, t, n);
    }
  }

  // ---------------------------------------------------------------------------------------------------------------
  // The sets.

  lemma SetsKept(s: State, s': State, step: Step)
    requires Sets(s) && Next(s, step) == Some(s')
    ensures Sets(s')
  {
    if InLoop(step) { LoopFields(s, s', step); }
    else if OfBridge(step) { BridgeFields(s, s', step); BridgeSetsKept(s, s', step); }
    else { RoomFields(s, s', step); RoomTracks(s, s', step); PeerSetsKept(s, s', step); }
  }

  lemma PeerSetsKept(s: State, s': State, step: Step)
    requires OfRoom(step) && PeerSets(s) && Next(s, step) == Some(s')
    ensures PeerSets(s')
  {
  }

  lemma BridgeSetsKept(s: State, s': State, step: Step)
    requires OfBridge(step) && BridgeSets(s) && Next(s, step) == Some(s')
    ensures BridgeSets(s')
  {
  }

  // ---------------------------------------------------------------------------------------------------------------
  // What holds of a track and a peer: bridges do not matter, loops and the room do.

  ghost predicate PairFine(s: State, t: Track, p: Peer) {
    NotLost(s, t, p) && Entry(s, t, p) && HasEntry(s, t, p) && NotStale(s, t, p) && Ghost(s, t, p)
  }

  lemma PairOf(s: State, t: Track, p: Peer)
    requires PeerInv(s)
    ensures PairFine(s, t, p)
  {
    assert NotLost(s, t, p) && Entry(s, t, p) && HasEntry(s, t, p) && NotStale(s, t, p) && Ghost(s, t, p);
  }

  lemma PairUntouched(s: State, s': State, step: Step, t: Track, p: Peer)
    requires PairFine(s, t, p) && PeersUntouched(s, s') && Next(s, step) == Some(s')
    requires AwayFromPeers(Doing(s, step.g)) && AwayFromPeers(Doing(s', step.g))
    ensures PairFine(s', t, p)
  {
    forall g ensures (Owes(Doing(s', g), t, p) <==> Owes(Doing(s, g), t, p))
                     && (InFlight(Doing(s', g), t, p) <==> InFlight(Doing(s, g), t, p))
                     && (Clears(Doing(s', g), t, p) <==> Clears(Doing(s, g), t, p)) {
      if g != step.g { OthersGoOn(s, s', step, g); }
    }
    SameWorkSamePair(s, s', t, p);
  }

  lemma SameWorkSamePair(s: State, s': State, t: Track, p: Peer)
    requires PairFine(s, t, p) && PeersUntouched(s, s')
    requires forall g :: (Owes(Doing(s', g), t, p) <==> Owes(Doing(s, g), t, p))
                         && (InFlight(Doing(s', g), t, p) <==> InFlight(Doing(s, g), t, p))
                         && (Clears(Doing(s', g), t, p) <==> Clears(Doing(s, g), t, p))
    ensures PairFine(s', t, p)
  {
  }

  lemma NotLostInLoop(s: State, s': State, step: Step, t: Track, p: Peer)
    requires InLoop(step) && Inv(s) && Next(s, step) == Some(s')
    ensures NotLost(s', t, p)
  {
    if Wanted(s', t, p) && (t, Local(p)) !in s'.table && (t, Local(p)) !in s'.failed {
      assert NotLost(s, t, p) && WorkOk(s, step.g);
      var g :| Owes(Doing(s, g), t, p);
      if g != step.g { OthersGoOn(s, s', step, g); }
      assert Owes(Doing(s', g), t, p);
    }
  }

  lemma NotLostOfRoom(s: State, s': State, step: Step, t: Track, p: Peer)
    requires OfRoom(step) && Inv(s) && Next(s, step) == Some(s')
    ensures NotLost(s', t, p)
  {
    if Wanted(s', t, p) && (t, Local(p)) !in s'.table && (t, Local(p)) !in s'.failed {
      assert NotLost(s, t, p) && WorkOk(s, step.g);
      if Wanted(s, t, p) && (t, Local(p)) !in s.table {
        var g :| Owes(Doing(s, g), t, p);
        if g != step.g { OthersGoOn(s, s', step, g); }
        assert Owes(Doing(s', g), t, p);
      } else {
        assert Owes(Doing(s', step.g), t, p);
      }
    }
  }

  lemma EntryInLoop(s: State, s': State, step: Step, t: Track, p: Peer)
    requires InLoop(step) && Inv(s) && Next(s, step) == Some(s')
    ensures Entry(s', t, p)
  {
    if (t, Local(p)) in s'.table {
      assert Entry(s, t, p) && WorkOk(s, step.g);
      if (t, Local(p)) in s.table && (t, p) !in s'.rtp && (t, p) !in s.rtp {
        var g :| InFlight(Doing(s, g), t, p);
        if g != step.g { OthersGoOn(s, s', step, g); }
        assert InFlight(Doing(s', g), t, p);
      } else if (t, p) !in s'.rtp {
        assert InFlight(Doing(s', step.g), t, p);
      }
    }
  }

  lemma EntryOfRoom(s: State, s': State, step: Step, t: Track, p: Peer)
    requires OfRoom(step) && Inv(s) && Next(s, step) == Some(s')
    ensures Entry(s', t, p)
  {
    assert Entry(s, t, p);
    if (t, Local(p)) in s'.table && (t, p) !in s'.rtp {
      var g :| InFlight(Doing(s, g), t, p);
      OthersGoOn(s, s', step, g);
      assert InFlight(Doing(s', g), t, p);
    }
  }

  lemma HasEntryInLoop(s: State, s': State, step: Step, t: Track, p: Peer)
    requires InLoop(step) && Inv(s) && Next(s, step) == Some(s')
    ensures HasEntry(s', t, p)
  {
    assert HasEntry(s, t, p) && WorkOk(s, step.g) && AttachOk(s, step.g);
  }

  lemma HasEntryOfRoom(s: State, s': State, step: Step, t: Track, p: Peer)
    requires OfRoom(step) && Inv(s) && Next(s, step) == Some(s')
    ensures HasEntry(s', t, p)
  {
    assert HasEntry(s, t, p) && WorkOk(s, step.g) && AttachOk(s, step.g);
  }

  lemma GhostInLoop(s: State, s': State, step: Step, t: Track, p: Peer)
    requires InLoop(step) && Inv(s) && Next(s, step) == Some(s')
    ensures Ghost(s', t, p)
  {
    assert Ghost(s, t, p) && WorkOk(s, step.g) && Entry(s, t, p);
    if (t, Local(p)) in s'.table && p in s'.closed && (t, p) !in s'.gap {
      if (t, Local(p)) in s.table && p in s.closed {
        var g :| InFlight(Doing(s, g), t, p);
        if g != step.g { OthersGoOn(s, s', step, g); }
        assert InFlight(Doing(s', g), t, p);
      } else {
        assert InFlight(Doing(s', step.g), t, p);
      }
    }
  }

  lemma GhostOfRoom(s: State, s': State, step: Step, t: Track, p: Peer)
    requires OfRoom(step) && Inv(s) && Next(s, step) == Some(s')
    ensures Ghost(s', t, p)
  {
    assert Ghost(s, t, p) && WorkOk(s, step.g) && Entry(s, t, p);
    if (t, Local(p)) in s'.table && p in s'.closed && (t, p) !in s'.gap {
      var g :| InFlight(Doing(s, g), t, p);
      OthersGoOn(s, s', step, g);
      assert InFlight(Doing(s', g), t, p);
    }
  }

  lemma NotStaleInLoop(s: State, s': State, step: Step, t: Track, p: Peer)
    requires InLoop(step) && Inv(s) && Next(s, step) == Some(s')
    ensures NotStale(s', t, p)
  {
    if (t, p) in s'.rtp && Live(s', p) && t !in s'.present && (t, p) !in s'.stuck {
      assert NotStale(s, t, p) && WorkOk(s, step.g) && AttachOk(s, step.g);
      SenderCameFrom(s, s', step, t, p);
      var g :| Clears(Doing(s, g), t, p);
      OthersGoOn(s, s', step, g);
      assert Clears(Doing(s', g), t, p);
    }
  }

  lemma SenderCameFrom(s: State, s': State, step: Step, t: Track, p: Peer)
    requires InLoop(step) && Next(s, step) == Some(s') && (t, p) in s'.rtp
    ensures (t, p) in s.rtp || (Doing(s, step.g).Attaching? && Doing(s, step.g).t == t && Doing(s, step.g).p == p)
    ensures s'.peers == s.peers && s'.closed == s.closed && s'.present == s.present && s'.stuck == s.stuck
  {
  }

  lemma NotStaleOfRoom(s: State, s': State, step: Step, t: Track, p: Peer)
    requires OfRoom(step) && Inv(s) && Next(s, step) == Some(s')
    ensures NotStale(s', t, p)
  {
    if (t, p) in s'.rtp && Live(s', p) && t !in s'.present && (t, p) !in s'.stuck {
      assert NotStale(s, t, p) && HasEntry(s, t, p);
      SenderWasThere(s, s', step, t, p);
      ClearsKept(s, s', step, t, p);
    }
  }

  lemma SenderWasThere(s: State, s': State, step: Step, t: Track, p: Peer)
    requires OfRoom(step) && Sets(s) && Next(s, step) == Some(s') && (t, p) in s'.rtp && Live(s', p)
    ensures (t, p) in s.rtp && (p in s.known ==> Live(s, p)) && s.stuck <= s'.stuck
  {
  }

  /** Whoever is going to take away the sender of an absent track for a live peer still is, or has just begun. */
  lemma ClearsKept(s: State, s': State, step: Step, t: Track, p: Peer)
    requires OfRoom(step) && WorkOk(s, step.g) && Next(s, step) == Some(s')
    requires Live(s', p) && t in s.owners && s.owners[t] != Local(p) && t !in s'.present
    requires (exists g :: Clears(Doing(s, g), t, p)) || t in s.present
    requires p in s.known && (p in s.locks || ((t, p) in s'.rtp && (t, p) !in s'.stuck))
    ensures exists g :: Clears(Doing(s', g), t, p)
  {
    if t in s.present {
      assert Clears(Doing(s', step.g), t, p);
    } else {
      var g :| Clears(Doing(s, g), t, p);
      if g != step.g { OthersGoOn(s, s', step, g); }
      assert Clears(Doing(s', g), t, p);
    }
  }

  lemma PairKept(s: State, s': State, step: Step, t: Track, p: Peer)
    requires Inv(s) && Next(s, step) == Some(s')
    ensures PairFine(s', t, p)
  {
    if InLoop(step) {
      NotLostInLoop(s, s', step, t, p);
      EntryInLoop(s, s', step, t, p);
      HasEntryInLoop(s, s', step, t, p);
      NotStaleInLoop(s, s', step, t, p);
      GhostInLoop(s, s', step, t, p);
    } else if OfBridge(step) {
      PairOf(s, t, p);
      BridgesLeavePeers(s, s', step);
      PairUntouched(s, s', step, t, p);
    } else {
      NotLostOfRoom(s, s', step, t, p);
      EntryOfRoom(s, s', step, t, p);
      HasEntryOfRoom(s, s', step, t, p);
      NotStaleOfRoom(s, s', step, t, p);
      GhostOfRoom(s, s', step, t, p);
    }
  }

  // ---------------------------------------------------------------------------------------------------------------
  // What holds of a track and a bridge: loops and the room only pass their debts on.

  lemma HopNotLostKept(s: State, s': State, step: Step, t: Track, n: Node)
    requires Inv(s) && Next(s, step) == Some(s')
    ensures HopNotLost(s', t, n)
  {
    if n in s'.bridges && t in s'.present && t in s'.owners && s'.owners[t] != Remote(n) {
      assert HopNotLost(s, t, n) && WorkOk(s, step.g);
      var b := s'.bridges[n];
      if step.OfferArrives? && step.n == n {
        BridgeArrives(s, s', step);
        assert OwesHop(Doing(s', step.g), t, b);
      } else if step.Publish? && step.t == t {
        TrackArrives(s, s', step);
        assert OwesHop(Doing(s', step.g), t, b);
      } else {
        HopStaysOwed(s, s', step, t, n);
      }
    }
  }

  lemma BridgeArrives(s: State, s': State, step: Step)
    requires step.OfferArrives? && Next(s, step) == Some(s')
    ensures Doing(s', step.g) == BridgeAdded(step.b) && s'.bridges == s.bridges[step.n := step.b]
  {
  }

  lemma TrackArrives(s: State, s': State, step: Step)
    requires step.Publish? && Next(s, step) == Some(s')
    ensures Doing(s', step.g) == Published(step.t)
  {
  }

  /** What is owed to a bridge, seen from the state before the step. */
  lemma HopBefore(s: State, s': State, step: Step, t: Track, n: Node)
    requires BridgeSets(s) && Next(s, step) == Some(s') && n in s'.bridges && t in s'.present && t in s'.owners
    requires !(step.OfferArrives? && step.n == n) && !(step.Publish? && step.t == t)
    ensures n in s.bridges && s.bridges[n] == s'.bridges[n]
    ensures t in s.present && t in s.owners && s.owners[t] == s'.owners[t]
    ensures s.carried <= s'.carried && s.failed <= s'.failed
  {
    if InLoop(step) { LoopFields(s, s', step); }
    else if OfBridge(step) { BridgeFields(s, s', step); BridgeGrowth(s, s', step); }
    else { RoomFields(s, s', step); RoomTracks(s, s', step); }
  }

  lemma BridgeGrowth(s: State, s': State, step: Step)
    requires OfBridge(step) && Next(s, step) == Some(s')
    ensures s.carried <= s'.carried && s.failed <= s'.failed
    ensures s'.bridges == if step.OfferArrives? then s.bridges[step.n := step.b] else s.bridges
    ensures s'.remotes == if step.OfferArrives? then s.remotes[step.b := step.n] else s.remotes
    ensures step.OfferArrives? ==> step.b !in s.remotes
  {
  }

  lemma HopStaysOwed(s: State, s': State, step: Step, t: Track, n: Node)
    requires Inv(s) && Next(s, step) == Some(s')
    requires n in s'.bridges && t in s'.present && t in s'.owners && s'.owners[t] != Remote(n)
    requires !(step.OfferArrives? && step.n == n) && !(step.Publish? && step.t == t)
    ensures HopNotLost(s', t, n)
  {
    var b := s'.bridges[n];
    HopBefore(s, s', step, t, n);
    assert HopNotLost(s, t, n);
    if (t, b) !in s'.carried && (t, Remote(n)) !in s'.failed {
      var g :| OwesHop(Doing(s, g), t, b);
      if g != step.g {
        OthersGoOn(s, s', step, g);
        assert OwesHop(Doing(s', g), t, b);
      } else {
        StepKeepsHop(s, s', step, t, b, n);
      }
    }
  }

  lemma StepKeepsHop(s: State, s': State, step: Step, t: Track, b: Bridge, n: Node)
    requires Sets(s) && Next(s, step) == Some(s') && OwesHop(Doing(s, step.g), t, b)
    requires n in s.bridges && s.bridges[n] == b && t in s.present && t in s.owners && s.owners[t] != Remote(n)
    requires t in s'.present && (t, b) !in s'.carried && (t, Remote(n)) !in s'.failed
    ensures OwesHop(Doing(s', step.g), t, b)
  {
    if InLoop(step) { LoopKeepsHop(s, s', step, t, b); }
    else if OfBridge(step) { BridgeKeepsHop(s, s', step, t, b, n); }
    else { RoomKeepsHop(s, s', step, t, b); }
  }

  lemma LoopKeepsHop(s: State, s': State, step: Step, t: Track, b: Bridge)
    requires InLoop(step) && Next(s, step) == Some(s') && OwesHop(Doing(s, step.g), t, b)
    ensures OwesHop(Doing(s', step.g), t, b)
  {
  }

  lemma RoomKeepsHop(s: State, s': State, step: Step, t: Track, b: Bridge)
    requires OfRoom(step) && Next(s, step) == Some(s') && OwesHop(Doing(s, step.g), t, b)
    ensures OwesHop(Doing(s', step.g), t, b)
  {
  }

  lemma BridgeKeepsHop(s: State, s': State, step: Step, t: Track, b: Bridge, n: Node)
    requires OfBridge(step) && Sets(s) && Next(s, step) == Some(s') && OwesHop(Doing(s, step.g), t, b)
    requires n in s.bridges && s.bridges[n] == b && t in s.present && t in s.owners && s.owners[t] != Remote(n)
    requires t in s'.present && (t, b) !in s'.carried && (t, Remote(n)) !in s'.failed
    ensures OwesHop(Doing(s', step.g), t, b)
  {
  }

  lemma HopHasEntryKept(s: State, s': State, step: Step, t: Track, b: Bridge)
    requires Inv(s) && Next(s, step) == Some(s')
    ensures HopHasEntry(s', t, b)
  {
    assert HopHasEntry(s, t, b);
    if InLoop(step) { LoopsLeaveBridges(s, s', step); }
    else if OfBridge(step) { CarriedHasEntry(s, s', step, t, b); }
    else { RoomsLeaveBridges(s, s', step); }
  }

  lemma CarriedHasEntry(s: State, s': State, step: Step, t: Track, b: Bridge)
    requires OfBridge(step) && HopHasEntry(s, t, b) && WorkOk(s, step.g) && Next(s, step) == Some(s')
    ensures HopHasEntry(s', t, b)
  {
  }

  lemma RemoteEntryKept(s: State, s': State, step: Step, t: Track, n: Node)
    requires Inv(s) && Next(s, step) == Some(s')
    ensures RemoteEntry(s', t, n)
  {
    assert RemoteEntry(s, t, n);
    if InLoop(step) { LoopsLeaveBridges(s, s', step); LoopFields(s, s', step); }
    else if OfBridge(step) { RemoteEntryAllowed(s, s', step, t, n); }
    else { RoomsLeaveBridges(s, s', step); }
  }

  lemma RemoteEntryAllowed(s: State, s': State, step: Step, t: Track, n: Node)
    requires OfBridge(step) && RemoteEntry(s, t, n) && WorkOk(s, step.g) && Next(s, step) == Some(s')
    ensures RemoteEntry(s', t, n)
  {
  }

  // ---------------------------------------------------------------------------------------------------------------
  // What goroutines say of the state.

  /** What other goroutines rely on only grows; a track that is gone does not come back. */
  predicate Grows(s: State, s': State) {
    && s.known <= s'.known && s.failed <= s'.failed
    && (forall t :: t in s.owners ==> t in s'.owners && s'.owners[t] == s.owners[t])
    && (forall b :: b in s.remotes ==> b in s'.remotes && s'.remotes[b] == s.remotes[b])
    && (forall t :: t in s'.present ==> t in s.present || t !in s.owners)
  }

  lemma StepGrows(s: State, s': State, step: Step)
    requires Next(s, step) == Some(s')
    ensures Grows(s, s')
  {
    if InLoop(step) { LoopFields(s, s', step); }
    else if OfBridge(step) { BridgeFields(s, s', step); BridgeGrowth(s, s', step); }
    else { RoomFields(s, s', step); RoomTracks(s, s', step); }
  }

  lemma WriterIsRespected(s: State, s': State, step: Step)
    requires Next(s, step) == Some(s')
    ensures s'.writer == s.writer || s.writer.None? || (s.writer == Some(step.g) || Doing(s, step.g).Joined?)
  {
    if InLoop(step) { LoopFields(s, s', step); }
    else if OfBridge(step) { BridgeFields(s, s', step); }
  }

  lemma WorkOkIsStable(s: State, s': State, g: Gid)
    requires WorkOk(s, g) && Grows(s, s') && Doing(s', g) == Doing(s, g)
    requires Doing(s, g).Joined? ==> s'.writer == s.writer
    ensures WorkOk(s', g)
  {
  }

  lemma OthersWorkKept(s: State, s': State, step: Step, g: Gid)
    requires Inv(s) && Next(s, step) == Some(s') && g != step.g
    ensures WorkOk(s', g)
  {
    assert WorkOk(s, g) && WorkOk(s, step.g);
    OthersGoOn(s, s', step, g);
    StepGrows(s, s', step);
    WriterIsRespected(s, s', step);
    WorkOkIsStable(s, s', g);
  }

  lemma OwnLoopKept(s: State, s': State, step: Step)
    requires WorkOk(s, step.g) && InLoop(step) && Next(s, step) == Some(s')
    ensures WorkOk(s', step.g)
  {
  }

  lemma OwnWorkKept(s: State, s': State, step: Step)
    requires Inv(s) && Next(s, step) == Some(s')
    ensures WorkOk(s', step.g)
  {
    assert WorkOk(s, step.g);
    if InLoop(step) { OwnLoopKept(s, s', step); }
    else if OfBridge(step) { OwnHopsKept(s, s', step); }
    else { OwnStartKept(s, s', step); }
  }

  lemma OwnHopsKept(s: State, s': State, step: Step)
    requires Sets(s) && WorkOk(s, step.g) && OfBridge(step) && Next(s, step) == Some(s')
    ensures WorkOk(s', step.g)
  {
  }

  lemma OwnStartKept(s: State, s': State, step: Step)
    requires Sets(s) && WorkOk(s, step.g) && OfRoom(step) && Next(s, step) == Some(s')
    ensures WorkOk(s', step.g)
  {
  }

  lemma AttachOkKept(s: State, s': State, step: Step, g: Gid)
    requires Inv(s) && Next(s, step) == Some(s')
    ensures AttachOk(s', g)
  {
    if InLoop(step) { AttachInLoop(s, s', step, g); }
    else if OfBridge(step) { AttachUntouched(s, s', step, g); }
    else { AttachOfRoom(s, s', step, g); }
  }

  lemma AttachInLoop(s: State, s': State, step: Step, g: Gid)
    requires InLoop(step) && Inv(s) && Next(s, step) == Some(s')
    ensures AttachOk(s', g)
  {
    var w := Doing(s', g);
    if w.Attaching? {
      assert AttachOk(s, g) && AttachOk(s, step.g) && WorkOk(s, step.g);
      if g != step.g { OthersGoOn(s, s', step, g); }
      if Live(s', w.p) && w.t !in s'.present {
        var h :| Clears(Doing(s, h), w.t, w.p);
        OthersGoOn(s, s', step, h);
        assert Clears(Doing(s', h), w.t, w.p);
      }
    }
  }

  lemma AttachUntouched(s: State, s': State, step: Step, g: Gid)
    requires OfBridge(step) && Inv(s) && Next(s, step) == Some(s')
    ensures AttachOk(s', g)
  {
    var w := Doing(s', g);
    BridgesLeavePeers(s, s', step);
    if w.Attaching? {
      assert AttachOk(s, g);
      OthersGoOn(s, s', step, g);
      if Live(s', w.p) && w.t !in s'.present {
        var h :| Clears(Doing(s, h), w.t, w.p);
        OthersGoOn(s, s', step, h);
        assert Clears(Doing(s', h), w.t, w.p);
      }
    }
  }

  lemma AttachOfRoom(s: State, s': State, step: Step, g: Gid)
    requires OfRoom(step) && Inv(s) && Next(s, step) == Some(s')
    ensures AttachOk(s', g)
  {
    var w := Doing(s', g);
    if w.Attaching? {
      assert AttachOk(s, g) && WorkOk(s, g) && WorkOk(s, step.g);
      OthersGoOn(s, s', step, g);
      LockedStays(s, s', step, w.t, w.p);
      if Live(s', w.p) && w.t !in s'.present { ClearsKept(s, s', step, w.t, w.p); }
    }
  }

  /** While p.mu is held, the room does not touch p's entries, but for those of a track that goes. */
  lemma LockedStays(s: State, s': State, step: Step, t: Track, p: Peer)
    requires OfRoom(step) && Sets(s) && p in s.locks && p in s.known && t in s.owners && Next(s, step) == Some(s')
    ensures s'.locks == s.locks && s'.failed == s.failed && (t in s'.present ==> t in s.present)
    ensures t in s'.present ==> ((t, Local(p)) in s'.table <==> (t, Local(p)) in s.table)
    ensures Live(s', p) ==> Live(s, p)
  {
  }

  lemma PairsMakeInv(s: State)
    requires forall t, p :: PairFine(s, t, p)
    ensures PeerInv(s)
  {
    forall t, p ensures NotLost(s, t, p) && Entry(s, t, p) && HasEntry(s, t, p) && NotStale(s, t, p) && Ghost(s, t, p) {
      assert PairFine(s, t, p);
    }
  }

  lemma StepKeepsInv(s: State, s': State, step: Step)
    requires Inv(s) && Next(s, step) == Some(s')
    ensures Inv(s')
  {
    SetsKept(s, s', step);
    forall t, p ensures PairFine(s', t, p) { PairKept(s, s', step, t, p); }
    PairsMakeInv(s');
    forall t, n ensures HopNotLost(s', t, n) { HopNotLostKept(s, s', step, t, n); }
    forall t, b ensures HopHasEntry(s', t, b) { HopHasEntryKept(s, s', step, t, b); }
    forall t, n ensures RemoteEntry(s', t, n) { RemoteEntryKept(s, s', step, t, n); }
    forall g ensures WorkOk(s', g) {
      if g == step.g { OwnWorkKept(s, s', step); } else { OthersWorkKept(s, s', step, g); }
    }
    forall g ensures AttachOk(s', g) { AttachOkKept(s, s', step, g); }
  }

  lemma {:induction false} RunKeepsInv(s: State, steps: seq<Step>)
    requires Inv(s) && Run(s, steps).Some?
    ensures Inv(Run(s, steps).value)
    decreases |steps|
  {
    if steps != [] {
      StepKeepsInv(s, Next(s, steps[0]).value, steps[0]);
      RunKeepsInv(Next(s, steps[0]).value, steps[1..]);
    }
  }

  // ---------------------------------------------------------------------------------------------------------------
  // What this means for a room.

  lemma StartHasInv(s: State)
    requires s == Init(s.bridges, s.remotes) && Sets(s)
    ensures Inv(s)
  {
  }

  /**
   * Main result: in every run a live peer has an entry for every published track of another owner, unless an AddTrack
   * for the pair failed or some goroutine is still going to subscribe it; and likewise for every registered bridge.
   */
  lemma NoLostSubscription(start: State, steps: seq<Step>, t: Track)
    requires start == Init(start.bridges, start.remotes) && Sets(start) && Run(start, steps).Some?
    ensures var s := Run(start, steps).value;
            && (forall p :: Wanted(s, t, p) ==>
                  (t, Local(p)) in s.table || (t, Local(p)) in s.failed || exists g :: Owes(Doing(s, g), t, p))
            && (forall n :: n in s.bridges && t in s.present && t in s.owners && s.owners[t] != Remote(n) ==>
                  || (t, Remote(n)) in s.table || (t, Remote(n)) in s.failed
                  || exists g :: OwesHop(Doing(s, g), t, s.bridges[n]))
  {
    StartHasInv(start);
    RunKeepsInv(start, steps);
    var s := Run(start, steps).value;
    forall p | Wanted(s, t, p)
      ensures (t, Local(p)) in s.table || (t, Local(p)) in s.failed || exists g :: Owes(Doing(s, g), t, p)
    {
      assert NotLost(s, t, p);
    }
    forall n | n in s.bridges && t in s.present && t in s.owners && s.owners[t] != Remote(n)
      ensures (t, Remote(n)) in s.table || (t, Remote(n)) in s.failed
              || exists g :: OwesHop(Doing(s, g), t, s.bridges[n])
    {
      assert HopNotLost(s, t, n) && HopHasEntry(s, t, s.bridges[n]);
    }
  }

  /** Nobody is working on the room any more, and every peer that left has been closed. */
  ghost predicate Settled(s: State) {
    && (forall g :: Doing(s, g) == Finished)
    && s.closed == s.known - s.peers
  }

  /**
   * Main result: once the room has settled, a peer in the room is subscribed to a track if and only if the track is
   * published and not its own, and its RTP senders agree with the router, whatever the interleaving was; only a pair
   * for which AddTrack itself failed may lack its entry, and only one for which RemoveTrack failed may keep its sender.
   */
  lemma SettledRoomIsComplete(start: State, steps: seq<Step>, t: Track, p: Peer)
    requires start == Init(start.bridges, start.remotes) && Sets(start) && Run(start, steps).Some?
    requires var s := Run(start, steps).value; Settled(s) && p in s.peers
    ensures var s := Run(start, steps).value;
            && ((t, Local(p)) in s.table ==>
                  t in s.present && t in s.owners && s.owners[t] != Local(p) && (t, p) in s.rtp)
            && (t in s.present && t in s.owners && s.owners[t] != Local(p) ==>
                  (t, Local(p)) in s.table || (t, Local(p)) in s.failed)
            && ((t, p) in s.rtp ==>
                  (t, Local(p)) in s.table || (t, Local(p)) in s.failed || (t !in s.present && (t, p) in s.stuck))
  {
    StartHasInv(start);
    RunKeepsInv(start, steps);
    var s := Run(start, steps).value;
    assert NotLost(s, t, p) && Entry(s, t, p) && HasEntry(s, t, p) && NotStale(s, t, p);
  }

  /**
   * Entries of departed peers are exactly the subscriptions made in the gap inside Peer.Close, whatever else failed.
   */
  lemma DepartedPeersLeaveTheGap(start: State, steps: seq<Step>, t: Track, p: Peer)
    requires start == Init(start.bridges, start.remotes) && Sets(start) && Run(start, steps).Some?
    requires var s := Run(start, steps).value; Settled(s) && p !in s.peers
    ensures var s := Run(start, steps).value; (t, Local(p)) in s.table <==> (t, p) in s.gap
  {
    StartHasInv(start);
    RunKeepsInv(start, steps);
    var s := Run(start, steps).value;
    assert Entry(s, t, p) && Ghost(s, t, p);
  }

  /**
   * In a settled room a registered bridge carries a track if and only if the track is published and did not come from
   * its node, unless adding the track to the bridge failed.
   */
  lemma SettledBridgesAreComplete(start: State, steps: seq<Step>, t: Track, n: Node)
    requires start == Init(start.bridges, start.remotes) && Sets(start) && Run(start, steps).Some?
    requires var s := Run(start, steps).value; Settled(s) && n in s.bridges && (t, Remote(n)) !in s.failed
    ensures var s := Run(start, steps).value;
            (t, Remote(n)) in s.table <==> t in s.present && t in s.owners && s.owners[t] != Remote(n)
  {
    StartHasInv(start);
    RunKeepsInv(start, steps);
    var s := Run(start, steps).value;
    assert HopNotLost(s, t, n) && HopHasEntry(s, t, s.bridges[n]) && RemoteEntry(s, t, n);
  }

  /** No AddTrack of this run succeeds for a peer that is already closed. */
  ghost predicate NoLateAddTrack(s: State, steps: seq<Step>)
    decreases |steps|
  {
    steps != [] && Next(s, steps[0]).Some? ==>
      && (steps[0].AddTrackOk? ==> Doing(s, steps[0].g).Attaching? && Doing(s, steps[0].g).p !in s.closed)
      && NoLateAddTrack(Next(s, steps[0]).value, steps[1..])
  }

  lemma {:induction false} NoGapWithoutLateAddTrack(s: State, steps: seq<Step>)
    requires s.gap == {} && Run(s, steps).Some? && NoLateAddTrack(s, steps)
    ensures Run(s, steps).value.gap == {}
    decreases |steps|
  {
    if steps != [] {
      var s' := Next(s, steps[0]).value;
      assert s'.gap == {};
      NoGapWithoutLateAddTrack(s', steps[1..]);
    }
  }

  /** No peer ever receives its own track, and no bridge carries a track back to the node it came from. */
  lemma NoEcho(start: State, steps: seq<Step>, t: Track)
    requires start == Init(start.bridges, start.remotes) && Sets(start) && Run(start, steps).Some?
    ensures var s := Run(start, steps).value;
            t in s.owners ==>
              match s.owners[t]
              case Local(p) => (t, Local(p)) !in s.table && (t, p) !in s.rtp
              case Remote(n) => (t, Remote(n)) !in s.table
  {
    StartHasInv(start);
    RunKeepsInv(start, steps);
    var s := Run(start, steps).value;
    if t in s.owners {
      match s.owners[t]
      case Local(p) => assert Entry(s, t, p) && HasEntry(s, t, p);
      case Remote(n) => assert RemoteEntry(s, t, n);
    }
  }

  /** The same with the state it reaches spelt out: the step does x to the room and leaves its goroutine with work w. */
  lemma Go(init: State, steps: seq<Step>, s: State, step: Step, x: State, w: Work)
    returns (longer: seq<Step>, s': State)
    requires Run(init, steps) == Some(s) && Act(s, step) == Some((x, w))
    ensures Run(init, longer) == Some(s') && s' == x.(threads := s.threads[step.g := w])
  {
    Machines.Extend(Next, init, steps, step);
    longer, s' := steps + [step], Next(s, step).value;
  }

  lemma OnePeerEnters() returns (steps: seq<Step>, s: State)
    ensures Run(Init(map[], map[]), steps) == Some(s)
    ensures s == Init(map[], map[]).(peers := {0}, known := {0}, writer := Some(0), threads := map[0 := Joined(0)])
  {
    var init := Init(map[], map[]);
    assert init.peers + {0} == {0} && init.known + {0} == {0};
    steps, s := Go(init, [], init, JoinBegin(0, 0), init.(peers := {0}, known := {0}, writer := Some(0)), Joined(0));
  }

  lemma OnePeerJoins() returns (steps: seq<Step>, s: State)
    ensures Run(Init(map[], map[]), steps) == Some(s)
    ensures s == Init(map[], map[]).(peers := {0}, known := {0}, threads := map[0 := Finished])
  {
    var init := Init(map[], map[]);
    steps, s := OnePeerEnters();
    assert TracksFor(s, 0) == {};
    steps, s := Go(init, steps, s, JoinSnapshot(0), s.(writer := None), Subscribing({}, None));
    steps, s := Go(init, steps, s, LoopEnds(0), s, Finished);
    assert s.threads == map[0 := Finished];
  }

  lemma ATrackIsPublished() returns (steps: seq<Step>, s: State)
    ensures Run(Init(map[], map[]), steps) == Some(s)
    ensures s == Init(map[], map[]).(peers := {0}, known := {0}, owners := map[0 := Remote(0)], present := {0},
                                     threads := map[0 := Finished, 1 := Published(0)])
  {
    steps, s := OnePeerJoins();
    assert s.present + {0} == {0} && s.owners[0 := Remote(0)] == map[0 := Remote(0)];
    steps, s := Go(Init(map[], map[]), steps, s, Publish(1, 0, Remote(0)),
                   s.(owners := map[0 := Remote(0)], present := {0}), Published(0));
    assert s.threads == map[0 := Finished, 1 := Published(0)];
  }

  lemma ATrackAppears() returns (steps: seq<Step>, s: State)
    ensures Run(Init(map[], map[]), steps) == Some(s)
    ensures s == Init(map[], map[]).(peers := {0}, known := {0}, owners := map[0 := Remote(0)], present := {0},
                                     threads := map[0 := Finished, 1 := Subscribing({(0, 0)}, Some(0))])
  {
    steps, s := ATrackIsPublished();
    assert PeersFor(s, 0) == {(0, 0)};
    steps, s := Go(Init(map[], map[]), steps, s, PeerSnapshot(1), s, Subscribing({(0, 0)}, Some(0)));
    assert s.threads == map[0 := Finished, 1 := Subscribing({(0, 0)}, Some(0))];
  }

  /** Peer.Close drops the peer's entries while the loop of the new track has not come to it. */
  lemma ThePeerCloses() returns (steps: seq<Step>, s: State)
    ensures Run(Init(map[], map[]), steps) == Some(s)
    ensures s == Init(map[], map[]).(peers := {0}, known := {0}, closed := {0},
                                     owners := map[0 := Remote(0)], present := {0},
                                     threads := map[0 := Finished, 1 := Subscribing({(0, 0)}, Some(0)), 2 := Finished])
  {
    steps, s := ATrackAppears();
    assert s.closed + {0} == {0} && WithoutEntries(s.table, 0) == {} && WithoutSenders(s.rtp, 0) == {};
    steps, s := Go(Init(map[], map[]), steps, s, CloseLocked(2, 0), s.(closed := {0}), Finished);
  }

  lemma TheLoopComesToIt() returns (steps: seq<Step>, s: State)
    ensures Run(Init(map[], map[]), steps) == Some(s)
    ensures s == Init(map[], map[]).(peers := {0}, known := {0}, closed := {0},
                                     owners := map[0 := Remote(0)], present := {0},
                                     table := {(0, Local(0))}, locks := map[0 := 1],
                                     threads := map[0 := Finished, 1 := Attaching(0, 0, {}, Some(0)), 2 := Finished])
  {
    steps, s := ThePeerCloses();
    var todo: set<Pair> := {(0, 0)};
    assert todo - {(0, 0)} == {} && s.table + {(0, Local(0))} == {(0, Local(0))} && s.locks[0 := 1] == map[0 := 1];
    steps, s := Go(Init(map[], map[]), steps, s, Subscribe(1, 0, 0),
                   s.(table := {(0, Local(0))}, locks := map[0 := 1]), Attaching(0, 0, {}, Some(0)));
    assert s.threads == map[0 := Finished, 1 := Attaching(0, 0, {}, Some(0)), 2 := Finished];
  }

  /** The subscription in the gap: Peer.Close has dropped the peer's entries, and AddTrack still succeeds. */
  lemma LateSubscription() returns (steps: seq<Step>, s: State)
    ensures Run(Init(map[], map[]), steps) == Some(s)
    ensures s == Init(map[], map[]).(peers := {0}, known := {0}, closed := {0},
                                     owners := map[0 := Remote(0)], present := {0},
                                     table := {(0, Local(0))}, rtp := {(0, 0)}, gap := {(0, 0)},
                                     threads := map[0 := Finished, 1 := Subscribing({}, Some(0)), 2 := Finished])
  {
    steps, s := TheLoopComesToIt();
    assert s.locks - {0} == map[] && s.rtp + {(0, 0)} == {(0, 0)} && s.gap + {(0, 0)} == {(0, 0)};
    var added := s.(rtp := {(0, 0)}, locks := map[], gap := {(0, 0)});
    steps, s := Go(Init(map[], map[]), steps, s, AddTrackOk(1), added, Subscribing({}, Some(0)));
    assert s.threads == map[0 := Finished, 1 := Subscribing({}, Some(0)), 2 := Finished];
  }

  lemma ThePeerGoes() returns (steps: seq<Step>, s: State)
    ensures Run(Init(map[], map[]), steps) == Some(s)
    ensures s == Init(map[], map[]).(known := {0}, closed := {0}, cut := {0},
                                     owners := map[0 := Remote(0)], present := {0},
                                     table := {(0, Local(0))}, rtp := {(0, 0)}, gap := {(0, 0)},
                                     threads := map[0 := Finished, 1 := Subscribing({}, Some(0)), 2 := Finished,
                                                    3 := Finished, 4 := Finished])
  {
    var init := Init(map[], map[]);
    steps, s := LateSubscription();
    assert s.cut + {0} == {0} && s.peers - {0} == {};
    steps, s := Go(init, steps, s, CloseConnection(3, 0), s.(cut := {0}), Finished);
    steps, s := Go(init, steps, s, TakeOut(4, 0), s.(peers := {}), Finished);
  }

  lemma TheLoopGoesOnToBridges() returns (steps: seq<Step>, s: State)
    ensures Run(Init(map[], map[]), steps) == Some(s)
    ensures s.bridges == map[] && s.peers == {} && s.known == {0} && s.closed == {0} && (0, Local(0)) in s.table
    ensures s.threads == map[0 := Finished, 1 := Bridging(0), 2 := Finished, 3 := Finished, 4 := Finished]
  {
    steps, s := ThePeerGoes();
    steps, s := Go(Init(map[], map[]), steps, s, LoopEnds(1), s, Bridging(0));
    assert s.threads == map[0 := Finished, 1 := Bridging(0), 2 := Finished, 3 := Finished, 4 := Finished];
  }

  /** So the router and the room can disagree for good: a settled room with an entry for a peer that has left. */
  lemma GhostEntryArises()
    ensures exists steps :: Run(Init(map[], map[]), steps).Some?
              && var s := Run(Init(map[], map[]), steps).value;
                 Settled(s) && (0, Local(0)) in s.table && 0 !in s.peers
  {
    var steps, s := TheLoopGoesOnToBridges();
    assert HopsFor(s, 0) == {};
    steps, s := Go(Init(map[], map[]), steps, s, BridgeSnapshot(1), s, Carrying({}));
    steps, s := Go(Init(map[], map[]), steps, s, LoopEnds(1), s, Finished);
    assert Run(Init(map[], map[]), steps) == Some(s) && Settled(s);
  }
}
