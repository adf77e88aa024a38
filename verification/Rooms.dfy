/**
 * A room with its router and peers, call by call: every method runs with its whole chain of callbacks and is proved to
 * do to the room what the corresponding operation of Membership does to its view.
 */
module Rooms {
  import opened Routing
  import M = Membership

  /** For whom, or for what, no sender can be made, and which peer connection does not add the track. */
  datatype Faults<T> = Faults(unmade: set<T>, refused: set<T>)

  /** The tracks that a peer which joins does not get; a sender that is there already need not be made. */
  function MissedTracks(rows: Rows, p: PeerId, faults: Faults<Track>): set<Track> {
    faults.refused + set t | t in faults.unmade && !(t in rows && p in rows[t])
  }

  /** The peers that do not get a track. */
  function MissingPeers(rows: Rows, t: Track, faults: Faults<PeerId>): set<PeerId> {
    faults.refused + if t in rows then faults.unmade - rows[t] else faults.unmade
  }

  predicate Misses(rows: Rows, t: Track, p: PeerId, unmade: bool, refuses: bool) {
    refuses || (unmade && !(t in rows && p in rows[t]))
  }

  function Subscribed(rows: Rows, t: Track, p: PeerId, misses: bool): Rows {
    if t !in rows then rows else if misses then WithoutOne(rows, t, p) else With(rows, t, p)
  }

  class Peer {
    const id: PeerId
    var rtpSenders: set<Track>
    var closed: bool

    constructor (id: PeerId)
      ensures this.id == id && rtpSenders == {} && !closed
    {
      this.id, rtpSenders, closed := id, {}, false;
    }

    /** unmade: no sender can be made; refuses: the peer connection does not add the track. */
    method SubscribeToTrack(router: Router, t: Track, unmade: bool, refuses: bool)
      requires router.Valid()
      modifies this`rtpSenders, router`senders, router`running, router`subscriptionsGauge
      ensures router.Valid()
      ensures t in RowsOf(old(router.senders)) <==> t in router.receivers
      ensures var rows := RowsOf(old(router.senders));
              var misses := Misses(rows, t, id, unmade, refuses);
              && rtpSenders == (if t in rows && !misses then old(rtpSenders) + {t} else old(rtpSenders))
              && RowsOf(router.senders) == Subscribed(rows, t, id, misses)
    {
      ghost var rows := RowsOf(router.senders);
      var sender, err := router.Subscribe(t, id, unmade);
      if err {
        NothingToLose(rows, t, id);
        return;
      }
      if sender == null {
        return;
      }
      if refuses {
        WithThenWithout(rows, t, id);
        router.Unsubscribe(t, id);
        return;
      }
      rtpSenders := rtpSenders + {t};
    }

    /** refuses: the peer connection does not remove the track. */
    method UnsubscribeFromTrack(router: Router, t: Track, refuses: bool)
      requires router.Valid()
      modifies this`rtpSenders, router`senders, router`running, router`subscriptionsGauge
      ensures router.Valid()
      ensures rtpSenders == if refuses then old(rtpSenders) else old(rtpSenders) - {t}
      ensures t !in router.receivers ==> router.senders == old(router.senders)
      ensures RowsOf(router.senders) ==
                if t in old(rtpSenders) && !refuses then WithoutOne(RowsOf(old(router.senders)), t, id)
                else RowsOf(old(router.senders))
    {
      if t !in rtpSenders || refuses {
        return;
      }
      rtpSenders := rtpSenders - {t};
      router.Unsubscribe(t, id);
    }

    /** The first call of Close, up to its callback. */
    method Close(router: Router)
      requires router.Valid()
      modifies this`closed, this`rtpSenders, router`senders, router`running, router`subscriptionsGauge
      ensures router.Valid()
      ensures closed && (old(closed) ==> router.senders == old(router.senders) && rtpSenders == old(rtpSenders))
      ensures !old(closed) ==> rtpSenders == {} && RowsOf(router.senders) == WithoutAny(RowsOf(old(router.senders)), id)
    {
      if closed {
        return;
      }
      closed := true;
      router.UnsubscribeAll(id);
      rtpSenders := {};
    }
  }

  lemma NothingToLose(rows: Rows, t: Track, p: PeerId)
    requires t in rows && p !in rows[t]
    ensures WithoutOne(rows, t, p) == rows
  {
    assert rows[t] - {p} == rows[t];
  }

  lemma JoinOneMore(rows: Rows, owners: map<Track, PeerId>, p: PeerId, refused: set<Track>, todo: set<Track>, t: Track)
    requires t in todo && t in owners && t in rows
    ensures var now := M.JoinedRows(rows, owners, p, refused, todo);
            M.JoinedRows(rows, owners, p, refused, todo - {t}) ==
              if owners[t] == p then now else Subscribed(now, t, p, t in refused)
    ensures M.JoinedTracks(rows, owners, p, refused, todo - {t}) ==
              M.JoinedTracks(rows, owners, p, refused, todo) + if owners[t] != p && t !in refused then {t} else {}
  {
  }

  lemma JoinBegun(rows: Rows, owners: map<Track, PeerId>, p: PeerId, refused: set<Track>)
    ensures M.JoinedRows(rows, owners, p, refused, owners.Keys) == rows
    ensures M.JoinedTracks(rows, owners, p, refused, owners.Keys) == {}
  {
  }

  function Offered(rows: Rows, t: Track, asked: set<PeerId>, refused: set<PeerId>): Rows
    requires t in rows
  {
    rows[t := M.Asked(rows[t], asked, refused)]
  }

  lemma AskNobody(rows: Rows, held: map<PeerId, set<Track>>, refused: set<PeerId>, t: Track, all: set<PeerId>)
    requires t in rows
    ensures Offered(rows, t, all - all, refused) == rows && M.Given(held, all - all - refused, t) == held
  {
    assert M.Asked(rows[t], all - all, refused) == rows[t];
  }

  lemma AskOneMore(
    rows: Rows, held: map<PeerId, set<Track>>, asked: set<PeerId>, refused: set<PeerId>, p: PeerId, t: Track)
    requires p !in asked && p in held && t in rows
    ensures var now := Offered(rows, t, asked, refused);
            Offered(rows, t, asked + {p}, refused) == Subscribed(now, t, p, p in refused)
    ensures var now := M.Given(held, asked - refused, t);
            M.Given(held, asked + {p} - refused, t) == now[p := if p in refused then now[p] else now[p] + {t}]
  {
    assert M.Asked(rows[t], asked + {p}, refused) ==
           if p in refused then M.Asked(rows[t], asked, refused) - {p} else M.Asked(rows[t], asked, refused) + {p};
  }

  lemma StillToAsk(rows: Rows, t: Track, asked: set<PeerId>, missing: set<PeerId>, p: PeerId)
    requires t in rows && p !in asked
    ensures p in Offered(rows, t, asked, missing)[t] <==> p in rows[t]
  {
  }

  function Announced(v: M.View, t: Track, owner: PeerId): M.View {
    M.View(v.owners[t := owner], WithRow(v.table, t), v.held)
  }

  function OfferedTo(v: M.View, t: Track, all: set<PeerId>, missing: set<PeerId>): M.View
    requires t in v.table
  {
    M.View(v.owners, Offered(v.table, t, all, missing), M.Given(v.held, all - missing, t))
  }

  lemma PublishedIs(v: M.View, t: Track, owner: PeerId, faults: Faults<PeerId>)
    ensures var v' := Announced(v, t, owner);
            M.Published(v, t, owner, MissingPeers(v.table, t, faults)) ==
            OfferedTo(v', t, v.held.Keys - {owner}, MissingPeers(v'.table, t, faults))
  {
    assert MissingPeers(WithRow(v.table, t), t, faults) == MissingPeers(v.table, t, faults);
  }

  lemma TakeOneMore(held: map<PeerId, set<Track>>, asked: set<PeerId>, refused: set<PeerId>, p: PeerId, t: Track)
    requires p !in asked && p in held
    ensures var now := M.Taken(held, asked - refused, t);
            M.Taken(held, asked + {p} - refused, t) == now[p := if p in refused then now[p] else now[p] - {t}]
  {
  }

  datatype Result = Ok(peer: Peer) | RoomFull | PeerAlreadyJoined | NoConnection

  lemma OneFewer(peers: map<PeerId, Peer>, p: PeerId)
    requires p in peers
    ensures |peers - {p}| == |peers| - 1
  {
    assert (peers - {p}).Keys == peers.Keys - {p};
    assert |(peers - {p}).Keys| == |peers - {p}| && |peers.Keys| == |peers|;
  }

  lemma OwnersAfter(receivers: map<Track, Receiver>, t: Track, r: Receiver)
    ensures OwnersOf(receivers[t := r]) == OwnersOf(receivers)[t := r.owner]
    ensures OwnersOf(receivers - {t}) == OwnersOf(receivers) - {t}
  {
  }

  lemma LastOneOut(r: M.Room, p: PeerId)
    ensures var left := r.(view := M.Left(r.view, p));
            M.Departed(r, p) == if p in r.view.held && left.view.held == map[] then M.Closed(left) else left
  {
    var held := r.view.held;
    assert (held - {p}).Keys == held.Keys - {p};
    assert held.Keys == {p} ==> held - {p} == map[];
    if p in held && held - {p} == map[] {
      assert forall q :: q in held && q != p ==> q in held - {p};
      assert held.Keys == {p};
    }
  }

  class Room {
    const router: Router
    const maxPeers: int
    var peers: map<PeerId, Peer>
    var closed: bool
    var peersGauge: int
    var closeCalls: nat                         // calls of onClose
    ghost var held: map<PeerId, set<Track>>     // rtpSenders of the peers

    constructor (maxPeers: int)
      ensures Valid() && fresh(router) && this.maxPeers == maxPeers && !closed
      ensures View() == M.Empty() && peersGauge == 0 && closeCalls == 0
    {
      router := new Router();
      this.maxPeers := maxPeers;
      peers, closed, peersGauge, closeCalls, held := map[], false, 0, 0, map[];
    }

    /** The peers are open, filed under their own names, and held is what they hold. */
    ghost predicate Shows()
      reads this, peers.Values
    {
      && held.Keys == peers.Keys
      && forall p :: p in peers ==> peers[p].id == p && !peers[p].closed && peers[p].rtpSenders == held[p]
    }

    ghost predicate Valid()
      reads this, router, peers.Values
    {
      router.Valid() && Shows()
    }

    ghost function View(): M.View
      reads this, router
    {
      M.View(OwnersOf(router.receivers), RowsOf(router.senders), held)
    }

    /** connects: the peer gets a connection. */
    method Join(peerID: PeerId, connects: bool, faults: Faults<Track>) returns (r: Result)
      requires Valid()
      modifies this, router
      ensures Valid() && closed == old(closed) && closeCalls == old(closeCalls)
      ensures r.RoomFull? <==> maxPeers > 0 && old(|peers|) >= maxPeers
      ensures r.PeerAlreadyJoined? <==> !r.RoomFull? && peerID in old(peers)
      ensures r.NoConnection? <==> !r.RoomFull? && !r.PeerAlreadyJoined? && !connects
      ensures !r.Ok? ==> View() == old(View()) && peers == old(peers) && peersGauge == old(peersGauge)
      ensures r.Ok? ==> fresh(r.peer) && r.peer.id == peerID && peers == old(peers)[peerID := r.peer]
      ensures r.Ok? ==> peersGauge == old(peersGauge) + 1
      ensures var v := old(View());
              r.Ok? ==> View() == M.Joined(v, peerID, MissedTracks(v.table, peerID, faults))
    {
      if maxPeers > 0 && |peers| >= maxPeers {
        return RoomFull;
      }
      if peerID in peers {
        return PeerAlreadyJoined;
      }
      if !connects {
        return NoConnection;
      }
      var peer := new Peer(peerID);
      peers := peers[peerID := peer];
      SubscribeToAll(peer, faults);
      held := held[peerID := peer.rtpSenders];
      peersGauge := peersGauge + 1;
      return Ok(peer);
    }

    /** The loop of Join has done some of its tracks. */
    ghost predicate Joining(peer: Peer, rows: Rows, missed: set<Track>, todo: set<Track>)
      reads peer, router
    {
      && router.Valid() && todo <= router.receivers.Keys
      && RowsOf(router.senders) == M.JoinedRows(rows, OwnersOf(router.receivers), peer.id, missed, todo)
      && peer.rtpSenders == M.JoinedTracks(rows, OwnersOf(router.receivers), peer.id, missed, todo)
    }

    /** The loop of Join over the tracks there are. */
    method SubscribeToAll(peer: Peer, faults: Faults<Track>)
      requires router.Valid() && peer.rtpSenders == {}
      modifies peer`rtpSenders, router`senders, router`running, router`subscriptionsGauge
      ensures var rows := RowsOf(old(router.senders));
              Joining(peer, rows, MissedTracks(rows, peer.id, faults), {})
    {
      ghost var rows := RowsOf(router.senders);
      JoinBegun(rows, OwnersOf(router.receivers), peer.id, MissedTracks(rows, peer.id, faults));
      var todo := router.receivers.Keys;
      while todo != {}
        invariant Joining(peer, rows, MissedTracks(rows, peer.id, faults), todo)
        decreases todo
      {
        var t :| t in todo;
        SubscribeToOne(peer, faults, t, rows, todo);
        todo := todo - {t};
      }
    }

    /** One turn of that loop. */
    method SubscribeToOne(peer: Peer, faults: Faults<Track>, t: Track, ghost rows: Rows, ghost todo: set<Track>)
      requires Joining(peer, rows, MissedTracks(rows, peer.id, faults), todo) && t in todo
      modifies peer`rtpSenders, router`senders, router`running, router`subscriptionsGauge
      ensures Joining(peer, rows, MissedTracks(rows, peer.id, faults), todo - {t})
    {
      assert t in RowsOf(router.senders) && RowsOf(router.senders)[t] == rows[t];
      JoinOneMore(rows, OwnersOf(router.receivers), peer.id, MissedTracks(rows, peer.id, faults), todo, t);
      if router.receivers[t].owner != peer.id {
        peer.SubscribeToTrack(router, t, t in faults.unmade, t in faults.refused);
      }
    }

    /** A new track: AddReceiver and onReceiverAdded. */
    method Publish(t: Track, owner: PeerId, kind: string, faults: Faults<PeerId>)
      requires Valid()
      modifies this`held, router, peers.Values`rtpSenders
      ensures Valid()
      ensures var v := old(View()); View() == M.Published(v, t, owner, MissingPeers(v.table, t, faults))
      ensures router.kinds == old(router.kinds)[t := kind] && router.tracksGauge == old(router.tracksGauge) + 1
    {
      PublishedIs(View(), t, owner, faults);
      Register(t, owner, kind);
      OfferToAll(t, peers.Keys - {owner}, faults);
    }

    /** AddReceiver up to its callback. */
    method Register(t: Track, owner: PeerId, kind: string)
      requires Valid()
      modifies router
      ensures Valid() && t in router.receivers && View() == Announced(old(View()), t, owner)
      ensures router.kinds == old(router.kinds)[t := kind] && router.tracksGauge == old(router.tracksGauge) + 1
    {
      var receiver := new Receiver(t, owner, kind);
      OwnersAfter(router.receivers, t, receiver);
      router.AddReceiver(receiver);
    }

    /** The loop of onReceiverAdded has asked some of its peers. */
    ghost predicate Halfway(
      t: Track, missing: set<PeerId>, rows: Rows, was: map<PeerId, set<Track>>, all: set<PeerId>, todo: set<PeerId>)
      reads this, router, peers.Values
    {
      && Valid() && t in router.receivers && t in rows && todo <= all <= peers.Keys
      && RowsOf(router.senders) == Offered(rows, t, all - todo, missing)
      && held == M.Given(was, all - todo - missing, t)
    }

    /** onReceiverAdded for the peers but the owner. */
    method OfferToAll(t: Track, all: set<PeerId>, faults: Faults<PeerId>)
      requires Valid() && t in router.receivers && all <= peers.Keys
      modifies this`held, router`senders, router`running, router`subscriptionsGauge, peers.Values`rtpSenders
      ensures Valid() && t in old(View()).table
      ensures View() == OfferedTo(old(View()), t, all, MissingPeers(old(View()).table, t, faults))
    {
      OfferToEach(t, all, faults);
      assert all - {} == all;
    }

    /** That loop. */
    method OfferToEach(t: Track, all: set<PeerId>, faults: Faults<PeerId>)
      requires Valid() && t in router.receivers && all <= peers.Keys
      modifies this`held, router`senders, router`running, router`subscriptionsGauge, peers.Values`rtpSenders
      ensures var v := old(View()); Halfway(t, MissingPeers(v.table, t, faults), v.table, v.held, all, {})
    {
      ghost var rows, was := RowsOf(router.senders), held;
      AskNobody(rows, was, MissingPeers(rows, t, faults), t, all);
      var todo := all;
      while todo != {}
        invariant Halfway(t, MissingPeers(rows, t, faults), rows, was, all, todo)
        decreases todo
      {
        var p :| p in todo;
        OfferToOne(p, t, faults, rows, was, all, todo);
        todo := todo - {p};
      }
    }

    /** One turn of that loop. */
    method OfferToOne(
      p: PeerId, t: Track, faults: Faults<PeerId>,
      ghost rows: Rows, ghost was: map<PeerId, set<Track>>, ghost all: set<PeerId>, ghost todo: set<PeerId>)
      requires Halfway(t, MissingPeers(rows, t, faults), rows, was, all, todo) && p in todo
      modifies {peers[p]}`rtpSenders, this`held, router`senders, router`running, router`subscriptionsGauge
      ensures Halfway(t, MissingPeers(rows, t, faults), rows, was, all, todo - {p})
    {
      assert held.Keys == was.Keys;
      assert all - (todo - {p}) == all - todo + {p};
      AskOneMore(rows, was, all - todo, MissingPeers(rows, t, faults), p, t);
      StillToAsk(rows, t, all - todo, MissingPeers(rows, t, faults), p);
      Ask(p, t, p in faults.unmade, p in faults.refused);
    }

    method Ask(p: PeerId, t: Track, unmade: bool, refuses: bool)
      requires router.Valid() && Shows() && p in peers && t in router.receivers
      modifies {peers[p]}`rtpSenders, this`held, router`senders, router`running, router`subscriptionsGauge
      ensures router.Valid() && Shows() && t in RowsOf(old(router.senders))
      ensures var rows := RowsOf(old(router.senders));
              var misses := Misses(rows, t, p, unmade, refuses);
              && RowsOf(router.senders) == Subscribed(rows, t, p, misses)
              && held == old(held)[p := if misses then old(held)[p] else old(held)[p] + {t}]
    {
      var peer := peers[p];
      peer.SubscribeToTrack(router, t, unmade, refuses);
      Record(p);
    }

    /** What peers hold is recorded, but perhaps for one of them. */
    ghost predicate ShowsBut(p: PeerId)
      reads this, peers.Values
    {
      && held.Keys == peers.Keys
      && forall q :: q in peers && q != p ==> peers[q].id == q && !peers[q].closed && peers[q].rtpSenders == held[q]
    }

    ghost method Record(p: PeerId)
      requires ShowsBut(p) && p in peers && peers[p].id == p && !peers[p].closed
      modifies this`held
      ensures Shows() && held == old(held)[p := peers[p].rtpSenders]
    {
      held := held[p := peers[p].rtpSenders];
    }

    /** The end of a track: RemoveReceiver and onReceiverRemoved. */
    method Unpublish(t: Track, refused: set<PeerId>)
      requires Valid()
      modifies this`held, router, peers.Values`rtpSenders
      ensures Valid() && View() == M.Unpublished(old(View()), t, refused)
      ensures router.tracksGauge == old(router.tracksGauge) - if t in old(router.receivers) then 1 else 0
    {
      if t !in router.receivers {
        assert t !in View().owners;
        return;
      }
      var owner := router.receivers[t].owner;
      Unregister(t);
      RetractFromAll(t, peers.Keys - {owner}, refused);
    }

    /** RemoveReceiver up to its callback. */
    method Unregister(t: Track)
      requires Valid() && t in router.receivers
      modifies router
      ensures Valid() && t !in router.receivers
      ensures OwnersOf(router.receivers) == OwnersOf(old(router.receivers)) - {t}
      ensures RowsOf(router.senders) == RowsOf(old(router.senders)) - {t}
      ensures router.tracksGauge == old(router.tracksGauge) - 1
    {
      router.RemoveReceiver(t);
    }

    /** The loop of onReceiverRemoved over the peers but the owner. */
    method RetractFromAll(t: Track, all: set<PeerId>, refused: set<PeerId>)
      requires Valid() && t !in router.receivers && all <= peers.Keys
      modifies this`held, router`senders, router`running, router`subscriptionsGauge, peers.Values`rtpSenders
      ensures Valid() && router.senders == old(router.senders)
      ensures held == M.Taken(old(held), all - refused, t)
    {
      ghost var was := held;
      assert M.Taken(was, all - all - refused, t) == was;
      var todo := all;
      while todo != {}
        invariant todo <= all && Valid() && router.senders == old(router.senders)
        invariant held == M.Taken(was, all - todo - refused, t)
        decreases todo
      {
        var p :| p in todo;
        RetractFromOne(p, t, refused, was, all, todo);
        todo := todo - {p};
      }
      assert all - todo == all;
    }

    /** One turn of that loop. */
    method RetractFromOne(
      p: PeerId, t: Track, refused: set<PeerId>,
      ghost was: map<PeerId, set<Track>>, ghost all: set<PeerId>, ghost todo: set<PeerId>)
      requires Valid() && t !in router.receivers && p in todo && todo <= all <= peers.Keys
      requires held == M.Taken(was, all - todo - refused, t)
      modifies {peers[p]}`rtpSenders, this`held, router`senders, router`running, router`subscriptionsGauge
      ensures Valid() && router.senders == old(router.senders)
      ensures held == M.Taken(was, all - (todo - {p}) - refused, t)
    {
      assert held.Keys == was.Keys;
      assert all - (todo - {p}) == all - todo + {p};
      TakeOneMore(was, all - todo, refused, p, t);
      peers[p].UnsubscribeFromTrack(router, t, p in refused);
      Record(p);
    }

    /** The peer leaves: it is taken out, then closed; its own callback finds nothing. */
    method Leave(peerID: PeerId)
      requires Valid()
      modifies this, router, peers.Values
      ensures Valid()
      ensures if peerID in old(peers)
              then old(peers)[peerID].closed && Departed(peerID) && peersGauge == old(peersGauge) - 1
              else Shown() == old(Shown()) && peersGauge == old(peersGauge)
    {
      if peerID !in peers {
        return;
      }
      LastOneOut(Shown(), peerID);
      var peer := peers[peerID];
      TakeOut(peerID);
      peer.Close(router);
      OthersStayFine(peerID);
      CloseIfEmpty();
    }

    /**
     * The connection of a peer fails: the peer is closed, then taken out by its callback onPeerClosed, which goes by
     * the id. A peer that is closed already finds its guard spent.
     */
    method Fail(peer: Peer)
      requires Valid()
      modifies this, router, peers.Values, peer
      ensures Valid() && peer.closed
      ensures if old(peer.closed) then Shown() == old(Shown()) && peersGauge == old(peersGauge)
              else Departed(peer.id) && peersGauge == old(peersGauge) - if peer.id in old(peers) then 1 else 0
    {
      if peer.closed {
        return;
      }
      LastOneOut(Shown(), peer.id);
      peer.Close(router);
      if peer.id in peers {
        TakeOut(peer.id);
        OthersStayFine(peer.id);
        CloseIfEmpty();
      } else {
        assert held - {peer.id} == held && peers - {peer.id} == peers;
        OthersStayFine(peer.id);
      }
    }

    twostate lemma OthersStayFine(p: PeerId)
      requires old(Shows()) && peers == old(peers) - {p} && held == old(held) - {p}
      requires forall q :: q in peers && peers[q].id != p ==> unchanged(peers[q])
      ensures Shows()
    {
    }

    method CloseIfEmpty()
      requires Valid()
      modifies this, router
      ensures Valid() && Shown() == if old(held) == map[] then M.Closed(old(Shown())) else old(Shown())
      ensures peersGauge == old(peersGauge)
      ensures closeCalls == old(closeCalls) + if closed && !old(closed) then 1 else 0
    {
      assert |held.Keys| == |held| && |peers.Keys| == |peers|;
      if |peers| == 0 {
        Close();
      }
    }

    method TakeOut(peerID: PeerId)
      modifies this`peers, this`held, this`peersGauge
      ensures peers == old(peers) - {peerID} && held == old(held) - {peerID} && peersGauge == old(peersGauge) - 1
    {
      peers, held := peers - {peerID}, held - {peerID};
      peersGauge := peersGauge - 1;
    }

    ghost function Shown(): M.Room
      reads this, router
    {
      M.Room(View(), closed)
    }

    /** One peer less, and no room left if it was the last one. */
    twostate predicate Departed(peerID: PeerId)
      reads this, router
    {
      && Shown() == M.Departed(old(Shown()), peerID)
      && closeCalls == old(closeCalls) + (if closed && !old(closed) then 1 else 0)
    }

    /** Closes everything once. */
    method Close()
      requires Valid()
      modifies this, router, peers.Values
      ensures Valid() && Shown() == M.Closed(old(Shown()))
      ensures peersGauge == old(peersGauge) - if old(closed) then 0 else old(|peers|)
      ensures closeCalls == old(closeCalls) + if old(closed) then 0 else 1
      ensures !old(closed) ==> forall p :: p in old(peers) ==> old(peers)[p].closed
      ensures old(closed) ==> peers == old(peers)
    {
      if closed {
        return;
      }
      TakeAllOut();
      Finish();
    }

    /** Close up to the bridges: the room is closed, and so are all its peers. */
    method TakeAllOut()
      requires Valid()
      modifies this`closed, this`peers, this`held, this`peersGauge, peers.Values
      modifies router`senders, router`running, router`subscriptionsGauge
      ensures Valid() && closed && peers == map[]
      ensures peersGauge == old(peersGauge) - old(|peers|) && forall p :: p in old(peers) ==> old(peers)[p].closed
    {
      closed := true;
      var gone := peers;
      peers, held := map[], map[];
      ClosePeers(gone);
    }

    /** Close from there on. */
    method Finish()
      requires Valid() && closed && peers == map[]
      modifies this`closeCalls, router
      ensures Valid() && View() == M.Empty() && closeCalls == old(closeCalls) + 1
    {
      router.Close();
      assert OwnersOf(router.receivers) == map[] && RowsOf(router.senders) == map[];
      closeCalls := closeCalls + 1;
    }

    /** The loop of Close over the peers that were taken out. */
    method ClosePeers(gone: map<PeerId, Peer>)
      requires router.Valid()
      modifies this`peersGauge, router`senders, router`running, router`subscriptionsGauge, gone.Values
      ensures router.Valid() && peersGauge == old(peersGauge) - |gone|
      ensures forall p :: p in gone ==> gone[p].closed
    {
      var todo := gone;
      while todo != map[]
        invariant router.Valid() && todo.Keys <= gone.Keys && forall p :: p in todo ==> todo[p] == gone[p]
        invariant forall p :: p in gone && p !in todo ==> gone[p].closed
        invariant peersGauge == old(peersGauge) - |gone| + |todo|
        decreases todo.Keys
      {
        var p :| p in todo;
        OneFewer(todo, p);
        todo[p].Close(router);
        peersGauge := peersGauge - 1;
        todo := todo - {p};
      }
    }

    method Stats() returns (peerCount: nat, receiverCount: nat, senderCount: nat)
      requires Valid()
      ensures peerCount == |View().held| && receiverCount == |View().owners| && senderCount == M.SenderCount(View())
    {
      peerCount, receiverCount := |peers|, |router.receivers|;
      senderCount := router.SenderCount();
      assert Sizes(router.senders) == M.RowSizes(View());
      assert held.Keys == peers.Keys && |held.Keys| == |held| && |peers.Keys| == |peers|;
      assert OwnersOf(router.receivers).Keys == router.receivers.Keys;
      assert |OwnersOf(router.receivers).Keys| == |OwnersOf(router.receivers)|;
      assert |router.receivers.Keys| == |router.receivers|;
    }
  }
}
