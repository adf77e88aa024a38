/** The bridge of a room to another node: a subscriber of the router under the name of that node's cascade. */
module Bridges {
  import opened Routing
  import M = Membership
  import Rooms

  lemma PutAndDrop(senders: map<Track, Sender>, t: Track, s: Sender)
    requires t !in senders
    ensures senders[t := s].Keys == senders.Keys + {t} && senders[t := s] - {t} == senders
  {
  }

  datatype Result = Added | AlreadyAdded | TrackNotFound | NoSender | Refused

  class CascadeBridge {
    const name: PeerId                  // "cascade-" and the id of the remote node
    const isInitiator: bool
    const router: Router
    var senders: map<Track, Sender>
    var offersStarted: nat              // goroutines started to negotiate
    var closed: bool

    constructor (router: Router, name: PeerId, isInitiator: bool)
      ensures this.router == router && this.name == name && this.isInitiator == isInitiator
      ensures senders == map[] && offersStarted == 0 && !closed
    {
      this.router, this.name, this.isInitiator, senders, offersStarted := router, name, isInitiator, map[], 0;
      closed := false;
    }

    /**
     * Subscribes the remote node to a track, or takes the subscription back when the connection refuses the track.
     * unmade: no sender can be made.
     */
    method AddTrack(t: Track, unmade: bool, refuses: bool) returns (r: Result)
      requires router.Valid()
      modifies this`senders, this`offersStarted, router`senders, router`running, router`subscriptionsGauge
      ensures router.Valid()
      ensures t in RowsOf(old(router.senders)) <==> t in router.receivers
      ensures r == Outcome(old(senders.Keys), RowsOf(old(router.senders)), t, unmade, refuses)
      ensures if r.Added? then senders.Keys == old(senders.Keys) + {t} else senders == old(senders)
      ensures RowsOf(router.senders) ==
                if r.AlreadyAdded? then RowsOf(old(router.senders))
                else Rooms.Subscribed(RowsOf(old(router.senders)), t, name, !r.Added?)
      ensures offersStarted == old(offersStarted) + if r.Added? && isInitiator then 1 else 0
    {
      ghost var rows := RowsOf(router.senders);
      if t in senders {
        return AlreadyAdded;
      }
      var sender, err := router.Subscribe(t, name, unmade);
      if err {
        Rooms.NothingToLose(rows, t, name);
        return NoSender;
      }
      if sender == null {
        return TrackNotFound;
      }
      PutAndDrop(senders, t, sender);
      senders := senders[t := sender];
      if refuses {
        WithThenWithout(rows, t, name);
        router.Unsubscribe(t, name);
        senders := senders - {t};
        return Refused;
      }
      if isInitiator {
        offersStarted := offersStarted + 1;
      }
      return Added;
    }

    /** Which way AddTrack ends. */
    function Outcome(held: set<Track>, rows: Rows, t: Track, unmade: bool, refuses: bool): Result {
      if t in held then AlreadyAdded
      else if t !in rows then TrackNotFound
      else if unmade && name !in rows[t] then NoSender
      else if refuses then Refused
      else Added
    }

    /** The loop over the tracks has done some of them. */
    ghost predicate Adding(rows: Rows, missed: set<Track>, todo: set<Track>)
      reads this, router
    {
      && router.Valid() && todo <= router.receivers.Keys
      && RowsOf(router.senders) == M.JoinedRows(rows, OwnersOf(router.receivers), name, missed, todo)
      && senders.Keys == M.JoinedTracks(rows, OwnersOf(router.receivers), name, missed, todo)
    }

    /** The first offer of a remote node: the new bridge gets every track that does not come from that node. */
    method AddAllTracks(faults: Rooms.Faults<Track>)
      requires router.Valid() && senders == map[]
      modifies this`senders, this`offersStarted, router`senders, router`running, router`subscriptionsGauge
      ensures var rows := RowsOf(old(router.senders)); Adding(rows, Rooms.MissedTracks(rows, name, faults), {})
    {
      ghost var rows := RowsOf(router.senders);
      Rooms.JoinBegun(rows, OwnersOf(router.receivers), name, Rooms.MissedTracks(rows, name, faults));
      var todo := router.receivers.Keys;
      while todo != {}
        invariant Adding(rows, Rooms.MissedTracks(rows, name, faults), todo)
        decreases todo
      {
        var t :| t in todo;
        AddOne(faults, t, rows, todo);
        todo := todo - {t};
      }
    }

    /** One turn of that loop. */
    method AddOne(faults: Rooms.Faults<Track>, t: Track, ghost rows: Rows, ghost todo: set<Track>)
      requires Adding(rows, Rooms.MissedTracks(rows, name, faults), todo) && t in todo
      modifies this`senders, this`offersStarted, router`senders, router`running, router`subscriptionsGauge
      ensures Adding(rows, Rooms.MissedTracks(rows, name, faults), todo - {t})
    {
      ghost var missed, owners := Rooms.MissedTracks(rows, name, faults), OwnersOf(router.receivers);
      assert t in RowsOf(router.senders) && RowsOf(router.senders)[t] == rows[t] && t !in senders.Keys;
      if router.receivers[t].owner != name {
        var r := AddTrack(t, t in faults.unmade, t in faults.refused);
        assert r.Added? <==> t !in missed;
      }
      Rooms.JoinOneMore(rows, owners, name, missed, todo, t);
    }

    /** Takes all subscriptions of the bridge back. */
    method Close()
      requires router.Valid()
      modifies this`closed, router`senders, router`running, router`subscriptionsGauge
      ensures router.Valid() && closed
      ensures RowsOf(router.senders) == Closed(RowsOf(old(router.senders)), senders.Keys, name)
    {
      closed := true;
      var done: set<Track> := {};
      assert RowsOf(router.senders) == Closed(RowsOf(router.senders), {}, name);
      var todo := senders.Keys;
      while todo != {}
        invariant router.Valid() && closed && todo + done == senders.Keys
        invariant RowsOf(router.senders) == Closed(RowsOf(old(router.senders)), done, name)
        decreases todo
      {
        var t :| t in todo;
        CloseOneMore(RowsOf(old(router.senders)), done, name, t);
        router.Unsubscribe(t, name);
        todo, done := todo - {t}, done + {t};
      }
    }
  }

  /** A room with its bridges, filed under their names. */
  class BridgedRoom {
    const room: Rooms.Room
    var bridges: map<PeerId, CascadeBridge>

    constructor (room: Rooms.Room)
      requires room.Valid()
      ensures Valid() && this.room == room && bridges == map[]
    {
      this.room, bridges := room, map[];
    }

    ghost predicate Valid()
      reads this, room, room.router, room.peers.Values
    {
      room.Valid() && forall n :: n in bridges ==> bridges[n].name == n && bridges[n].router == room.router
    }

    method AddCascadeBridge(bridge: CascadeBridge)
      requires Valid() && bridge.router == room.router
      modifies this`bridges
      ensures Valid() && bridges == old(bridges)[bridge.name := bridge]
    {
      bridges := bridges[bridge.name := bridge];
    }

    /** The bridge is closed, so that its node is no subscriber any more, and taken out. */
    method RemoveCascadeBridge(name: PeerId)
      requires Valid()
      modifies this`bridges, bridges.Values, room.router`senders, room.router`running, room.router`subscriptionsGauge
      ensures Valid() && bridges == old(bridges) - {name} && room.View().held == old(room.View()).held
      ensures RowsOf(room.router.senders) ==
                if name in old(bridges)
                then Closed(RowsOf(old(room.router.senders)), old(bridges)[name].senders.Keys, name)
                else RowsOf(old(room.router.senders))
      ensures name in old(bridges) ==> old(bridges)[name].closed
    {
      if name in bridges {
        bridges[name].Close();
      }
      bridges := bridges - {name};
    }

    /** Room.Close with its bridges: peers first, then bridges, then the router. */
    method Close()
      requires Valid()
      modifies this`bridges, room, room.router, room.peers.Values, bridges.Values
      ensures Valid() && room.Shown() == M.Closed(old(room.Shown()))
      ensures room.peersGauge == old(room.peersGauge) - if old(room.closed) then 0 else old(|room.peers|)
      ensures room.closeCalls == old(room.closeCalls) + if old(room.closed) then 0 else 1
      ensures if old(room.closed) then bridges == old(bridges) && room.peers == old(room.peers)
              else
                && bridges == map[] && (forall n :: n in old(bridges) ==> old(bridges)[n].closed)
                && (forall p :: p in old(room.peers) ==> old(room.peers)[p].closed)
    {
      if room.closed {
        return;
      }
      room.TakeAllOut();
      CloseBridges();
      room.Finish();
    }

    /** Takes all bridges out, then closes them. */
    method CloseBridges()
      requires Valid()
      modifies this`bridges, bridges.Values`closed
      modifies room.router`senders, room.router`running, room.router`subscriptionsGauge
      ensures Valid() && bridges == map[] && forall n :: n in old(bridges) ==> old(bridges)[n].closed
    {
      var gone := bridges;
      bridges := map[];
      var todo := gone.Keys;
      while todo != {}
        invariant todo <= gone.Keys && room.Valid() && bridges == map[]
        invariant forall n :: n in gone && n !in todo ==> gone[n].closed
        decreases todo
      {
        var n :| n in todo;
        gone[n].Close();
        todo := todo - {n};
      }
    }
  }

  /** The rows without a subscriber of some tracks. */
  function Closed(rows: Rows, tracks: set<Track>, p: PeerId): Rows {
    map t | t in rows :: if t in tracks then rows[t] - {p} else rows[t]
  }

  lemma CloseOneMore(rows: Rows, tracks: set<Track>, p: PeerId, t: Track)
    ensures Closed(rows, tracks + {t}, p) == WithoutOne(Closed(rows, tracks, p), t, p)
  {
    if t in rows { assert rows[t] - {p} - {p} == rows[t] - {p}; }
  }
}
