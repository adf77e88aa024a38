/**
 * Who is subscribed to what in one room, as a value: what Join, Leave, a new track and the end of a track make of it,
 * each with its callbacks, and what they keep.
 */
module Membership {
  import opened Collections

  type Track = string
  type PeerId = string

  /** Owners of the tracks, subscribers of each track in the router, and tracks that each peer in the room is sent. */
  datatype View = View(owners: map<Track, PeerId>, table: map<Track, set<PeerId>>, held: map<PeerId, set<Track>>)

  function Empty(): View { View(map[], map[], map[]) }

  // ---------------------------------------------------------------------------------------------------------------
  // The operations. A peer connection may refuse to add or remove a track.

  /** The subscribers while a peer that joins still has some tracks to do. */
  function JoinedRows(
    table: map<Track, set<PeerId>>, owners: map<Track, PeerId>, p: PeerId, refused: set<Track>, todo: set<Track>)
    : map<Track, set<PeerId>>
  {
    map t | t in table :: if t !in owners || t in todo || owners[t] == p then table[t]
                          else if t in refused then table[t] - {p} else table[t] + {p}
  }

  function JoinedTracks(
    table: map<Track, set<PeerId>>, owners: map<Track, PeerId>, p: PeerId, refused: set<Track>, todo: set<Track>)
    : set<Track>
  {
    set t | t in table && t in owners && t !in todo && owners[t] != p && t !in refused
  }

  function Joined(v: View, p: PeerId, refused: set<Track>): View {
    View(v.owners,
         JoinedRows(v.table, v.owners, p, refused, {}),
         v.held[p := JoinedTracks(v.table, v.owners, p, refused, {})])
  }

  function Left(v: View, p: PeerId): View {
    View(v.owners, map t | t in v.table :: v.table[t] - {p}, v.held - {p})
  }

  /** The peers that are subscribed when a track of this owner appears. */
  function Audience(v: View, owner: PeerId): set<PeerId> { v.held.Keys - {owner} }

  /** The subscribers of a track after some peers were asked to take it. */
  function Asked(row: set<PeerId>, asked: set<PeerId>, refused: set<PeerId>): set<PeerId> {
    row - asked * refused + (asked - refused)
  }

  function Given(held: map<PeerId, set<Track>>, to: set<PeerId>, t: Track): map<PeerId, set<Track>> {
    map p | p in held :: if p in to then held[p] + {t} else held[p]
  }

  function Taken(held: map<PeerId, set<Track>>, from: set<PeerId>, t: Track): map<PeerId, set<Track>> {
    map p | p in held :: if p in from then held[p] - {t} else held[p]
  }

  function Published(v: View, t: Track, owner: PeerId, refused: set<PeerId>): View {
    var all := Audience(v, owner);
    View(v.owners[t := owner],
         v.table[t := Asked(if t in v.table then v.table[t] else {}, all, refused)],
         Given(v.held, all - refused, t))
  }

  function Unpublished(v: View, t: Track, refused: set<PeerId>): View {
    if t !in v.owners then v
    else View(v.owners - {t}, v.table - {t}, Taken(v.held, Audience(v, v.owners[t]) - refused, t))
  }

  // ---------------------------------------------------------------------------------------------------------------
  // Agreement of peers and router, and completeness of the subscriptions.

  predicate AgreesAt(v: View, p: PeerId, t: Track) {
    (t in v.table && p in v.table[t]) <==> (p in v.held && t in v.held[p])
  }

  /** Router and peers record the same subscriptions. */
  ghost predicate Agrees(v: View) {
    v.table.Keys == v.owners.Keys && forall p, t {:trigger AgreesAt(v, p, t)} :: AgreesAt(v, p, t)
  }

  /** Each track goes to all peers of the room but its owner. */
  ghost predicate Complete(v: View) {
    v.table.Keys == v.owners.Keys && forall t :: t in v.owners ==> v.table[t] == v.held.Keys - {v.owners[t]}
  }

  lemma JoinKeeps(v: View, p: PeerId, refused: set<Track>)
    requires Agrees(v) && p !in v.held
    ensures Agrees(Joined(v, p, refused))
    ensures Complete(v) ==>
              (Complete(Joined(v, p, refused)) <==> forall t :: t in v.owners && t in refused ==> v.owners[t] == p)
  {
    var v' := Joined(v, p, refused);
    forall q, t ensures AgreesAt(v', q, t) { assert AgreesAt(v, q, t); }
    if Complete(v) {
      forall t | t in v.owners
        ensures v'.table[t] == v'.held.Keys - {v'.owners[t]} <==> (t in refused ==> v.owners[t] == p)
      {
        assert p in v'.held.Keys && p !in v.held.Keys;
        if t in refused && v.owners[t] != p { assert p !in v'.table[t]; }
      }
    }
  }

  lemma LeaveKeeps(v: View, p: PeerId)
    requires Agrees(v)
    ensures Agrees(Left(v, p)) && (Complete(v) ==> Complete(Left(v, p)))
  {
    forall q, t ensures AgreesAt(Left(v, p), q, t) { assert AgreesAt(v, q, t); }
  }

  /** A track that replaces another one of the same name may reach its own owner. */
  lemma PublishCompletesExactlyWhen(v: View, t: Track, owner: PeerId, refused: set<PeerId>)
    requires Agrees(v) && Complete(v)
    ensures Complete(Published(v, t, owner, refused)) <==>
              Audience(v, owner) * refused == {} && (t in v.owners && owner in v.held ==> v.owners[t] == owner)
  {
    var v' := Published(v, t, owner, refused);
    assert v'.held.Keys == v.held.Keys;
    var all := Audience(v, owner);
    if all * refused != {} { var p :| p in all * refused; assert p !in v'.table[t]; }
    if t in v.owners && owner in v.held && v.owners[t] != owner { assert owner in v'.table[t]; }
  }

  /** A peer that refuses a track which replaces one it has keeps the old one on its side only. */
  lemma PublishAgreesExactlyWhen(v: View, t: Track, owner: PeerId, refused: set<PeerId>)
    requires Agrees(v)
    ensures Agrees(Published(v, t, owner, refused)) <==>
              t in v.table ==> v.table[t] * (Audience(v, owner) * refused) == {}
  {
    var v' := Published(v, t, owner, refused);
    var bad := Audience(v, owner) * refused;
    if t in v.table && v.table[t] * bad != {} {
      var p :| p in v.table[t] * bad;
      assert AgreesAt(v, p, t) && !AgreesAt(v', p, t);
    } else {
      forall p, u ensures AgreesAt(v', p, u) { assert AgreesAt(v, p, u); }
    }
  }

  /** The end of a track leaves it behind at a peer that refuses, and at an owner that it was sent to. */
  lemma UnpublishAgreesExactlyWhen(v: View, t: Track, refused: set<PeerId>)
    requires Agrees(v)
    ensures Agrees(Unpublished(v, t, refused)) <==>
              t in v.owners ==> v.table[t] * (refused + {v.owners[t]}) == {}
    ensures Complete(v) ==> Complete(Unpublished(v, t, refused))
  {
    var v' := Unpublished(v, t, refused);
    if t in v.owners {
      assert v'.held.Keys == v.held.Keys;
      var bad := refused + {v.owners[t]};
      if v.table[t] * bad != {} {
        var p :| p in v.table[t] * bad;
        assert AgreesAt(v, p, t) && !AgreesAt(v', p, t);
      } else {
        forall p, u ensures AgreesAt(v', p, u) {
          assert AgreesAt(v, p, u);
          assert p !in v.table[t] * bad;
        }
      }
    }
  }

  // ---------------------------------------------------------------------------------------------------------------
  // Every run of the interface, with refusals and closed rooms.

  datatype Room = Room(view: View, closed: bool)

  /** A peer has gone; with the last one goes the room, unless it is closed already. */
  function Departed(r: Room, p: PeerId): Room {
    if r.view.held.Keys == {p} && !r.closed then Room(Empty(), true) else r.(view := Left(r.view, p))
  }

  function Closed(r: Room): Room { if r.closed then r else Room(Empty(), true) }

  datatype Call =
    | Join(p: PeerId, refusedTracks: set<Track>)
    | Leave(p: PeerId)
    | Fail(p: PeerId)
    | Publish(t: Track, owner: PeerId, refusing: set<PeerId>)
    | Unpublish(t: Track, refusing: set<PeerId>)
    | Close

  /** Calls in a room for at most so many peers, any number if that is zero. */
  function After(r: Room, maxPeers: int, call: Call): Room {
    match call
    case Join(p, refused) =>
      if (maxPeers > 0 && |r.view.held| >= maxPeers) || p in r.view.held then r
      else r.(view := Joined(r.view, p, refused))
    case Leave(p) => if p in r.view.held then Departed(r, p) else r
    case Fail(p) => Departed(r, p)
    case Publish(t, owner, refusing) => r.(view := Published(r.view, t, owner, refusing))
    case Unpublish(t, refusing) => r.(view := Unpublished(r.view, t, refusing))
    case Close => Closed(r)
  }

  /** What a call must not meet for peers and router to go on agreeing. */
  predicate KeepsAgreement(v: View, call: Call) {
    match call
    case Publish(t, owner, refusing) => t in v.table ==> v.table[t] * (Audience(v, owner) * refusing) == {}
    case Unpublish(t, refusing) => t in v.owners && t in v.table ==> v.table[t] * (refusing + {v.owners[t]}) == {}
    case _ => true
  }

  /** What a call must not meet for the room to stay complete as well. */
  predicate KeepsCompleteness(v: View, maxPeers: int, call: Call) {
    match call
    case Join(p, refused) =>
      || (maxPeers > 0 && |v.held| >= maxPeers) || p in v.held
      || forall t :: t in v.owners && t in refused ==> v.owners[t] == p
    case Publish(t, owner, refusing) =>
      Audience(v, owner) * refusing == {} && (t in v.owners && owner in v.held ==> v.owners[t] == owner)
    case _ => true
  }

  lemma DepartureKeeps(r: Room, p: PeerId)
    requires Agrees(r.view)
    ensures Agrees(Departed(r, p).view) && (Complete(r.view) ==> Complete(Departed(r, p).view))
  {
    LeaveKeeps(r.view, p);
  }

  lemma CallAgreesExactlyWhen(r: Room, maxPeers: int, call: Call)
    requires Agrees(r.view)
    ensures Agrees(After(r, maxPeers, call).view) <==> KeepsAgreement(r.view, call)
  {
    match call
    case Join(p, refused) => if p !in r.view.held { JoinKeeps(r.view, p, refused); }
    case Leave(p) => DepartureKeeps(r, p);
    case Fail(p) => DepartureKeeps(r, p);
    case Publish(t, owner, refusing) => PublishAgreesExactlyWhen(r.view, t, owner, refusing);
    case Unpublish(t, refusing) => UnpublishAgreesExactlyWhen(r.view, t, refusing);
    case Close =>
  }

  lemma CallCompletesExactlyWhen(r: Room, maxPeers: int, call: Call)
    requires Agrees(r.view) && Complete(r.view)
    ensures Complete(After(r, maxPeers, call).view) <==> KeepsCompleteness(r.view, maxPeers, call)
  {
    match call
    case Join(p, refused) => if p !in r.view.held { JoinKeeps(r.view, p, refused); }
    case Leave(p) => DepartureKeeps(r, p);
    case Fail(p) => DepartureKeeps(r, p);
    case Publish(t, owner, refusing) => PublishCompletesExactlyWhen(r.view, t, owner, refusing);
    case Unpublish(t, refusing) => UnpublishAgreesExactlyWhen(r.view, t, refusing);
    case Close =>
  }

  /** Peers and router agree after each call. */
  ghost predicate AgreesAlong(r: Room, maxPeers: int, calls: seq<Call>)
    decreases |calls|
  {
    Agrees(r.view) && (calls != [] ==> AgreesAlong(After(r, maxPeers, calls[0]), maxPeers, calls[1..]))
  }

  predicate AllKeepAgreement(r: Room, maxPeers: int, calls: seq<Call>)
    decreases |calls|
  {
    calls != [] ==>
      KeepsAgreement(r.view, calls[0]) && AllKeepAgreement(After(r, maxPeers, calls[0]), maxPeers, calls[1..])
  }

  /** They agree throughout if and only if no call meets a refusal of, or by, a peer that is subscribed. */
  lemma {:induction false} AgreementExactlyWhen(r: Room, maxPeers: int, calls: seq<Call>)
    requires Agrees(r.view)
    ensures AgreesAlong(r, maxPeers, calls) <==> AllKeepAgreement(r, maxPeers, calls)
    decreases |calls|
  {
    if calls != [] {
      CallAgreesExactlyWhen(r, maxPeers, calls[0]);
      if KeepsAgreement(r.view, calls[0]) {
        AgreementExactlyWhen(After(r, maxPeers, calls[0]), maxPeers, calls[1..]);
      } else {
        assert !Agrees(After(r, maxPeers, calls[0]).view);
      }
    }
  }

  /** After each call peers and router agree and each track goes to all peers but its owner. */
  ghost predicate CompleteAlong(r: Room, maxPeers: int, calls: seq<Call>)
    decreases |calls|
  {
    && Agrees(r.view) && Complete(r.view)
    && (calls != [] ==> CompleteAlong(After(r, maxPeers, calls[0]), maxPeers, calls[1..]))
  }

  predicate AllKeepCompleteness(r: Room, maxPeers: int, calls: seq<Call>)
    decreases |calls|
  {
    calls != [] ==>
      && KeepsAgreement(r.view, calls[0]) && KeepsCompleteness(r.view, maxPeers, calls[0])
      && AllKeepCompleteness(After(r, maxPeers, calls[0]), maxPeers, calls[1..])
  }

  /**
   * Main result: throughout a sequence of calls the subscribers of each track are the peers of the room but its owner,
   * as router and peers agree, if and only if each call meets the condition that its own lemma gives.
   */
  lemma {:induction false} RoomIsCompleteExactlyWhen(r: Room, maxPeers: int, calls: seq<Call>)
    requires Agrees(r.view) && Complete(r.view)
    ensures CompleteAlong(r, maxPeers, calls) <==> AllKeepCompleteness(r, maxPeers, calls)
    decreases |calls|
  {
    if calls != [] {
      CallAgreesExactlyWhen(r, maxPeers, calls[0]);
      CallCompletesExactlyWhen(r, maxPeers, calls[0]);
      if KeepsAgreement(r.view, calls[0]) && KeepsCompleteness(r.view, maxPeers, calls[0]) {
        RoomIsCompleteExactlyWhen(After(r, maxPeers, calls[0]), maxPeers, calls[1..]);
      } else {
        assert !(Agrees(After(r, maxPeers, calls[0]).view) && Complete(After(r, maxPeers, calls[0]).view));
      }
    }
  }

  /** Nobody refuses anything, and no track is published under the name of another that is still there. */
  predicate Plain(r: Room, maxPeers: int, calls: seq<Call>)
    decreases |calls|
  {
    calls != [] ==>
      && (match calls[0]
          case Join(_, refused) => refused == {}
          case Publish(t, _, refusing) => refusing == {} && t !in r.view.table && t !in r.view.owners
          case Unpublish(_, refusing) => refusing == {}
          case _ => true)
      && Plain(After(r, maxPeers, calls[0]), maxPeers, calls[1..])
  }

  /** In particular it is so when nobody refuses and no track name is in use twice, and the limit of peers holds. */
  lemma {:induction false} EveryCallKeepsRoomComplete(r: Room, maxPeers: int, calls: seq<Call>)
    requires Agrees(r.view) && Complete(r.view) && Plain(r, maxPeers, calls)
    ensures CompleteAlong(r, maxPeers, calls)
    decreases |calls|
  {
    if calls != [] {
      PlainCallKeeps(r.view, maxPeers, calls[0]);
      CallAgreesExactlyWhen(r, maxPeers, calls[0]);
      CallCompletesExactlyWhen(r, maxPeers, calls[0]);
      EveryCallKeepsRoomComplete(After(r, maxPeers, calls[0]), maxPeers, calls[1..]);
    }
  }

  lemma PlainCallKeeps(v: View, maxPeers: int, call: Call)
    requires Complete(v)
    requires call.Join? ==> call.refusedTracks == {}
    requires call.Publish? ==> call.refusing == {} && call.t !in v.table && call.t !in v.owners
    requires call.Unpublish? ==> call.refusing == {}
    ensures KeepsAgreement(v, call) && KeepsCompleteness(v, maxPeers, call)
  {
  }

  function AfterAll(r: Room, maxPeers: int, calls: seq<Call>): Room
    decreases |calls|
  {
    if calls == [] then r else AfterAll(After(r, maxPeers, calls[0]), maxPeers, calls[1..])
  }

  /** A positive limit of peers is never exceeded, whatever is refused. */
  lemma {:induction false} LimitHolds(r: Room, maxPeers: int, calls: seq<Call>)
    requires 0 < maxPeers && |r.view.held| <= maxPeers
    ensures |AfterAll(r, maxPeers, calls).view.held| <= maxPeers
    decreases |calls|
  {
    if calls != [] {
      CallKeepsLimit(r, maxPeers, calls[0]);
      LimitHolds(After(r, maxPeers, calls[0]), maxPeers, calls[1..]);
    }
  }

  lemma CallKeepsLimit(r: Room, maxPeers: int, call: Call)
    requires 0 < maxPeers && |r.view.held| <= maxPeers
    ensures |After(r, maxPeers, call).view.held| <= maxPeers
  {
    match call
    case Join(p, refused) => JoinSize(r.view, p, refused);
    case Leave(p) => LeaveSize(r.view, p);
    case Fail(p) => LeaveSize(r.view, p);
    case Publish(t, owner, refusing) => SameSize(r.view, Published(r.view, t, owner, refusing));
    case Unpublish(t, refusing) => if t in r.view.owners { SameSize(r.view, Unpublished(r.view, t, refusing)); }
    case Close =>
  }

  lemma JoinSize(v: View, p: PeerId, refused: set<Track>)
    ensures |Joined(v, p, refused).held| <= |v.held| + 1
  {
    var held := Joined(v, p, refused).held;
    assert held.Keys == v.held.Keys + {p};
    assert |held.Keys| == |held| && |v.held.Keys| == |v.held|;
  }

  lemma LeaveSize(v: View, p: PeerId)
    ensures |Left(v, p).held| <= |v.held|
  {
    var held := Left(v, p).held;
    SubsetSize(held.Keys, v.held.Keys);
    assert |held.Keys| == |held| && |v.held.Keys| == |v.held|;
  }

  lemma SameSize(v: View, v': View)
    requires v'.held.Keys == v.held.Keys
    ensures |v'.held| == |v.held|
  {
    assert |v.held.Keys| == |v.held| && |v'.held.Keys| == |v'.held|;
  }

  // ---------------------------------------------------------------------------------------------------------------
  // The number of senders.

  ghost function RowSizes(v: View): map<Track, nat> { map t | t in v.table :: |v.table[t]| }

  ghost function SenderCount(v: View): nat { Sum(RowSizes(v)) }

  function LocalTracks(v: View): set<Track> { set t | t in v.owners && v.owners[t] in v.held }

  function Drop(v: View, t: Track): View { View(v.owners - {t}, v.table - {t}, v.held) }

  /** Row by row, each track has a sender for every peer of the room, but for its owner where that is one of them. */
  lemma {:induction false} CountByRows(v: View)
    requires Complete(v)
    ensures SenderCount(v) + |LocalTracks(v)| == Times(|v.owners|, |v.held|)
    decreases |v.owners|
  {
    if v.owners == map[] {
      assert RowSizes(v) == map[] && LocalTracks(v) == {};
    } else {
      var t :| t in v.owners;
      CountOneRow(v, t);
      OneFewer(v.owners, t);
      CountByRows(Drop(v, t));
    }
  }

  lemma CountOneRow(v: View, t: Track)
    requires Complete(v) && t in v.owners
    ensures SenderCount(v) + |LocalTracks(v)| == |v.held| + SenderCount(Drop(v, t)) + |LocalTracks(Drop(v, t))|
  {
    SumOneRow(v, t);
    RowCount(v, t);
    LocalCount(v, t);
  }

  lemma SumOneRow(v: View, t: Track)
    requires t in v.table
    ensures SenderCount(v) == |v.table[t]| + SenderCount(Drop(v, t))
  {
    SumWithout(RowSizes(v), t);
    assert RowSizes(v) - {t} == RowSizes(Drop(v, t));
  }

  lemma LocalCount(v: View, t: Track)
    requires t in v.owners
    ensures |LocalTracks(v)| == |LocalTracks(Drop(v, t))| + if t in LocalTracks(v) then 1 else 0
  {
    if t in LocalTracks(v) {
      assert LocalTracks(v) == LocalTracks(Drop(v, t)) + {t};
    } else {
      assert LocalTracks(v) == LocalTracks(Drop(v, t));
    }
  }

  function Times(rows: nat, width: nat): nat { if rows == 0 then 0 else width + Times(rows - 1, width) }

  lemma {:induction false} TimesIsProduct(rows: nat, width: nat)
    ensures Times(rows, width) == rows * width
  {
    if rows > 0 {
      TimesIsProduct(rows - 1, width);
      assert rows * width == (rows - 1) * width + width;
    }
  }

  lemma CompleteCount(v: View)
    requires Complete(v)
    ensures SenderCount(v) == |v.owners| * |v.held| - |LocalTracks(v)|
  {
    CountByRows(v);
    TimesIsProduct(|v.owners|, |v.held|);
  }

  lemma OneFewer<V>(m: map<Track, V>, t: Track)
    requires t in m
    ensures |m - {t}| == |m| - 1
  {
    assert (m - {t}).Keys == m.Keys - {t} && |(m - {t}).Keys| == |m - {t}| && |m.Keys| == |m|;
  }

  lemma RowCount(v: View, t: Track)
    requires Complete(v) && t in v.owners
    ensures |v.table[t]| == |v.held| - if t in LocalTracks(v) then 1 else 0
  {
    assert |v.held.Keys| == |v.held|;
    if v.owners[t] !in v.held { assert v.held.Keys - {v.owners[t]} == v.held.Keys; }
  }

  /** A full mesh: with one track for each of n peers there are n (n - 1) senders. */
  lemma MeshCount(v: View)
    requires Complete(v) && |v.owners| == |v.held| && forall t :: t in v.owners ==> v.owners[t] in v.held
    ensures SenderCount(v) == |v.held| * (|v.held| - 1)
  {
    CompleteCount(v);
    assert LocalTracks(v) == v.owners.Keys && |v.owners.Keys| == |v.owners|;
  }
}
