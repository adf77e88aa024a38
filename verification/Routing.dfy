/** The router of one room: incoming tracks, and the table of senders by track and subscriber. */
module Routing {
  import opened Collections

  type Track = string
  type PeerId = string

  class Receiver {
    const track: Track
    const owner: PeerId
    const kind: string

    constructor (track: Track, owner: PeerId, kind: string)
      ensures this.track == track && this.owner == owner && this.kind == kind
    {
      this.track, this.owner, this.kind := track, owner, kind;
    }
  }

  class Sender {
    const track: Track
    const peer: PeerId

    constructor (track: Track, peer: PeerId)
      ensures this.track == track && this.peer == peer
    {
      this.track, this.peer := track, peer;
    }
  }

  type Table = map<Track, map<PeerId, Sender>>

  function Without<V>(row: map<PeerId, V>, p: PeerId): map<PeerId, V> { row - {p} }

  predicate Names(t: Track, p: PeerId, s: Sender) { s.track == t && s.peer == p }

  predicate Lists(table: Table, s: Sender) {
    s.track in table && s.peer in table[s.track] && table[s.track][s.peer] == s
  }

  predicate EntryFiled(table: Table, live: set<Sender>, t: Track, p: PeerId) {
    t in table && p in table[t] ==> table[t][p] in live && Names(t, p, table[t][p])
  }

  /** The table has exactly these senders, each under its own names. */
  ghost predicate Filed(table: Table, live: set<Sender>) {
    && (forall t, p {:trigger EntryFiled(table, live, t, p)} :: EntryFiled(table, live, t, p))
    && (forall s {:trigger Lists(table, s)} :: s in live ==> Lists(table, s))
  }

  lemma PutFiled(table: Table, live: set<Sender>, t: Track, p: PeerId, s: Sender)
    requires Filed(table, live) && t in table && p !in table[t] && Names(t, p, s)
    ensures s !in live && Filed(table[t := table[t][p := s]], live + {s})
  {
    var table' := table[t := table[t][p := s]];
    assert s in live ==> Lists(table, s);
    forall u, q ensures EntryFiled(table', live + {s}, u, q) { assert EntryFiled(table, live, u, q); }
    forall x | x in live + {s} ensures Lists(table', x) { assert x in live ==> Lists(table, x); }
  }

  lemma DropFiled(table: Table, live: set<Sender>, t: Track, p: PeerId)
    requires Filed(table, live) && t in table && p in table[t]
    ensures table[t][p] in live && Filed(table[t := Without(table[t], p)], live - {table[t][p]})
  {
    var s := table[t][p];
    var table' := table[t := Without(table[t], p)];
    assert EntryFiled(table, live, t, p);
    forall u, q ensures EntryFiled(table', live - {s}, u, q) { assert EntryFiled(table, live, u, q); }
    forall x | x in live - {s} ensures Lists(table', x) { assert Lists(table, x); }
  }

  lemma NewRowFiled(table: Table, live: set<Sender>, t: Track)
    requires Filed(table, live) && t !in table
    ensures Filed(table[t := map[]], live)
  {
    var table' := table[t := map[]];
    forall u, q ensures EntryFiled(table', live, u, q) { assert EntryFiled(table, live, u, q); }
    forall x | x in live ensures Lists(table', x) { assert Lists(table, x); }
  }

  lemma EmptyFiled(live: set<Sender>)
    requires Filed(map[], live)
    ensures live == {}
  {
    var none: Table := map[];
    forall s ensures s !in live { assert s in live ==> Lists(none, s); }
  }

  lemma DropRowFiled(table: Table, live: set<Sender>, t: Track)
    requires Filed(table, live) && t in table
    ensures table[t].Values <= live && Row(table[t]) && Filed(table - {t}, live - table[t].Values)
  {
    forall p | p in table[t] ensures table[t][p] in live && Names(t, p, table[t][p]) {
      assert EntryFiled(table, live, t, p);
    }
    var live' := live - table[t].Values;
    forall u, q ensures EntryFiled(table - {t}, live', u, q) { assert EntryFiled(table, live, u, q); }
    forall x | x in live && x.track == t ensures x in table[t].Values { assert Lists(table, x); }
    forall x | x in live' ensures Lists(table - {t}, x) { assert Lists(table, x); }
  }

  /** The table without a subscriber, but for the tracks still to be done. */
  function Partly(table: Table, todo: set<Track>, p: PeerId): Table {
    map t | t in table :: if t in todo then table[t] else Without(table[t], p)
  }

  lemma PartlyMore(table: Table, todo: set<Track>, t: Track, p: PeerId)
    requires t in todo && t in table
    ensures t in Partly(table, todo, p)
    ensures Partly(table, todo - {t}, p) == Partly(table, todo, p)[t := Without(Partly(table, todo, p)[t], p)]
  {
  }

  /** Subscribers by track. */
  type Rows = map<Track, set<PeerId>>

  ghost function RowsOf(table: Table): Rows { map t | t in table :: table[t].Keys }

  function OwnersOf(receivers: map<Track, Receiver>): map<Track, PeerId> {
    map t | t in receivers :: receivers[t].owner
  }

  function WithRow(rows: Rows, t: Track): Rows { if t in rows then rows else rows[t := {}] }

  function With(rows: Rows, t: Track, p: PeerId): Rows
    requires t in rows
  {
    rows[t := rows[t] + {p}]
  }

  function WithoutOne(rows: Rows, t: Track, p: PeerId): Rows {
    if t in rows then rows[t := rows[t] - {p}] else rows
  }

  function WithoutAny(rows: Rows, p: PeerId): Rows { map t | t in rows :: rows[t] - {p} }

  lemma RowsWith(table: Table, t: Track, p: PeerId, s: Sender)
    requires t in table
    ensures RowsOf(table[t := table[t][p := s]]) == With(RowsOf(table), t, p)
  {
    assert table[t][p := s].Keys == table[t].Keys + {p};
  }

  lemma RowsNew(table: Table, t: Track)
    ensures t !in table ==> RowsOf(table[t := map[]]) == WithRow(RowsOf(table), t)
    ensures t in table ==> RowsOf(table) == WithRow(RowsOf(table), t)
  {
    if t !in table {
      var table' := table[t := map[]];
      assert table'[t].Keys == {};
      assert RowsOf(table') == RowsOf(table)[t := {}];
    }
  }

  lemma RowsDrop(table: Table, t: Track)
    ensures RowsOf(table - {t}) == RowsOf(table) - {t}
  {
  }

  lemma RowsWithout(table: Table, t: Track, p: PeerId)
    requires t in table
    ensures RowsOf(table[t := Without(table[t], p)]) == WithoutOne(RowsOf(table), t, p)
  {
    assert Without(table[t], p).Keys == table[t].Keys - {p};
  }

  lemma WithThenWithout(rows: Rows, t: Track, p: PeerId)
    requires t in rows
    ensures WithoutOne(With(rows, t, p), t, p) == WithoutOne(rows, t, p)
  {
    assert rows[t] + {p} - {p} == rows[t] - {p};
  }

  lemma RowsWithoutAny(table: Table, p: PeerId)
    ensures RowsOf(map t | t in table :: Without(table[t], p)) == WithoutAny(RowsOf(table), p)
  {
    forall t | t in table ensures Without(table[t], p).Keys == table[t].Keys - {p} { }
  }

  ghost function Sizes(table: Table): map<Track, nat> { map t | t in table :: |table[t]| }

  /** The number of entries of the table. */
  ghost function Entries(table: Table): nat { Sum(Sizes(table)) }

  lemma EntriesWithout(table: Table, t: Track)
    requires t in table
    ensures Entries(table) == |table[t]| + Entries(table - {t})
  {
    SumWithout(Sizes(table), t);
    assert Sizes(table - {t}) == Sizes(table) - {t};
  }

  /** As many entries as senders. */
  lemma {:induction false} EntriesAreSenders(table: Table, live: set<Sender>)
    requires Filed(table, live)
    ensures Entries(table) == |live|
    decreases |table|
  {
    if table == map[] {
      assert Sizes(table) == map[];
      EmptyFiled(live);
    } else {
      var t :| t in table;
      DropRowFiled(table, live, t);
      RowSize(table, live, t);
      EntriesWithout(table, t);
      assert (table - {t}).Keys == table.Keys - {t};
      EntriesAreSenders(table - {t}, live - table[t].Values);
    }
  }

  lemma RowSize(table: Table, live: set<Sender>, t: Track)
    requires Filed(table, live) && t in table
    ensures |table[t].Values| == |table[t]|
  {
    DropRowFiled(table, live, t);
    DistinctValues(table[t]);
  }

  /** A row whose senders bear the names of their columns. */
  ghost predicate Row(row: map<PeerId, Sender>) { forall p :: p in row ==> row[p].peer == p }

  lemma RowWithout(row: map<PeerId, Sender>, p: PeerId)
    requires Row(row) && p in row
    ensures (row - {p}).Values == row.Values - {row[p]}
  {
    forall s | s in row.Values && s != row[p] ensures s in (row - {p}).Values {
      var q :| q in row && row[q] == s;
      assert q in row - {p} && (row - {p})[q] == s;
    }
  }

  lemma {:induction false} DistinctValues(row: map<PeerId, Sender>)
    requires Row(row)
    ensures |row.Values| == |row|
    decreases |row|
  {
    if row != map[] {
      var p :| p in row;
      assert (row - {p}).Keys == row.Keys - {p};
      RowWithout(row, p);
      DistinctValues(row - {p});
    }
  }

  lemma StopOneMore(live: set<Sender>, row: set<Sender>, todo: map<PeerId, Sender>, p: PeerId)
    requires row <= live && todo.Values <= row && Row(todo) && p in todo
    ensures Row(todo - {p}) && (todo - {p}).Values <= row && todo[p] in live - row + todo.Values
    ensures live - row + todo.Values - {todo[p]} == live - row + (todo - {p}).Values
  {
    RowWithout(todo, p);
  }

  class Router {
    var receivers: map<Track, Receiver>
    var senders: Table
    var kinds: map<Track, string>
    var reading: set<Receiver>          // receivers started and not stopped
    var running: set<Sender>            // senders started and not stopped
    var tracksGauge: int
    var subscriptionsGauge: int

    constructor ()
      ensures Valid() && receivers == map[] && senders == map[] && reading == {}
      ensures tracksGauge == 0 && subscriptionsGauge == 0
    {
      receivers, senders, kinds, reading, running := map[], map[], map[], {}, {};
      tracksGauge, subscriptionsGauge := 0, 0;
    }

    /** A sender runs exactly as long as it is in the table, and the gauge counts the table. */
    ghost predicate Valid() reads this {
      && senders.Keys == receivers.Keys
      && (forall t :: t in receivers ==> receivers[t].track == t && receivers[t] in reading)
      && Filed(senders, running) && subscriptionsGauge == |running|
    }

    /** The part of AddReceiver before its callback. A receiver that is replaced goes on reading. */
    method AddReceiver(receiver: Receiver)
      requires Valid()
      modifies this
      ensures Valid() && running == old(running) && reading == old(reading) + {receiver}
      ensures receivers == old(receivers)[receiver.track := receiver]
      ensures senders == if receiver.track in old(senders) then old(senders) else old(senders)[receiver.track := map[]]
      ensures RowsOf(senders) == WithRow(RowsOf(old(senders)), receiver.track)
      ensures kinds == old(kinds)[receiver.track := receiver.kind] && tracksGauge == old(tracksGauge) + 1
    {
      var t := receiver.track;
      receivers := receivers[t := receiver];
      kinds := kinds[t := receiver.kind];
      RowsNew(senders, t);
      if t !in senders {
        NewRowFiled(senders, running, t);
        senders := senders[t := map[]];
      }
      tracksGauge := tracksGauge + 1;
      reading := reading + {receiver};
    }

    /** fails: no sender can be made. */
    method Subscribe(t: Track, p: PeerId, fails: bool) returns (s: Sender?, err: bool)
      requires Valid()
      modifies this`senders, this`running, this`subscriptionsGauge
      ensures Valid()
      ensures err <==> t in receivers && p !in old(senders)[t] && fails
      ensures s == null <==> t !in receivers || err
      ensures s == null ==> senders == old(senders) && running == old(running)
      ensures s != null ==> running == old(running) + {s} && senders == old(senders)[t := old(senders)[t][p := s]]
      ensures s != null && p in old(senders)[t] ==> s == old(senders)[t][p]
      ensures s != null && p !in old(senders)[t] ==> fresh(s)
      ensures s != null ==> RowsOf(senders) == With(RowsOf(old(senders)), t, p)
    {
      if t !in receivers {
        return null, false;
      }
      if t in senders && p in senders[t] {
        assert senders[t][p := senders[t][p]] == senders[t];
        assert senders[t := senders[t]] == senders;
        RowsWith(senders, t, p, senders[t][p]);
        assert EntryFiled(senders, running, t, p);
        return senders[t][p], false;
      }
      if fails {
        return null, true;
      }
      var sender := new Sender(t, p);
      PutFiled(senders, running, t, p, sender);
      RowsWith(senders, t, p, sender);
      senders := senders[t := senders[t][p := sender]];
      running := running + {sender};
      subscriptionsGauge := subscriptionsGauge + 1;
      return sender, false;
    }

    method Unsubscribe(t: Track, p: PeerId)
      requires Valid()
      modifies this`senders, this`running, this`subscriptionsGauge
      ensures Valid()
      ensures senders == if t in old(senders) then old(senders)[t := Without(old(senders)[t], p)] else old(senders)
      ensures RowsOf(senders) == WithoutOne(RowsOf(old(senders)), t, p)
    {
      if t !in senders {
        return;
      }
      RowsWithout(senders, t, p);
      if p !in senders[t] {
        assert Without(senders[t], p) == senders[t];
        return;
      }
      DropFiled(senders, running, t, p);
      StopSender(senders[t][p]);
      senders := senders[t := Without(senders[t], p)];
    }

    method UnsubscribeAll(p: PeerId)
      requires Valid()
      modifies this`senders, this`running, this`subscriptionsGauge
      ensures Valid()
      ensures senders == map t | t in old(senders) :: Without(old(senders)[t], p)
      ensures RowsOf(senders) == WithoutAny(RowsOf(old(senders)), p)
    {
      RowsWithoutAny(senders, p);
      assert senders == Partly(senders, senders.Keys, p);
      var todo := senders.Keys;
      while todo != {}
        invariant Valid() && todo <= senders.Keys
        invariant senders == Partly(old(senders), todo, p)
        decreases todo
      {
        var t :| t in todo;
        PartlyMore(old(senders), todo, t, p);
        Unsubscribe(t, p);
        todo := todo - {t};
      }
    }

    /** Stops one sender and counts it out. */
    method StopSender(s: Sender)
      requires s in running && subscriptionsGauge == |running|
      modifies this`subscriptionsGauge, this`running
      ensures running == old(running) - {s} && subscriptionsGauge == |running|
    {
      running := running - {s};
      subscriptionsGauge := subscriptionsGauge - 1;
    }

    /** Stops the senders of one row and counts them out; the row itself stays. */
    method StopRow(row: map<PeerId, Sender>)
      requires Row(row) && row.Values <= running && subscriptionsGauge == |running|
      modifies this`subscriptionsGauge, this`running
      ensures running == old(running) - row.Values && subscriptionsGauge == |running|
    {
      var todo := row;
      while todo != map[]
        invariant Row(todo) && todo.Values <= row.Values && running == old(running) - row.Values + todo.Values
        invariant subscriptionsGauge == |running|
        decreases todo.Keys
      {
        var p :| p in todo;
        StopOneMore(old(running), row.Values, todo, p);
        StopSender(todo[p]);
        todo := todo - {p};
      }
    }

    /** Stops the senders of a track and takes its row out of the table. */
    method DropRow(t: Track)
      requires t in senders && Filed(senders, running) && subscriptionsGauge == |running|
      modifies this`senders, this`running, this`subscriptionsGauge
      ensures senders == old(senders) - {t} && Filed(senders, running) && subscriptionsGauge == |running|
    {
      DropRowFiled(senders, running, t);
      StopRow(senders[t]);
      senders := senders - {t};
    }

    /** The part of RemoveReceiver before its callback. */
    method RemoveReceiver(t: Track)
      requires Valid()
      modifies this
      ensures Valid()
      ensures receivers == old(receivers) - {t} && senders == old(senders) - {t}
      ensures RowsOf(senders) == RowsOf(old(senders)) - {t}
      ensures t in old(receivers) ==> reading == old(reading) - {old(receivers)[t]} && kinds == old(kinds) - {t}
      ensures tracksGauge == old(tracksGauge) - if t in old(receivers) then 1 else 0
    {
      RowsDrop(senders, t);
      if t !in receivers {
        assert receivers - {t} == receivers && senders - {t} == senders;
        return;
      }
      DropRow(t);
      reading := reading - {receivers[t]};
      receivers, kinds := receivers - {t}, kinds - {t};
      tracksGauge := tracksGauge - 1;
    }

    /** Stops everything. Neither the kinds nor the gauge of tracks is touched. */
    method Close()
      requires Valid()
      modifies this
      ensures Valid() && receivers == map[] && senders == map[] && running == {} && subscriptionsGauge == 0
      ensures reading == old(reading) - old(receivers).Values
      ensures kinds == old(kinds) && tracksGauge == old(tracksGauge)
    {
      var rest := senders;
      while rest != map[]
        invariant Filed(rest, running) && subscriptionsGauge == |running|
        invariant receivers == old(receivers) && reading == old(reading)
        invariant kinds == old(kinds) && tracksGauge == old(tracksGauge)
        decreases rest.Keys
      {
        var t :| t in rest;
        DropRowFiled(rest, running, t);
        StopRow(rest[t]);
        rest := rest - {t};
      }
      EmptyFiled(running);
      reading := reading - receivers.Values;
      senders, receivers := map[], map[];
      assert Filed(senders, running);
    }

    /** The sum of the rows, as the statistics report it. */
    method SenderCount() returns (n: nat)
      requires Valid()
      ensures n == Entries(senders) == subscriptionsGauge
    {
      EntriesAreSenders(senders, running);
      n := 0;
      var todo := senders;
      while todo != map[]
        invariant n + Entries(todo) == Entries(senders)
        decreases todo.Keys
      {
        var t :| t in todo;
        EntriesWithout(todo, t);
        n := n + |todo[t]|;
        todo := todo - {t};
      }
      assert Sizes(todo) == map[];
    }
  }
}
