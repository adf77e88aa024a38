/**
 * The hot path in place: packets with reused byte arrays, the bounded queue of a sender, the forward loop and one turn
 * of the read loop. Every method runs alone here; the module FanOut has the interleavings.
 */
module HotPath {
  import opened Packets

  /** What copy leaves of a payload. */
  function Fitting(payload: Bytes): Bytes { if |payload| <= MaxSize then payload else payload[..MaxSize] }

  /** senderPacket. */
  class Packet {
    const data: array<bv8>
    var n: nat

    constructor ()
      ensures fresh(data) && Sized() && n == 0
    {
      data := new bv8[MaxSize];
      n := 0;
    }

    ghost predicate Sized() reads this { data.Length == MaxSize && n <= MaxSize }

    ghost function Payload(): Bytes
      requires Sized()
      reads this, data
    {
      data[..n]
    }

    /** Overwrites the packet with the first bytes of a buffer, as many as fit. */
    method Fill(buf: array<bv8>, count: nat)
      requires Sized() && count <= buf.Length && buf != data
      modifies this`n, data
      ensures Sized() && Payload() == Fitting(buf[..count])
    {
      n := if count <= MaxSize then count else MaxSize;
      forall i | 0 <= i < n { data[i] := buf[i]; }
    }
  }

  /** No packet twice, and no array shared. */
  ghost predicate Separate(ps: seq<Packet>) {
    forall i, j :: 0 <= i < j < |ps| ==> ps[i] != ps[j] && ps[i].data != ps[j].data
  }

  lemma TakenOut(ps: seq<Packet>, i: nat)
    requires Separate(ps) && i < |ps|
    ensures var rest := ps[..i] + ps[i + 1..];
            && Separate(rest) && multiset(rest) + multiset{ps[i]} == multiset(ps)
            && forall j :: 0 <= j < |rest| ==> rest[j] in ps && rest[j] != ps[i] && rest[j].data != ps[i].data
  {
    assert ps == ps[..i] + [ps[i]] + ps[i + 1..];
  }

  /** senderPacketPool: a get takes any free packet, or makes a new one. */
  class PacketPool {
    var free: seq<Packet>
    ghost var Repr: set<object>

    constructor ()
      ensures Valid() && free == [] && Repr == {this}
    {
      free, Repr := [], {this};
    }

    ghost predicate Valid()
      reads this, Repr
    {
      && this in Repr && Separate(free)
      && forall i :: 0 <= i < |free| ==> free[i] in Repr && free[i].data in Repr && free[i].Sized()
    }

    method Get() returns (p: Packet)
      requires Valid()
      modifies this
      ensures Valid() && p.Sized() && p !in Repr && p.data !in Repr && Repr <= old(Repr)
      ensures (fresh(p) && fresh(p.data) && free == old(free)) ||
              (p in old(Repr) && p.data in old(Repr) && multiset(free) + multiset{p} == multiset(old(free)))
    {
      var reuse: bool := *;
      if reuse && free != [] {
        var i :| 0 <= i < |free|;
        p := free[i];
        TakenOut(free, i);
        free, Repr := free[..i] + free[i + 1..], Repr - {p, p.data};
      } else {
        p := new Packet();
      }
    }

    method Put(p: Packet)
      requires Valid() && p.Sized() && p !in Repr && p.data !in Repr
      modifies this
      ensures Valid() && free == old(free) + [p] && Repr == old(Repr) + {p, p.data}
    {
      free, Repr := free + [p], Repr + {p, p.data};
    }
  }

  /** Nothing is lost, and at most one new object has come in. */
  ghost predicate Conserved<T>(before: seq<T>, after: seq<T>) {
    multiset(after) == multiset(before) || (|after| == |before| + 1 && multiset(before) <= multiset(after))
  }

  /** A packet taken from the pool or made, and then put into the pool or the queue. */
  lemma Conserves<T>(free: seq<T>, ch: seq<T>, left: seq<T>, x: T, free': seq<T>, ch': seq<T>)
    requires left == free || multiset(left) + multiset{x} == multiset(free)
    requires multiset(free') + multiset(ch') == multiset(left) + multiset(ch) + multiset{x}
    ensures Conserved(free + ch, free' + ch')
  {
    assert |multiset(free' + ch')| == |free' + ch'| && |multiset(free + ch)| == |free + ch|;
    assert |multiset(free') + multiset(ch')| == |multiset(left) + multiset(ch) + multiset{x}|;
  }

  /** The outcome of one offer to a queue. */
  function Offered(queued: seq<Bytes>, cap: nat, payload: Bytes): seq<Bytes> {
    if |queued| < cap then queued + [Fitting(payload)] else queued
  }

  function Refused(queued: seq<Bytes>, cap: nat): nat { if |queued| < cap then 0 else 1 }

  /** Of the queued payloads the first sent are written, and the rest is queued, failed at its first, or drained. */
  predicate Progress(
    queued: seq<Bytes>, written: seq<Bytes>, sent: int, outcome: Outcome, queued': seq<Bytes>, written': seq<Bytes>)
  {
    && 0 <= sent <= |queued| && written' == written + queued[..sent]
    && match outcome
       case Running => queued' == queued[sent..]
       case Failed => sent < |queued| && queued' == queued[sent + 1..]
       case Drained => queued' == []
  }

  lemma ProgressOn(
    all: seq<Bytes>, before: seq<Bytes>, sent: int, q: seq<Bytes>, w: seq<Bytes>,
    outcome: Outcome, q': seq<Bytes>, w': seq<Bytes>)
    requires Progress(all, before, sent, Running, q, w)
    requires q' == if outcome.Drained? || q == [] then [] else q[1..]
    requires outcome.Failed? ==> q != []
    requires w' == if outcome.Running? && q != [] then w + [q[0]] else w
    ensures Progress(all, before, if outcome.Running? && q != [] then sent + 1 else sent, outcome, q', w')
  {
    if q != [] { assert all[..sent] + [all[sent]] == all[..sent + 1]; }
  }

  /** The choices of one turn of writeLoop: which ready case select picks, and whether the write fails. */
  datatype Turn = Turn(pickDone: bool, fails: bool)

  /** How a turn ends: the loop goes on, a write failed, or the queue is drained after a cancellation. */
  datatype Outcome = Running | Failed | Drained

  class Sender {
    const pool: PacketPool
    const cap: nat
    var ch: seq<Packet>
    var cancelled: bool
    var packetsSent: nat
    var bytesSent: nat
    var packetsDropped: nat
    var written: seq<Bytes>           // what the outgoing track was given
    ghost var queued: seq<Bytes>      // the payloads in ch
    ghost var Repr: set<object>

    constructor (pool: PacketPool, cap: nat)
      requires cap > 0
      ensures this.pool == pool && this.cap == cap && Valid() && queued == [] && !cancelled && Repr == {this}
      ensures packetsSent == 0 && bytesSent == 0 && packetsDropped == 0 && written == []
    {
      this.pool := pool;
      this.cap := cap;
      ch, cancelled, queued, written := [], false, [], [];
      packetsSent, bytesSent, packetsDropped := 0, 0, 0;
      Repr := {this};
    }

    /** The queue holds these payloads, in packets of its own. */
    ghost predicate Valid()
      reads this, Repr
    {
      && this in Repr && pool !in Repr && Separate(ch) && |ch| == |queued| <= cap
      && (forall i :: 0 <= i < |ch| ==> ch[i] in Repr && ch[i].data in Repr)
      && (forall i :: 0 <= i < |ch| ==> ch[i].Sized() && ch[i].Payload() == queued[i])
    }

    method WriteRTP(buf: array<bv8>, n: nat)
      requires Valid() && pool.Valid() && pool.Repr !! Repr && n <= buf.Length && buf !in pool.Repr
      modifies this`ch, this`packetsDropped, this`queued, this`Repr, pool.Repr
      ensures Valid() && pool.Valid() && pool.Repr !! Repr
      ensures queued == Offered(old(queued), cap, buf[..n])
      ensures packetsDropped == old(packetsDropped) + Refused(old(queued), cap)
      ensures fresh(pool.Repr - old(pool.Repr)) && fresh(Repr - old(Repr) - old(pool.Repr))
      ensures Conserved(old(pool.free) + old(ch), pool.free + ch)
    {
      ghost var free := pool.free;
      var pkt := pool.Get();
      pkt.Fill(buf, n);
      ghost var left := pool.free;
      Enqueue(pkt);
      assert Conserved(free + old(ch), pool.free + ch) by {
        Conserves(free, old(ch), left, pkt, pool.free, ch);
      }
    }

    /** The select of WriteRTP: into the queue if there is room, otherwise back into the pool. */
    method Enqueue(pkt: Packet)
      requires Valid() && pool.Valid() && pool.Repr !! Repr && pkt.Sized()
      requires pkt !in pool.Repr + Repr && pkt.data !in pool.Repr + Repr
      modifies this`ch, this`packetsDropped, this`queued, this`Repr, pool
      ensures Valid() && pool.Valid() && pool.Repr !! Repr
      ensures queued == if |old(queued)| < cap then old(queued) + [pkt.Payload()] else old(queued)
      ensures packetsDropped == old(packetsDropped) + Refused(old(queued), cap)
      ensures multiset(pool.free) + multiset(ch) == multiset(old(pool.free)) + multiset(old(ch)) + multiset{pkt}
      ensures pool.Repr <= old(pool.Repr) + {pkt, pkt.data} && Repr <= old(Repr) + {pkt, pkt.data}
    {
      if |ch| < cap {
        ch, queued, Repr := ch + [pkt], queued + [pkt.Payload()], Repr + {pkt, pkt.data};
      } else {
        packetsDropped := packetsDropped + 1;
        pool.Put(pkt);
      }
    }

    method Stop()
      modifies this`cancelled
      ensures cancelled
    {
      cancelled := true;
    }

    /** Takes the first packet out of the queue. */
    method Receive() returns (pkt: Packet)
      requires Valid() && pool.Valid() && pool.Repr !! Repr && ch != []
      modifies this`ch, this`queued, this`Repr
      ensures Valid() && pool.Repr !! Repr && pkt.Sized() && pkt.Payload() == old(queued)[0]
      ensures pkt !in pool.Repr + Repr && pkt.data !in pool.Repr + Repr
      ensures old(ch) == [pkt] + ch && multiset(old(ch)) == multiset{pkt} + multiset(ch)
      ensures queued == old(queued)[1..] && Repr <= old(Repr)
    {
      pkt := ch[0];
      ch, queued, Repr := ch[1..], queued[1..], Repr - {pkt, pkt.data};
    }

    /** One turn of writeLoop: drain when cancelled and the select says so, else write one packet, else wait. */
    method WriteTurn(pickDone: bool, fails: bool) returns (outcome: Outcome)
      requires Valid() && pool.Valid() && pool.Repr !! Repr
      modifies this`ch, this`queued, this`Repr, this`written, this`packetsSent, this`bytesSent, pool
      ensures Valid() && pool.Valid() && pool.Repr !! Repr
      ensures multiset(pool.free) + multiset(ch) == multiset(old(pool.free)) + multiset(old(ch))
      ensures outcome ==
                if cancelled && (pickDone || old(queued) == []) then Drained
                else if old(queued) != [] && fails then Failed else Running
      ensures queued == if outcome.Drained? || old(queued) == [] then [] else old(queued)[1..]
      ensures if outcome.Running? && old(queued) != []
              then
                && written == old(written) + [old(queued)[0]]
                && packetsSent == old(packetsSent) + 1 && bytesSent == old(bytesSent) + |old(queued)[0]|
              else written == old(written) && packetsSent == old(packetsSent) && bytesSent == old(bytesSent)
    {
      if cancelled && (pickDone || ch == []) {
        DrainChannel();
        return Drained;
      }
      if ch != [] {
        WriteOne(fails);
        return if fails then Failed else Running;
      }
      return Running;
    }

    method WriteOne(fails: bool)
      requires Valid() && pool.Valid() && pool.Repr !! Repr && ch != []
      modifies this`ch, this`queued, this`Repr, this`written, this`packetsSent, this`bytesSent, pool
      ensures Valid() && pool.Valid() && pool.Repr !! Repr && queued == old(queued)[1..]
      ensures multiset(pool.free) + multiset(ch) == multiset(old(pool.free)) + multiset(old(ch))
      ensures if fails
              then written == old(written) && packetsSent == old(packetsSent) && bytesSent == old(bytesSent)
              else
                && written == old(written) + [old(queued)[0]]
                && packetsSent == old(packetsSent) + 1 && bytesSent == old(bytesSent) + |old(queued)[0]|
    {
      var pkt := Receive();
      assert pkt.data[..pkt.n] == old(queued)[0];
      if !fails {
        written := written + [pkt.data[..pkt.n]];
        packetsSent := packetsSent + 1;
        bytesSent := bytesSent + pkt.n;
      }
      pool.Put(pkt);
    }

    /** writeLoop for as many turns as the script has: what is written is a prefix of what was queued, in order. */
    method WriteLoop(turns: seq<Turn>) returns (outcome: Outcome)
      requires Valid() && pool.Valid() && pool.Repr !! Repr
      modifies this`ch, this`queued, this`Repr, this`written, this`packetsSent, this`bytesSent, pool
      ensures Valid() && pool.Valid() && pool.Repr !! Repr
      ensures multiset(pool.free) + multiset(ch) == multiset(old(pool.free)) + multiset(old(ch))
      ensures Progress(old(queued), old(written), packetsSent - old(packetsSent), outcome, queued, written)
    {
      outcome := Running;
      var i := 0;
      while outcome.Running? && i < |turns|
        invariant Valid() && pool.Valid() && pool.Repr !! Repr
        invariant multiset(pool.free) + multiset(ch) == multiset(old(pool.free)) + multiset(old(ch))
        invariant Progress(old(queued), old(written), packetsSent - old(packetsSent), outcome, queued, written)
      {
        outcome := TurnOn(turns[i], old(queued), old(written), old(packetsSent));
        i := i + 1;
      }
    }

    /** One turn of that loop, on a queue and a sender that have come so far from where they began. */
    method TurnOn(turn: Turn, ghost all: seq<Bytes>, ghost before: seq<Bytes>, ghost start: nat)
      returns (outcome: Outcome)
      requires Valid() && pool.Valid() && pool.Repr !! Repr
      requires Progress(all, before, packetsSent - start, Running, queued, written)
      modifies this`ch, this`queued, this`Repr, this`written, this`packetsSent, this`bytesSent, pool
      ensures Valid() && pool.Valid() && pool.Repr !! Repr
      ensures multiset(pool.free) + multiset(ch) == multiset(old(pool.free)) + multiset(old(ch))
      ensures Progress(all, before, packetsSent - start, outcome, queued, written)
    {
      ghost var q, w, sent := queued, written, packetsSent - start;
      outcome := WriteTurn(turn.pickDone, turn.fails);
      ProgressOn(all, before, sent, q, w, outcome, queued, written);
    }

    /** Puts all queued packets back, in order. */
    method DrainChannel()
      requires Valid() && pool.Valid() && pool.Repr !! Repr
      modifies this`ch, this`queued, this`Repr, pool
      ensures Valid() && pool.Valid() && pool.Repr !! Repr && ch == []
      ensures pool.free == old(pool.free) + old(ch)
    {
      while ch != []
        invariant Valid() && pool.Valid() && pool.Repr !! Repr
        invariant pool.free + ch == old(pool.free) + old(ch)
        decreases |ch|
      {
        var pkt := Receive();
        assert pool.free + [pkt] + ch == pool.free + ([pkt] + ch);
        pool.Put(pkt);
      }
    }
  }

  /** One pool and the senders of one track, nothing shared between them. */
  ghost predicate Disjoint(pool: PacketPool, senders: seq<Sender>)
    reads pool, pool.Repr, (set s | s in senders), (set s, o | s in senders && o in s.Repr :: o)
  {
    && pool.Valid()
    && (forall s :: s in senders ==> s.pool == pool && s.Valid() && s.Repr !! pool.Repr)
    && (forall i, j :: 0 <= i < j < |senders| ==> senders[i].Repr !! senders[j].Repr)
  }

  /** The object belongs to neither the pool nor a sender. */
  ghost predicate Outside(o: object, pool: PacketPool, senders: seq<Sender>)
    reads pool, set s | s in senders
  {
    o !in pool.Repr && forall s :: s in senders ==> o !in s.Repr
  }

  twostate predicate Same(s: Sender) reads s {
    && s.Repr == old(s.Repr) && s.queued == old(s.queued)
    && s.packetsDropped == old(s.packetsDropped) && s.written == old(s.written)
  }

  /** The queue took the payload or refused it, in a packet from the pool or a new one. */
  twostate predicate GotOffer(pool: PacketPool, s: Sender, payload: Bytes) reads s, pool {
    && fresh(s.Repr - old(s.Repr) - old(pool.Repr))
    && s.queued == Offered(old(s.queued), s.cap, payload)
    && s.packetsDropped == old(s.packetsDropped) + Refused(old(s.queued), s.cap)
    && s.written == old(s.written)
  }

  /** Router.forward for the senders of one track. */
  class Router {
    var packetsForwarded: nat
    var bytesForwarded: nat

    /** One turn of the forward loop touches one queue and the pool. */
    method OfferOne(pool: PacketPool, senders: seq<Sender>, s: Sender, buf: array<bv8>, n: nat)
      requires Disjoint(pool, senders) && s in senders
      requires n <= buf.Length && buf !in pool.Repr
      modifies s`ch, s`packetsDropped, s`queued, s`Repr, pool.Repr
      ensures Disjoint(pool, senders) && buf[..n] == old(buf[..n]) && buf !in pool.Repr
      ensures s.queued == Offered(old(s.queued), s.cap, buf[..n])
      ensures s.packetsDropped == old(s.packetsDropped) + Refused(old(s.queued), s.cap)
      ensures fresh(pool.Repr - old(pool.Repr)) && fresh(s.Repr - old(s.Repr) - old(pool.Repr))
    {
      s.WriteRTP(buf, n);
    }

    method OfferAll(pool: PacketPool, senders: seq<Sender>, buf: array<bv8>, n: nat)
      requires Disjoint(pool, senders) && n <= buf.Length && buf !in pool.Repr
      modifies (set s | s in senders), pool.Repr
      ensures Disjoint(pool, senders) && buf[..n] == old(buf[..n]) && buf !in pool.Repr
      ensures forall s :: s in senders ==> GotOffer(pool, s, buf[..n])
      ensures fresh(pool.Repr - old(pool.Repr))
    {
      ghost var payload := buf[..n];
      for i := 0 to |senders|
        invariant Disjoint(pool, senders) && buf[..n] == payload && buf !in pool.Repr
        invariant forall j :: 0 <= j < i ==> GotOffer(pool, senders[j], payload)
        invariant forall j :: i <= j < |senders| ==> Same(senders[j])
        invariant fresh(pool.Repr - old(pool.Repr))
      {
        var s := senders[i];
        assert forall j :: 0 <= j < |senders| && j != i ==> senders[j] != s;
        OfferOne(pool, senders, s, buf, n);
        assert GotOffer(pool, s, payload);
      }
    }

    method Forward(pool: PacketPool, senders: seq<Sender>, buf: array<bv8>, n: nat)
      requires Disjoint(pool, senders) && n <= buf.Length && buf !in pool.Repr && Outside(this, pool, senders)
      modifies this, (set s | s in senders), pool.Repr
      ensures Disjoint(pool, senders) && buf[..n] == old(buf[..n]) && buf !in pool.Repr && Outside(this, pool, senders)
      ensures forall s :: s in senders ==> GotOffer(pool, s, buf[..n])
      ensures packetsForwarded == old(packetsForwarded) + |senders|
      ensures bytesForwarded == old(bytesForwarded) + n * |senders|
      ensures fresh(pool.Repr - old(pool.Repr))
    {
      OfferAll(pool, senders, buf, n);
      packetsForwarded := packetsForwarded + |senders|;
      bytesForwarded := bytesForwarded + n * |senders|;
    }
  }

  /** rtpBufferPool. */
  class BufferPool {
    var free: seq<array<bv8>>

    ghost predicate Valid() reads this {
      && (forall i :: 0 <= i < |free| ==> free[i].Length == MaxSize)
      && (forall i, j :: 0 <= i < j < |free| ==> free[i] != free[j])
    }

    method Get() returns (buf: array<bv8>)
      requires Valid()
      modifies this
      ensures Valid() && buf.Length == MaxSize && buf !in free
      ensures (fresh(buf) && free == old(free)) || multiset(free) + multiset{buf} == multiset(old(free))
      ensures forall b :: b in free ==> b in old(free)
      ensures fresh(buf) || buf in old(free)
    {
      var reuse: bool := *;
      if reuse && free != [] {
        var i :| 0 <= i < |free|;
        buf := free[i];
        assert free == free[..i] + [buf] + free[i + 1..];
        free := free[..i] + free[i + 1..];
      } else {
        buf := new bv8[MaxSize];
      }
    }

    method Put(buf: array<bv8>)
      requires Valid() && buf.Length == MaxSize && buf !in free
      modifies this
      ensures Valid() && free == old(free) + [buf]
    {
      free := free + [buf];
    }
  }

  class Receiver {
    var packetsReceived: nat
    var bytesReceived: nat

    /** What the track's read leaves in the buffer. */
    method Load(buf: array<bv8>, payload: Bytes)
      requires |payload| <= buf.Length
      modifies this, buf
      ensures buf[..|payload|] == payload
      ensures packetsReceived == old(packetsReceived) + 1 && bytesReceived == old(bytesReceived) + |payload|
    {
      forall i | 0 <= i < |payload| { buf[i] := payload[i]; }
      packetsReceived := packetsReceived + 1;
      bytesReceived := bytesReceived + |payload|;
    }

    /** One turn of readLoop: its context is checked, then its read from the track yields a payload, or fails. */
    method ReadTurn(
      buffers: BufferPool, router: Router, pool: PacketPool, senders: seq<Sender>,
      cancelled: bool, payload: Bytes, fails: bool)
      returns (running: bool)
      requires buffers.Valid() && Disjoint(pool, senders) && |payload| <= MaxSize
      requires Outside(this, pool, senders) && Outside(router, pool, senders) && Outside(buffers, pool, senders)
      requires forall b :: b in buffers.free ==> Outside(b, pool, senders)
      modifies this, buffers, (set b | b in buffers.free), router, (set s | s in senders), pool.Repr
      ensures buffers.Valid() && Disjoint(pool, senders)
      ensures forall b :: b in buffers.free ==> Outside(b, pool, senders)
      ensures Conserved(old(buffers.free), buffers.free) && (cancelled ==> buffers.free == old(buffers.free))
      ensures running <==> !cancelled && !fails
      ensures forall s :: s in senders ==> if running then GotOffer(pool, s, payload) else Same(s)
      ensures packetsReceived == old(packetsReceived) + if running then 1 else 0
      ensures bytesReceived == old(bytesReceived) + if running then |payload| else 0
      ensures router.packetsForwarded == old(router.packetsForwarded) + if running then |senders| else 0
    {
      if cancelled {
        return false;
      }
      var buf := buffers.Get();
      if !fails {
        Deliver(router, pool, senders, buf, payload);
      }
      buffers.Put(buf);
      return !fails;
    }

    /** A payload that was read is counted and handed to the router. */
    method Deliver(router: Router, pool: PacketPool, senders: seq<Sender>, buf: array<bv8>, payload: Bytes)
      requires Disjoint(pool, senders) && |payload| <= buf.Length
      requires Outside(this, pool, senders) && Outside(router, pool, senders) && Outside(buf, pool, senders)
      modifies this, buf, router, (set s | s in senders), pool.Repr
      ensures Disjoint(pool, senders) && fresh(pool.Repr - old(pool.Repr))
      ensures forall s :: s in senders ==> GotOffer(pool, s, payload)
      ensures packetsReceived == old(packetsReceived) + 1 && bytesReceived == old(bytesReceived) + |payload|
      ensures router.packetsForwarded == old(router.packetsForwarded) + |senders|
    {
      Load(buf, payload);
      router.Forward(pool, senders, buf, |payload|);
    }
  }
}
