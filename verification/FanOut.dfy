/**
 * Packet fan-out with recycled buffers: Receiver.readLoop, Router.forward, Sender.WriteRTP, Sender.writeLoop and
 * Sender.drainChannel, run by any number of goroutines over two shared pools.
 *
 * Buffers and packets are cells of a heap, overwritten in place; getting one from a pool yields any free cell or a new
 * one. One track has one reader; a sender belongs to one track.
 */
module FanOut {
  import opened Options
  import Machines
  import opened Packets
  import opened Broadcast

  type Bid = nat
  type Pid = nat

  /** senderPacket. */
  datatype Cell = Cell(data: Bytes, n: nat)

  /** How far WriteRTP is with the packet for one lane. */
  datatype Work =
    | NoWork
    | Got(l: Lid, p: Pid)
    | Copied(l: Lid, p: Pid)
    | Rejected(p: Pid)         // the queue was full

  datatype Reader =
    | Idle                     // about to look at the context
    | Holding(b: Bid)          // about to read from the track
    | Read(b: Bid, n: nat)     // about to call onPacket
    | Sending(b: Bid, n: nat, due: set<Lid>, offered: nat, work: Work)
    | Returning(b: Bid)        // about to put the buffer back and go on
    | Leaving(b: Bid)          // a read failed: about to put the buffer back and stop
    | Stopped

  datatype Writer =
    | Waiting
    | Writing(p: Pid)          // about to write
    | Wrote(p: Pid)            // about to count and put the packet back
    | Failing(p: Pid)          // a write failed: about to put the packet back and stop
    | Draining
    | Discarding(p: Pid)
    | Gone(failed: bool)

  datatype Sender = Sender(
    cap: nat, queue: seq<Pid>, writer: Writer, cancelled: bool,
    out: seq<Bytes>,           // everything the subscriber's track was given
    sent: nat, dropped: nat)

  datatype Heap = Heap(bufs: map<Bid, Bytes>, freeBufs: set<Bid>, cells: map<Pid, Cell>, freeCells: set<Pid>)

  datatype Fan = Fan(
    heap: Heap, readers: map<Track, Reader>, senders: map<Lid, Sender>, table: map<Lid, Track>, forwarded: nat)

  /** Steps of readLoop, and of forward and WriteRTP, which it calls. */
  datatype ReaderAct =
    | GetBuffer(b: Bid)
    | ReadPacket(payload: Bytes)
    | ReadFails
    | Lookup                         // forward takes the router's lock for reading
    | GetPacket(l: Lid, p: Pid)
    | CopyIn
    | TryEnqueue
    | PutRejected
    | EndForward
    | PutBuffer
    | StopReader

  /** Steps of writeLoop and drainChannel. */
  datatype WriterAct =
    | TakeNext
    | WriteOk
    | WriteErr
    | PutTaken                       // the writer puts its packet back
    | StartDrain
    | TakeToDiscard
    | EndDrain

  datatype Act =
    | OpenReader(t: Track)
    | ByReader(t: Track, reading: ReaderAct)
    | ByWriter(l: Lid, writing: WriterAct)
    | AddSender(l: Lid, t: Track, cap: nat)
    | RemoveSender(l: Lid)
    | Cancel(l: Lid)
    | ForgetPacket(p: Pid)           // the pool lets go of a free packet
    | ForgetBuffer(b: Bid)

  function Start(): Fan { Fan(Heap(map[], {}, map[], {}), map[], map[], map[], 0) }

  function Blank(): Bytes { seq(MaxSize, _ => 0) }

  /** Get: a free cell, or a new one that is blank. */
  function GetCell(h: Heap, p: Pid): Option<Heap> {
    if p in h.freeCells then Some(h.(freeCells := h.freeCells - {p}))
    else if p !in h.cells then Some(h.(cells := h.cells[p := Cell(Blank(), 0)]))
    else None
  }

  function GetBuf(h: Heap, b: Bid): Option<Heap> {
    if b in h.freeBufs then Some(h.(freeBufs := h.freeBufs - {b}))
    else if b !in h.bufs then Some(h.(bufs := h.bufs[b := Blank()]))
    else None
  }

  /** Overwriting the head of a byte slice. */
  function Overwrite(was: Bytes, head: Bytes): Bytes
    requires |head| <= |was|
  {
    head + was[|head|..]
  }

  predicate Free(f: Fan) { forall t :: t in f.readers ==> !f.readers[t].Sending? }

  function SetReader(f: Fan, t: Track, r: Reader): Fan { f.(readers := f.readers[t := r]) }

  function SetSender(f: Fan, l: Lid, s: Sender): Fan { f.(senders := f.senders[l := s]) }

  function PutCell(f: Fan, p: Pid): Fan { f.(heap := f.heap.(freeCells := f.heap.freeCells + {p})) }

  function PutBuf(f: Fan, b: Bid): Fan { f.(heap := f.heap.(freeBufs := f.heap.freeBufs + {b})) }

  function ReaderStep(f: Fan, t: Track, r: Reader, act: ReaderAct): Option<Fan> {
    match act
    case GetBuffer(b) =>
      var h := GetBuf(f.heap, b);
      if r.Idle? && h.Some? then Some(SetReader(f, t, Holding(b)).(heap := h.value)) else None
    case ReadPacket(payload) =>
      if r.Holding? && r.b in f.heap.bufs && |payload| <= |f.heap.bufs[r.b]|
      then
        var h := f.heap.(bufs := f.heap.bufs[r.b := Overwrite(f.heap.bufs[r.b], payload)]);
        Some(SetReader(f, t, Read(r.b, |payload|)).(heap := h))
      else None
    case ReadFails => if r.Holding? then Some(SetReader(f, t, Leaving(r.b))) else None
    case Lookup =>
      if r.Read? then Some(SetReader(f, t, Sending(r.b, r.n, Subscribers(f.table, t), 0, NoWork))) else None
    case GetPacket(l, p) =>
      var h := GetCell(f.heap, p);
      if r.Sending? && r.work.NoWork? && l in r.due && h.Some?
      then Some(SetReader(f, t, r.(work := Got(l, p))).(heap := h.value)) else None
    case CopyIn =>
      if r.Sending? && r.work.Got? && r.b in f.heap.bufs && r.n <= |f.heap.bufs[r.b]|
         && r.work.p in f.heap.cells && r.n <= |f.heap.cells[r.work.p].data|
      then
        var cell := Cell(Overwrite(f.heap.cells[r.work.p].data, f.heap.bufs[r.b][..r.n]), r.n);
        var h := f.heap.(cells := f.heap.cells[r.work.p := cell]);
        Some(SetReader(f, t, r.(work := Copied(r.work.l, r.work.p))).(heap := h))
      else None
    case TryEnqueue =>
      if r.Sending? && r.work.Copied? && r.work.l in f.senders
      then
        var (l, p) := (r.work.l, r.work.p);
        var s := f.senders[l];
        var r' := r.(due := r.due - {l}, offered := r.offered + 1);
        if |s.queue| < s.cap
        then Some(SetSender(SetReader(f, t, r'.(work := NoWork)), l, s.(queue := s.queue + [p])))
        else Some(SetSender(SetReader(f, t, r'.(work := Rejected(p))), l, s.(dropped := s.dropped + 1)))
      else None
    case PutRejected =>
      if r.Sending? && r.work.Rejected?
      then Some(PutCell(SetReader(f, t, r.(work := NoWork)), r.work.p)) else None
    case EndForward =>
      if r.Sending? && r.work.NoWork? && r.due == {}
      then Some(SetReader(f, t, Returning(r.b)).(forwarded := f.forwarded + r.offered)) else None
    case PutBuffer =>
      if r.Returning? then Some(PutBuf(SetReader(f, t, Idle), r.b))
      else if r.Leaving? then Some(PutBuf(SetReader(f, t, Stopped), r.b))
      else None
    case StopReader => if r.Idle? then Some(SetReader(f, t, Stopped)) else None
  }

  function WriterStep(f: Fan, l: Lid, s: Sender, act: WriterAct): Option<Fan> {
    match act
    case TakeNext =>
      if s.writer.Waiting? && s.queue != []
      then Some(SetSender(f, l, s.(queue := s.queue[1..], writer := Writing(s.queue[0])))) else None
    case WriteOk =>
      if s.writer.Writing? && s.writer.p in f.heap.cells
         && f.heap.cells[s.writer.p].n <= |f.heap.cells[s.writer.p].data|
      then
        var cell := f.heap.cells[s.writer.p];
        Some(SetSender(f, l, s.(writer := Wrote(s.writer.p), out := s.out + [cell.data[..cell.n]])))
      else None
    case WriteErr =>
      if s.writer.Writing? then Some(SetSender(f, l, s.(writer := Failing(s.writer.p)))) else None
    case PutTaken =>
      if s.writer.Wrote? then Some(PutCell(SetSender(f, l, s.(writer := Waiting, sent := s.sent + 1)), s.writer.p))
      else if s.writer.Failing? then Some(PutCell(SetSender(f, l, s.(writer := Gone(true))), s.writer.p))
      else if s.writer.Discarding? then Some(PutCell(SetSender(f, l, s.(writer := Draining)), s.writer.p))
      else None
    case StartDrain =>
      if s.writer.Waiting? && s.cancelled then Some(SetSender(f, l, s.(writer := Draining))) else None
    case TakeToDiscard =>
      if s.writer.Draining? && s.queue != []
      then Some(SetSender(f, l, s.(queue := s.queue[1..], writer := Discarding(s.queue[0])))) else None
    case EndDrain =>
      if s.writer.Draining? && s.queue == [] then Some(SetSender(f, l, s.(writer := Gone(false)))) else None
  }

  function Do(f: Fan, act: Act): Option<Fan> {
    match act
    case OpenReader(t) => if t !in f.readers then Some(SetReader(f, t, Idle)) else None
    case ByReader(t, reading) => if t in f.readers then ReaderStep(f, t, f.readers[t], reading) else None
    case ByWriter(l, writing) => if l in f.senders then WriterStep(f, l, f.senders[l], writing) else None
    case Cancel(l) =>
      if l in f.senders then Some(SetSender(f, l, f.senders[l].(cancelled := true))) else None
    case AddSender(l, t, cap) =>
      if l !in f.senders && l !in f.table && t in f.readers && cap > 0 && Free(f)
      then Some(SetSender(f, l, Sender(cap, [], Waiting, false, [], 0, 0)).(table := f.table[l := t])) else None
    case RemoveSender(l) =>
      if l in f.table && l in f.senders && Free(f)
      then Some(SetSender(f, l, f.senders[l].(cancelled := true)).(table := f.table - {l})) else None
    case ForgetPacket(p) =>
      if p in f.heap.freeCells
      then Some(f.(heap := f.heap.(freeCells := f.heap.freeCells - {p}, cells := f.heap.cells - {p}))) else None
    case ForgetBuffer(b) =>
      if b in f.heap.freeBufs
      then Some(f.(heap := f.heap.(freeBufs := f.heap.freeBufs - {b}, bufs := f.heap.bufs - {b}))) else None
  }

  function Perform(f: Fan, acts: seq<Act>): Option<Fan> { Machines.Run(Do, f, acts) }

  // ---------------------------------------------------------------------------------------------------------------
  // Ownership: every packet and every buffer is in exactly one place.

  datatype Place = Pool | InQueue(l: Lid, i: nat) | InHand(l: Lid) | InWork(t: Track)

  predicate Claims(f: Fan, pl: Place, p: Pid) {
    match pl
    case Pool => p in f.heap.freeCells
    case InQueue(l, i) => l in f.senders && i < |f.senders[l].queue| && f.senders[l].queue[i] == p
    case InHand(l) => l in f.senders && HandOf(f.senders[l].writer) == Some(p)
    case InWork(t) => t in f.readers && Carried(f.readers[t]) == Some(p)
  }

  /** The packet in the writer's hand. */
  function HandOf(w: Writer): Option<Pid> {
    if w.Writing? || w.Wrote? || w.Failing? || w.Discarding? then Some(w.p) else None
  }

  /** The packet that WriteRTP works on. */
  function Carried(r: Reader): Option<Pid> {
    if r.Sending? && !r.work.NoWork? then Some(r.work.p) else None
  }

  ghost predicate OnePlace(f: Fan, p: Pid) {
    && (forall a, b :: Claims(f, a, p) && Claims(f, b, p) ==> a == b)
    && ((exists a :: Claims(f, a, p)) <==> p in f.heap.cells)
  }

  datatype Shelf = Spare | With(t: Track)

  predicate HasBuffer(f: Fan, pl: Shelf, b: Bid) {
    match pl
    case Spare => b in f.heap.freeBufs
    case With(t) => t in f.readers && BufferOf(f.readers[t]) == Some(b)
  }

  function BufferOf(r: Reader): Option<Bid> { if r.Idle? || r.Stopped? then None else Some(r.b) }

  ghost predicate OneShelf(f: Fan, b: Bid) {
    && (forall x, y :: HasBuffer(f, x, b) && HasBuffer(f, y, b) ==> x == y)
    && ((exists x :: HasBuffer(f, x, b)) <==> b in f.heap.bufs)
  }

  predicate Sized(f: Fan) {
    && (forall b :: b in f.heap.bufs ==> |f.heap.bufs[b]| == MaxSize)
    && (forall p :: p in f.heap.cells ==> |f.heap.cells[p].data| == MaxSize)
  }

  ghost predicate Owned(f: Fan) {
    && (forall p {:trigger OnePlace(f, p)} :: OnePlace(f, p))
    && (forall b {:trigger OneShelf(f, b)} :: OneShelf(f, b))
    && Sized(f)
  }

  /** The one packet that a step moves. */
  datatype Move = Nothing | Moved(p: Pid, to: Place) | Forgotten(p: Pid)

  function MoveOf(f: Fan, act: Act): Move
    requires Do(f, act).Some?
  {
    match act
    case ByReader(t, GetPacket(_, p)) => Moved(p, InWork(t))
    case ByReader(t, TryEnqueue) =>
      var w := f.readers[t].work;
      var s := f.senders[w.l];
      if |s.queue| < s.cap then Moved(w.p, InQueue(w.l, |s.queue|)) else Nothing
    case ByReader(t, PutRejected) => Moved(f.readers[t].work.p, Pool)
    case ByWriter(l, TakeNext) => Moved(f.senders[l].queue[0], InHand(l))
    case ByWriter(l, TakeToDiscard) => Moved(f.senders[l].queue[0], InHand(l))
    case ByWriter(l, PutTaken) => Moved(f.senders[l].writer.p, Pool)
    case ForgetPacket(p) => Forgotten(p)
    case _ => Nothing
  }

  /** A place in a queue whose head was taken, as it was numbered before. */
  function Before(act: Act, pl: Place): Place {
    if act.ByWriter? && (act.writing.TakeNext? || act.writing.TakeToDiscard?) && pl.InQueue? && pl.l == act.l
    then InQueue(pl.l, pl.i + 1) else pl
  }

  function After(act: Act, pl: Place): Place {
    if act.ByWriter? && (act.writing.TakeNext? || act.writing.TakeToDiscard?) && pl.InQueue? && pl.l == act.l
      && pl.i > 0
    then InQueue(pl.l, pl.i - 1) else pl
  }

  /** Every step moves at most one packet, and all others stay where they are. */
  ghost predicate MovesOne(f: Fan, f': Fan, act: Act, pl: Place, p: Pid)
    requires Do(f, act) == Some(f')
  {
    Claims(f', pl, p) <==>
      match MoveOf(f, act)
      case Nothing => Claims(f, pl, p)
      case Moved(q, to) => if p == q then pl == to else Claims(f, Before(act, pl), p)
      case Forgotten(q) => p != q && Claims(f, pl, p)
  }

  /** Where the moved packet comes from. */
  function From(act: Act): Place {
    match act
    case ByReader(t, GetPacket(_, _)) => Pool
    case ByReader(t, _) => InWork(t)
    case ByWriter(l, PutTaken) => InHand(l)
    case ByWriter(l, _) => InQueue(l, 0)
    case _ => Pool
  }

  /** A moved packet was at its origin and nowhere else, unless Get makes it. */
  lemma WasThere(f: Fan, f': Fan, act: Act, p: Pid, pl: Place)
    requires Owned(f) && Do(f, act) == Some(f') && !MoveOf(f, act).Nothing? && MoveOf(f, act).p == p
    ensures p in f.heap.cells <==> Claims(f, From(act), p)
    ensures Claims(f, pl, p) ==> pl == From(act)
  {
    assert OnePlace(f, p);
    assert Claims(f, From(act), p) || p !in f.heap.cells;
  }

  predicate ReaderMoves(act: ReaderAct) { act.GetPacket? || act.TryEnqueue? || act.PutRejected? }

  predicate WriterMoves(act: WriterAct) { act.TakeNext? || act.TakeToDiscard? || act.PutTaken? }

  lemma OtherReaderSteps(f: Fan, f': Fan, t: Track, act: ReaderAct)
    requires !ReaderMoves(act) && Do(f, ByReader(t, act)) == Some(f')
    ensures f'.senders == f.senders && f'.heap.freeCells == f.heap.freeCells
    ensures t in f.readers && f'.readers == f.readers[t := f'.readers[t]]
    ensures Carried(f'.readers[t]) == Carried(f.readers[t])
  {
  }

  lemma OtherWriterSteps(f: Fan, f': Fan, l: Lid, act: WriterAct)
    requires !WriterMoves(act) && Do(f, ByWriter(l, act)) == Some(f')
    ensures f'.readers == f.readers && f'.heap.freeCells == f.heap.freeCells
    ensures l in f.senders && f'.senders == f.senders[l := f'.senders[l]]
    ensures f'.senders[l].queue == f.senders[l].queue && HandOf(f'.senders[l].writer) == HandOf(f.senders[l].writer)
  {
  }

  lemma ReaderMovesOne(f: Fan, f': Fan, act: Act, pl: Place, p: Pid)
    requires Owned(f) && act.ByReader? && ReaderMoves(act.reading) && Do(f, act) == Some(f')
    ensures MovesOne(f, f', act, pl, p)
  {
    var m := MoveOf(f, act);
    if m.Moved? && m.p == p { WasThere(f, f', act, p, pl); }
  }

  lemma WriterTakesOne(f: Fan, f': Fan, act: Act, pl: Place, p: Pid)
    requires Owned(f) && act.ByWriter? && (act.writing.TakeNext? || act.writing.TakeToDiscard?)
    requires Do(f, act) == Some(f')
    ensures MovesOne(f, f', act, pl, p)
  {
    if MoveOf(f, act).p == p { WasThere(f, f', act, p, Before(act, pl)); }
  }

  lemma PutTakenDoes(f: Fan, f': Fan, act: Act)
    requires act.ByWriter? && act.writing.PutTaken? && Do(f, act) == Some(f')
    ensures act.l in f.senders && HandOf(f.senders[act.l].writer) == Some(MoveOf(f, act).p)
    ensures f'.readers == f.readers && f'.heap == f.heap.(freeCells := f.heap.freeCells + {MoveOf(f, act).p})
    ensures act.l in f'.senders && f'.senders == f.senders[act.l := f'.senders[act.l]]
    ensures f'.senders[act.l].queue == f.senders[act.l].queue && HandOf(f'.senders[act.l].writer) == None
  {
  }

  lemma WriterPutsOne(f: Fan, f': Fan, act: Act, pl: Place, p: Pid)
    requires Owned(f) && act.ByWriter? && act.writing.PutTaken? && Do(f, act) == Some(f')
    ensures MovesOne(f, f', act, pl, p)
  {
    PutTakenDoes(f, f', act);
    if MoveOf(f, act).p == p { WasThere(f, f', act, p, pl); }
  }

  lemma EveryStepMovesOne(f: Fan, f': Fan, act: Act, pl: Place, p: Pid)
    requires Owned(f) && Do(f, act) == Some(f')
    ensures MovesOne(f, f', act, pl, p)
  {
    if act.ByReader? {
      if ReaderMoves(act.reading) { ReaderMovesOne(f, f', act, pl, p); }
      else { OtherReaderSteps(f, f', act.t, act.reading); }
    } else if act.ByWriter? {
      if act.writing.PutTaken? { WriterPutsOne(f, f', act, pl, p); }
      else if WriterMoves(act.writing) { WriterTakesOne(f, f', act, pl, p); }
      else { OtherWriterSteps(f, f', act.l, act.writing); }
    }
    else if act.ForgetPacket? && act.p == p { WasThere(f, f', act, p, pl); }
  }

  lemma MovedPacketExists(f: Fan, f': Fan, act: Act, p: Pid)
    requires Owned(f) && Do(f, act) == Some(f')
    ensures p in f'.heap.cells <==>
            match MoveOf(f, act)
            case Nothing => p in f.heap.cells
            case Moved(q, _) => p == q || p in f.heap.cells
            case Forgotten(q) => p != q && p in f.heap.cells
  {
    var m := MoveOf(f, act);
    if m.Moved? && m.p == p { WasThere(f, f', act, p, From(act)); }
  }

  lemma OnePlaceKept(f: Fan, f': Fan, act: Act, p: Pid)
    requires Owned(f) && Do(f, act) == Some(f')
    ensures OnePlace(f', p)
  {
    assert OnePlace(f, p);
    MovedPacketExists(f, f', act, p);
    forall a, b | Claims(f', a, p) && Claims(f', b, p) ensures a == b {
      EveryStepMovesOne(f, f', act, a, p);
      EveryStepMovesOne(f, f', act, b, p);
    }
    var m := MoveOf(f, act);
    if m.Moved? && m.p == p {
      EveryStepMovesOne(f, f', act, m.to, p);
      assert Claims(f', m.to, p);
    } else if p in f'.heap.cells {
      var a :| Claims(f, a, p);
      EveryStepMovesOne(f, f', act, After(act, a), p);
      assert Claims(f', After(act, a), p);
    } else {
      forall a ensures !Claims(f', a, p) { EveryStepMovesOne(f, f', act, a, p); }
    }
  }

  // The same for buffers.

  predicate MovesBuffer(act: Act) {
    act.ForgetBuffer? || (act.ByReader? && (act.reading.GetBuffer? || act.reading.PutBuffer?))
  }

  lemma OtherReaderStepsKeepBuffers(f: Fan, f': Fan, t: Track, act: ReaderAct)
    requires !act.GetBuffer? && !act.PutBuffer? && Do(f, ByReader(t, act)) == Some(f')
    ensures f'.heap.freeBufs == f.heap.freeBufs && f'.heap.bufs.Keys == f.heap.bufs.Keys
    ensures t in f.readers && f'.readers == f.readers[t := f'.readers[t]]
    ensures BufferOf(f'.readers[t]) == BufferOf(f.readers[t])
  {
  }

  lemma OtherStepsKeepBuffers(f: Fan, f': Fan, act: Act, t: Track)
    requires !MovesBuffer(act) && Do(f, act) == Some(f')
    ensures f'.heap.freeBufs == f.heap.freeBufs && f'.heap.bufs.Keys == f.heap.bufs.Keys
    ensures t in f.readers ==> t in f'.readers && BufferOf(f'.readers[t]) == BufferOf(f.readers[t])
    ensures t in f'.readers && t !in f.readers ==> BufferOf(f'.readers[t]) == None
  {
    if act.ByReader? { OtherReaderStepsKeepBuffers(f, f', act.t, act.reading); }
  }

  lemma OneShelfKept(f: Fan, f': Fan, act: Act, b: Bid)
    requires Owned(f) && Do(f, act) == Some(f')
    ensures OneShelf(f', b)
  {
    assert OneShelf(f, b);
    if !MovesBuffer(act) {
      forall pl ensures HasBuffer(f', pl, b) <==> HasBuffer(f, pl, b) {
        OtherStepsKeepBuffers(f, f', act, if pl.With? then pl.t else 0);
      }
    } else {
      BufferMoves(f, f', act, b);
    }
  }

  lemma BufferMoves(f: Fan, f': Fan, act: Act, b: Bid)
    requires Owned(f) && MovesBuffer(act) && Do(f, act) == Some(f')
    ensures OneShelf(f', b)
  {
    assert OneShelf(f, b);
    if act.ForgetBuffer? {
      assert HasBuffer(f, Spare, act.b);
      forall pl ensures HasBuffer(f', pl, b) <==> b != act.b && HasBuffer(f, pl, b) {
        if HasBuffer(f, pl, b) && b == act.b { assert pl == Spare; }
      }
    } else if act.reading.GetBuffer? {
      var q := act.reading.b;
      assert q in f.heap.freeBufs ==> HasBuffer(f, Spare, q);
      forall pl ensures HasBuffer(f', pl, b) <==> if b == q then pl == With(act.t) else HasBuffer(f, pl, b) {
        if HasBuffer(f, pl, b) && b == q { assert pl == Spare; }
      }
      assert b == q ==> HasBuffer(f', With(act.t), b);
    } else {
      var q := f.readers[act.t].b;
      assert HasBuffer(f, With(act.t), q);
      forall pl ensures HasBuffer(f', pl, b) <==> if b == q then pl == Spare else HasBuffer(f, pl, b) {
        if HasBuffer(f, pl, b) && b == q { assert pl == With(act.t); }
      }
      assert b == q ==> HasBuffer(f', Spare, b);
    }
  }

  lemma SizedKept(f: Fan, f': Fan, act: Act)
    requires Owned(f) && Do(f, act) == Some(f')
    ensures Sized(f')
  {
  }

  lemma StepKeepsOwned(f: Fan, f': Fan, act: Act)
    requires Owned(f) && Do(f, act) == Some(f')
    ensures Owned(f')
  {
    forall p ensures OnePlace(f', p) { OnePlaceKept(f, f', act, p); }
    forall b ensures OneShelf(f', b) { OneShelfKept(f, f', act, b); }
    SizedKept(f, f', act);
  }

  lemma StartOwned()
    ensures Owned(Start())
  {
    forall p ensures OnePlace(Start(), p) { }
    forall b ensures OneShelf(Start(), b) { }
  }

  lemma {:induction false} PerformKeepsOwned(f: Fan, acts: seq<Act>)
    requires Owned(f) && Perform(f, acts).Some?
    ensures Owned(Perform(f, acts).value)
    decreases |acts|
  {
    if acts != [] {
      StepKeepsOwned(f, Do(f, acts[0]).value, acts[0]);
      PerformKeepsOwned(Do(f, acts[0]).value, acts[1..]);
    }
  }

  /**
   * Main result: in every reachable state every packet that exists is in exactly one place (the pool, one position of
   * one queue, one writer's hand or one reader's), every buffer is in the pool or with exactly one reader, and nothing
   * else is reachable from a place.
   */
  lemma EverythingHasOneOwner(acts: seq<Act>, p: Pid, b: Bid)
    requires Perform(Start(), acts).Some?
    ensures var f := Perform(Start(), acts).value;
            && (p in f.heap.cells <==> exists pl :: Claims(f, pl, p))
            && (forall x, y :: Claims(f, x, p) && Claims(f, y, p) ==> x == y)
            && (b in f.heap.bufs <==> exists pl :: HasBuffer(f, pl, b))
            && (forall x, y :: HasBuffer(f, x, b) && HasBuffer(f, y, b) ==> x == y)
  {
    StartOwned();
    PerformKeepsOwned(Start(), acts);
    var f := Perform(Start(), acts).value;
    assert OnePlace(f, p) && OneShelf(f, b);
  }
}
