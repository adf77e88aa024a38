/** The fan-out with recycled buffers refines pure broadcast: reuse of memory is never visible to a subscriber. */
module FanOutRefinement {
  import opened Options
  import opened Packets
  import opened Broadcast
  import opened FanOut

  /** The step of pure broadcast that a step of the fan-out performs, if any. */
  function Image(f: Fan, act: Act): Option<Step>
    requires Do(f, act).Some?
  {
    match act
    case OpenReader(t) => Some(Open(t))
    case ByReader(t, ReadPacket(payload)) => Some(Receive(t, payload))
    case ByReader(t, Lookup) => Some(Begin(t))
    case ByReader(t, TryEnqueue) => Some(Offer(t, f.readers[t].work.l))
    case ByReader(t, EndForward) => Some(End(t))
    case AddSender(l, t, cap) => Some(Subscribe(l, t, cap))
    case RemoveSender(l) => Some(Unsubscribe(l))
    case ByWriter(l, TakeNext) => Some(Take(l))
    case ByWriter(l, TakeToDiscard) => Some(Take(l))
    case ByWriter(l, WriteOk) => Some(Deliver(l))
    case ByWriter(l, PutTaken) => if f.senders[l].writer.Wrote? then None else Some(Lose(l))
    case _ => None
  }

  function Follow(a: State, step: Option<Step>): Option<State> { if step.None? then Some(a) else Next(a, step.value) }

  // ---------------------------------------------------------------------------------------------------------------
  // Which state of pure broadcast a state of the fan-out stands for.

  predicate Holds(h: Heap, p: Pid, payload: Bytes) {
    p in h.cells && h.cells[p].n <= |h.cells[p].data| && h.cells[p].data[..h.cells[p].n] == payload
  }

  predicate Loads(h: Heap, b: Bid, n: nat, payload: Bytes) {
    b in h.bufs && n <= |h.bufs[b]| && h.bufs[b][..n] == payload
  }

  predicate WorkShows(h: Heap, due: set<Lid>, work: Work, payload: Bytes) {
    (work.Got? || work.Copied? ==> work.l in due) && (work.Copied? ==> Holds(h, work.p, payload))
  }

  predicate ReaderShows(h: Heap, r: Reader, feed: Feed) {
    match r
    case Read(b, n) => feed.phase.Loaded? && feed.log != [] && Loads(h, b, n, feed.log[|feed.log| - 1])
    case Sending(b, n, due, _, work) =>
      && feed.phase == Forwarding(due) && feed.log != []
      && Loads(h, b, n, feed.log[|feed.log| - 1]) && WorkShows(h, due, work, feed.log[|feed.log| - 1])
    case _ => feed.phase.Quiet?
  }

  predicate ShowsAt(h: Heap, p: Pid, i: nat, log: seq<Bytes>) { i < |log| && Holds(h, p, log[i]) }

  predicate QueueShows(h: Heap, queue: seq<Pid>, packets: seq<nat>, log: seq<Bytes>) {
    |queue| == |packets| && forall i :: 0 <= i < |queue| ==> ShowsAt(h, queue[i], packets[i], log)
  }

  predicate HandShows(h: Heap, w: Writer, hand: seq<nat>, log: seq<Bytes>) {
    if w.Writing? || w.Failing? || w.Discarding? then |hand| == 1 && ShowsAt(h, w.p, hand[0], log) else hand == []
  }

  predicate OutShows(out: seq<Bytes>, written: seq<nat>, log: seq<Bytes>) {
    |out| == |written| && forall i :: 0 <= i < |out| ==> written[i] < |log| && out[i] == log[written[i]]
  }

  predicate CountsShow(s: Sender, lane: Lane) {
    && s.cap == lane.cap && s.dropped == lane.dropped
    && s.sent + (if s.writer.Wrote? then 1 else 0) == |lane.written|
    && (s.writer.Waiting? || s.writer.Writing? || s.writer.Wrote? || s.writer.Failing? ==> lane.lost == [])
    && (s.writer == Gone(true) ==> |lane.lost| == 1)
    && (s.writer.Draining? || s.writer.Discarding? || s.writer == Gone(false) ==> s.cancelled)
  }

  predicate SenderShows(h: Heap, s: Sender, lane: Lane, log: seq<Bytes>) {
    && QueueShows(h, s.queue, lane.queue, log) && HandShows(h, s.writer, lane.hand, log)
    && OutShows(s.out, lane.written, log) && CountsShow(s, lane)
  }

  predicate FeedShown(f: Fan, a: State, t: Track) {
    (t in f.readers <==> t in a.feeds) && (t in f.readers ==> ReaderShows(f.heap, f.readers[t], a.feeds[t]))
  }

  predicate LaneShown(f: Fan, a: State, l: Lid) {
    && (l in f.senders <==> l in a.lanes)
    && (l in f.senders ==> SenderShows(f.heap, f.senders[l], a.lanes[l], LogOf(a, a.lanes[l].track)))
  }

  ghost predicate StandsFor(f: Fan, a: State) {
    && f.table == a.table
    && (forall t {:trigger FeedShown(f, a, t)} :: FeedShown(f, a, t))
    && (forall l {:trigger LaneShown(f, a, l)} :: LaneShown(f, a, l))
  }

  // ---------------------------------------------------------------------------------------------------------------
  // What a step leaves alone in the heap: everything that is owned by somebody else.

  lemma CellKept(f: Fan, f': Fan, act: Act, pl: Place, p: Pid)
    requires Owned(f) && Do(f, act) == Some(f') && Claims(f, pl, p) && pl != Pool
    requires act.ByReader? && act.reading.CopyIn? ==> pl != InWork(act.t)
    ensures p in f.heap.cells && p in f'.heap.cells && f'.heap.cells[p] == f.heap.cells[p]
  {
    assert OnePlace(f, p);
    if act.ForgetPacket? { assert Claims(f, Pool, act.p); }
    if act.ByReader? && act.reading.CopyIn? { assert Claims(f, InWork(act.t), f.readers[act.t].work.p); }
  }

  lemma BufferKept(f: Fan, f': Fan, act: Act, t: Track, b: Bid)
    requires Owned(f) && Do(f, act) == Some(f') && HasBuffer(f, With(t), b)
    requires !(act.ByReader? && act.reading.ReadPacket? && act.t == t)
    ensures b in f.heap.bufs && b in f'.heap.bufs && f'.heap.bufs[b] == f.heap.bufs[b]
  {
    assert OneShelf(f, b);
    if act.ForgetBuffer? { assert HasBuffer(f, Spare, act.b); }
    if act.ByReader? && act.reading.ReadPacket? { assert HasBuffer(f, With(act.t), f.readers[act.t].b); }
  }

  // ---------------------------------------------------------------------------------------------------------------
  // The simulation.

  /** Pure broadcast can make the step too. */
  ghost predicate CanFollow(f: Fan, a: State, act: Act) {
    Do(f, act).Some? ==>
      var a' := Follow(a, Image(f, act));
      a'.Some? && a'.value.table == Do(f, act).value.table
  }

  lemma ReaderImageEnabled(f: Fan, a: State, t: Track, act: ReaderAct)
    requires StandsFor(f, a)
    ensures CanFollow(f, a, ByReader(t, act))
  {
    assert FeedShown(f, a, t);
    if Do(f, ByReader(t, act)).Some? && act.TryEnqueue? { assert LaneShown(f, a, f.readers[t].work.l); }
  }

  lemma ImageEnabled(f: Fan, a: State, act: Act)
    requires StandsFor(f, a)
    ensures CanFollow(f, a, act)
  {
    if act.ByReader? {
      ReaderImageEnabled(f, a, act.t, act.reading);
    } else if act.AddSender? || act.RemoveSender? {
      if Free(f) {
        forall t | t in a.feeds ensures !a.feeds[t].phase.Forwarding? { assert FeedShown(f, a, t); }
      }
      assert LaneShown(f, a, act.l);
      if act.AddSender? { assert FeedShown(f, a, act.t); }
    } else if act.ByWriter? {
      assert LaneShown(f, a, act.l);
    } else if act.OpenReader? {
      assert FeedShown(f, a, act.t);
    }
  }

  ghost predicate Related(f: Fan, a: State, act: Act, f': Fan, a': State) {
    Owned(f) && StandsFor(f, a) && Fine(a) && Do(f, act) == Some(f') && Follow(a, Image(f, act)) == Some(a')
  }

  /** What is read from the track is what the buffer holds, and what is copied is what the packet holds. */
  lemma ContentShown(f: Fan, a: State, act: Act, f': Fan, a': State)
    requires Related(f, a, act, f', a') && act.ByReader? && (act.reading.ReadPacket? || act.reading.CopyIn?)
    ensures FeedShown(f', a', act.t)
  {
    assert FeedShown(f, a, act.t);
    if act.reading.CopyIn? { BufferKept(f, f', act, act.t, f.readers[act.t].b); }
  }

  /** The other steps of a reader do not hold a copied packet when they are done. */
  lemma OwnFeedShown(f: Fan, a: State, act: Act, f': Fan, a': State)
    requires Related(f, a, act, f', a') && act.ByReader? && !act.reading.ReadPacket? && !act.reading.CopyIn?
    ensures FeedShown(f', a', act.t)
  {
    assert FeedShown(f, a, act.t);
    if BufferOf(f.readers[act.t]).Some? { BufferKept(f, f', act, act.t, f.readers[act.t].b); }
    if act.reading.TryEnqueue? { OwnOfferShown(f, a, act, f', a'); }
  }

  lemma OwnOfferShown(f: Fan, a: State, act: Act, f': Fan, a': State)
    requires Related(f, a, act, f', a') && act.ByReader? && act.reading.TryEnqueue?
    requires BufferOf(f.readers[act.t]).Some? ==>
               f.readers[act.t].b in f'.heap.bufs && f'.heap.bufs[f.readers[act.t].b] == f.heap.bufs[f.readers[act.t].b]
    ensures FeedShown(f', a', act.t)
  {
    assert FeedShown(f, a, act.t);
  }

  predicate SameAt<K, V(==)>(m: map<K, V>, m': map<K, V>, k: K) {
    (k in m <==> k in m') && (k in m ==> m'[k] == m[k])
  }

  lemma OtherReadersStay(f: Fan, act: Act, f': Fan, t: Track)
    requires Do(f, act) == Some(f') && !((act.ByReader? || act.OpenReader?) && act.t == t)
    ensures SameAt(f.readers, f'.readers, t)
  {
  }

  lemma OtherFeedsStay(f: Fan, a: State, act: Act, a': State, t: Track)
    requires Do(f, act).Some? && Follow(a, Image(f, act)) == Some(a')
    requires !((act.ByReader? || act.OpenReader?) && act.t == t)
    ensures SameAt(a.feeds, a'.feeds, t)
  {
  }

  /** All other readers. */
  lemma OtherFeedShown(f: Fan, a: State, act: Act, f': Fan, a': State, t: Track)
    requires Related(f, a, act, f', a') && !(act.ByReader? && act.t == t)
    ensures FeedShown(f', a', t)
  {
    assert FeedShown(f, a, t);
    if !act.OpenReader? || act.t != t {
      OtherReadersStay(f, act, f', t);
      OtherFeedsStay(f, a, act, a', t);
      if t in f.readers { ReaderStaysShown(f, act, f', t, a'.feeds[t]); }
    }
  }

  lemma ReaderStaysShown(f: Fan, act: Act, f': Fan, t: Track, feed: Feed)
    requires Owned(f) && Do(f, act) == Some(f') && !(act.ByReader? && act.t == t)
    requires t in f.readers && ReaderShows(f.heap, f.readers[t], feed)
    ensures ReaderShows(f'.heap, f.readers[t], feed)
  {
    if BufferOf(f.readers[t]).Some? { BufferKept(f, f', act, t, f.readers[t].b); }
    if Carried(f.readers[t]).Some? { CellKept(f, f', act, InWork(t), f.readers[t].work.p); }
  }

  // Lanes.

  /** A sender whose cells and record are left alone still shows its lane, however the log has grown. */
  lemma SenderStaysShown(h: Heap, h': Heap, s: Sender, lane: Lane, log: seq<Bytes>, log': seq<Bytes>)
    requires SenderShows(h, s, lane, log) && log <= log'
    requires forall i :: 0 <= i < |s.queue| ==> SameAt(h.cells, h'.cells, s.queue[i])
    requires HandOf(s.writer).Some? ==> SameAt(h.cells, h'.cells, s.writer.p)
    ensures SenderShows(h', s, lane, log')
  {
    assert forall i :: 0 <= i < |lane.queue| ==> ShowsAt(h, s.queue[i], lane.queue[i], log);
  }

  /** Nobody touches the packets of a sender. */
  lemma PacketsOfSenderKept(f: Fan, act: Act, f': Fan, l: Lid)
    requires Owned(f) && Do(f, act) == Some(f') && l in f.senders
    ensures forall i :: 0 <= i < |f.senders[l].queue| ==> SameAt(f.heap.cells, f'.heap.cells, f.senders[l].queue[i])
    ensures HandOf(f.senders[l].writer).Some? ==> SameAt(f.heap.cells, f'.heap.cells, f.senders[l].writer.p)
  {
    var s := f.senders[l];
    forall i | 0 <= i < |s.queue| ensures SameAt(f.heap.cells, f'.heap.cells, s.queue[i]) {
      CellKept(f, f', act, InQueue(l, i), s.queue[i]);
    }
    if HandOf(s.writer).Some? { CellKept(f, f', act, InHand(l), s.writer.p); }
  }

  /** A writer's own step. */
  lemma WriterShown(f: Fan, f': Fan, l: Lid, act: WriterAct, lane: Lane, lane': Lane, log: seq<Bytes>)
    requires Do(f, ByWriter(l, act)) == Some(f') && SenderShows(f.heap, f.senders[l], lane, log)
    requires var step := Image(f, ByWriter(l, act));
             lane' == if step.None? then lane else if step.value.Take? then Taken(lane)
                      else if step.value.Deliver? then Delivered(lane) else Lost(lane)
    ensures SenderShows(f'.heap, f'.senders[l], lane', log)
  {
  }

  lemma LogExtends(f: Fan, a: State, act: Act, a': State, t: Track)
    requires Do(f, act).Some? && Follow(a, Image(f, act)) == Some(a')
    ensures LogOf(a, t) <= LogOf(a', t)
  {
    if t in a.feeds && Image(f, act).Some? { LogsGrow(a, a', Image(f, act).value, t); }
  }

  /** WriteRTP hands the copied packet to the queue or drops it, as the lane does. */
  lemma EnqueueShown(f: Fan, a: State, act: Act, f': Fan, a': State)
    requires Related(f, a, act, f', a') && act.ByReader? && act.reading.TryEnqueue?
    ensures LaneShown(f', a', f.readers[act.t].work.l)
  {
    var l := f.readers[act.t].work.l;
    assert FeedShown(f, a, act.t) && LaneShown(f, a, l);
    OfferIsDue(a, act.t, l);
    EnqueueDoes(f, act, f');
  }

  lemma EnqueueDoes(f: Fan, act: Act, f': Fan)
    requires Do(f, act) == Some(f') && act.ByReader? && act.reading.TryEnqueue?
    ensures var (l, p) := (f.readers[act.t].work.l, f.readers[act.t].work.p);
            && f'.heap == f.heap && l in f.senders && l in f'.senders
            && f'.senders[l] == if |f.senders[l].queue| < f.senders[l].cap
                                then f.senders[l].(queue := f.senders[l].queue + [p])
                                else f.senders[l].(dropped := f.senders[l].dropped + 1)
  {
  }

  /** The step concerns the queue or the writer of this lane. */
  predicate Concerns(f: Fan, act: Act, l: Lid)
    requires Do(f, act).Some?
  {
    match act
    case ByReader(t, TryEnqueue) => f.readers[t].work.l == l
    case ByWriter(l', _) => l' == l
    case AddSender(l', _, _) => l' == l
    case RemoveSender(l') => l' == l
    case Cancel(l') => l' == l
    case _ => false
  }

  lemma OtherSendersStay(f: Fan, act: Act, f': Fan, l: Lid)
    requires Do(f, act) == Some(f') && !Concerns(f, act, l)
    ensures SameAt(f.senders, f'.senders, l)
  {
  }

  lemma OtherLanesStay(f: Fan, a: State, act: Act, a': State, l: Lid)
    requires Do(f, act).Some? && Follow(a, Image(f, act)) == Some(a') && !Concerns(f, act, l)
    ensures SameAt(a.lanes, a'.lanes, l)
  {
  }

  lemma LaneStaysShown(f: Fan, a: State, act: Act, f': Fan, a': State, l: Lid)
    requires Related(f, a, act, f', a') && l in f.senders && LaneShown(f, a, l)
    ensures SenderShows(f'.heap, f.senders[l], a.lanes[l], LogOf(a', a.lanes[l].track))
  {
    PacketsOfSenderKept(f, act, f', l);
    LogExtends(f, a, act, a', a.lanes[l].track);
    SenderStaysShown(f.heap, f'.heap, f.senders[l], a.lanes[l], LogOf(a, a.lanes[l].track),
      LogOf(a', a.lanes[l].track));
  }

  /** A new sender shows an empty lane; a cancelled one shows the lane it showed before. */
  lemma MembershipShown(f: Fan, a: State, act: Act, f': Fan, a': State, l: Lid)
    requires Related(f, a, act, f', a') && (act.AddSender? || act.RemoveSender? || act.Cancel?) && act.l == l
    ensures LaneShown(f', a', l)
  {
    assert LaneShown(f, a, l);
    if l in f.senders { LaneStaysShown(f, a, act, f', a', l); }
  }

  lemma OwnLaneShown(f: Fan, a: State, l: Lid, act: WriterAct, f': Fan, a': State)
    requires Related(f, a, ByWriter(l, act), f', a')
    ensures LaneShown(f', a', l)
  {
    assert LaneShown(f, a, l);
    WriterShown(f, f', l, act, a.lanes[l], a'.lanes[l], LogOf(a, a.lanes[l].track));
  }

  lemma LaneShownKept(f: Fan, a: State, act: Act, f': Fan, a': State, l: Lid)
    requires Related(f, a, act, f', a')
    ensures LaneShown(f', a', l)
  {
    if !Concerns(f, act, l) {
      assert LaneShown(f, a, l);
      OtherSendersStay(f, act, f', l);
      OtherLanesStay(f, a, act, a', l);
      if l in f.senders { LaneStaysShown(f, a, act, f', a', l); }
    } else if act.ByReader? {
      EnqueueShown(f, a, act, f', a');
    } else if act.ByWriter? {
      OwnLaneShown(f, a, l, act.writing, f', a');
    } else {
      MembershipShown(f, a, act, f', a', l);
    }
  }

  /** Every step of the fan-out is a step of pure broadcast, or none at all. */
  lemma Simulates(f: Fan, a: State, act: Act, f': Fan)
    requires Owned(f) && StandsFor(f, a) && Fine(a) && Do(f, act) == Some(f')
    ensures var a' := Follow(a, Image(f, act)); a'.Some? && StandsFor(f', a'.value) && Fine(a'.value)
  {
    ImageEnabled(f, a, act);
    var a' := Follow(a, Image(f, act)).value;
    forall t ensures FeedShown(f', a', t) {
      if act.ByReader? && act.t == t {
        if act.reading.ReadPacket? || act.reading.CopyIn? { ContentShown(f, a, act, f', a'); }
        else { OwnFeedShown(f, a, act, f', a'); }
      } else {
        OtherFeedShown(f, a, act, f', a', t);
      }
    }
    forall l ensures LaneShown(f', a', l) { LaneShownKept(f, a, act, f', a', l); }
    if Image(f, act).Some? { StepKeepsFine(a, a', Image(f, act).value); }
  }

  /** The payloads that the reader of a track got from it, in order. */
  function PayloadsRead(acts: seq<Act>, t: Track): seq<Bytes>
    decreases |acts|
  {
    if acts == [] then []
    else
      var head := acts[0];
      (if head.ByReader? && head.t == t && head.reading.ReadPacket? then [head.reading.payload] else []) +
      PayloadsRead(acts[1..], t)
  }

  function Images(f: Fan, acts: seq<Act>): seq<Step>
    requires Perform(f, acts).Some?
    decreases |acts|
  {
    if acts == [] then []
    else
      var step := Image(f, acts[0]);
      (if step.None? then [] else [step.value]) + Images(Do(f, acts[0]).value, acts[1..])
  }

  lemma FollowThenRun(a: State, step: Option<Step>, rest: seq<Step>)
    requires Follow(a, step).Some?
    ensures Run(a, (if step.None? then [] else [step.value]) + rest) == Run(Follow(a, step).value, rest)
  {
    if step.None? { assert [] + rest == rest; } else { assert ([step.value] + rest)[1..] == rest; }
  }

  /** Refinement: every run of the fan-out is, image by image, a run of pure broadcast. */
  lemma {:induction false} Refines(f: Fan, a: State, acts: seq<Act>)
    requires Owned(f) && StandsFor(f, a) && Fine(a) && Perform(f, acts).Some?
    ensures var a' := Run(a, Images(f, acts));
            a'.Some? && StandsFor(Perform(f, acts).value, a'.value) && Fine(a'.value)
    decreases |acts|
  {
    if acts != [] {
      var f1 := Do(f, acts[0]).value;
      Simulates(f, a, acts[0], f1);
      var a1 := Follow(a, Image(f, acts[0])).value;
      StepKeepsOwned(f, f1, acts[0]);
      Refines(f1, a1, acts[1..]);
      FollowThenRun(a, Image(f, acts[0]), Images(f1, acts[1..]));
    }
  }

  /** The images receive what is read. */
  lemma {:induction false} ImagesReceive(f: Fan, acts: seq<Act>, t: Track)
    requires Perform(f, acts).Some?
    ensures Received(Images(f, acts), t) == PayloadsRead(acts, t)
    decreases |acts|
  {
    if acts != [] {
      var step := Image(f, acts[0]);
      var rest := Images(Do(f, acts[0]).value, acts[1..]);
      ImagesReceive(Do(f, acts[0]).value, acts[1..], t);
      if step.None? {
        assert Images(f, acts) == rest;
      } else {
        assert Images(f, acts)[0] == step.value && Images(f, acts)[1..] == rest;
      }
    }
  }

  lemma StartStandsForInit()
    ensures StandsFor(Start(), Init())
  {
    forall t ensures FeedShown(Start(), Init(), t) { }
    forall l ensures LaneShown(Start(), Init(), l) { }
  }

  lemma ReachableRefines(acts: seq<Act>) returns (a: State)
    requires Perform(Start(), acts).Some?
    ensures Run(Init(), Images(Start(), acts)) == Some(a)
    ensures StandsFor(Perform(Start(), acts).value, a) && Fine(a)
    ensures forall t :: LogOf(a, t) == PayloadsRead(acts, t)
  {
    StartOwned();
    StartStandsForInit();
    InitFine();
    Refines(Start(), Init(), acts);
    a := Run(Init(), Images(Start(), acts)).value;
    forall t ensures LogOf(a, t) == PayloadsRead(acts, t) {
      RunLogs(Init(), Images(Start(), acts), t);
      ImagesReceive(Start(), acts, t);
    }
  }

  // ---------------------------------------------------------------------------------------------------------------
  // What a subscriber gets.

  /**
   * Main result: whatever the pools do, the byte strings written to a subscriber's track are payloads read from the
   * publisher's track, in the order in which they were read, none twice.
   */
  lemma SubscriberSeesASubstream(acts: seq<Act>, l: Lid) returns (t: Track, picked: seq<nat>)
    requires Perform(Start(), acts).Some? && l in Perform(Start(), acts).value.senders
    ensures var f := Perform(Start(), acts).value;
            var out, payloads := f.senders[l].out, PayloadsRead(acts, t);
            && (l in f.table ==> f.table[l] == t)
            && |picked| == |out| && Increasing(picked)
            && forall i :: 0 <= i < |out| ==> picked[i] < |payloads| && out[i] == payloads[picked[i]]
  {
    var a := ReachableRefines(acts);
    assert LaneShown(Perform(Start(), acts).value, a, l);
    t, picked := a.lanes[l].track, a.lanes[l].written;
    assert LaneFine(a, l) && UpToDate(a, l);
    var lane := a.lanes[l];
    forall i, j | 0 <= i < j < |picked| ensures picked[i] < picked[j] {
      assert lane.accepted[i] == picked[i] && lane.accepted[j] == picked[j];
    }
  }

  /** The payload that a step adds to the queue of a lane. */
  function AcceptedIn(f: Fan, act: Act, l: Lid): seq<Bytes>
    requires Do(f, act).Some?
  {
    if act.ByReader? && act.reading.TryEnqueue? && f.readers[act.t].work.l == l
      && |f.senders[l].queue| < f.senders[l].cap
    then [ContentOf(f.heap, f.readers[act.t].work.p)] else []
  }

  function ContentOf(h: Heap, p: Pid): Bytes {
    if p in h.cells && h.cells[p].n <= |h.cells[p].data| then h.cells[p].data[..h.cells[p].n] else []
  }

  function Accepted(f: Fan, acts: seq<Act>, l: Lid): seq<Bytes>
    requires Perform(f, acts).Some?
    decreases |acts|
  {
    if acts == [] then [] else AcceptedIn(f, acts[0], l) + Accepted(Do(f, acts[0]).value, acts[1..], l)
  }

  /** The last of these indices is that of the payload. */
  predicate EndsWith(a: State, l: Lid, payload: Bytes) {
    l in a.lanes && a.lanes[l].accepted != [] &&
    var i := a.lanes[l].accepted[|a.lanes[l].accepted| - 1];
    i < |LogOf(a, a.lanes[l].track)| && LogOf(a, a.lanes[l].track)[i] == payload
  }

  lemma StepAccepts(f: Fan, a: State, act: Act, f': Fan, a': State, l: Lid)
    requires Related(f, a, act, f', a')
    ensures |AcceptedBy(a', l)| == |AcceptedBy(a, l)| + |AcceptedIn(f, act, l)|
    ensures AcceptedIn(f, act, l) != [] ==> EndsWith(a', l, AcceptedIn(f, act, l)[0])
  {
    if act.ByReader? && act.reading.TryEnqueue? && f.readers[act.t].work.l == l {
      OwnOfferAccepts(f, a, act, f', a', l);
    } else {
      OtherLanesAccept(f, a, act, a', l);
    }
  }

  lemma OwnOfferAccepts(f: Fan, a: State, act: Act, f': Fan, a': State, l: Lid)
    requires Related(f, a, act, f', a')
    requires act.ByReader? && act.reading.TryEnqueue? && f.readers[act.t].work.l == l
    ensures |AcceptedBy(a', l)| == |AcceptedBy(a, l)| + |AcceptedIn(f, act, l)|
    ensures AcceptedIn(f, act, l) != [] ==> EndsWith(a', l, AcceptedIn(f, act, l)[0])
  {
    assert FeedShown(f, a, act.t) && LaneShown(f, a, l);
    OfferIsDue(a, act.t, l);
  }

  lemma OtherLanesAccept(f: Fan, a: State, act: Act, a': State, l: Lid)
    requires Do(f, act).Some? && Follow(a, Image(f, act)) == Some(a')
    requires !(act.ByReader? && act.reading.TryEnqueue? && f.readers[act.t].work.l == l)
    ensures AcceptedBy(a', l) == AcceptedBy(a, l)
  {
    if Image(f, act).Some? { OnlyOffersAccept(a, Image(f, act).value, l); }
  }

  /** The accepted indices are those of the accepted payloads. */
  ghost predicate Named(a: State, l: Lid, from: nat, payloads: seq<Bytes>) {
    && |AcceptedBy(a, l)| == from + |payloads|
    && forall i {:trigger payloads[i]} :: 0 <= i < |payloads| ==> NamedAt(a, l, from + i, payloads[i])
  }

  predicate NamedAt(a: State, l: Lid, k: nat, payload: Bytes) {
    k < |AcceptedBy(a, l)| && l in a.lanes && AcceptedBy(a, l)[k] < |LogOf(a, a.lanes[l].track)|
    && LogOf(a, a.lanes[l].track)[AcceptedBy(a, l)[k]] == payload
  }

  lemma {:induction false} AcceptedAreNamed(f: Fan, a: State, acts: seq<Act>, l: Lid)
    requires Owned(f) && StandsFor(f, a) && Fine(a) && Perform(f, acts).Some?
    ensures Run(a, Images(f, acts)).Some?
    ensures Named(Run(a, Images(f, acts)).value, l, |AcceptedBy(a, l)|, Accepted(f, acts, l))
    decreases |acts|
  {
    Refines(f, a, acts);
    if acts != [] {
      var f1 := Do(f, acts[0]).value;
      Simulates(f, a, acts[0], f1);
      var a1 := Follow(a, Image(f, acts[0])).value;
      StepKeepsOwned(f, f1, acts[0]);
      StepAccepts(f, a, acts[0], f1, a1, l);
      AcceptedAreNamed(f1, a1, acts[1..], l);
      FollowThenRun(a, Image(f, acts[0]), Images(f1, acts[1..]));
      NameOneMore(a1, Images(f1, acts[1..]), l, |AcceptedBy(a, l)|, AcceptedIn(f, acts[0], l),
        Accepted(f1, acts[1..], l));
    }
  }

  lemma NameOneMore(a1: State, steps: seq<Step>, l: Lid, from: nat, first: seq<Bytes>, rest: seq<Bytes>)
    requires Run(a1, steps).Some? && |first| <= 1 && |AcceptedBy(a1, l)| == from + |first|
    requires first != [] ==> EndsWith(a1, l, first[0])
    requires Named(Run(a1, steps).value, l, |AcceptedBy(a1, l)|, rest)
    ensures Named(Run(a1, steps).value, l, from, first + rest)
  {
    var a' := Run(a1, steps).value;
    if first != [] {
      RunKeepsSince(a1, steps, l);
      RunKeepsAccepted(a1, steps, l, a1.lanes[l].track);
      forall i | 0 <= i < |first + rest| ensures NamedAt(a', l, from + i, (first + rest)[i]) {
        if i > 0 {
          assert (first + rest)[i] == rest[i - 1] && NamedAt(a', l, from + 1 + (i - 1), rest[i - 1]);
        } else {
          assert AcceptedBy(a', l)[from] == AcceptedBy(a1, l)[from];
        }
      }
    } else {
      assert first + rest == rest;
    }
  }

  lemma NamesMakePrefix(a: State, l: Lid, out: seq<Bytes>, accepted: seq<Bytes>)
    requires l in a.lanes && LaneFine(a, l) && Named(a, l, 0, accepted)
    requires OutShows(out, a.lanes[l].written, LogOf(a, a.lanes[l].track))
    ensures out <= accepted
  {
    var lane := a.lanes[l];
    forall i | 0 <= i < |out| ensures out[i] == accepted[i] {
      assert lane.accepted[i] == lane.written[i];
      assert NamedAt(a, l, 0 + i, accepted[i]);
    }
  }

  /** Main result: what is written to a subscriber's track is a prefix of what its queue has accepted, in order. */
  lemma WrittenIsAPrefixOfAccepted(acts: seq<Act>, l: Lid)
    requires Perform(Start(), acts).Some? && l in Perform(Start(), acts).value.senders
    ensures Perform(Start(), acts).value.senders[l].out <= Accepted(Start(), acts, l)
  {
    var f := Perform(Start(), acts).value;
    var a := ReachableRefines(acts);
    StartOwned();
    StartStandsForInit();
    InitFine();
    AcceptedAreNamed(Start(), Init(), acts, l);
    assert LaneShown(f, a, l) && LaneFine(a, l);
    NamesMakePrefix(a, l, f.senders[l].out, Accepted(Start(), acts, l));
  }

  /**
   * No step that the code takes without a check can fail: a held buffer is big enough for any packet of the maximal
   * size, a packet for what is copied into it, and what is written lies inside the packet.
   */
  lemma NothingOutOfBounds(acts: seq<Act>)
    requires Perform(Start(), acts).Some?
    ensures var f := Perform(Start(), acts).value;
            && (forall t, payload: Bytes :: t in f.readers && f.readers[t].Holding? && |payload| <= MaxSize ==>
                  Do(f, ByReader(t, ReadPacket(payload))).Some?)
            && (forall t :: t in f.readers && f.readers[t].Sending? ==>
                  && (f.readers[t].work.Got? ==> Do(f, ByReader(t, CopyIn)).Some?)
                  && (f.readers[t].work.Copied? ==> Do(f, ByReader(t, TryEnqueue)).Some?))
            && (forall l :: l in f.senders && f.senders[l].writer.Writing? ==> Do(f, ByWriter(l, WriteOk)).Some?)
            && (forall l :: l in f.senders ==> |f.senders[l].queue| <= f.senders[l].cap)
  {
    var f := Perform(Start(), acts).value;
    var a := ReachableRefines(acts);
    StartOwned();
    PerformKeepsOwned(Start(), acts);
    forall t, payload: Bytes | t in f.readers && f.readers[t].Holding? && |payload| <= MaxSize
      ensures Do(f, ByReader(t, ReadPacket(payload))).Some?
    {
      assert HasBuffer(f, With(t), f.readers[t].b) && OneShelf(f, f.readers[t].b);
    }
    forall t | t in f.readers && f.readers[t].Sending?
      ensures f.readers[t].work.Got? ==> Do(f, ByReader(t, CopyIn)).Some?
      ensures f.readers[t].work.Copied? ==> Do(f, ByReader(t, TryEnqueue)).Some?
    {
      ForwardNotStuck(f, a, t);
    }
    forall l | l in f.senders
      ensures f.senders[l].writer.Writing? ==> Do(f, ByWriter(l, WriteOk)).Some?
      ensures |f.senders[l].queue| <= f.senders[l].cap
    {
      assert LaneShown(f, a, l) && LaneFine(a, l);
    }
  }

  lemma ForwardNotStuck(f: Fan, a: State, t: Track)
    requires Owned(f) && StandsFor(f, a) && Fine(a) && t in f.readers && f.readers[t].Sending?
    ensures f.readers[t].work.Got? ==> Do(f, ByReader(t, CopyIn)).Some?
    ensures f.readers[t].work.Copied? ==> Do(f, ByReader(t, TryEnqueue)).Some?
  {
    var r := f.readers[t];
    assert FeedShown(f, a, t);
    assert HasBuffer(f, With(t), r.b) && OneShelf(f, r.b);
    if r.work.Got? {
      assert Claims(f, InWork(t), r.work.p) && OnePlace(f, r.work.p);
    } else if r.work.Copied? {
      assert FeedFine(a, t) && r.work.l in a.table;
      assert UpToDate(a, r.work.l) && LaneShown(f, a, r.work.l);
    }
  }
}
