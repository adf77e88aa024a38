/**
 * Pure broadcast: what the packet fan-out of a router promises when packets are immutable.
 *
 * A packet is its index in the stream of its track. Every subscriber of a track has a lane: a bounded queue that
 * takes an offered packet or drops it, and a writer that takes packets from it one by one.
 */
module Broadcast {
  import opened Options
  import Machines
  import opened Packets

  type Track = nat
  type Lid = nat

  datatype Lane = Lane(
    track: Track,
    cap: nat,
    since: nat,            // index of the first packet after the subscription
    next: nat,             // index of the next packet to be offered
    accepted: seq<nat>,
    dropped: nat,
    queue: seq<nat>,
    hand: seq<nat>,        // the packet the writer holds, if any
    written: seq<nat>,
    lost: seq<nat>)        // failed or drained

  datatype Phase =
    | Quiet
    | Loaded                                    // a packet is read, the subscribers are not looked up yet
    | Forwarding(due: set<Lid>)                   // lanes that still get it

  datatype Feed = Feed(log: seq<Bytes>, phase: Phase)

  datatype State = State(feeds: map<Track, Feed>, lanes: map<Lid, Lane>, table: map<Lid, Track>)

  datatype Step =
    | Open(t: Track)
    | Receive(t: Track, payload: Bytes)
    | Begin(t: Track)
    | Offer(t: Track, l: Lid)
    | End(t: Track)
    | Subscribe(l: Lid, t: Track, cap: nat)
    | Unsubscribe(l: Lid)
    | Take(l: Lid)
    | Deliver(l: Lid)
    | Lose(l: Lid)

  function Init(): State { State(map[], map[], map[]) }

  function Subscribers(table: map<Lid, Track>, t: Track): set<Lid> { set l | l in table && table[l] == t }

  /** A forward holds the router's lock for reading, so the table does not change meanwhile. */
  predicate Unlocked(s: State) { forall t :: t in s.feeds ==> !s.feeds[t].phase.Forwarding? }

  function Upcoming(f: Feed): nat { if f.phase.Loaded? && f.log != [] then |f.log| - 1 else |f.log| }

  function Offered(lane: Lane, i: nat): Lane {
    if |lane.queue| < lane.cap
    then lane.(next := i + 1, accepted := lane.accepted + [i], queue := lane.queue + [i])
    else lane.(next := i + 1, dropped := lane.dropped + 1)
  }

  function Taken(lane: Lane): Lane
    requires lane.queue != []
  {
    lane.(queue := lane.queue[1..], hand := [lane.queue[0]])
  }

  function Delivered(lane: Lane): Lane { lane.(hand := [], written := lane.written + lane.hand) }

  function Lost(lane: Lane): Lane { lane.(hand := [], lost := lane.lost + lane.hand) }

  function NewLane(t: Track, cap: nat, i: nat): Lane { Lane(t, cap, i, i, [], 0, [], [], [], []) }

  function WithPhase(s: State, t: Track, p: Phase): State
    requires t in s.feeds
  {
    s.(feeds := s.feeds[t := s.feeds[t].(phase := p)])
  }

  function WithLane(s: State, l: Lid, lane: Lane): State { s.(lanes := s.lanes[l := lane]) }

  function Next(s: State, step: Step): Option<State> {
    match step
    case Open(t) =>
      if t !in s.feeds then Some(s.(feeds := s.feeds[t := Feed([], Quiet)])) else None
    case Receive(t, payload) =>
      if t in s.feeds && s.feeds[t].phase.Quiet?
      then Some(s.(feeds := s.feeds[t := Feed(s.feeds[t].log + [payload], Loaded)])) else None
    case Begin(t) =>
      if t in s.feeds && s.feeds[t].phase.Loaded?
      then Some(WithPhase(s, t, Forwarding(Subscribers(s.table, t)))) else None
    case Offer(t, l) =>
      if t in s.feeds && s.feeds[t].phase.Forwarding? && l in s.feeds[t].phase.due && l in s.lanes
        && s.feeds[t].log != []
      then
        var p := s.feeds[t].phase;
        Some(WithLane(WithPhase(s, t, Forwarding(p.due - {l})), l,
                      Offered(s.lanes[l], |s.feeds[t].log| - 1)))
      else None
    case End(t) =>
      if t in s.feeds && s.feeds[t].phase.Forwarding? && s.feeds[t].phase.due == {}
      then Some(WithPhase(s, t, Quiet)) else None
    case Subscribe(l, t, cap) =>
      if l !in s.lanes && l !in s.table && t in s.feeds && cap > 0 && Unlocked(s)
      then Some(WithLane(s, l, NewLane(t, cap, Upcoming(s.feeds[t]))).(table := s.table[l := t])) else None
    case Unsubscribe(l) =>
      if l in s.table && Unlocked(s) then Some(s.(table := s.table - {l})) else None
    case Take(l) =>
      if l in s.lanes && s.lanes[l].queue != [] && s.lanes[l].hand == []
      then Some(WithLane(s, l, Taken(s.lanes[l]))) else None
    case Deliver(l) =>
      if l in s.lanes && s.lanes[l].hand != [] && s.lanes[l].lost == []
      then Some(WithLane(s, l, Delivered(s.lanes[l]))) else None
    case Lose(l) =>
      if l in s.lanes && s.lanes[l].hand != []
      then Some(WithLane(s, l, Lost(s.lanes[l]))) else None
  }

  function Run(s: State, steps: seq<Step>): Option<State> { Machines.Run(Next, s, steps) }

  // ---------------------------------------------------------------------------------------------------------------
  // One lane by itself: packets are accepted in order, and written in the order of acceptance.

  ghost predicate Increasing(s: seq<nat>) { forall i, j :: 0 <= i < j < |s| ==> s[i] < s[j] }

  ghost predicate Ordered(lane: Lane) {
    && lane.accepted == lane.written + lane.lost + lane.hand + lane.queue
    && |lane.hand| <= 1 && |lane.queue| <= lane.cap
    && Increasing(lane.accepted)
    && lane.since <= lane.next
    && (forall i :: 0 <= i < |lane.accepted| ==> lane.since <= lane.accepted[i] < lane.next)
    && |lane.accepted| + lane.dropped == lane.next - lane.since
  }

  lemma OfferedIsOrdered(lane: Lane)
    requires Ordered(lane)
    ensures Ordered(Offered(lane, lane.next))
  {
  }

  lemma WriterKeepsOrder(lane: Lane)
    requires Ordered(lane)
    ensures lane.queue != [] && lane.hand == [] ==> Ordered(Taken(lane))
    ensures lane.lost == [] ==> Ordered(Delivered(lane))
    ensures Ordered(Lost(lane))
  {
    if lane.queue != [] { assert lane.queue == [lane.queue[0]] + lane.queue[1..]; }
  }

  // ---------------------------------------------------------------------------------------------------------------
  // All lanes together.

  /** What the lane of a subscriber still has to get: nothing, or the last packet read. */
  ghost predicate UpToDate(s: State, l: Lid) {
    l in s.table ==>
      && l in s.lanes && s.lanes[l].track == s.table[l] && s.table[l] in s.feeds
      && var f := s.feeds[s.table[l]];
         s.lanes[l].next ==
           if f.phase.Loaded? || (f.phase.Forwarding? && l in f.phase.due) then |f.log| - 1 else |f.log|
  }

  ghost predicate LaneFine(s: State, l: Lid) {
    l in s.lanes ==>
      && Ordered(s.lanes[l]) && s.lanes[l].track in s.feeds
      && s.lanes[l].next <= |s.feeds[s.lanes[l].track].log|
  }

  ghost predicate FeedFine(s: State, t: Track) {
    t in s.feeds ==>
      && (!s.feeds[t].phase.Quiet? ==> s.feeds[t].log != [])
      && (s.feeds[t].phase.Forwarding? ==>
          forall l {:trigger l in s.table} :: l in s.feeds[t].phase.due ==> l in s.table && s.table[l] == t)
  }

  ghost predicate Fine(s: State) {
    && (forall l {:trigger UpToDate(s, l)} :: UpToDate(s, l))
    && (forall l {:trigger LaneFine(s, l)} :: LaneFine(s, l))
    && (forall t {:trigger FeedFine(s, t)} :: FeedFine(s, t))
  }

  /** An offer gives the last packet of the track to a lane that is due exactly that packet. */
  lemma OfferIsDue(s: State, t: Track, l: Lid)
    requires Fine(s) && Next(s, Offer(t, l)).Some?
    ensures l in s.table && s.table[l] == t && s.lanes[l].track == t
    ensures s.lanes[l].next == |s.feeds[t].log| - 1 && Ordered(s.lanes[l])
  {
    assert FeedFine(s, t) && UpToDate(s, l) && LaneFine(s, l);
    assert l in s.table;
  }

  lemma UpToDateKept(s: State, s': State, step: Step, l: Lid)
    requires Fine(s) && Next(s, step) == Some(s')
    ensures UpToDate(s', l)
  {
    assert UpToDate(s, l) && LaneFine(s, l);
    if l in s.table { assert FeedFine(s, s.table[l]); }
    if step.Offer? { OfferIsDue(s, step.t, step.l); }
    if step.Subscribe? { assert FeedFine(s, step.t); }
  }

  /** Logs only grow, and a lane only changes by a step of its own. */
  lemma LogsGrow(s: State, s': State, step: Step, t: Track)
    requires Next(s, step) == Some(s') && t in s.feeds
    ensures t in s'.feeds && s.feeds[t].log <= s'.feeds[t].log
  {
  }

  predicate Own(step: Step, l: Lid) {
    (step.Offer? || step.Subscribe? || step.Take? || step.Deliver? || step.Lose?) && step.l == l
  }

  lemma LaneFineKept(s: State, s': State, step: Step, l: Lid)
    requires Fine(s) && Next(s, step) == Some(s')
    ensures LaneFine(s', l)
  {
    assert LaneFine(s, l);
    if Own(step, l) {
      OwnStepKeepsLane(s, s', step, l);
    } else if l in s'.lanes {
      assert l in s.lanes && s'.lanes[l] == s.lanes[l];
      LogsGrow(s, s', step, s.lanes[l].track);
    }
  }

  lemma OwnStepKeepsLane(s: State, s': State, step: Step, l: Lid)
    requires Fine(s) && Own(step, l) && Next(s, step) == Some(s')
    ensures LaneFine(s', l)
  {
    assert LaneFine(s, l);
    if step.Offer? {
      OfferIsDue(s, step.t, l);
      OfferedIsOrdered(s.lanes[l]);
    } else if step.Subscribe? {
      assert FeedFine(s, step.t);
    } else {
      WriterKeepsOrder(s.lanes[l]);
    }
  }

  lemma FeedFineKept(s: State, s': State, step: Step, t: Track)
    requires Fine(s) && Next(s, step) == Some(s')
    ensures FeedFine(s', t)
  {
    assert FeedFine(s, t);
    if t in s'.feeds && s'.feeds[t].phase.Forwarding? {
      assert !step.Subscribe? && !step.Unsubscribe?;
      assert s'.table == s.table;
      forall l | l in s'.feeds[t].phase.due ensures l in s'.table && s'.table[l] == t {
        assert l in s.table ==> UpToDate(s, l);
      }
    }
  }

  lemma StepKeepsFine(s: State, s': State, step: Step)
    requires Fine(s) && Next(s, step) == Some(s')
    ensures Fine(s')
  {
    forall l ensures UpToDate(s', l) { UpToDateKept(s, s', step, l); }
    forall l ensures LaneFine(s', l) { LaneFineKept(s, s', step, l); }
    forall t ensures FeedFine(s', t) { FeedFineKept(s, s', step, t); }
  }

  lemma {:induction false} RunKeepsFine(s: State, steps: seq<Step>)
    requires Fine(s) && Run(s, steps).Some?
    ensures Fine(Run(s, steps).value)
    decreases |steps|
  {
    if steps != [] {
      var s' := Next(s, steps[0]).value;
      StepKeepsFine(s, s', steps[0]);
      RunKeepsFine(s', steps[1..]);
    }
  }

  lemma InitFine()
    ensures Fine(Init())
  {
  }

  // ---------------------------------------------------------------------------------------------------------------
  // The log of a track is what was received on it.

  function LogOf(a: State, t: Track): seq<Bytes> { if t in a.feeds then a.feeds[t].log else [] }

  function Received(steps: seq<Step>, t: Track): seq<Bytes>
    decreases |steps|
  {
    if steps == [] then []
    else (if steps[0].Receive? && steps[0].t == t then [steps[0].payload] else []) + Received(steps[1..], t)
  }

  lemma StepLogs(s: State, step: Step, t: Track)
    requires Next(s, step).Some?
    ensures LogOf(Next(s, step).value, t)
         == LogOf(s, t) + (if step.Receive? && step.t == t then [step.payload] else [])
  {
  }

  lemma InOrder(a: seq<Bytes>, b: seq<Bytes>, c: seq<Bytes>)
    ensures (a + b) + c == a + (b + c)
  {
  }

  lemma {:induction false} RunLogs(s: State, steps: seq<Step>, t: Track)
    requires Run(s, steps).Some?
    ensures LogOf(Run(s, steps).value, t) == LogOf(s, t) + Received(steps, t)
    decreases |steps|
  {
    if steps != [] {
      var s1 := Next(s, steps[0]).value;
      var head := if steps[0].Receive? && steps[0].t == t then [steps[0].payload] else [];
      StepLogs(s, steps[0], t);
      RunLogs(s1, steps[1..], t);
      InOrder(LogOf(s, t), head, Received(steps[1..], t));
    }
  }

  /** A lane keeps its beginning, its track and its capacity. */
  lemma {:induction false} RunKeepsSince(s: State, steps: seq<Step>, l: Lid)
    requires Run(s, steps).Some? && l in s.lanes
    ensures var s' := Run(s, steps).value;
            l in s'.lanes && s'.lanes[l].since == s.lanes[l].since && s'.lanes[l].track == s.lanes[l].track
    decreases |steps|
  {
    if steps != [] { RunKeepsSince(Next(s, steps[0]).value, steps[1..], l); }
  }

  function AcceptedBy(s: State, l: Lid): seq<nat> { if l in s.lanes then s.lanes[l].accepted else [] }

  lemma OnlyOffersAdvance(s: State, step: Step, l: Lid)
    requires Fine(s) && Next(s, step).Some? && l in s.lanes
    ensures var s' := Next(s, step).value;
            l in s'.lanes && s'.lanes[l].next == s.lanes[l].next + if step.Offer? && step.l == l then 1 else 0
  {
    if step.Offer? { OfferIsDue(s, step.t, step.l); }
  }

  lemma OnlyOffersAccept(s: State, step: Step, l: Lid)
    requires Next(s, step).Some? && !(step.Offer? && step.l == l)
    ensures AcceptedBy(Next(s, step).value, l) == AcceptedBy(s, l)
  {
  }

  lemma StepKeepsAccepted(s: State, step: Step, l: Lid, t: Track)
    requires Next(s, step).Some?
    ensures AcceptedBy(s, l) <= AcceptedBy(Next(s, step).value, l) && LogOf(s, t) <= LogOf(Next(s, step).value, t)
  {
    StepLogs(s, step, t);
  }

  /** What was accepted stays accepted, and what was received stays received. */
  lemma {:induction false} RunKeepsAccepted(s: State, steps: seq<Step>, l: Lid, t: Track)
    requires Run(s, steps).Some?
    ensures AcceptedBy(s, l) <= AcceptedBy(Run(s, steps).value, l) && LogOf(s, t) <= LogOf(Run(s, steps).value, t)
    decreases |steps|
  {
    if steps != [] {
      StepKeepsAccepted(s, steps[0], l, t);
      RunKeepsAccepted(Next(s, steps[0]).value, steps[1..], l, t);
    }
  }
}
