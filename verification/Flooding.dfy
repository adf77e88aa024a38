/**
 * Split-horizon forwarding of one track over the cascade bridges of a room.
 *
 * A node that holds the track offers it to every bridge, except when the track's owner tag names the bridge's
 * remote node (room.go 346-352 and 479-483). The remote end stores it under the owner tag "cascade-<sender>".
 * The bridges of a settled cluster form a forest: every guest has one bridge, to its parent. Only the guest negotiates:
 * a track that its parent adds to the bridge waits until the guest makes another offer, which the parent answers.
 */
module Flooding {
  import opened Options
  import Collections
  import Machines
  import Ownership

  type Node = string
  type Hop = (Node, Node)

  /** parents[n] is the node to which n opened its bridge. */
  type Forest = map<Node, Node>

  function Tag(remote: Node): string { "cascade-" + remote }

  lemma TagIsInjective(a: Node, b: Node)
    ensures Tag(a) == Tag(b) ==> a == b
  {
    assert Tag(a)[8..] == a && Tag(b)[8..] == b;
  }

  /** Ranks grow along parent pointers, which is what makes the map a forest. */
  ghost predicate Ranked(parents: Forest, rank: map<Node, nat>) {
    && parents.Keys <= rank.Keys
    && (forall n :: n in parents && parents[n] in parents ==> rank[n] < rank[parents[n]])
  }

  /** a has opened the bridge to b, so it negotiates what it adds. */
  predicate Initiates(parents: Forest, a: Node, b: Node) { a in parents && parents[a] == b }

  predicate Linked(parents: Forest, a: Node, b: Node) {
    Initiates(parents, a, b) || Initiates(parents, b, a)
  }

  datatype State = State(
    arrived: map<Node, string>,   // the owner tag under which a node's router holds the track
    offered: set<Hop>,            // (a, b): a's bridge to b has a sender for the track
    wire: set<Hop>,               // offered, not yet delivered
    renewed: set<Hop>,            // offered by a parent, and its guest has made an offer since
    log: seq<Hop>)                // deliveries in order

  datatype Step =
    | Offer(a: Node, b: Node)
    | Renew(a: Node, b: Node)     // b makes an offer to a for another reason
    | Deliver(a: Node, b: Node)

  function Next(parents: Forest, s: State, step: Step): Option<State> {
    match step
    case Offer(a, b) =>
      if a in s.arrived && Linked(parents, a, b) && s.arrived[a] != Tag(b) && (a, b) !in s.offered
      then Some(s.(offered := s.offered + {(a, b)}, wire := s.wire + {(a, b)}))
      else None
    case Renew(a, b) =>
      if (a, b) in s.wire && !Initiates(parents, a, b) && (a, b) !in s.renewed
      then Some(s.(renewed := s.renewed + {(a, b)}))
      else None
    case Deliver(a, b) =>
      if (a, b) in s.wire && (Initiates(parents, a, b) || (a, b) in s.renewed)
      then Some(s.(wire := s.wire - {(a, b)}, log := s.log + [(a, b)], arrived := s.arrived[b := Tag(a)]))
      else None
  }

  function Run(parents: Forest, s: State, steps: seq<Step>): Option<State> {
    Machines.Run((x, step) => Next(parents, x, step), s, steps)
  }

  /** The track is published by a local peer of origin. */
  function Published(origin: Node, owner: string): State {
    State(map[origin := owner], {}, {}, {}, [])
  }

  /** The ancestor of n that is k parent pointers away. */
  function Up(parents: Forest, n: Node, k: nat): Option<Node> {
    if k == 0 then Some(n)
    else
      var below := Up(parents, n, k - 1);
      if below.Some? && below.value in parents then Some(parents[below.value]) else None
  }

  lemma {:induction false} RankGrowsUpward(parents: Forest, rank: map<Node, nat>, n: Node, i: nat, j: nat)
    requires Ranked(parents, rank) && i < j
    requires Up(parents, n, j).Some? && Up(parents, n, j).value in parents
    ensures Up(parents, n, i).Some? && Up(parents, n, i).value in parents
    ensures rank[Up(parents, n, i).value] < rank[Up(parents, n, j).value]
    decreases j
  {
    if i < j - 1 {
      RankGrowsUpward(parents, rank, n, i, j - 1);
    }
  }

  /** A node is met at most once on the way up. */
  lemma UpIsInjective(parents: Forest, rank: map<Node, nat>, n: Node, i: nat, j: nat)
    requires Ranked(parents, rank) && i < j
    requires Up(parents, n, j).Some?
    ensures Up(parents, n, i).Some? && Up(parents, n, i) != Up(parents, n, j)
  {
    var below := Up(parents, n, j - 1).value;
    if i < j - 1 {
      RankGrowsUpward(parents, rank, n, i, j - 1);
    }
    if Up(parents, n, i) == Up(parents, n, j) {
      RankGrowsUpward(parents, rank, n, i, j);
    }
  }

  ghost predicate IsUp(parents: Forest, origin: Node, k: nat, x: Node) {
    Up(parents, origin, k) == Some(x)
  }

  ghost predicate OnChain(parents: Forest, origin: Node, x: Node) {
    exists k: nat :: IsUp(parents, origin, k, x)
  }

  /** x is the k-th ancestor of the origin and y the one below it. */
  ghost predicate StepUp(parents: Forest, origin: Node, k: nat, x: Node, y: Node) {
    k > 0 && IsUp(parents, origin, k, x) && IsUp(parents, origin, k - 1, y)
  }

  /** y is the neighbour of x through which the origin is reached. */
  ghost predicate Toward(parents: Forest, origin: Node, x: Node, y: Node) {
    || (exists k: nat :: StepUp(parents, origin, k, x, y))
    || (!OnChain(parents, origin, x) && x in parents && parents[x] == y)
  }

  lemma ChainIndexIsUnique(parents: Forest, rank: map<Node, nat>, n: Node, i: nat, j: nat)
    requires Ranked(parents, rank)
    requires Up(parents, n, i).Some? && Up(parents, n, i) == Up(parents, n, j)
    ensures i == j
  {
    if i < j { UpIsInjective(parents, rank, n, i, j); }
    if j < i { UpIsInjective(parents, rank, n, j, i); }
  }

  lemma TowardIsUnique(parents: Forest, rank: map<Node, nat>, origin: Node, x: Node, y: Node, z: Node)
    requires Ranked(parents, rank)
    requires Toward(parents, origin, x, y) && Toward(parents, origin, x, z)
    ensures x != origin && y == z
  {
    if OnChain(parents, origin, x) {
      var k: nat :| StepUp(parents, origin, k, x, y);
      var m: nat :| StepUp(parents, origin, m, x, z);
      ChainIndexIsUnique(parents, rank, origin, k, m);
      UpIsInjective(parents, rank, origin, 0, k);
    } else {
      assert IsUp(parents, origin, 0, origin);
    }
  }

  lemma TowardIsOneWay(parents: Forest, rank: map<Node, nat>, origin: Node, x: Node, y: Node)
    requires Ranked(parents, rank)
    requires Toward(parents, origin, x, y)
    ensures !Toward(parents, origin, y, x)
  {
    if OnChain(parents, origin, x) && OnChain(parents, origin, y) {
      var k: nat, m: nat :| IsUp(parents, origin, k, x) && IsUp(parents, origin, m, y);
      forall j: nat | IsUp(parents, origin, j, x) ensures j == k { ChainIndexIsUnique(parents, rank, origin, j, k); }
      forall j: nat | IsUp(parents, origin, j, y) ensures j == m { ChainIndexIsUnique(parents, rank, origin, j, m); }
    }
  }

  /** Every offer leads away from the origin; deliveries are offers that left the wire, each of them once. */
  ghost predicate Inv(parents: Forest, origin: Node, s: State) {
    && (forall a, b :: (a, b) in s.offered ==> a in s.arrived && Linked(parents, a, b) && Toward(parents, origin, b, a))
    && (forall h :: h in s.offered <==> h in s.wire || h in s.log)
    && (forall h :: h in s.wire ==> h !in s.log)
    && s.renewed <= s.offered
    && (forall i, j :: 0 <= i < j < |s.log| ==> s.log[i] != s.log[j])
    && (forall n :: n in s.arrived && n != origin ==> exists a :: (a, n) in s.log && s.arrived[n] == Tag(a))
  }

  /** The heart of the argument: an offer that the split-horizon rule lets through leads away from the origin. */
  lemma OfferLeadsAway(parents: Forest, rank: map<Node, nat>, origin: Node, s: State, a: Node, b: Node)
    requires Ranked(parents, rank) && Inv(parents, origin, s)
    requires Next(parents, s, Offer(a, b)).Some?
    ensures Toward(parents, origin, b, a)
  {
    assert IsUp(parents, origin, 0, origin);
    if a in parents && parents[a] == b {
      assert OnChain(parents, origin, a);
      var k: nat :| IsUp(parents, origin, k, a);
      assert StepUp(parents, origin, k + 1, b, a);
    } else if k: nat :| IsUp(parents, origin, k, b) {
      assert StepUp(parents, origin, k + 1, a, b);
      UpIsInjective(parents, rank, origin, 0, k + 1);
      var z :| (z, a) in s.log && s.arrived[a] == Tag(z);
      TowardIsUnique(parents, rank, origin, a, b, z);
    }
  }

  lemma StepKeepsInv(parents: Forest, rank: map<Node, nat>, origin: Node, s: State, step: Step)
    requires Ranked(parents, rank) && Inv(parents, origin, s)
    requires Next(parents, s, step).Some?
    ensures Inv(parents, origin, Next(parents, s, step).value)
  {
    var s' := Next(parents, s, step).value;
    match step
    case Offer(a, b) =>
      OfferLeadsAway(parents, rank, origin, s, a, b);
    case Renew(a, b) =>
    case Deliver(a, b) =>
      assert s'.log[|s.log|] == (a, b);
      assert forall h :: h in s'.log <==> h in s.log || h == (a, b);
      forall n | n in s'.arrived && n != origin
        ensures exists z :: (z, n) in s'.log && s'.arrived[n] == Tag(z)
      {
        if n == b {
          assert (a, n) in s'.log;
        } else {
          var z :| (z, n) in s.log && s.arrived[n] == Tag(z);
          assert (z, n) in s'.log;
        }
      }
  }

  lemma {:induction false} RunKeepsInv(parents: Forest, rank: map<Node, nat>, origin: Node, s: State, steps: seq<Step>)
    requires Ranked(parents, rank) && Inv(parents, origin, s)
    requires Run(parents, s, steps).Some?
    ensures Inv(parents, origin, Run(parents, s, steps).value)
    decreases |steps|
  {
    if steps != [] {
      StepKeepsInv(parents, rank, origin, s, steps[0]);
      RunKeepsInv(parents, rank, origin, Next(parents, s, steps[0]).value, steps[1..]);
    }
  }

  lemma LogIsSimple(parents: Forest, rank: map<Node, nat>, origin: Node, s: State)
    requires Ranked(parents, rank) && Inv(parents, origin, s)
    ensures forall i, j :: 0 <= i < j < |s.log| ==> s.log[i].1 != s.log[j].1
    ensures forall i :: 0 <= i < |s.log| ==> s.log[i].1 != origin
    ensures forall a, b :: (a, b) in s.log ==> (b, a) !in s.log
  {
    forall h | h in s.log ensures Toward(parents, origin, h.1, h.0) {
      assert (h.0, h.1) in s.offered;
    }
    forall i, j | 0 <= i < j < |s.log| ensures s.log[i].1 != s.log[j].1 {
      var g, h := s.log[i], s.log[j];
      assert g in s.log && h in s.log;
      if g.1 == h.1 { TowardIsUnique(parents, rank, origin, g.1, g.0, h.0); }
    }
    forall i | 0 <= i < |s.log| ensures s.log[i].1 != origin {
      assert s.log[i] in s.log;
      TowardIsUnique(parents, rank, origin, s.log[i].1, s.log[i].0, s.log[i].0);
    }
    forall a, b | (a, b) in s.log ensures (b, a) !in s.log {
      TowardIsOneWay(parents, rank, origin, b, a);
    }
  }

  /** Nodes that a track can be sent to. */
  function Others(parents: Forest, origin: Node): set<Node> { parents.Keys + parents.Values - {origin} }

  lemma LogFits(parents: Forest, rank: map<Node, nat>, origin: Node, s: State)
    requires Ranked(parents, rank) && Inv(parents, origin, s)
    ensures |s.log| <= |Others(parents, origin)|
  {
    LogIsSimple(parents, rank, origin, s);
    var targets := seq(|s.log|, i requires 0 <= i < |s.log| => s.log[i].1);
    var nodes := Others(parents, origin);
    forall i | 0 <= i < |targets| ensures targets[i] in nodes {
      var (a, b) := s.log[i];
      assert (a, b) in s.log && (a, b) in s.offered;
    }
    Collections.DistinctFits(targets, nodes);
  }

  /** No delivery goes to a node that had one, to the origin, or back. */
  ghost predicate VisitsOnce(log: seq<Hop>, origin: Node) {
    && (forall i, j :: 0 <= i < j < |log| ==> log[i].1 != log[j].1)
    && (forall i :: 0 <= i < |log| ==> log[i].1 != origin)
    && (forall a, b :: (a, b) in log ==> (b, a) !in log)
  }

  /** Different hops of the set have different targets. */
  predicate Fans(hops: set<Hop>) { forall g, h :: g in hops && h in hops && g.1 == h.1 ==> g == h }

  lemma {:induction false} FanFits(hops: set<Hop>, nodes: set<Node>)
    requires Fans(hops) && forall h :: h in hops ==> h.1 in nodes
    ensures |hops| <= |nodes|
    decreases |hops|
  {
    if hops != {} {
      var h :| h in hops;
      FanFits(hops - {h}, nodes - {h.1});
    }
  }

  /** A node is offered the track by one neighbour at most, the origin by none. */
  lemma OffersFit(parents: Forest, rank: map<Node, nat>, origin: Node, s: State)
    requires Ranked(parents, rank) && Inv(parents, origin, s)
    ensures |s.offered| <= |Others(parents, origin)|
  {
    forall g, h | g in s.offered && h in s.offered && g.1 == h.1 ensures g == h {
      assert (g.0, g.1) in s.offered && (h.0, h.1) in s.offered;
      TowardIsUnique(parents, rank, origin, g.1, g.0, h.0);
    }
    forall h | h in s.offered ensures h.1 in Others(parents, origin) {
      assert (h.0, h.1) in s.offered;
      TowardIsUnique(parents, rank, origin, h.1, h.0, h.0);
    }
    FanFits(s.offered, Others(parents, origin));
  }

  /** Every step makes a new offer, a renewal or a delivery. */
  lemma {:induction false} StepsAreCounted(parents: Forest, s: State, steps: seq<Step>)
    requires Run(parents, s, steps).Some?
    ensures var s' := Run(parents, s, steps).value;
            |s'.offered| + |s'.renewed| + |s'.log| == |s.offered| + |s.renewed| + |s.log| + |steps|
    decreases |steps|
  {
    if steps != [] { StepsAreCounted(parents, Next(parents, s, steps[0]).value, steps[1..]); }
  }

  /**
   * Main result on any forest: every node gets the track at most once, the origin never, and nothing goes back; and the
   * flooding ends, after at most one offer, one renewal and one delivery for each node but the origin.
   */
  lemma FloodingVisitsOnce(parents: Forest, rank: map<Node, nat>, origin: Node, owner: string, steps: seq<Step>)
    requires Ranked(parents, rank)
    requires Run(parents, Published(origin, owner), steps).Some?
    ensures VisitsOnce(Run(parents, Published(origin, owner), steps).value.log, origin)
    ensures |Run(parents, Published(origin, owner), steps).value.log| <= |Others(parents, origin)|
    ensures |steps| <= 3 * |Others(parents, origin)|
  {
    var s := Run(parents, Published(origin, owner), steps).value;
    RunKeepsInv(parents, rank, origin, Published(origin, owner), steps);
    LogIsSimple(parents, rank, origin, s);
    LogFits(parents, rank, origin, s);
    OffersFit(parents, rank, origin, s);
    StepsAreCounted(parents, Published(origin, owner), steps);
    Collections.SubsetSize(s.renewed, s.offered);
  }

  // ---------------------------------------------------------------------------------------------------------------
  // The rule stops nothing but what would go back; what it lets through may wait for a guest.

  /**
   * The track is where it was delivered; at its origin it keeps its owner's name, which no offer from there has met.
   */
  ghost predicate Kept(origin: Node, owner: string, s: State) {
    && origin in s.arrived && s.arrived[origin] == owner
    && (forall h :: h in s.log ==> h.1 in s.arrived)
    && (forall b :: (origin, b) in s.offered ==> owner != Tag(b))
    && (forall i :: 0 <= i < |s.log| ==> Relayed(origin, s.log, i))
  }

  /** Who delivered this had it from an earlier delivery, or is the origin. */
  ghost predicate Relayed(origin: Node, log: seq<Hop>, i: nat)
    requires i < |log|
  {
    log[i].0 == origin || exists j :: 0 <= j < i && log[j].1 == log[i].0
  }

  lemma {:induction false} RunKeepsTrack(
    parents: Forest, rank: map<Node, nat>, origin: Node, owner: string, s: State, steps: seq<Step>)
    requires Ranked(parents, rank) && Inv(parents, origin, s) && Kept(origin, owner, s)
    requires Run(parents, s, steps).Some?
    ensures Kept(origin, owner, Run(parents, s, steps).value)
    decreases |steps|
  {
    if steps != [] {
      var s' := Next(parents, s, steps[0]).value;
      StepKeepsInv(parents, rank, origin, s, steps[0]);
      if steps[0].Deliver? {
        var (a, b) := (steps[0].a, steps[0].b);
        assert (a, b) in s.offered;
        TowardIsUnique(parents, rank, origin, b, a, a);
        assert forall h :: h in s'.log <==> h in s.log || h == (a, b);
        StillRelayed(parents, origin, owner, s, a, b);
      }
      RunKeepsTrack(parents, rank, origin, owner, s', steps[1..]);
    }
  }

  lemma StillRelayed(parents: Forest, origin: Node, owner: string, s: State, a: Node, b: Node)
    requires Inv(parents, origin, s) && Kept(origin, owner, s) && a in s.arrived
    ensures forall i :: 0 <= i <= |s.log| ==> Relayed(origin, s.log + [(a, b)], i)
  {
    var log := s.log + [(a, b)];
    forall i | 0 <= i <= |s.log| ensures Relayed(origin, log, i) {
      if i < |s.log| {
        assert Relayed(origin, s.log, i);
        if j :| 0 <= j < i && s.log[j].1 == s.log[i].0 { assert log[j].1 == log[i].0; }
      } else if a != origin {
        var z :| (z, a) in s.log;
        var j :| 0 <= j < |s.log| && s.log[j] == (z, a);
        assert log[j].1 == a;
      }
    }
  }

  /** A node does not offer its track to a neighbour exactly when it came from there, or its owner has that name. */
  lemma OfferStoppedExactlyWhen(
    parents: Forest, rank: map<Node, nat>, origin: Node, owner: string, steps: seq<Step>, a: Node, b: Node)
    requires Ranked(parents, rank) && Run(parents, Published(origin, owner), steps).Some?
    requires var s := Run(parents, Published(origin, owner), steps).value;
             a in s.arrived && Linked(parents, a, b) && (a, b) !in s.offered
    ensures var s := Run(parents, Published(origin, owner), steps).value;
            Next(parents, s, Offer(a, b)).None? <==> if a == origin then owner == Tag(b) else (b, a) in s.log
  {
    RunKeepsInv(parents, rank, origin, Published(origin, owner), steps);
    RunKeepsTrack(parents, rank, origin, owner, Published(origin, owner), steps);
    var s := Run(parents, Published(origin, owner), steps).value;
    if a != origin {
      var z :| (z, a) in s.log && s.arrived[a] == Tag(z);
      TagIsInjective(z, b);
      if (b, a) in s.log {
        assert (b, a) in s.offered && (z, a) in s.offered;
        TowardIsUnique(parents, rank, origin, a, b, z);
      }
    }
  }

  /** No offer is left to make, and none to deliver; some may wait for a guest. */
  ghost predicate Quiet(parents: Forest, s: State) {
    forall a, b :: Next(parents, s, Offer(a, b)).None? && Next(parents, s, Deliver(a, b)).None?
  }

  ghost predicate Links(parents: Forest, walk: seq<Node>) {
    forall i :: 0 <= i < |walk| - 1 ==> Linked(parents, walk[i], walk[i + 1])
  }

  /** The flooding from its start has come to rest in s. */
  ghost predicate RestsIn(
    parents: Forest, rank: map<Node, nat>, origin: Node, owner: string, steps: seq<Step>, s: State)
  {
    Ranked(parents, rank) && Run(parents, Published(origin, owner), steps) == Some(s) && Quiet(parents, s)
  }

  /**
   * At rest, a neighbour of a node with the track is without it exactly when the rule withholds it, because its tag is
   * the owner's name, or it is a guest that has made no offer since the track was added to its bridge.
   */
  lemma NeighbourLacksExactlyWhen(
    parents: Forest, rank: map<Node, nat>, origin: Node, owner: string, steps: seq<Step>, s: State, a: Node, b: Node)
    requires RestsIn(parents, rank, origin, owner, steps, s) && a in s.arrived && Linked(parents, a, b)
    ensures b !in s.arrived <==>
              (a == origin && owner == Tag(b)) || ((a, b) in s.wire && Initiates(parents, b, a) && (a, b) !in s.renewed)
  {
    RunKeepsInv(parents, rank, origin, Published(origin, owner), steps);
    RunKeepsTrack(parents, rank, origin, owner, Published(origin, owner), steps);
    assert Next(parents, s, Offer(a, b)).None? && Next(parents, s, Deliver(a, b)).None?;
    if (a, b) in s.offered {
      OfferedIsServedOnlyBy(parents, rank, origin, s, a, b);
    } else {
      OfferStoppedExactlyWhen(parents, rank, origin, owner, steps, a, b);
      if a == origin {
        NeighbourIsToward(parents, rank, origin, b);
        ServedOnlyFromOrigin(parents, rank, origin, s, b);
      } else {
        assert b != origin ==> (b, a) in s.offered;
      }
    }
  }

  /** A node that was offered the track has it only by the delivery of that offer. */
  lemma OfferedIsServedOnlyBy(parents: Forest, rank: map<Node, nat>, origin: Node, s: State, a: Node, b: Node)
    requires Ranked(parents, rank) && Inv(parents, origin, s) && (a, b) in s.offered
    ensures b in s.arrived ==> (a, b) in s.log
    ensures b != origin
  {
    TowardIsUnique(parents, rank, origin, b, a, a);
    if b in s.arrived {
      var z :| (z, b) in s.log && s.arrived[b] == Tag(z);
      assert (z, b) in s.offered;
      TowardIsUnique(parents, rank, origin, b, a, z);
    }
  }

  lemma ServedOnlyFromOrigin(parents: Forest, rank: map<Node, nat>, origin: Node, s: State, b: Node)
    requires Ranked(parents, rank) && Inv(parents, origin, s) && Toward(parents, origin, b, origin) && b != origin
    ensures b in s.arrived ==> (origin, b) in s.offered
  {
    if b in s.arrived {
      var z :| (z, b) in s.log && s.arrived[b] == Tag(z);
      assert (z, b) in s.offered;
      TowardIsUnique(parents, rank, origin, b, origin, z);
    }
  }

  /** A way from the origin that does not begin at a neighbour whose tag is the owner's name. */
  ghost predicate OpenWay(parents: Forest, origin: Node, owner: string, walk: seq<Node>) {
    && walk != [] && walk[0] == origin && Links(parents, walk)
    && forall i :: 0 <= i < |walk| - 1 && walk[i] == origin ==> owner != Tag(walk[i + 1])
  }

  lemma {:induction false} WayIsServed(
    parents: Forest, rank: map<Node, nat>, origin: Node, owner: string, steps: seq<Step>, s: State, walk: seq<Node>)
    requires RestsIn(parents, rank, origin, owner, steps, s) && OpenWay(parents, origin, owner, walk)
    requires s.wire == {}
    ensures walk[|walk| - 1] in s.arrived
    decreases |walk|
  {
    RunKeepsTrack(parents, rank, origin, owner, Published(origin, owner), steps);
    if |walk| > 1 {
      var k := |walk| - 2;
      assert forall i :: 0 <= i < k ==> Linked(parents, walk[i], walk[i + 1]);
      WayIsServed(parents, rank, origin, owner, steps, s, walk[..k + 1]);
      NeighbourLacksExactlyWhen(parents, rank, origin, owner, steps, s, walk[k], walk[k + 1]);
    }
  }

  /** The way by which the track has come. */
  lemma {:induction false} HolderHasWay(
    parents: Forest, rank: map<Node, nat>, origin: Node, owner: string, s: State, i: nat) returns (walk: seq<Node>)
    requires Ranked(parents, rank) && Inv(parents, origin, s) && Kept(origin, owner, s)
    requires i < |s.log|
    ensures OpenWay(parents, origin, owner, walk) && walk[|walk| - 1] == s.log[i].1
    decreases i
  {
    var (a, b) := s.log[i];
    assert (a, b) in s.log && (a, b) in s.offered;
    if a == origin {
      walk := [a, b];
    } else {
      assert Relayed(origin, s.log, i);
      var j :| 0 <= j < i && s.log[j].1 == a;
      var before := HolderHasWay(parents, rank, origin, owner, s, j);
      walk := before + [b];
      forall k | 0 <= k < |walk| - 1
        ensures Linked(parents, walk[k], walk[k + 1]) && (walk[k] == origin ==> owner != Tag(walk[k + 1]))
      {
        if k < |before| - 1 { assert Linked(parents, before[k], before[k + 1]); }
      }
    }
  }

  /**
   * Main result: at rest, every node to which an open way leads from the origin has the track if and only if nothing
   * waits for a guest.
   */
  lemma RestIsCompleteExactlyWhen(
    parents: Forest, rank: map<Node, nat>, origin: Node, owner: string, steps: seq<Step>, s: State)
    requires RestsIn(parents, rank, origin, owner, steps, s)
    ensures (forall walk :: OpenWay(parents, origin, owner, walk) ==> walk[|walk| - 1] in s.arrived) <==> s.wire == {}
  {
    RunKeepsInv(parents, rank, origin, Published(origin, owner), steps);
    RunKeepsTrack(parents, rank, origin, owner, Published(origin, owner), steps);
    if s.wire == {} {
      forall walk | OpenWay(parents, origin, owner, walk) ensures walk[|walk| - 1] in s.arrived {
        WayIsServed(parents, rank, origin, owner, steps, s, walk);
      }
    } else {
      var h :| h in s.wire;
      assert (h.0, h.1) in s.offered;
      OfferedIsServedOnlyBy(parents, rank, origin, s, h.0, h.1);
      var walk := WayTo(parents, rank, origin, owner, s, h.0);
      var longer := walk + [h.1];
      forall k | 0 <= k < |longer| - 1
        ensures Linked(parents, longer[k], longer[k + 1]) && (longer[k] == origin ==> owner != Tag(longer[k + 1]))
      {
        if k < |walk| - 1 { assert Linked(parents, walk[k], walk[k + 1]); }
      }
      assert OpenWay(parents, origin, owner, longer);
    }
  }

  lemma WayTo(parents: Forest, rank: map<Node, nat>, origin: Node, owner: string, s: State, a: Node)
    returns (walk: seq<Node>)
    requires Ranked(parents, rank) && Inv(parents, origin, s) && Kept(origin, owner, s) && a in s.arrived
    ensures OpenWay(parents, origin, owner, walk) && walk[|walk| - 1] == a
  {
    if a == origin {
      walk := [a];
    } else {
      var z :| (z, a) in s.log;
      var i :| 0 <= i < |s.log| && s.log[i] == (z, a);
      walk := HolderHasWay(parents, rank, origin, owner, s, i);
    }
  }

  /** A track that an owner publishes after a guest has attached waits for the guest's next offer. */
  lemma NewTrackWaits(a: Node, b: Node, owner: string)
    requires a != b && owner != Tag(b)
    ensures var rank: map<Node, nat> := map[b := 0];
            exists steps, s :: RestsIn(map[b := a], rank, a, owner, steps, s) && b !in s.arrived && s.wire == {(a, b)}
  {
    var parents, s0, steps := map[b := a], Published(a, owner), [Offer(a, b)];
    var rank: map<Node, nat> := map[b := 0];
    var s := s0.(offered := {(a, b)}, wire := {(a, b)});
    assert s0.offered + {(a, b)} == {(a, b)} && s0.wire + {(a, b)} == {(a, b)};
    assert Next(parents, s0, steps[0]) == Some(s) && steps[1..] == [];
    assert Run(parents, s, steps[1..]) == Some(s);
    assert Run(parents, s0, steps) == Run(parents, s, steps[1..]);
    assert Ranked(parents, rank);
    assert Quiet(parents, s);
    assert RestsIn(parents, rank, a, owner, steps, s);
  }

  lemma NeighbourIsToward(parents: Forest, rank: map<Node, nat>, origin: Node, b: Node)
    requires Ranked(parents, rank) && Linked(parents, origin, b)
    ensures Toward(parents, origin, b, origin) && b != origin
  {
    assert IsUp(parents, origin, 0, origin);
    if origin in parents && parents[origin] == b {
      assert StepUp(parents, origin, 1, b, origin);
    } else if k: nat :| IsUp(parents, origin, k, b) {
      UpIsInjective(parents, rank, origin, 0, k + 1);
    }
    TowardIsUnique(parents, rank, origin, b, origin, origin);
  }

  /** The bridges that are up in a cluster state: one from each guest that managed to open it. */
  function Bridges(s: Ownership.State): Forest {
    map n | n in s.nodes && s.nodes[n].phase.Guest? && s.nodes[n].phase.bridged :: s.nodes[n].phase.parent
  }

  lemma BridgesAreRanked(s: Ownership.State) returns (rank: map<Node, nat>)
    requires Ownership.Acyclic(s)
    ensures Ranked(Bridges(s), rank)
  {
    var (parents, most) := (Bridges(s), |s.nodes| + 2);
    rank := map n | n in parents :: most - Ownership.Height(s, n, most);
    forall n | n in parents && parents[n] in parents ensures rank[n] < rank[parents[n]] { Ownership.HeightFalls(s, n); }
  }

  /**
   * Both halves together: whatever the cluster did before, a track published on its bridges reaches a node at most
   * once, never returns to the node it came from, and the flooding ends after at most one offer, one renewal and one
   * delivery for each node.
   */
  lemma FloodingOnAnyReachableCluster(
      init: Ownership.State, history: seq<Ownership.Step>, origin: Node, owner: string, steps: seq<Step>)
    requires Ownership.Init(init) && Ownership.Run(init, history).Some? && Ownership.HarmlessRun(init, history)
    requires Run(Bridges(Ownership.Run(init, history).value), Published(origin, owner), steps).Some?
    ensures var parents := Bridges(Ownership.Run(init, history).value);
            && VisitsOnce(Run(parents, Published(origin, owner), steps).value.log, origin)
            && |steps| <= 3 * |Others(parents, origin)|
  {
    Ownership.InitIsCalm(init);
    Ownership.RunKeepsCalm(init, history);
    var parents := Bridges(Ownership.Run(init, history).value);
    var rank := BridgesAreRanked(Ownership.Run(init, history).value);
    FloodingVisitsOnce(parents, rank, origin, owner, steps);
  }
}
