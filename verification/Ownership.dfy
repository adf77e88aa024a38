/**
 * Who owns a room in the cluster (CreateRoom and onRoomClosed over the Redis mapping).
 *
 * One room, any number of nodes. The mapping is a shared register that holds at most one node name.
 * Creation reads it and, when the name is missing, unreadable or its own, overwrites it without looking again;
 * otherwise it becomes a guest and opens a bridge to the node it read. Mappings expire, and a closing room
 * deletes whatever mapping it finds, even when the node was only a guest.
 */
module Ownership {
  import opened Options
  import Collections
  import Machines

  type Node = string

  /** What one node is doing with the room. Reading, Claiming and Attaching are inside CreateRoom, under s.mu. */
  datatype Phase =
    | Absent
    | Reading
    | Claiming
    | Attaching(parent: Node, readAt: nat)
    | Owner
    | Guest(parent: Node, readAt: nat, bridged: bool)
  {
    predicate IsGuest() { Attaching? || Guest? }
    predicate Creating() { Reading? || Claiming? || Attaching? }
    predicate Registered() { Owner? || Guest? }
  }

  /**
   * unregistering counts onRoomClosed calls that left the registry and have not yet reached Redis; late counts writes
   * of RegisterRoom calls that have returned and may still reach it.
   */
  datatype NodeState = NodeState(phase: Phase, closed: bool, unregistering: nat, late: nat)

  /** clock counts successful Redis reads; it exists only to order them. */
  datatype State = State(mapping: Option<Node>, clock: nat, nodes: map<Node, NodeState>)

  datatype Step =
    | BeginCreate(n: Node)                  // the checks of CreateRoom passed, s.mu is held
    | ReadMapping(n: Node)                  // GetNodeForRoom returned the name or "not found"
    | ReadFails(n: Node)                    // GetNodeForRoom failed for another reason
    | Claim(n: Node, applied: bool, late: nat)  // RegisterRoom, written or not, with attempts that may come later
    | Land(n: Node)                         // the effect of such an attempt
    | Attach(n: Node, bridged: bool)        // NewCascadeBridge, which may fail
    | CloseRoom(n: Node)                    // the room closed and onRoomClosed took it out of the registry
    | Unregister(n: Node, applied: bool)    // the late UnregisterRoom of an earlier CloseRoom
    | CloseServer(n: Node)                  // Server.Close marks the server closed and empties the registry
    | Sweep(n: Node)                        // Server.Close closes a room that it took from the registry
    | Expire                                // the mapping's time to live ran out

  /** The only node that changes is the one named by the step. */
  function With(s: State, n: Node, ns: NodeState): State {
    s.(nodes := s.nodes[n := ns])
  }

  /** One step of the cluster, None when the step is not possible in s. */
  function Next(s: State, step: Step): Option<State> {
    if step.Expire? then Some(s.(mapping := None))
    else if step.n !in s.nodes then None
    else
      var n, me := step.n, s.nodes[step.n];
      match step
      case BeginCreate(_) =>
        if me.phase.Absent? && !me.closed then Some(With(s, n, me.(phase := Reading))) else None
      case ReadMapping(_) =>
        if !me.phase.Reading? then None
        else if s.mapping.Some? && s.mapping.value != n then
          Some(With(s, n, me.(phase := Attaching(s.mapping.value, s.clock))).(clock := s.clock + 1))
        else
          Some(With(s, n, me.(phase := Claiming)).(clock := s.clock + 1))
      case ReadFails(_) =>
        if me.phase.Reading? then Some(With(s, n, me.(phase := Claiming))) else None
      case Claim(_, applied, late) =>
        if !me.phase.Claiming? then None
        else
          var s' := With(s, n, me.(phase := Owner, late := me.late + late));
          Some(if applied then s'.(mapping := Some(n)) else s')
      case Land(_) =>
        if me.late == 0 then None else Some(With(s, n, me.(late := me.late - 1)).(mapping := Some(n)))
      case Attach(_, bridged) =>
        if me.phase.Attaching?
        then Some(With(s, n, me.(phase := Guest(me.phase.parent, me.phase.readAt, bridged))))
        else None
      case CloseRoom(_) =>
        if me.phase.Registered() && !me.closed
        then Some(With(s, n, me.(phase := Absent, unregistering := me.unregistering + 1)))
        else None
      case Unregister(_, applied) =>
        if me.unregistering == 0 then None
        else
          var s' := With(s, n, me.(unregistering := me.unregistering - 1));
          Some(if applied then s'.(mapping := None) else s')
      case CloseServer(_) =>
        if me.phase.Creating() then None else Some(With(s, n, me.(closed := true)))
      case Sweep(_) =>
        if me.phase.Registered() && me.closed then Some(With(s, n, me.(phase := Absent))) else None
  }

  /** The state after a whole run, None when one of its steps was not possible. */
  function Run(s: State, steps: seq<Step>): Option<State> { Machines.Run(Next, s, steps) }

  /** No node has the room yet; the register may hold a name left over from earlier. */
  predicate Init(s: State) {
    forall n :: n in s.nodes ==> s.nodes[n].phase.Absent?
  }

  predicate GuestOf(s: State, n: Node, parent: Node) {
    n in s.nodes && s.nodes[n].phase.IsGuest() && s.nodes[n].phase.parent == parent
  }

  predicate IsGuestNow(s: State, n: Node) { n in s.nodes && s.nodes[n].phase.IsGuest() }

  /** What every step keeps: the register never names a guest, and read times grow along parent pointers. */
  ghost predicate Inv(s: State) {
    && (s.mapping.Some? && s.mapping.value in s.nodes ==> !s.nodes[s.mapping.value].phase.IsGuest())
    && (forall n :: n in s.nodes && s.nodes[n].phase.IsGuest() ==>
          s.nodes[n].phase.parent != n && s.nodes[n].phase.readAt < s.clock)
    && (forall n, p :: GuestOf(s, n, p) && p in s.nodes && s.nodes[p].phase.IsGuest() ==>
          s.nodes[n].phase.readAt < s.nodes[p].phase.readAt)
  }

  predicate Unchanged(s: State, s': State, n: Node, ns: NodeState)
    requires n in s.nodes
  {
    && s.nodes[n].phase.IsGuest() && (s'.mapping == s.mapping || s'.mapping.None?)
    && ns.phase.IsGuest() && ns.phase.parent == s.nodes[n].phase.parent && ns.phase.readAt == s.nodes[n].phase.readAt
  }

  /** n has just read the name of its new parent. */
  predicate Attached(s: State, s': State, n: Node, ns: NodeState) {
    && ns.phase.IsGuest() && ns.phase.readAt == s.clock < s'.clock && ns.phase.parent != n
    && s'.mapping == s.mapping == Some(ns.phase.parent)
  }

  /** The three ways in which a step may change one node's phase without hurting the invariant. */
  lemma PhaseChangeKeepsInv(s: State, s': State, n: Node, ns: NodeState)
    requires Inv(s) && n in s.nodes
    requires s'.nodes == s.nodes[n := ns] && s.clock <= s'.clock
    requires s'.mapping == s.mapping || s'.mapping.None? || (s'.mapping == Some(n) && !ns.phase.IsGuest())
    requires !ns.phase.IsGuest() || Unchanged(s, s', n, ns) || Attached(s, s', n, ns)
    ensures Inv(s')
  {
    forall m, p | GuestOf(s', m, p) && p in s'.nodes && s'.nodes[p].phase.IsGuest()
      ensures s'.nodes[m].phase.readAt < s'.nodes[p].phase.readAt
    {
      if m != n {
        assert GuestOf(s, m, p);
      } else if s.nodes[n].phase.IsGuest() && s.nodes[n].phase.parent == p {
        assert GuestOf(s, n, p);
      }
    }
  }

  /** A late RegisterRoom takes effect while its node has no guest instance of the room. */
  predicate TimelyLanding(s: State, step: Step) {
    step.Land? && step.n in s.nodes ==> !s.nodes[step.n].phase.IsGuest()
  }

  lemma StepKeepsInv(s: State, step: Step)
    requires Inv(s) && Next(s, step).Some? && TimelyLanding(s, step)
    ensures Inv(Next(s, step).value)
  {
    if !step.Expire? {
      var s' := Next(s, step).value;
      PhaseChangeKeepsInv(s, s', step.n, s'.nodes[step.n]);
    }
  }

  ghost predicate TimelyRun(s: State, steps: seq<Step>)
    decreases |steps|
  {
    steps != [] && Next(s, steps[0]).Some? ==>
      TimelyLanding(s, steps[0]) && TimelyRun(Next(s, steps[0]).value, steps[1..])
  }

  lemma {:induction false} RunKeepsInv(s: State, steps: seq<Step>)
    requires Inv(s) && Run(s, steps).Some? && TimelyRun(s, steps)
    ensures Inv(Run(s, steps).value)
    decreases |steps|
  {
    if steps != [] {
      StepKeepsInv(s, steps[0]);
      RunKeepsInv(Next(s, steps[0]).value, steps[1..]);
    }
  }

  /** The register names a node whose instance is a guest. */
  predicate NamesGuest(s: State) {
    s.mapping.Some? && s.mapping.value in s.nodes && s.nodes[s.mapping.value].phase.IsGuest()
  }

  ghost predicate NeverNamesGuest(s: State, steps: seq<Step>)
    decreases |steps|
  {
    !NamesGuest(s) && (steps != [] && Next(s, steps[0]).Some? ==> NeverNamesGuest(Next(s, steps[0]).value, steps[1..]))
  }

  /** Exactly when the register never names a guest during a run: no late write takes effect while its node is one. */
  lemma {:induction false} TimelyExactlyWhenNoGuestNamed(s: State, steps: seq<Step>)
    requires Inv(s) && Run(s, steps).Some?
    ensures TimelyRun(s, steps) <==> NeverNamesGuest(s, steps)
    decreases |steps|
  {
    if steps != [] {
      var s' := Next(s, steps[0]).value;
      if TimelyLanding(s, steps[0]) {
        StepKeepsInv(s, steps[0]);
        TimelyExactlyWhenNoGuestNamed(s', steps[1..]);
      } else {
        assert NamesGuest(s');
      }
    }
  }

  /** No write is late: none is from before the run, and none becomes so. */
  predicate Prompt(s: State, steps: seq<Step>) {
    && (forall n :: n in s.nodes ==> s.nodes[n].late == 0)
    && (forall i :: 0 <= i < |steps| && steps[i].Claim? ==> steps[i].late == 0)
  }

  /** When every RegisterRoom takes effect before it returns, or never, every run is timely. */
  lemma {:induction false} PromptRunsAreTimely(s: State, steps: seq<Step>)
    requires Prompt(s, steps) && Run(s, steps).Some?
    ensures TimelyRun(s, steps)
    decreases |steps|
  {
    if steps != [] {
      var s' := Next(s, steps[0]).value;
      forall n | n in s'.nodes ensures s'.nodes[n].late == 0 { assert n in s.nodes; }
      forall i | 0 <= i < |steps[1..]| && steps[1..][i].Claim? ensures steps[1..][i].late == 0 {
        assert steps[1..][i] == steps[i + 1];
      }
      PromptRunsAreTimely(s', steps[1..]);
    }
  }

  /** A walk along parent pointers: each node but the last is a guest of the next one. */
  ghost predicate Walk(s: State, walk: seq<Node>) {
    forall i :: 0 <= i < |walk| - 1 ==> GuestOf(s, walk[i], walk[i + 1])
  }

  lemma {:induction false} ReadTimesGrow(s: State, walk: seq<Node>, i: nat, j: nat)
    requires Inv(s) && Walk(s, walk) && i < j < |walk|
    requires walk[j] in s.nodes && s.nodes[walk[j]].phase.IsGuest()
    ensures GuestOf(s, walk[i], walk[i + 1])
    ensures s.nodes[walk[i]].phase.readAt < s.nodes[walk[j]].phase.readAt
    decreases j - i
  {
    assert GuestOf(s, walk[i], walk[i + 1]);
    if i + 1 < j {
      assert GuestOf(s, walk[i + 1], walk[i + 2]);
      ReadTimesGrow(s, walk, i + 1, j);
    }
  }

  // ---------------------------------------------------------------------------------------------------------------
  // When a cycle can arise.

  /** A walk from x to y of one pointer or more. */
  ghost predicate Path(s: State, walk: seq<Node>, x: Node, y: Node) {
    Walk(s, walk) && |walk| > 1 && walk[0] == x && walk[|walk| - 1] == y
  }

  ghost predicate Reaches(s: State, x: Node, y: Node) { exists walk :: Path(s, walk, x, y) }

  ghost predicate Acyclic(s: State) { forall n :: !Reaches(s, n, n) }

  /** The node may read the register now or later: its server is open, or it is just about to. */
  predicate CanRead(s: State, n: Node) { n in s.nodes && (!s.nodes[n].closed || s.nodes[n].phase.Reading?) }

  /** None of the nodes above n will read the register again. */
  ghost predicate NoReaderAbove(s: State, n: Node) { forall q :: Reaches(s, n, q) ==> !CanRead(s, q) }

  /** There is no cycle, and nobody above the node that the register names can close one. */
  ghost predicate Calm(s: State) { Acyclic(s) && (s.mapping.Some? ==> NoReaderAbove(s, s.mapping.value)) }

  /** A late write takes effect while nobody above its node will read the register again. */
  ghost predicate HarmlessLanding(s: State, step: Step) {
    step.Land? && step.n in s.nodes ==> NoReaderAbove(s, step.n)
  }

  ghost predicate HarmlessRun(s: State, steps: seq<Step>)
    decreases |steps|
  {
    steps != [] && Next(s, steps[0]).Some? ==>
      HarmlessLanding(s, steps[0]) && HarmlessRun(Next(s, steps[0]).value, steps[1..])
  }

  /** n has become a guest of m in this step, or no pointer is new. */
  ghost predicate NewPointer(s: State, s': State, n: Node, m: Node) {
    !IsGuestNow(s, n) && GuestOf(s', n, m) && n != m && forall x, y :: x != n && GuestOf(s', x, y) ==> GuestOf(s, x, y)
  }

  /** Without the new pointer of n there is the same walk from its parent, when n is not above the parent. */
  lemma {:induction false} OldWalk(s: State, s': State, n: Node, m: Node, walk: seq<Node>)
    requires NewPointer(s, s', n, m) && !Reaches(s, m, n) && Walk(s', walk) && walk != [] && walk[0] == m
    ensures Walk(s, walk) && n !in walk
    decreases |walk|
  {
    if |walk| > 1 {
      var k := |walk| - 1;
      forall i | 0 <= i < k - 1 ensures GuestOf(s', walk[..k][i], walk[..k][i + 1]) {
        assert GuestOf(s', walk[i], walk[i + 1]);
      }
      OldWalk(s, s', n, m, walk[..k]);
      assert walk[k - 1] in walk[..k] && GuestOf(s', walk[k - 1], walk[k]);
      forall i | 0 <= i < k ensures GuestOf(s, walk[i], walk[i + 1]) {
        if i < k - 1 { assert GuestOf(s, walk[..k][i], walk[..k][i + 1]); }
      }
      if walk[k] == n { assert Path(s, walk, m, n); }
      assert walk == walk[..k] + [walk[k]];
    }
  }

  /** A cycle through the new pointer, cut open there. */
  lemma CutOpen(s': State, walk: seq<Node>, x: Node, k: nat) returns (cut: seq<Node>)
    requires Path(s', walk, x, x) && k < |walk| - 1
    ensures Walk(s', cut) && cut != [] && cut[0] == walk[k + 1] && cut[|cut| - 1] == walk[k]
  {
    cut := walk[k + 1..] + walk[1..k + 1];
    var n := |walk| - 1 - k;
    forall i | 0 <= i < |cut| - 1 ensures GuestOf(s', cut[i], cut[i + 1]) {
      if i < n - 1 {
        assert GuestOf(s', walk[k + 1 + i], walk[k + 2 + i]);
      } else {
        assert GuestOf(s', walk[i - n + 1], walk[i - n + 2]);
      }
    }
  }

  lemma PointerKeepsAcyclic(s: State, s': State, n: Node, m: Node)
    requires Acyclic(s) && NewPointer(s, s', n, m) && !Reaches(s, m, n)
    ensures Acyclic(s') && !Reaches(s', m, n) && (forall q :: Reaches(s', m, q) ==> Reaches(s, m, q))
  {
    forall q | Reaches(s', m, q) ensures Reaches(s, m, q) && q != n {
      var walk :| Path(s', walk, m, q);
      OldWalk(s, s', n, m, walk);
      assert Path(s, walk, m, q);
    }
    forall x ensures !Reaches(s', x, x) {
      assert !Reaches(s, x, x);
      if walk :| Path(s', walk, x, x) {
        if k :| 0 <= k < |walk| - 1 && walk[k] == n {
          assert GuestOf(s', walk[k], walk[k + 1]);
          var cut := CutOpen(s', walk, x, k);
          assert cut[|cut| - 1] in cut;
          OldWalk(s, s', n, m, cut);
        } else {
          forall i | 0 <= i < |walk| - 1 ensures GuestOf(s, walk[i], walk[i + 1]) {
            assert GuestOf(s', walk[i], walk[i + 1]);
          }
          assert Path(s, walk, x, x);
        }
      }
    }
  }

  /** Fewer pointers, fewer walks. */
  lemma FewerPointers(s: State, s': State)
    requires forall x, y :: GuestOf(s', x, y) ==> GuestOf(s, x, y)
    ensures forall x, y :: Reaches(s', x, y) ==> Reaches(s, x, y)
  {
    forall x, y | Reaches(s', x, y) ensures Reaches(s, x, y) {
      var walk :| Path(s', walk, x, y);
      forall i | 0 <= i < |walk| - 1 ensures GuestOf(s, walk[i], walk[i + 1]) {
        assert GuestOf(s', walk[i], walk[i + 1]);
      }
      assert Path(s, walk, x, y);
    }
  }

  lemma ReadersStay(s: State, step: Step, q: Node)
    requires Next(s, step).Some? && CanRead(Next(s, step).value, q)
    ensures CanRead(s, q)
  {
  }

  lemma NobodyAboveOwner(s: State, n: Node)
    requires !IsGuestNow(s, n)
    ensures NoReaderAbove(s, n) && !Reaches(s, n, n)
  {
    forall walk, q ensures !Path(s, walk, n, q) { assert Path(s, walk, n, q) ==> GuestOf(s, walk[0], walk[1]); }
  }

  lemma StepKeepsCalm(s: State, step: Step)
    requires Calm(s) && Next(s, step).Some? && HarmlessLanding(s, step)
    ensures Calm(Next(s, step).value)
  {
    var s' := Next(s, step).value;
    forall q | CanRead(s', q) ensures CanRead(s, q) { ReadersStay(s, step, q); }
    if step.ReadMapping? && s.mapping.Some? && s.mapping.value != step.n {
      assert CanRead(s, step.n) && NewPointer(s, s', step.n, s.mapping.value);
      PointerKeepsAcyclic(s, s', step.n, s.mapping.value);
    } else {
      FewerPointers(s, s');
      if step.Claim? { NobodyAboveOwner(s', step.n); }
    }
  }

  /** Some continuation with harmless late writes only ends in a cycle. */
  ghost predicate CycleAhead(s: State) {
    exists steps :: Run(s, steps).Some? && HarmlessRun(s, steps) && !Acyclic(Run(s, steps).value)
  }

  lemma OneStepNearer(s: State, step: Step)
    requires Next(s, step).Some? && !step.Land? && CycleAhead(Next(s, step).value)
    ensures CycleAhead(s)
  {
    var s' := Next(s, step).value;
    var rest :| Run(s', rest).Some? && HarmlessRun(s', rest) && !Acyclic(Run(s', rest).value);
    Machines.First(Next, s, step, rest);
    assert ([step] + rest)[0] == step && ([step] + rest)[1..] == rest;
    assert HarmlessRun(s, [step] + rest);
  }

  function StepsToRead(phase: Phase): nat {
    match phase
    case Reading => 0
    case Absent => 1
    case Owner => 2
    case Guest(_, _, _) => 2
    case Claiming => 3
    case Attaching(_, _) => 3
  }

  /** What a node does next that is going to read the register anew. */
  function TowardReading(n: Node, phase: Phase): Step {
    match phase
    case Reading => ReadMapping(n)
    case Absent => BeginCreate(n)
    case Owner => CloseRoom(n)
    case Guest(_, _, _) => CloseRoom(n)
    case Claiming => Claim(n, false, 0)
    case Attaching(_, _) => Attach(n, true)
  }

  /** A node above the one in the register reads it, and becomes a guest of its own guest. */
  lemma {:induction false} ReaderClosesCycle(s: State, a: Node, q: Node, walk: seq<Node>)
    requires s.mapping == Some(a) && CanRead(s, q) && Path(s, walk, a, q) && a != q && q !in walk[..|walk| - 1]
    ensures CycleAhead(s)
    decreases StepsToRead(s.nodes[q].phase)
  {
    var step := TowardReading(q, s.nodes[q].phase);
    var s' := Next(s, step).value;
    forall i | 0 <= i < |walk| - 1 ensures GuestOf(s', walk[i], walk[i + 1]) {
      assert GuestOf(s, walk[i], walk[i + 1]) && walk[i] in walk[..|walk| - 1];
    }
    if step.ReadMapping? {
      CycleClosed(s', a, q, walk);
    } else {
      ReaderClosesCycle(s', a, q, walk);
    }
    OneStepNearer(s, step);
  }

  lemma CycleClosed(s: State, a: Node, q: Node, walk: seq<Node>)
    requires Path(s, walk, a, q) && GuestOf(s, q, a)
    ensures CycleAhead(s)
  {
    var cycle, none: seq<Step> := walk + [a], [];
    forall i | 0 <= i < |cycle| - 1 ensures GuestOf(s, cycle[i], cycle[i + 1]) {
      if i < |walk| - 1 { assert GuestOf(s, walk[i], walk[i + 1]); }
    }
    assert Path(s, cycle, a, a) && Reaches(s, a, a);
    assert Run(s, none) == Some(s) && HarmlessRun(s, none);
  }

  /** The walk up to where it first meets its last node. */
  lemma {:induction false} FirstMeeting(s: State, walk: seq<Node>, x: Node, y: Node) returns (first: seq<Node>)
    requires Path(s, walk, x, y) && x != y
    ensures Path(s, first, x, y) && y !in first[..|first| - 1]
    decreases |walk|
  {
    if y in walk[..|walk| - 1] {
      var k :| 0 <= k < |walk| - 1 && walk[k] == y;
      var part := walk[..k + 1];
      forall i | 0 <= i < k ensures GuestOf(s, part[i], part[i + 1]) { assert GuestOf(s, walk[i], walk[i + 1]); }
      first := FirstMeeting(s, part, x, y);
    } else {
      first := walk;
    }
  }

  lemma {:induction false} RunKeepsCalm(s: State, steps: seq<Step>)
    requires Calm(s) && Run(s, steps).Some? && HarmlessRun(s, steps)
    ensures Calm(Run(s, steps).value)
    decreases |steps|
  {
    if steps != [] {
      StepKeepsCalm(s, steps[0]);
      RunKeepsCalm(Next(s, steps[0]).value, steps[1..]);
    }
  }

  /**
   * Main result: a cycle can arise from a state if and only if there is one, or a node above the one named can read.
   */
  lemma CalmExactlyWhenNoCycleAhead(s: State)
    ensures Calm(s) <==> !CycleAhead(s)
  {
    if Calm(s) {
      if CycleAhead(s) {
        var steps :| Run(s, steps).Some? && HarmlessRun(s, steps) && !Acyclic(Run(s, steps).value);
        RunKeepsCalm(s, steps);
      }
    } else if !Acyclic(s) {
      var none: seq<Step> := [];
      assert Run(s, none) == Some(s) && HarmlessRun(s, none);
    } else {
      var a := s.mapping.value;
      var q :| Reaches(s, a, q) && CanRead(s, q);
      var walk :| Path(s, walk, a, q);
      var first := FirstMeeting(s, walk, a, q);
      ReaderClosesCycle(s, a, q, first);
    }
  }

  /** A late write makes a cycle possible if and only if a node above its own can still read the register. */
  lemma LandingIsHarmlessExactlyWhen(s: State, a: Node)
    requires Calm(s) && Next(s, Land(a)).Some?
    ensures !CycleAhead(Next(s, Land(a)).value) <==> NoReaderAbove(s, a)
  {
    var s' := Next(s, Land(a)).value;
    CalmExactlyWhenNoCycleAhead(s');
    FewerPointers(s, s');
    FewerPointers(s', s);
    assert forall q :: CanRead(s', q) <==> CanRead(s, q);
  }

  ghost predicate NoCycleAheadAlong(s: State, steps: seq<Step>)
    decreases |steps|
  {
    && !CycleAhead(s)
    && (steps != [] && Next(s, steps[0]).Some? ==> NoCycleAheadAlong(Next(s, steps[0]).value, steps[1..]))
  }

  lemma InitIsCalm(init: State)
    requires Init(init)
    ensures Calm(init)
  {
    forall n ensures NoReaderAbove(init, n) && !Reaches(init, n, n) { NobodyAboveOwner(init, n); }
  }

  /** Main result over runs: at no time is a cycle ahead if and only if every late write is harmless when it lands. */
  lemma {:induction false} HarmlessExactlyWhenNoCycleAhead(s: State, steps: seq<Step>)
    requires Calm(s) && Run(s, steps).Some?
    ensures HarmlessRun(s, steps) <==> NoCycleAheadAlong(s, steps)
    decreases |steps|
  {
    CalmExactlyWhenNoCycleAhead(s);
    if steps != [] {
      var s' := Next(s, steps[0]).value;
      if HarmlessLanding(s, steps[0]) {
        StepKeepsCalm(s, steps[0]);
        HarmlessExactlyWhenNoCycleAhead(s', steps[1..]);
      } else {
        LandingIsHarmlessExactlyWhen(s, steps[0].n);
      }
    }
  }

  lemma {:induction false} TimelyRunsAreHarmless(s: State, steps: seq<Step>)
    requires Run(s, steps).Some? && TimelyRun(s, steps)
    ensures HarmlessRun(s, steps)
    decreases |steps|
  {
    if steps != [] {
      if steps[0].Land? { NobodyAboveOwner(s, steps[0].n); }
      TimelyRunsAreHarmless(Next(s, steps[0]).value, steps[1..]);
    }
  }

  /**
   * Main result: in no run with harmless late writes does a walk along parent pointers meet a node twice, so the graph
   * has no cycle.
   */
  lemma GuestGraphIsAcyclic(init: State, steps: seq<Step>, walk: seq<Node>)
    requires Init(init) && Run(init, steps).Some? && HarmlessRun(init, steps)
    requires Walk(Run(init, steps).value, walk)
    ensures forall i, j :: 0 <= i < j < |walk| ==> walk[i] != walk[j]
    ensures |walk| <= |init.nodes| + 1
  {
    InitIsCalm(init);
    RunKeepsCalm(init, steps);
    NodesAreFixed(init, steps);
    WalkIsShort(Run(init, steps).value, walk);
  }

  lemma WalkIsShort(s: State, walk: seq<Node>)
    requires Acyclic(s) && Walk(s, walk)
    ensures forall i, j :: 0 <= i < j < |walk| ==> walk[i] != walk[j]
    ensures |walk| <= |s.nodes| + 1
  {
    forall i, j | 0 <= i < j < |walk| ensures walk[i] != walk[j] {
      var part := walk[i..j + 1];
      forall k | 0 <= k < |part| - 1 ensures GuestOf(s, part[k], part[k + 1]) {
        assert GuestOf(s, walk[i + k], walk[i + k + 1]);
      }
      assert Path(s, part, walk[i], walk[j]);
      assert !Reaches(s, walk[i], walk[i]);
    }
    if walk != [] {
      var guests := walk[..|walk| - 1];
      forall i | 0 <= i < |guests| ensures guests[i] in s.nodes.Keys { assert GuestOf(s, walk[i], walk[i + 1]); }
      Collections.DistinctFits(guests, s.nodes.Keys);
    }
  }

  lemma {:induction false} NodesAreFixed(s: State, steps: seq<Step>)
    requires Run(s, steps).Some?
    ensures Run(s, steps).value.nodes.Keys == s.nodes.Keys
    decreases |steps|
  {
    if steps != [] {
      NodesAreFixed(Next(s, steps[0]).value, steps[1..]);
    }
  }

  /** The number of pointers from n upward, counted so far and no further. */
  ghost function Height(s: State, n: Node, most: nat): (h: nat)
    ensures h <= most
    decreases most
  {
    if most == 0 || !IsGuestNow(s, n) then 0 else 1 + Height(s, s.nodes[n].phase.parent, most - 1)
  }

  lemma {:induction false} WalkUp(s: State, n: Node, most: nat) returns (walk: seq<Node>)
    ensures Walk(s, walk) && |walk| == Height(s, n, most) + 1 && walk[0] == n
    ensures IsGuestNow(s, walk[|walk| - 1]) ==> Height(s, n, most) == most
    decreases most
  {
    if most == 0 || !IsGuestNow(s, n) {
      walk := [n];
    } else {
      var rest := WalkUp(s, s.nodes[n].phase.parent, most - 1);
      walk := [n] + rest;
      forall i | 0 <= i < |walk| - 1 ensures GuestOf(s, walk[i], walk[i + 1]) {
        if i > 0 { assert GuestOf(s, rest[i - 1], rest[i]); }
      }
    }
  }

  /** The walk of parent pointers from n has an end, and that is not a guest. */
  lemma PointersEnd(s: State, n: Node)
    requires Acyclic(s)
    ensures exists walk :: walk != [] && walk[0] == n && Walk(s, walk) && !IsGuestNow(s, walk[|walk| - 1])
  {
    var walk := WalkUp(s, n, |s.nodes| + 1);
    WalkIsShort(s, walk);
  }

  lemma {:induction false} HeightIsFinal(s: State, n: Node, most: nat)
    requires Height(s, n, most) < most
    ensures Height(s, n, most + 1) == Height(s, n, most)
    decreases most
  {
    if IsGuestNow(s, n) { HeightIsFinal(s, s.nodes[n].phase.parent, most - 1); }
  }

  /** Parents are less high than their guests. */
  lemma HeightFalls(s: State, n: Node)
    requires Acyclic(s) && IsGuestNow(s, n)
    ensures Height(s, n, |s.nodes| + 2) == 1 + Height(s, s.nodes[n].phase.parent, |s.nodes| + 2)
  {
    var parent := s.nodes[n].phase.parent;
    var walk := WalkUp(s, parent, |s.nodes| + 1);
    WalkIsShort(s, walk);
    HeightIsFinal(s, parent, |s.nodes| + 1);
  }

  /** The register only ever points at a node that is not a guest, so a new guest attaches to a root. */
  lemma MappingNamesNoGuest(init: State, steps: seq<Step>)
    requires Init(init) && Run(init, steps).Some? && TimelyRun(init, steps)
    ensures var s := Run(init, steps).value; !NamesGuest(s) && forall p :: !GuestOf(s, p, p)
  {
    RunKeepsInv(init, steps);
  }

  const Idle := NodeState(Absent, false, 0, 0)

  /** A node that finds no mapping becomes the owner. */
  lemma OwnerArises(init: State, steps: seq<Step>, s: State, n: Node) returns (longer: seq<Step>, s': State)
    requires Run(init, steps) == Some(s) && n in s.nodes && s.nodes[n] == Idle && s.mapping.None?
    ensures Run(init, longer) == Some(s') && s'.mapping == Some(n) && s'.clock == s.clock + 1
    ensures s'.nodes == s.nodes[n := NodeState(Owner, false, 0, 0)]
  {
    longer, s' := Machines.Go(Next, init, steps, s, BeginCreate(n));
    longer, s' := Machines.Go(Next, init, longer, s', ReadMapping(n));
    longer, s' := Machines.Go(Next, init, longer, s', Claim(n, true, 0));
    assert s'.nodes == s.nodes[n := NodeState(Owner, false, 0, 0)];
  }

  /** A node that finds another node's name becomes its guest. */
  lemma GuestArises(init: State, steps: seq<Step>, s: State, n: Node) returns (longer: seq<Step>, s': State)
    requires Run(init, steps) == Some(s) && n in s.nodes && s.nodes[n] == Idle
    requires s.mapping.Some? && s.mapping.value != n
    ensures Run(init, longer) == Some(s') && s'.mapping == s.mapping
    ensures s'.nodes == s.nodes[n := NodeState(Guest(s.mapping.value, s.clock, true), false, 0, 0)]
  {
    longer, s' := Machines.Go(Next, init, steps, s, BeginCreate(n));
    longer, s' := Machines.Go(Next, init, longer, s', ReadMapping(n));
    longer, s' := Machines.Go(Next, init, longer, s', Attach(n, true));
    assert s'.nodes == s.nodes[n := NodeState(Guest(s.mapping.value, s.clock, true), false, 0, 0)];
  }

  /** Guests of guests do arise: b attaches to a, a's room closes, c claims the room and a comes back as c's guest. */
  lemma ChainsOfGuestsArise(a: Node, b: Node, c: Node)
    requires a != b && b != c && a != c
    ensures exists init, steps ::
              && Init(init) && Run(init, steps).Some?
              && GuestOf(Run(init, steps).value, b, a) && GuestOf(Run(init, steps).value, a, c)
  {
    var init := State(None, 0, map[a := Idle, b := Idle, c := Idle]);
    var steps, s := OwnerArises(init, [], init, a);
    steps, s := GuestArises(init, steps, s, b);
    steps, s := Machines.Go(Next, init, steps, s, CloseRoom(a));
    steps, s := Machines.Go(Next, init, steps, s, Unregister(a, true));
    steps, s := OwnerArises(init, steps, s, c);
    steps, s := GuestArises(init, steps, s, a);
    assert Run(init, steps) == Some(s);
  }

  /**
   * A node claims the room with a write that comes late, closes the room, and finds another owner when it comes back.
   */
  lemma LateWriterArises(a: Node, b: Node) returns (init: State, steps: seq<Step>, s: State)
    requires a != b
    ensures Init(init) && Run(init, steps) == Some(s) && s.mapping == Some(b) && s.clock == 2
    ensures s.nodes == map[a := NodeState(Absent, false, 1, 1), b := NodeState(Owner, false, 0, 0)]
  {
    init := State(None, 0, map[a := Idle, b := Idle]);
    steps, s := Machines.Go(Next, init, [], init, BeginCreate(a));
    steps, s := Machines.Go(Next, init, steps, s, ReadMapping(a));
    steps, s := Machines.Go(Next, init, steps, s, Claim(a, false, 1));
    steps, s := Machines.Go(Next, init, steps, s, CloseRoom(a));
    steps, s := OwnerArises(init, steps, s, b);
    assert s.nodes == map[a := NodeState(Absent, false, 1, 1), b := NodeState(Owner, false, 0, 0)];
  }

  /** The late write takes effect while its node is the guest of the owner. */
  lemma GuestIsNamed(a: Node, b: Node) returns (init: State, steps: seq<Step>, s: State)
    requires a != b
    ensures Init(init) && Run(init, steps) == Some(s) && s.mapping == Some(a)
    ensures s.nodes == map[a := NodeState(Guest(b, 2, true), false, 1, 0), b := NodeState(Owner, false, 0, 0)]
  {
    init, steps, s := LateWriterArises(a, b);
    steps, s := Machines.Go(Next, init, steps, s, BeginCreate(a));
    steps, s := Machines.Go(Next, init, steps, s, ReadMapping(a));
    steps, s := Machines.Go(Next, init, steps, s, Attach(a, true));
    steps, s := Machines.Go(Next, init, steps, s, Land(a));
    assert s.nodes == map[a := NodeState(Guest(b, 2, true), false, 1, 0), b := NodeState(Owner, false, 0, 0)];
  }

  /** With a late write a cycle can arise: the owner closes its room and comes back as a guest of its own guest. */
  lemma LateWriteMakesCycle(a: Node, b: Node)
    requires a != b
    ensures exists init, steps ::
              && Init(init) && Run(init, steps).Some?
              && GuestOf(Run(init, steps).value, a, b) && GuestOf(Run(init, steps).value, b, a)
  {
    var init, steps, s := GuestIsNamed(a, b);
    steps, s := Machines.Go(Next, init, steps, s, CloseRoom(b));
    steps, s := Machines.Go(Next, init, steps, s, BeginCreate(b));
    steps, s := Machines.Go(Next, init, steps, s, ReadMapping(b));
    steps, s := Machines.Go(Next, init, steps, s, Attach(b, true));
    assert Run(init, steps) == Some(s);
  }
}
