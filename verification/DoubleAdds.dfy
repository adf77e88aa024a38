/**
 * How often the connection of a peer is given a track. Join and AddReceiver may both subscribe the same pair; the
 * router returns its old sender to the second, which adds it to the connection again, and the first RTP sender is
 * forgotten.
 */
module DoubleAdds {
  import opened Options
  import opened Subscriptions
  import Machines

  function Bit(b: bool): nat { if b then 1 else 0 }

  predicate Attaches(w: Work, t: Track, p: Peer) { w.Attaching? && w.t == t && w.p == p }

  /**
   * The joining peer sees the track, or the new track the peer; then a loop is done with the pair. An RTP sender that
   * is added may take the place of one in rtpSenders; the one in rtpSenders may be removed from the connection.
   */
  datatype Fate = SeenByJoin | SeenByTrack | Added | NotAdded | Skipped | Overwritten | Removed

  predicate Meets(s: State, step: Step, t: Track, p: Peer, fate: Fate) {
    var w := Doing(s, step.g);
    match fate
    case SeenByJoin => step.JoinSnapshot? && w == Joined(p) && (t, p) in TracksFor(s, p)
    case SeenByTrack => step.PeerSnapshot? && w == Published(t) && (t, p) in PeersFor(s, t)
    case Added => step.AddTrackOk? && Attaches(w, t, p)
    case NotAdded => step.AddTrackFails? && Attaches(w, t, p)
    case Skipped => step.Subscribe? && step.t == t && step.p == p && t !in s.present
    case Overwritten => step.AddTrackOk? && Attaches(w, t, p) && (t, p) in s.rtp
    case Removed => step.Unsubscribe? && step.t == t && step.p == p && step.ok && (t, p) in s.rtp
  }

  /** How often the pair meets this fate in a run. */
  function Times(s: State, steps: seq<Step>, t: Track, p: Peer, fate: Fate): nat
    requires Run(s, steps).Some?
  {
    Machines.Count(Next, (x: State, step: Step) => Meets(x, step, t, p, fate), s, steps)
  }

  /** The goroutine has the pair before it. */
  predicate Holds(w: Work, t: Track, p: Peer) { (t, p) in Todo(w) || Attaches(w, t, p) }

  function Holders(s: State, t: Track, p: Peer): set<Gid> { set g | g in s.threads && Holds(s.threads[g], t, p) }

  // ---------------------------------------------------------------------------------------------------------------
  // Conservation.

  /**
   * A pair that is being attached is not to be done again; Join's peer and AddReceiver's track are those it entered.
   */
  predicate WorkInOrder(s: State, g: Gid) {
    var w := Doing(s, g);
    && (w.Attaching? ==> (w.t, w.p) !in w.todo)
    && (w.Joined? ==> s.writer == Some(g) && w.p in s.known)
    && (w.Published? ==> w.t in s.owners)
  }

  predicate Publishes(s: State, g: Gid, t: Track) { Doing(s, g) == Published(t) }

  ghost predicate InOrder(s: State) {
    && (forall g {:trigger WorkInOrder(s, g)} :: WorkInOrder(s, g))
    && (forall g, h, t {:trigger Publishes(s, g, t), Publishes(s, h, t)} ::
          Publishes(s, g, t) && Publishes(s, h, t) ==> g == h)
  }

  lemma OwnWorkInOrder(s: State, step: Step, s': State)
    requires Next(s, step) == Some(s') && WorkInOrder(s, step.g)
    ensures WorkInOrder(s', step.g)
  {
  }

  lemma OtherWorkInOrder(s: State, step: Step, s': State, g: Gid)
    requires Next(s, step) == Some(s') && g != step.g && WorkInOrder(s, g) && WorkInOrder(s, step.g)
    ensures WorkInOrder(s', g)
  {
  }

  lemma PublisherIsNew(s: State, step: Step, s': State, t: Track)
    requires Next(s, step) == Some(s') && Publishes(s', step.g, t)
    ensures t !in s.owners
  {
  }

  lemma OrderKept(s: State, step: Step, s': State)
    requires Next(s, step) == Some(s') && InOrder(s)
    ensures InOrder(s')
  {
    assert WorkInOrder(s, step.g);
    forall g ensures WorkInOrder(s', g) {
      assert WorkInOrder(s, g);
      if g == step.g { OwnWorkInOrder(s, step, s'); } else { OtherWorkInOrder(s, step, s', g); }
    }
    forall g, h, t | Publishes(s', g, t) && Publishes(s', h, t) ensures g == h {
      assert WorkInOrder(s, g) && WorkInOrder(s, h);
      if g == step.g || h == step.g { PublisherIsNew(s, step, s', t); }
      assert g != step.g ==> Publishes(s, g, t);
      assert h != step.g ==> Publishes(s, h, t);
    }
  }

  /** Of one step, for its own goroutine. */
  lemma OwnPair(s: State, step: Step, s': State, t: Track, p: Peer)
    requires Next(s, step) == Some(s') && WorkInOrder(s, step.g)
    ensures Bit(Holds(Doing(s', step.g), t, p)) + Bit(Meets(s, step, t, p, Added))
              + Bit(Meets(s, step, t, p, NotAdded)) + Bit(Meets(s, step, t, p, Skipped))
            == Bit(Holds(Doing(s, step.g), t, p))
                 + Bit(Meets(s, step, t, p, SeenByJoin)) + Bit(Meets(s, step, t, p, SeenByTrack))
  {
  }

  lemma OthersHold(s: State, step: Step, s': State, t: Track, p: Peer)
    requires Next(s, step) == Some(s')
    ensures Holders(s', t, p) - {step.g} == Holders(s, t, p) - {step.g}
    ensures step.g in Holders(s, t, p) <==> Holds(Doing(s, step.g), t, p)
    ensures step.g in Holders(s', t, p) <==> Holds(Doing(s', step.g), t, p)
  {
  }

  lemma StepConserves(s: State, step: Step, s': State, t: Track, p: Peer)
    requires Next(s, step) == Some(s') && WorkInOrder(s, step.g)
    ensures |Holders(s', t, p)| + Bit(Meets(s, step, t, p, Added))
              + Bit(Meets(s, step, t, p, NotAdded)) + Bit(Meets(s, step, t, p, Skipped))
            == |Holders(s, t, p)| + Bit(Meets(s, step, t, p, SeenByJoin)) + Bit(Meets(s, step, t, p, SeenByTrack))
  {
    OwnPair(s, step, s', t, p);
    var before, after, g := Holders(s, t, p), Holders(s', t, p), step.g;
    OthersHold(s, step, s', t, p);
    assert |before| == |before - {g}| + Bit(g in before);
    assert |after| == |after - {g}| + Bit(g in after);
  }

  // ---------------------------------------------------------------------------------------------------------------
  // Each of the two looks once.

  predicate JoinOpen(s: State, p: Peer) {
    p !in s.known || (s.writer.Some? && Doing(s, s.writer.value) == Joined(p))
  }

  ghost predicate TrackOpen(s: State, t: Track) { t !in s.owners || exists g :: Publishes(s, g, t) }

  lemma JoinLooksOnce(s: State, step: Step, s': State, t: Track, p: Peer)
    requires Next(s, step) == Some(s') && InOrder(s)
    ensures Bit(Meets(s, step, t, p, SeenByJoin)) + Bit(JoinOpen(s', p)) <= Bit(JoinOpen(s, p))
  {
    assert WorkInOrder(s, step.g);
    if JoinOpen(s', p) && p in s'.known { JoinWasOpen(s, step, s', p); }
  }

  lemma JoinWasOpen(s: State, step: Step, s': State, p: Peer)
    requires Next(s, step) == Some(s') && JoinOpen(s', p) && p in s'.known
    ensures JoinOpen(s, p) && !step.JoinSnapshot?
  {
  }

  lemma TrackLooksOnce(s: State, step: Step, s': State, t: Track, p: Peer)
    requires Next(s, step) == Some(s') && InOrder(s)
    ensures Bit(Meets(s, step, t, p, SeenByTrack)) + Bit(TrackOpen(s', t)) <= Bit(TrackOpen(s, t))
  {
    assert WorkInOrder(s, step.g);
    if TrackOpen(s', t) && t in s'.owners {
      var g :| Publishes(s', g, t);
      if g == step.g { PublisherIsNew(s, step, s', t); } else { assert Publishes(s, g, t); }
    }
    if Meets(s, step, t, p, SeenByTrack) {
      assert Publishes(s, step.g, t);
      assert TrackOpen(s, t);
      forall g ensures !Publishes(s', g, t) { if g != step.g { assert Publishes(s', g, t) ==> Publishes(s, g, t); } }
    }
  }

  lemma TimesOf(s: State, steps: seq<Step>, t: Track, p: Peer, fate: Fate)
    requires steps != [] && Run(s, steps).Some?
    ensures Times(s, steps, t, p, fate) ==
            Bit(Meets(s, steps[0], t, p, fate)) + Times(Next(s, steps[0]).value, steps[1..], t, p, fate)
  {
  }

  lemma {:induction false} RunConserves(s: State, steps: seq<Step>, t: Track, p: Peer)
    requires Run(s, steps).Some? && InOrder(s)
    ensures Times(s, steps, t, p, Added) + Times(s, steps, t, p, NotAdded) + Times(s, steps, t, p, Skipped)
              + |Holders(Run(s, steps).value, t, p)|
            == |Holders(s, t, p)| + Times(s, steps, t, p, SeenByJoin) + Times(s, steps, t, p, SeenByTrack)
    decreases |steps|
  {
    if steps != [] {
      var s1 := Next(s, steps[0]).value;
      assert WorkInOrder(s, steps[0].g);
      StepConserves(s, steps[0], s1, t, p);
      OrderKept(s, steps[0], s1);
      RunConserves(s1, steps[1..], t, p);
      forall fate
        ensures Times(s, steps, t, p, fate) == Bit(Meets(s, steps[0], t, p, fate)) + Times(s1, steps[1..], t, p, fate)
      {
        TimesOf(s, steps, t, p, fate);
      }
    }
  }

  lemma {:induction false} BothLookOnce(s: State, steps: seq<Step>, t: Track, p: Peer)
    requires Run(s, steps).Some? && InOrder(s)
    ensures Times(s, steps, t, p, SeenByJoin) <= Bit(JoinOpen(s, p))
    ensures Times(s, steps, t, p, SeenByTrack) <= Bit(TrackOpen(s, t))
    decreases |steps|
  {
    if steps != [] {
      var s1 := Next(s, steps[0]).value;
      JoinLooksOnce(s, steps[0], s1, t, p);
      TrackLooksOnce(s, steps[0], s1, t, p);
      OrderKept(s, steps[0], s1);
      BothLookOnce(s1, steps[1..], t, p);
      TimesOf(s, steps, t, p, SeenByJoin);
      TimesOf(s, steps, t, p, SeenByTrack);
    }
  }

  /**
   * Main result: in every run the connection of p is given t at most twice; and it is given it twice if and only if the
   * joining p saw t, the new t saw p, and neither of the two failed, found t gone, or has still to come to it.
   */
  lemma AddedTwiceExactlyWhen(start: State, steps: seq<Step>, t: Track, p: Peer)
    requires start == Init(start.bridges, start.remotes) && Run(start, steps).Some?
    ensures var (join, track) := (Times(start, steps, t, p, SeenByJoin), Times(start, steps, t, p, SeenByTrack));
            var (failed, skipped) := (Times(start, steps, t, p, NotAdded), Times(start, steps, t, p, Skipped));
            var (added, holders) := (Times(start, steps, t, p, Added), Holders(Run(start, steps).value, t, p));
            && join <= 1 && track <= 1 && added + failed + skipped + |holders| == join + track
            && added <= 2
            && (added == 2 <==> join == 1 && track == 1 && failed == 0 && skipped == 0 && holders == {})
  {
    assert Holders(start, t, p) == {};
    assert InOrder(start);
    RunConserves(start, steps, t, p);
    BothLookOnce(start, steps, t, p);
  }

  // ---------------------------------------------------------------------------------------------------------------
  // What the connection keeps.

  lemma LoopKeepsSenders(s: State, step: Step, s': State, t: Track, p: Peer)
    requires Next(s, step) == Some(s') && InLoop(step)
    ensures s'.closed == s.closed
    ensures Bit((t, p) in s'.rtp) + Bit(Meets(s, step, t, p, Overwritten))
            == Bit((t, p) in s.rtp) + Bit(Meets(s, step, t, p, Added))
  {
  }

  lemma StepKeepsSenders(s: State, step: Step, s': State, t: Track, p: Peer)
    requires Next(s, step) == Some(s') && p !in s'.closed
    ensures p !in s.closed
    ensures Bit((t, p) in s'.rtp) + Bit(Meets(s, step, t, p, Removed)) + Bit(Meets(s, step, t, p, Overwritten))
            == Bit((t, p) in s.rtp) + Bit(Meets(s, step, t, p, Added))
  {
    if InLoop(step) { LoopKeepsSenders(s, step, s', t, p); }
  }

  /** The track has gone, and no loop is adding it. */
  ghost predicate Gone(s: State, t: Track, p: Peer) {
    t in s.owners && t !in s.present && forall g :: !Attaches(Doing(s, g), t, p)
  }

  lemma RemovalIsLast(s: State, step: Step, s': State, t: Track, p: Peer)
    requires Inv(s) && Next(s, step) == Some(s') && Meets(s, step, t, p, Removed)
    ensures Gone(s', t, p)
  {
    assert WorkOk(s, step.g);
    forall g ensures !Attaches(Doing(s', g), t, p) { assert AttachOk(s, g); }
  }

  lemma GoneIsGone(s: State, step: Step, s': State, t: Track, p: Peer)
    requires Next(s, step) == Some(s') && Gone(s, t, p)
    ensures Gone(s', t, p) && !Meets(s, step, t, p, Added)
  {
    forall g ensures !Attaches(Doing(s', g), t, p) { assert !Attaches(Doing(s, g), t, p); }
  }

  lemma {:induction false} NoAddWhenGone(s: State, steps: seq<Step>, t: Track, p: Peer)
    requires Gone(s, t, p) && Run(s, steps).Some?
    ensures Times(s, steps, t, p, Added) == Times(s, steps, t, p, Overwritten) == 0
    decreases |steps|
  {
    if steps != [] {
      var s1 := Next(s, steps[0]).value;
      GoneIsGone(s, steps[0], s1, t, p);
      NoAddWhenGone(s1, steps[1..], t, p);
      TimesOf(s, steps, t, p, Added);
      TimesOf(s, steps, t, p, Overwritten);
    }
  }

  /** While the peer is not closed, the connection has the sender in rtpSenders and those that were overwritten. */
  lemma {:induction false} RunKeepsSenders(s: State, steps: seq<Step>, t: Track, p: Peer)
    requires Run(s, steps).Some? && p !in Run(s, steps).value.closed
    ensures p !in s.closed
    ensures Times(s, steps, t, p, Added) + Bit((t, p) in s.rtp)
            == Times(s, steps, t, p, Removed) + Times(s, steps, t, p, Overwritten)
              + Bit((t, p) in Run(s, steps).value.rtp)
    decreases |steps|
  {
    if steps != [] {
      var s1 := Next(s, steps[0]).value;
      RunKeepsSenders(s1, steps[1..], t, p);
      StepKeepsSenders(s, steps[0], s1, t, p);
      TimesOf(s, steps, t, p, Added);
      TimesOf(s, steps, t, p, Removed);
      TimesOf(s, steps, t, p, Overwritten);
    }
  }

  /** Every add but the first overwrites, because none comes after a removal. */
  lemma {:induction false} AllButFirstOverwrite(s: State, steps: seq<Step>, t: Track, p: Peer)
    requires Inv(s) && Run(s, steps).Some? && p !in Run(s, steps).value.closed
    ensures Times(s, steps, t, p, Added)
            == Times(s, steps, t, p, Overwritten) + Bit((t, p) !in s.rtp && Times(s, steps, t, p, Added) > 0)
    decreases |steps|
  {
    if steps != [] {
      var s1 := Next(s, steps[0]).value;
      RunKeepsSenders(s1, steps[1..], t, p);
      StepKeepsSenders(s, steps[0], s1, t, p);
      StepKeepsInv(s, s1, steps[0]);
      AllButFirstOverwrite(s1, steps[1..], t, p);
      TimesOf(s, steps, t, p, Added);
      TimesOf(s, steps, t, p, Overwritten);
      if Meets(s, steps[0], t, p, Removed) {
        RemovalIsLast(s, steps[0], s1, t, p);
        NoAddWhenGone(s1, steps[1..], t, p);
      }
    }
  }

  /**
   * Main result: while its peer is not closed, a connection that was given a track twice keeps one RTP sender more than
   * rtpSenders knows, and no other connection does. So when the room has settled after the end of the track, and
   * RemoveTrack has not failed, that one is left for good.
   */
  lemma OneIsForgottenExactlyWhenAddedTwice(start: State, steps: seq<Step>, t: Track, p: Peer)
    requires start == Init(start.bridges, start.remotes) && Sets(start) && Run(start, steps).Some?
    requires p !in Run(start, steps).value.closed
    ensures var s := Run(start, steps).value;
            var kept := Times(start, steps, t, p, Added) - Times(start, steps, t, p, Removed);
            && kept == Bit((t, p) in s.rtp) + Bit(Times(start, steps, t, p, Added) == 2)
            && (Settled(s) && p in s.peers && t !in s.present && (t, p) !in s.stuck ==>
                kept == Bit(Times(start, steps, t, p, Added) == 2))
  {
    StartHasInv(start);
    RunKeepsInv(start, steps);
    AddedTwiceExactlyWhen(start, steps, t, p);
    RunKeepsSenders(start, steps, t, p);
    AllButFirstOverwrite(start, steps, t, p);
    assert NotStale(Run(start, steps).value, t, p);
  }

  // ---------------------------------------------------------------------------------------------------------------
  // What a failed add takes back. The router has one entry for the pair, whoever asked for it.

  predicate RollsBack(w: Work, t: Track, p: Peer) { w.RollingBack? && w.t == t && w.p == p }

  /** Whether the pair was subscribed last, or rolled back. */
  function Turned(s: State, step: Step, t: Track, p: Peer, was: bool): bool {
    if step.Subscribe? && step.t == t && step.p == p && t in s.present then true
    else if step.RollBack? && RollsBack(Doing(s, step.g), t, p) then false
    else was
  }

  /**
   * The last Subscribe of the pair in a run came after its last RollBack, or there was neither and it was so before.
   */
  function SubscribedLast(s: State, steps: seq<Step>, t: Track, p: Peer, was: bool): bool
    requires Run(s, steps).Some?
    decreases |steps|
  {
    if steps == [] then was
    else SubscribedLast(Next(s, steps[0]).value, steps[1..], t, p, Turned(s, steps[0], t, p, was))
  }

  /** While the track is there and the peer not closed, the entry is there exactly when the pair was subscribed last. */
  predicate Shows(s: State, t: Track, p: Peer, was: bool) {
    && t in s.owners
    && (t in s.present && p !in s.closed ==> ((t, Local(p)) in s.table <==> was))
  }

  lemma TurnInLoop(s: State, step: Step, s': State, t: Track, p: Peer, was: bool)
    requires Next(s, step) == Some(s') && InLoop(step) && Shows(s, t, p, was)
    ensures Shows(s', t, p, Turned(s, step, t, p, was))
  {
  }

  lemma TurnElsewhere(s: State, step: Step, s': State, t: Track, p: Peer, was: bool)
    requires Next(s, step) == Some(s') && !InLoop(step) && Shows(s, t, p, was)
    requires step.Unsubscribe? && step.t == t && step.p == p ==> t !in s.present
    ensures Shows(s', t, p, Turned(s, step, t, p, was))
  {
    if OfBridge(step) { BridgeEntries(s, s', step, t, p); BridgeFields(s, s', step); }
  }

  lemma TurnKeepsShows(s: State, step: Step, s': State, t: Track, p: Peer, was: bool)
    requires Inv(s) && Next(s, step) == Some(s') && Shows(s, t, p, was)
    ensures Shows(s', t, p, Turned(s, step, t, p, was))
  {
    if InLoop(step) {
      TurnInLoop(s, step, s', t, p, was);
    } else {
      assert WorkOk(s, step.g);
      TurnElsewhere(s, step, s', t, p, was);
    }
  }

  /** Before the track is published nothing is subscribed, and then it has no entry. */
  lemma NothingBefore(s: State, step: Step, s': State, t: Track, p: Peer)
    requires Inv(s) && Next(s, step) == Some(s') && t !in s.owners
    ensures !Turned(s, step, t, p, false) && (t in s'.owners ==> Shows(s', t, p, false))
  {
    assert WorkOk(s, step.g) && Entry(s, t, p);
    if step.Publish? { assert s'.table == s.table; }
  }

  lemma {:induction false} RunShows(s: State, steps: seq<Step>, t: Track, p: Peer, was: bool)
    requires Inv(s) && Run(s, steps).Some? && (if t in s.owners then Shows(s, t, p, was) else !was)
    ensures var s' := Run(s, steps).value;
            t in s'.present && p !in s'.closed ==> ((t, Local(p)) in s'.table <==> SubscribedLast(s, steps, t, p, was))
    decreases |steps|
  {
    if steps != [] {
      var s1 := Next(s, steps[0]).value;
      StepKeepsInv(s, s1, steps[0]);
      if t in s.owners { TurnKeepsShows(s, steps[0], s1, t, p, was); } else { NothingBefore(s, steps[0], s1, t, p); }
      RunShows(s1, steps[1..], t, p, Turned(s, steps[0], t, p, was));
    }
  }

  lemma {:induction false} NoRemovalWhilePresent(s: State, steps: seq<Step>, t: Track, p: Peer)
    requires Inv(s) && Run(s, steps).Some? && Times(s, steps, t, p, Removed) > 0
    ensures t !in Run(s, steps).value.present
    decreases |steps|
  {
    if steps != [] {
      var s1 := Next(s, steps[0]).value;
      StepKeepsInv(s, s1, steps[0]);
      TimesOf(s, steps, t, p, Removed);
      if Meets(s, steps[0], t, p, Removed) {
        RemovalIsLast(s, steps[0], s1, t, p);
        StaysGone(s1, steps[1..], t, p);
      } else {
        NoRemovalWhilePresent(s1, steps[1..], t, p);
      }
    }
  }

  lemma {:induction false} StaysGone(s: State, steps: seq<Step>, t: Track, p: Peer)
    requires Gone(s, t, p) && Run(s, steps).Some?
    ensures Gone(Run(s, steps).value, t, p)
    decreases |steps|
  {
    if steps != [] {
      GoneIsGone(s, steps[0], Next(s, steps[0]).value, t, p);
      StaysGone(Next(s, steps[0]).value, steps[1..], t, p);
    }
  }

  /**
   * Main result: while a track is there and a peer not closed, the router has the entry if and only if the pair was
   * subscribed after it was last rolled back, and the peer has a sender if and only if an add succeeded. So the peer is
   * left with a sender that gets nothing exactly when an add succeeded and the last word is a rollback.
   */
  lemma EntryIsMissingExactlyWhenRolledBack(start: State, steps: seq<Step>, t: Track, p: Peer)
    requires start == Init(start.bridges, start.remotes) && Sets(start) && Run(start, steps).Some?
    requires var s := Run(start, steps).value; t in s.present && p !in s.closed
    ensures var s := Run(start, steps).value;
            && ((t, Local(p)) in s.table <==> SubscribedLast(start, steps, t, p, false))
            && ((t, p) in s.rtp <==> Times(start, steps, t, p, Added) > 0)
            && ((t, p) in s.rtp && (t, Local(p)) !in s.table <==>
                Times(start, steps, t, p, Added) > 0 && !SubscribedLast(start, steps, t, p, false))
  {
    StartHasInv(start);
    RunShows(start, steps, t, p, false);
    if Times(start, steps, t, p, Removed) > 0 { NoRemovalWhilePresent(start, steps, t, p); }
    RunKeepsSenders(start, steps, t, p);
    AllButFirstOverwrite(start, steps, t, p);
  }

  // ---------------------------------------------------------------------------------------------------------------
  // It happens.

  /** A run leads to s in which the connection of peer 0 was given track 0 so many times. */
  ghost predicate Reached(s: State, n: nat) {
    exists steps :: Run(Init(map[], map[]), steps) == Some(s) && Times(Init(map[], map[]), steps, 0, 0, Added) == n
  }

  lemma Longer(s: State, n: nat, step: Step, s': State)
    requires Reached(s, n) && Next(s, step) == Some(s')
    ensures Reached(s', n + Bit(Meets(s, step, 0, 0, Added)))
  {
    var init := Init(map[], map[]);
    var steps :| Run(init, steps) == Some(s) && Times(init, steps, 0, 0, Added) == n;
    Machines.Extend(Next, init, steps, step);
    Machines.CountOneMore(Next, (x: State, step: Step) => Meets(x, step, 0, 0, Added), init, steps, step);
    assert Run(init, steps + [step]) == Some(s');
  }

  /** Peer 0 and track 0, which has come from another node. */
  function Both(
    writer: Option<Gid>, table: set<(Track, Id)>, rtp: set<Pair>, locks: map<Peer, Gid>, w0: Work, w1: Work): State
  {
    Init(map[], map[]).(peers := {0}, known := {0}, owners := map[0 := Remote(0)], present := {0},
                        writer := writer, table := table, rtp := rtp, locks := locks, threads := map[0 := w0, 1 := w1])
  }

  function OnePeer(): State {
    Init(map[], map[]).(peers := {0}, known := {0}, writer := Some(0), threads := map[0 := Joined(0)])
  }

  lemma PeerEnters()
    ensures Next(Init(map[], map[]), JoinBegin(0, 0)) == Some(OnePeer())
  {
    var s := Init(map[], map[]);
    assert s.peers + {0} == {0} && s.known + {0} == {0};
  }

  lemma TrackEnters()
    ensures Next(OnePeer(), Publish(1, 0, Remote(0))) == Some(Both(Some(0), {}, {}, map[], Joined(0), Published(0)))
  {
    var s := OnePeer();
    assert s.present + {0} == {0} && s.owners[0 := Remote(0)] == map[0 := Remote(0)];
    assert s.threads[1 := Published(0)] == map[0 := Joined(0), 1 := Published(0)];
  }

  lemma JoinLooks(todo: set<Pair>)
    requires todo == {(0, 0)}
    ensures Next(Both(Some(0), {}, {}, map[], Joined(0), Published(0)), JoinSnapshot(0))
            == Some(Both(None, {}, {}, map[], Subscribing(todo, None), Published(0)))
  {
    var s := Both(Some(0), {}, {}, map[], Joined(0), Published(0));
    assert TracksFor(s, 0) == todo;
    assert s.threads[0 := Subscribing(todo, None)] == map[0 := Subscribing(todo, None), 1 := Published(0)];
  }

  lemma TrackLooks(todo: set<Pair>, w: Work)
    requires todo == {(0, 0)}
    ensures Next(Both(None, {}, {}, map[], w, Published(0)), PeerSnapshot(1))
            == Some(Both(None, {}, {}, map[], w, Subscribing(todo, Some(0))))
  {
    var s := Both(None, {}, {}, map[], w, Published(0));
    assert PeersFor(s, 0) == todo;
    assert s.threads[1 := Subscribing(todo, Some(0))] == map[0 := w, 1 := Subscribing(todo, Some(0))];
  }

  lemma JoinSubscribes(todo: set<Pair>, w: Work)
    requires todo == {(0, 0)}
    ensures Next(Both(None, {}, {}, map[], Subscribing(todo, None), w), Subscribe(0, 0, 0))
            == Some(Both(None, {(0, Local(0))}, {}, map[0 := 0], Attaching(0, 0, {}, None), w))
  {
    var s := Both(None, {}, {}, map[], Subscribing(todo, None), w);
    assert todo - {(0, 0)} == {} && s.table + {(0, Local(0))} == {(0, Local(0))} && s.locks[0 := 0] == map[0 := 0];
    assert s.threads[0 := Attaching(0, 0, {}, None)] == map[0 := Attaching(0, 0, {}, None), 1 := w];
  }

  lemma JoinAdds(w: Work)
    ensures Next(Both(None, {(0, Local(0))}, {}, map[0 := 0], Attaching(0, 0, {}, None), w), AddTrackOk(0))
            == Some(Both(None, {(0, Local(0))}, {(0, 0)}, map[], Subscribing({}, None), w))
  {
    var s := Both(None, {(0, Local(0))}, {}, map[0 := 0], Attaching(0, 0, {}, None), w);
    assert s.locks - {0} == map[] && s.rtp + {(0, 0)} == {(0, 0)};
    assert s.threads[0 := Subscribing({}, None)] == map[0 := Subscribing({}, None), 1 := w];
  }

  /** The loop of the new track finds the entry in the table. */
  lemma TrackSubscribes(todo: set<Pair>, w: Work)
    requires todo == {(0, 0)}
    ensures Next(Both(None, {(0, Local(0))}, {(0, 0)}, map[], w, Subscribing(todo, Some(0))), Subscribe(1, 0, 0))
            == Some(Both(None, {(0, Local(0))}, {(0, 0)}, map[0 := 1], w, Attaching(0, 0, {}, Some(0))))
  {
    var s := Both(None, {(0, Local(0))}, {(0, 0)}, map[], w, Subscribing(todo, Some(0)));
    assert todo - {(0, 0)} == {} && s.table + {(0, Local(0))} == s.table && s.locks[0 := 1] == map[0 := 1];
    assert s.threads[1 := Attaching(0, 0, {}, Some(0))] == map[0 := w, 1 := Attaching(0, 0, {}, Some(0))];
  }

  /** It then adds the track once more, and overwrites the first RTP sender in rtpSenders. */
  lemma TrackAdds(w: Work)
    ensures Next(Both(None, {(0, Local(0))}, {(0, 0)}, map[0 := 1], w, Attaching(0, 0, {}, Some(0))), AddTrackOk(1))
            == Some(Both(None, {(0, Local(0))}, {(0, 0)}, map[], w, Subscribing({}, Some(0))))
  {
    var s := Both(None, {(0, Local(0))}, {(0, 0)}, map[0 := 1], w, Attaching(0, 0, {}, Some(0)));
    assert s.locks - {0} == map[] && s.rtp + {(0, 0)} == s.rtp;
    assert s.threads[1 := Subscribing({}, Some(0))] == map[0 := w, 1 := Subscribing({}, Some(0))];
  }

  lemma AtFirst(s: State)
    requires s == Init(map[], map[])
    ensures Reached(s, 0)
  {
    var none: seq<Step> := [];
    assert Run(s, none) == Some(s) && Times(s, none, 0, 0, Added) == 0;
  }

  lemma NoAdd(s: State, n: nat, a: Step, s1: State, b: Step, s2: State)
    requires Reached(s, n) && Next(s, a) == Some(s1) && Next(s1, b) == Some(s2) && !a.AddTrackOk? && !b.AddTrackOk?
    ensures Reached(s2, n)
  {
    Longer(s, n, a, s1);
    Longer(s1, n, b, s2);
  }

  lemma OneAdd(s: State, n: nat, a: Step, s1: State, g: Gid, s2: State)
    requires Reached(s, n) && Next(s, a) == Some(s1) && Next(s1, AddTrackOk(g)) == Some(s2) && !a.AddTrackOk?
    requires Attaches(Doing(s1, g), 0, 0)
    ensures Reached(s2, n + 1)
  {
    Longer(s, n, a, s1);
    Longer(s1, n, AddTrackOk(g), s2);
  }

  lemma BothLook(s0: State, s1: State, s2: State, s3: State, s4: State)
    requires s0 == Init(map[], map[])
    requires Next(s0, JoinBegin(0, 0)) == Some(s1) && Next(s1, Publish(1, 0, Remote(0))) == Some(s2)
    requires Next(s2, JoinSnapshot(0)) == Some(s3) && Next(s3, PeerSnapshot(1)) == Some(s4)
    ensures Reached(s4, 0)
  {
    AtFirst(s0);
    NoAdd(s0, 0, JoinBegin(0, 0), s1, Publish(1, 0, Remote(0)), s2);
    NoAdd(s2, 0, JoinSnapshot(0), s3, PeerSnapshot(1), s4);
  }

  /** Both have looked, and the loop of Join has added the track. */
  lemma JoinHasAdded(todo: set<Pair>)
    requires todo == {(0, 0)}
    ensures Reached(Both(None, {(0, Local(0))}, {(0, 0)}, map[], Subscribing({}, None), Subscribing(todo, Some(0))), 1)
  {
    var s0, s1 := Init(map[], map[]), OnePeer();
    var s2 := Both(Some(0), {}, {}, map[], Joined(0), Published(0));
    var s3 := Both(None, {}, {}, map[], Subscribing(todo, None), Published(0));
    var s4 := Both(None, {}, {}, map[], Subscribing(todo, None), Subscribing(todo, Some(0)));
    var s5 := Both(None, {(0, Local(0))}, {}, map[0 := 0], Attaching(0, 0, {}, None), Subscribing(todo, Some(0)));
    var s6 := Both(None, {(0, Local(0))}, {(0, 0)}, map[], Subscribing({}, None), Subscribing(todo, Some(0)));
    PeerEnters();
    TrackEnters();
    JoinLooks(todo);
    TrackLooks(todo, Subscribing(todo, None));
    JoinSubscribes(todo, Subscribing(todo, Some(0)));
    JoinAdds(Subscribing(todo, Some(0)));
    BothLook(s0, s1, s2, s3, s4);
    OneAdd(s4, 0, Subscribe(0, 0, 0), s5, 0, s6);
  }

  lemma SecondAddArises()
    ensures exists steps :: Run(Init(map[], map[]), steps).Some? && Times(Init(map[], map[]), steps, 0, 0, Added) == 2
  {
    var todo: set<Pair> := {(0, 0)};
    var s6 := Both(None, {(0, Local(0))}, {(0, 0)}, map[], Subscribing({}, None), Subscribing(todo, Some(0)));
    var s7 := Both(None, {(0, Local(0))}, {(0, 0)}, map[0 := 1], Subscribing({}, None), Attaching(0, 0, {}, Some(0)));
    var s8 := Both(None, {(0, Local(0))}, {(0, 0)}, map[], Subscribing({}, None), Subscribing({}, Some(0)));
    JoinHasAdded(todo);
    TrackSubscribes(todo, Subscribing({}, None));
    TrackAdds(Subscribing({}, None));
    OneAdd(s6, 1, Subscribe(1, 0, 0), s7, 1, s8);
  }

  lemma TrackFails(w: Work)
    ensures Next(Both(None, {(0, Local(0))}, {(0, 0)}, map[0 := 1], w, Attaching(0, 0, {}, Some(0))), AddTrackFails(1))
            == Some(Both(None, {(0, Local(0))}, {(0, 0)}, map[], w, RollingBack(0, 0, {}, Some(0)))
                    .(failed := {(0, Local(0))}))
  {
    var s := Both(None, {(0, Local(0))}, {(0, 0)}, map[0 := 1], w, Attaching(0, 0, {}, Some(0)));
    assert s.locks - {0} == map[] && s.failed + {(0, Local(0))} == {(0, Local(0))};
    assert s.threads[1 := RollingBack(0, 0, {}, Some(0))] == map[0 := w, 1 := RollingBack(0, 0, {}, Some(0))];
  }

  /** It takes back the entry that the other has made and still counts on. */
  lemma TrackRollsBack(s: State, w: Work)
    requires s == Both(None, {(0, Local(0))}, {(0, 0)}, map[], w, RollingBack(0, 0, {}, Some(0)))
                  .(failed := {(0, Local(0))})
    ensures Next(s, RollBack(1)).Some?
    ensures var s' := Next(s, RollBack(1)).value; s'.table == {} && s'.rtp == {(0, 0)} && s'.present == {0}
    ensures var s' := Next(s, RollBack(1)).value; s'.closed == {} && s'.peers == {0}
  {
  }

  /**
   * The peer that joins adds the track, the new track's loop fails to, and its rollback leaves a sender without entry.
   */
  lemma RollBackTakesEntry()
    ensures exists steps :: Run(Init(map[], map[]), steps).Some?
              && var s := Run(Init(map[], map[]), steps).value;
                 0 in s.peers && 0 in s.present && (0, 0) in s.rtp && (0, Local(0)) !in s.table
  {
    var todo: set<Pair> := {(0, 0)};
    var s6 := Both(None, {(0, Local(0))}, {(0, 0)}, map[], Subscribing({}, None), Subscribing(todo, Some(0)));
    var s7 := Both(None, {(0, Local(0))}, {(0, 0)}, map[0 := 1], Subscribing({}, None), Attaching(0, 0, {}, Some(0)));
    var s8 := Next(s7, AddTrackFails(1)).value;
    JoinHasAdded(todo);
    TrackSubscribes(todo, Subscribing({}, None));
    TrackFails(Subscribing({}, None));
    TrackRollsBack(s8, Subscribing({}, None));
    FailAndRollBack(s6, s7, s8, Next(s8, RollBack(1)).value);
  }

  lemma FailAndRollBack(s6: State, s7: State, s8: State, s9: State)
    requires Reached(s6, 1) && Next(s6, Subscribe(1, 0, 0)) == Some(s7)
    requires Next(s7, AddTrackFails(1)) == Some(s8) && Next(s8, RollBack(1)) == Some(s9)
    ensures Reached(s9, 1)
  {
    NoAdd(s6, 1, Subscribe(1, 0, 0), s7, AddTrackFails(1), s8);
    Longer(s8, 1, RollBack(1), s9);
  }
}
