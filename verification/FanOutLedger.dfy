/** Where every offered packet has gone: counters of the senders and of the router, over every run of the fan-out. */
module FanOutLedger {
  import opened Options
  import opened Collections
  import opened Broadcast
  import opened FanOut
  import R = FanOutRefinement

  /** What one step adds to the tallies of a lane: WriteRTP calls, failed writes, packets drained. */
  function Offers(f: Fan, act: Act, l: Lid): nat
    requires Do(f, act).Some?
  {
    if act.ByReader? && act.reading.TryEnqueue? && f.readers[act.t].work.l == l then 1 else 0
  }

  function Failures(f: Fan, act: Act, l: Lid): nat
    requires Do(f, act).Some?
  {
    if act.ByWriter? && act.l == l && act.writing.PutTaken? && f.senders[l].writer.Failing? then 1 else 0
  }

  function Drained(f: Fan, act: Act, l: Lid): nat
    requires Do(f, act).Some?
  {
    if act.ByWriter? && act.l == l && act.writing.PutTaken? && f.senders[l].writer.Discarding? then 1 else 0
  }

  datatype Tally = Tally(offers: nat, failures: nat, drained: nat)

  function Count(f: Fan, acts: seq<Act>, l: Lid): Tally
    requires Perform(f, acts).Some?
    decreases |acts|
  {
    if acts == [] then Tally(0, 0, 0)
    else
      var rest := Count(Do(f, acts[0]).value, acts[1..], l);
      Tally(Offers(f, acts[0], l) + rest.offers, Failures(f, acts[0], l) + rest.failures,
            Drained(f, acts[0], l) + rest.drained)
  }

  /** Sent, dropped, queued or in the writer's hand. */
  function Settled(f: Fan, l: Lid): nat {
    if l !in f.senders then 0
    else
      var s := f.senders[l];
      s.sent + s.dropped + |s.queue| + (if HandOf(s.writer).Some? then 1 else 0)
  }

  function Failed(f: Fan, l: Lid): nat { if l in f.senders && f.senders[l].writer == Gone(true) then 1 else 0 }

  lemma WriterSettles(f: Fan, k: Lid, act: WriterAct, f': Fan)
    requires Do(f, ByWriter(k, act)) == Some(f')
    ensures k in f.senders && f'.senders == f.senders[k := f'.senders[k]]
    ensures Settled(f', k) + Failures(f, ByWriter(k, act), k) + Drained(f, ByWriter(k, act), k) == Settled(f, k)
    ensures Failed(f', k) == Failed(f, k) + Failures(f, ByWriter(k, act), k)
  {
  }

  lemma StepSettles(f: Fan, act: Act, f': Fan, l: Lid)
    requires Do(f, act) == Some(f')
    ensures Settled(f', l) + Failures(f, act, l) + Drained(f, act, l) == Settled(f, l) + Offers(f, act, l)
    ensures Failed(f', l) == Failed(f, l) + Failures(f, act, l)
  {
    if act.ByWriter? { WriterSettles(f, act.l, act.writing, f'); }
    else if act.ByReader? && !act.reading.TryEnqueue? { assert f'.senders == f.senders; }
  }

  lemma {:induction false} RunSettles(f: Fan, acts: seq<Act>, l: Lid)
    requires Perform(f, acts).Some?
    ensures var (f', c) := (Perform(f, acts).value, Count(f, acts, l));
            && Settled(f', l) + c.failures + c.drained == Settled(f, l) + c.offers
            && Failed(f', l) == Failed(f, l) + c.failures
    decreases |acts|
  {
    if acts != [] {
      StepSettles(f, acts[0], Do(f, acts[0]).value, l);
      RunSettles(Do(f, acts[0]).value, acts[1..], l);
    }
  }

  /**
   * Main result: every packet offered to a sender is sent, dropped, queued, in hand, drained, or the one that failed.
   */
  lemma Ledger(acts: seq<Act>, l: Lid)
    requires Perform(Start(), acts).Some? && l in Perform(Start(), acts).value.senders
    ensures var (s, c) := (Perform(Start(), acts).value.senders[l], Count(Start(), acts, l));
            && c.offers == s.sent + s.dropped + |s.queue| + (if HandOf(s.writer).Some? then 1 else 0)
                           + c.drained + c.failures
            && c.failures <= 1
            && (c.failures == 1 <==> s.writer == Gone(true))
  {
    RunSettles(Start(), acts, l);
  }

  // ---------------------------------------------------------------------------------------------------------------
  // Every packet of the track is offered.

  lemma StepAdvances(f: Fan, a: State, act: Act, f': Fan, a': State, l: Lid)
    requires R.Related(f, a, act, f', a') && l in a.lanes
    ensures l in a'.lanes && a'.lanes[l].next == a.lanes[l].next + Offers(f, act, l)
  {
    if R.Image(f, act).Some? { OnlyOffersAdvance(a, R.Image(f, act).value, l); }
  }

  lemma {:induction false} RunAdvances(f: Fan, a: State, acts: seq<Act>, l: Lid)
    requires Owned(f) && R.StandsFor(f, a) && Fine(a) && Perform(f, acts).Some? && l in a.lanes
    ensures Run(a, R.Images(f, acts)).Some?
    ensures var a' := Run(a, R.Images(f, acts)).value;
            l in a'.lanes && a'.lanes[l].next == a.lanes[l].next + Count(f, acts, l).offers
    decreases |acts|
  {
    R.Refines(f, a, acts);
    if acts != [] {
      var f1 := Do(f, acts[0]).value;
      R.Simulates(f, a, acts[0], f1);
      var a1 := R.Follow(a, R.Image(f, acts[0])).value;
      StepAdvances(f, a, acts[0], f1, a1, l);
      StepKeepsOwned(f, f1, acts[0]);
      RunAdvances(f1, a1, acts[1..], l);
      R.FollowThenRun(a, R.Image(f, acts[0]), R.Images(f1, acts[1..]));
    }
  }

  /** The packet in the reader's hand that the lane has still to be offered. */
  function Pending(r: Reader, l: Lid): nat { if r.Read? || (r.Sending? && l in r.due) then 1 else 0 }

  /** The packet in the writer's hand that is not written. */
  function Unwritten(w: Writer): nat { if w.Writing? || w.Failing? || w.Discarding? then 1 else 0 }

  /**
   * Main result: after a subscription every packet of the track is offered to the subscriber exactly once. At every
   * moment those read since the subscription (and one being read then, not yet forwarded) are the written, the dropped,
   * the queued, the one in the writer's hand, the drained, the failed and the one that the reader has still to offer.
   */
  lemma EveryPacketIsOffered(before: seq<Act>, l: Lid, t: Track, cap: nat, after: seq<Act>)
    requires Perform(Start(), before).Some? && Do(Perform(Start(), before).value, AddSender(l, t, cap)).Some?
    requires var f1 := Do(Perform(Start(), before).value, AddSender(l, t, cap)).value;
             && Perform(f1, after).Some?
             && l in Perform(f1, after).value.table && t in Perform(f1, after).value.readers
    ensures var f0 := Perform(Start(), before).value;
            var f1 := Do(f0, AddSender(l, t, cap)).value;
            var f := Perform(f1, after).value;
            && t in f0.readers && f.table[l] == t && l in f.senders
            && var s := f.senders[l];
               var c := Count(f1, after, l);
               |R.PayloadsRead(after, t)| + (if f0.readers[t].Read? then 1 else 0)
               == |s.out| + s.dropped + |s.queue| + Unwritten(s.writer) + c.drained + c.failures
                 + Pending(f.readers[t], l)
  {
    var f0 := Perform(Start(), before).value;
    var act := AddSender(l, t, cap);
    var f1 := Do(f0, act).value;
    var f := Perform(f1, after).value;
    var a0 := R.ReachableRefines(before);
    StartOwned();
    PerformKeepsOwned(Start(), before);
    R.Simulates(f0, a0, act, f1);
    var a1 := R.Follow(a0, R.Image(f0, act)).value;
    StepKeepsOwned(f0, f1, act);
    R.Refines(f1, a1, after);
    var a := Run(a1, R.Images(f1, after)).value;
    assert R.FeedShown(f0, a0, t) && R.LaneShown(f, a, l);
    OffersAreReads(f1, a1, after, l, t);
    RunSettles(f1, after, l);
    assert R.CountsShow(f.senders[l], a.lanes[l]);
  }

  lemma OffersAreReads(f1: Fan, a1: State, after: seq<Act>, l: Lid, t: Track)
    requires Owned(f1) && R.StandsFor(f1, a1) && Fine(a1) && Perform(f1, after).Some?
    requires l in a1.lanes && l in a1.table && a1.lanes[l].track == t
    requires l in Perform(f1, after).value.table && t in Perform(f1, after).value.readers
    ensures var f := Perform(f1, after).value;
            && f.table[l] == t && l in f.senders
            && |LogOf(a1, t)| + |R.PayloadsRead(after, t)|
               == a1.lanes[l].next + Count(f1, after, l).offers + Pending(f.readers[t], l)
  {
    R.Refines(f1, a1, after);
    var steps := R.Images(f1, after);
    var (f, a) := (Perform(f1, after).value, Run(a1, steps).value);
    RunKeepsSince(a1, steps, l);
    RunLogs(a1, steps, t);
    R.ImagesReceive(f1, after, t);
    RunAdvances(f1, a1, after, l);
    assert R.FeedShown(f, a, t) && R.LaneShown(f, a, l);
    assert UpToDate(a, l);
  }

  // ---------------------------------------------------------------------------------------------------------------
  // The global counter of forwarded packets.

  function AllOffers(acts: seq<Act>): nat
    decreases |acts|
  {
    if acts == [] then 0
    else (if acts[0].ByReader? && acts[0].reading.TryEnqueue? then 1 else 0) + AllOffers(acts[1..])
  }

  function Uncounted(r: Reader): nat { if r.Sending? then r.offered else 0 }

  ghost function AllUncounted(readers: map<Track, Reader>): map<Track, nat> {
    map t | t in readers :: Uncounted(readers[t])
  }

  lemma ReaderSum(readers: map<Track, Reader>, t: Track, r: Reader)
    ensures Sum(AllUncounted(readers[t := r])) + (if t in readers then Uncounted(readers[t]) else 0)
         == Sum(AllUncounted(readers)) + Uncounted(r)
  {
    SumWith(AllUncounted(readers), t, Uncounted(r));
    assert AllUncounted(readers[t := r]) == AllUncounted(readers)[t := Uncounted(r)];
  }

  lemma ReaderForwards(f: Fan, t: Track, act: ReaderAct, f': Fan)
    requires Do(f, ByReader(t, act)) == Some(f')
    ensures t in f.readers && f'.readers == f.readers[t := f'.readers[t]]
    ensures f'.forwarded + Uncounted(f'.readers[t])
         == f.forwarded + Uncounted(f.readers[t]) + (if act.TryEnqueue? then 1 else 0)
  {
  }

  lemma StepForwards(f: Fan, act: Act, f': Fan)
    requires Do(f, act) == Some(f')
    ensures f'.forwarded + Sum(AllUncounted(f'.readers))
            == f.forwarded + Sum(AllUncounted(f.readers)) + AllOffers([act])
  {
    if act.ByReader? {
      ReaderForwards(f, act.t, act.reading, f');
      ReaderSum(f.readers, act.t, f'.readers[act.t]);
    } else if act.OpenReader? {
      ReaderSum(f.readers, act.t, Idle);
    }
  }

  lemma {:induction false} RunForwards(f: Fan, acts: seq<Act>)
    requires Perform(f, acts).Some?
    ensures var f' := Perform(f, acts).value;
            f'.forwarded + Sum(AllUncounted(f'.readers)) == f.forwarded + Sum(AllUncounted(f.readers)) + AllOffers(acts)
    decreases |acts|
  {
    if acts != [] {
      StepForwards(f, acts[0], Do(f, acts[0]).value);
      RunForwards(Do(f, acts[0]).value, acts[1..]);
      assert AllOffers(acts) == AllOffers([acts[0]]) + AllOffers(acts[1..]);
    }
  }

  lemma {:induction false} NothingUncounted(readers: map<Track, Reader>)
    requires forall t :: t in readers ==> !readers[t].Sending?
    ensures Sum(AllUncounted(readers)) == 0
    decreases |readers|
  {
    if readers == map[] {
      assert AllUncounted(readers) == map[];
    } else {
      var t :| t in readers;
      SumWithout(AllUncounted(readers), t);
      assert AllUncounted(readers) - {t} == AllUncounted(readers - {t});
      assert (readers - {t}).Keys == readers.Keys - {t};
      NothingUncounted(readers - {t});
    }
  }

  /** The counter is what all senders together were offered, but for the forwards that are still running. */
  lemma ForwardedIsOffered(acts: seq<Act>)
    requires Perform(Start(), acts).Some?
    ensures var f := Perform(Start(), acts).value;
            && f.forwarded + Sum(AllUncounted(f.readers)) == AllOffers(acts)
            && (Free(f) ==> f.forwarded == AllOffers(acts))
  {
    RunForwards(Start(), acts);
    assert AllUncounted(map[]) == map[];
    var f := Perform(Start(), acts).value;
    if Free(f) { NothingUncounted(f.readers); }
  }
}
