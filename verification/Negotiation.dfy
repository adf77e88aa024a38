/**
 * Offer/answer between the server and one peer: Peer.negotiate and Peer.HandleAnswer, run by any number of goroutines
 * (section 4 of RFC 3264; the signalling states are those of section 3.2 of RFC 8829).
 *
 * negotiationPending guards the section that makes an offer; renegotiationNeeded remembers a request that came too
 * early. Every change of the peer's tracks is followed by a call of negotiate from the goroutine that made it.
 */
module Negotiation {
  import opened Options
  import Machines

  type Gid = nat

  datatype Signal = Stable | HaveLocalOffer

  /** Where a goroutine is. */
  datatype At =
    | Entering          // about to call negotiate
    | Guarded           // negotiationPending set by this goroutine, handler read, signalling state not read yet
    | Deferring         // read a state other than stable, flags not written yet
    | Offering          // read stable, CreateOffer not called yet
    | Created           // offer created, SetLocalDescription not called yet
    | Sending           // local description set, onNegotiate not called yet
    | Sent              // offer handed to the client, flags not written yet
    | Failing           // nil handler or an error: about to clear negotiationPending
    | Answered          // HandleAnswer: remote description set, flags not read yet
    | Finished
  {
    predicate InSection() { Guarded? || Deferring? || Offering? || Created? || Sending? || Sent? || Failing? }
  }

  datatype State = State(
    open: bool,             // the peer's state is neither closed nor failed
    pending: bool,          // negotiationPending
    needed: bool,           // renegotiationNeeded
    signal: Signal,
    version: nat,           // track changes so far
    covered: nat,           // track changes that the last created offer describes
    offers: nat,            // offers set as local description
    answers: nat,           // answers applied
    troubled: bool,         // a negotiate gave up since the last offer was created: closed, no handler, a failed call
    threads: map<Gid, At>)

  datatype Step =
    | ChangeTracks(g: Gid)          // AddTrack or RemoveTrack under p.mu; g calls negotiate next
    | CallNegotiate(g: Gid)         // OnNegotiationNeeded and other callers
    | Enter(g: Gid, handler: bool)  // the locked head of negotiate
    | ReadSignal(g: Gid)
    | WriteDeferral(g: Gid)
    | CreateOffer(g: Gid, ok: bool)
    | SetLocal(g: Gid, ok: bool)
    | Send(g: Gid, ok: bool)
    | Clear(g: Gid)                 // the locked tail on the failing paths
    | Finish(g: Gid, next: Gid)     // the locked tail after an offer; next is the goroutine it may start
    | Answer(g: Gid)                // HandleAnswer: SetRemoteDescription
    | Resume(g: Gid, next: Gid)     // HandleAnswer: flags; next is the goroutine it may start
    | ChangeState(open: bool)       // OnConnectionStateChange, Close: closed or failed, or one of the others

  function Init(): State {
    State(true, false, false, Stable, 0, 0, 0, 0, false, map[])
  }

  function Where(s: State, g: Gid): At { if g in s.threads then s.threads[g] else Finished }

  predicate Free(s: State, g: Gid) { g !in s.threads }

  function Move(s: State, g: Gid, a: At): State { s.(threads := s.threads[g := a]) }

  function Next(s: State, step: Step): Option<State> {
    match step
    case ChangeTracks(g) =>
      if Free(s, g) then Some(Move(s.(version := s.version + 1), g, Entering)) else None
    case CallNegotiate(g) =>
      if Free(s, g) then Some(Move(s, g, Entering)) else None
    case Enter(g, handler) =>
      if !Where(s, g).Entering? then None
      else if !s.open then Some(Move(s.(troubled := true), g, Finished))
      else if s.pending then Some(Move(s.(needed := true), g, Finished))
      else if handler then Some(Move(s.(pending := true, needed := false), g, Guarded))
      else Some(Move(s.(pending := true, needed := false, troubled := true), g, Failing))
    case ReadSignal(g) =>
      if !Where(s, g).Guarded? then None
      else Some(Move(s, g, if s.signal.Stable? then Offering else Deferring))
    case WriteDeferral(g) =>
      if Where(s, g).Deferring? then Some(Move(s.(pending := false, needed := true), g, Finished)) else None
    case CreateOffer(g, ok) =>
      if !Where(s, g).Offering? then None
      else if ok then Some(Move(s.(covered := s.version, troubled := false), g, Created))
      else Some(Move(s.(troubled := true), g, Failing))
    case SetLocal(g, ok) =>
      if !Where(s, g).Created? then None
      else if ok then Some(Move(s.(signal := HaveLocalOffer, offers := s.offers + 1), g, Sending))
      else Some(Move(s.(troubled := true), g, Failing))
    case Send(g, ok) =>
      if !Where(s, g).Sending? then None
      else if ok then Some(Move(s, g, Sent))
      else Some(Move(s.(troubled := true), g, Failing))
    case Clear(g) =>
      if Where(s, g).Failing? then Some(Move(s.(pending := false), g, Finished)) else None
    case Finish(g, next) =>
      if !Where(s, g).Sent? || !Free(s, next) then None
      else
        var s' := Move(s.(pending := false, needed := false), g, Finished);
        Some(if s.needed then Move(s', next, Entering) else s')
    case Answer(g) =>
      if Free(s, g) && s.signal.HaveLocalOffer?
      then Some(Move(s.(signal := Stable, answers := s.answers + 1), g, Answered))
      else None
    case Resume(g, next) =>
      if !Where(s, g).Answered? || !Free(s, next) then None
      else
        var s' := Move(s.(needed := false), g, Finished);
        Some(if s.needed then Move(s', next, Entering) else s')
    case ChangeState(open) => Some(s.(open := open))
  }

  function Run(s: State, steps: seq<Step>): Option<State> { Machines.Run(Next, s, steps) }

  // ---------------------------------------------------------------------------------------------------------------
  // One offer at a time.

  /** The guarded section belongs to one goroutine, and only it can move the signalling state out of stable. */
  ghost predicate Exclusive(s: State, g: Gid) {
    Where(s, g).InSection() ==> s.pending && forall h :: Where(s, h).InSection() ==> h == g
  }

  predicate StableInside(s: State, g: Gid) {
    && (Where(s, g).Offering? || Where(s, g).Created? ==> s.signal.Stable?)
    && (Where(s, g).Failing? ==> s.troubled)
  }

  predicate Balanced(s: State) {
    s.offers == s.answers + (if s.signal.HaveLocalOffer? then 1 else 0)
  }

  ghost predicate OneAtATime(s: State) {
    && (forall g {:trigger Exclusive(s, g)} :: Exclusive(s, g))
    && (forall g {:trigger StableInside(s, g)} :: StableInside(s, g))
    && (s.pending ==> exists g :: Where(s, g).InSection())
    && Balanced(s)
  }

  /** Only the goroutine of the step moves, and it enters the section only through an unset flag. */
  lemma OthersStay(s: State, s': State, step: Step, g: Gid)
    requires Next(s, step) == Some(s') && !step.ChangeState? && g != step.g
    ensures Where(s', g).InSection() ==> Where(s', g) == Where(s, g)
  {
  }

  lemma ExclusiveKept(s: State, s': State, step: Step, g: Gid)
    requires OneAtATime(s) && Next(s, step) == Some(s') && !step.ChangeState?
    ensures Exclusive(s', g)
  {
    if Where(s', g).InSection() {
      assert Exclusive(s, step.g) && Exclusive(s, g);
      forall h | Where(s', h).InSection() ensures h == g {
        assert Exclusive(s, h);
        if g != step.g { OthersStay(s, s', step, g); }
        if h != step.g { OthersStay(s, s', step, h); }
      }
    }
  }

  lemma StableInsideKept(s: State, s': State, step: Step, g: Gid)
    requires OneAtATime(s) && Next(s, step) == Some(s') && !step.ChangeState?
    ensures StableInside(s', g)
  {
    assert Exclusive(s, step.g) && StableInside(s, step.g);
    assert Exclusive(s, g) && StableInside(s, g);
    if g != step.g { OthersStay(s, s', step, g); }
  }

  lemma BalanceKept(s: State, s': State, step: Step)
    requires OneAtATime(s) && Next(s, step) == Some(s') && !step.ChangeState?
    ensures Balanced(s')
  {
    assert StableInside(s, step.g);
  }

  lemma StepKeepsOneAtATime(s: State, s': State, step: Step)
    requires OneAtATime(s) && Next(s, step) == Some(s')
    ensures OneAtATime(s')
  {
    if step.ChangeState? {
      forall g ensures Where(s', g) == Where(s, g) { }
      forall g ensures Exclusive(s', g) && StableInside(s', g) { assert Exclusive(s, g) && StableInside(s, g); }
      if g :| Where(s, g).InSection() { assert Where(s', g).InSection(); }
    } else {
      forall g ensures Exclusive(s', g) { ExclusiveKept(s, s', step, g); }
      forall g ensures StableInside(s', g) { StableInsideKept(s, s', step, g); }
      BalanceKept(s, s', step);
      if s'.pending { SectionIsTaken(s, s', step); }
    }
  }

  lemma SectionIsTaken(s: State, s': State, step: Step)
    requires OneAtATime(s) && Next(s, step) == Some(s') && !step.ChangeState? && s'.pending
    ensures exists g :: Where(s', g).InSection()
  {
    if Where(s', step.g).InSection() {
    } else {
      var g :| Where(s, g).InSection();
      assert Exclusive(s, g);
      assert Where(s', g).InSection();
    }
  }

  lemma {:induction false} RunKeepsOneAtATime(s: State, steps: seq<Step>)
    requires OneAtATime(s) && Run(s, steps).Some?
    ensures OneAtATime(Run(s, steps).value)
    decreases |steps|
  {
    if steps != [] {
      StepKeepsOneAtATime(s, Next(s, steps[0]).value, steps[0]);
      RunKeepsOneAtATime(Next(s, steps[0]).value, steps[1..]);
    }
  }

  /**
   * Main result: at most one goroutine is in the section that negotiationPending guards; offers set and answers
   * applied differ by at most one; and whoever is about to set an offer finds every earlier one answered.
   */
  lemma OneOfferAtATime(steps: seq<Step>)
    requires Run(Init(), steps).Some?
    ensures var s := Run(Init(), steps).value;
            && (forall g, h :: Where(s, g).InSection() && Where(s, h).InSection() ==> g == h)
            && s.answers <= s.offers <= s.answers + 1
            && (forall g :: Where(s, g).Created? ==> s.offers == s.answers)
            && (s.pending <==> exists g :: Where(s, g).InSection())
  {
    RunKeepsOneAtATime(Init(), steps);
    var s := Run(Init(), steps).value;
    forall g, h | Where(s, g).InSection() && Where(s, h).InSection() ensures g == h { assert Exclusive(s, g); }
    forall g | Where(s, g).Created? ensures s.offers == s.answers { assert StableInside(s, g); }
    if g :| Where(s, g).InSection() { assert Exclusive(s, g); }
  }

  // ---------------------------------------------------------------------------------------------------------------
  // No change of tracks is forgotten.

  predicate WillOffer(a: At) { a.Entering? || a.Guarded? || a.Deferring? || a.Offering? }

  /** renegotiationNeeded is raised and somebody is going to look at it. */
  ghost predicate Watched(s: State) {
    s.needed && (s.signal.HaveLocalOffer? || exists g :: Where(s, g).InSection() || Where(s, g).Answered?)
  }

  /** The current tracks are described by the last offer, or a goroutine or a watched flag will see to it. */
  ghost predicate Accounted(s: State) {
    s.version == s.covered || (exists g :: WillOffer(Where(s, g))) || Watched(s)
  }

  /** The answer that a deferral counts on is still outstanding or being handled. */
  ghost predicate Timely(s: State) {
    s.signal.HaveLocalOffer? || exists g :: Where(s, g).Answered?
  }

  /** Nothing is lost by a deferral that is written now. */
  ghost predicate SafeDeferral(s: State) {
    s.troubled || s.version == s.covered || Timely(s) || exists h :: Where(s, h).Entering?
  }

  ghost predicate NoneLost(s: State) {
    s.covered <= s.version && (!s.troubled ==> Accounted(s))
  }

  lemma StepAccounts(s: State, s': State, step: Step)
    requires OneAtATime(s) && NoneLost(s) && Next(s, step) == Some(s')
    requires step.WriteDeferral? ==> SafeDeferral(s)
    ensures NoneLost(s')
  {
    if !s'.troubled && s'.version != s'.covered && !step.ChangeState? {
      match step
      case ChangeTracks(g) => assert WillOffer(Where(s', g));
      case CallNegotiate(g) => assert WillOffer(Where(s', g));
      case Enter(g, _) => EnterAccounts(s, s', step);
      case ReadSignal(g) => assert WillOffer(Where(s', g));
      case WriteDeferral(g) => DeferralKeepsAccountExactlyWhen(s, s', g);
      case Finish(g, next) => ConsumeAccounts(s, s', step, g, next);
      case Resume(g, next) => ConsumeAccounts(s, s', step, g, next);
      case _ => OthersStillAccount(s, s', step);
    } else if !s'.troubled && s'.version != s'.covered {
      ChangeStateAccounts(s, s', step);
    }
  }

  lemma ChangeStateAccounts(s: State, s': State, step: Step)
    requires step.ChangeState? && Next(s, step) == Some(s') && Accounted(s)
    ensures Accounted(s')
  {
    assert s'.threads == s.threads;
    if g :| WillOffer(Where(s, g)) { assert WillOffer(Where(s', g)); }
    else if g :| Where(s, g).InSection() || Where(s, g).Answered? { assert Where(s', g) == Where(s, g); }
  }

  lemma EnterAccounts(s: State, s': State, step: Step)
    requires OneAtATime(s) && step.Enter? && Next(s, step) == Some(s') && !s'.troubled
    ensures Accounted(s')
  {
    if s.pending {
      var h :| Where(s, h).InSection();
      assert Where(s', h).InSection();
    } else {
      assert WillOffer(Where(s', step.g));
    }
  }

  lemma DeferralAccounts(s: State, s': State, g: Gid)
    requires Next(s, WriteDeferral(g)) == Some(s') && Timely(s)
    ensures Accounted(s')
  {
    if h :| Where(s, h).Answered? { assert Where(s', h).Answered?; }
  }

  /** Whoever consumes the flag starts a goroutine that enters negotiate. */
  lemma ConsumeAccounts(s: State, s': State, step: Step, g: Gid, next: Gid)
    requires (step == Finish(g, next) || step == Resume(g, next)) && Next(s, step) == Some(s')
    requires Accounted(s) && s'.version != s'.covered
    ensures Accounted(s')
  {
    if s.needed {
      assert WillOffer(Where(s', next));
    } else {
      var h :| WillOffer(Where(s, h));
      assert WillOffer(Where(s', h));
    }
  }

  lemma OthersStillAccount(s: State, s': State, step: Step)
    requires OneAtATime(s) && Accounted(s) && Next(s, step) == Some(s')
    requires step.CreateOffer? || step.SetLocal? || step.Send? || step.Clear? || step.Answer?
    requires !s'.troubled && s'.version != s'.covered
    ensures Accounted(s')
  {
    assert StableInside(s, step.g);
    if s'.needed && (Where(s', step.g).InSection() || Where(s', step.g).Answered?) {
    } else if WillOffer(Where(s', step.g)) {
    } else {
      var h :| WillOffer(Where(s, h)) || (s.needed && (Where(s, h).InSection() || Where(s, h).Answered?));
      assert Where(s', h) == Where(s, h);
    }
  }

  /** Every deferral of the run is safe when it is written. */
  ghost predicate SafeRun(s: State, steps: seq<Step>)
    decreases |steps|
  {
    steps != [] && Next(s, steps[0]).Some? ==>
      && (steps[0].WriteDeferral? ==> SafeDeferral(s))
      && SafeRun(Next(s, steps[0]).value, steps[1..])
  }

  /** At no time of the run is a change of tracks forgotten. */
  ghost predicate NoneLostAlong(s: State, steps: seq<Step>)
    decreases |steps|
  {
    NoneLost(s) && (steps != [] && Next(s, steps[0]).Some? ==> NoneLostAlong(Next(s, steps[0]).value, steps[1..]))
  }

  lemma {:induction false} SafeExactlyWhenNoneLost(s: State, steps: seq<Step>)
    requires OneAtATime(s) && NoneLost(s) && Run(s, steps).Some?
    ensures SafeRun(s, steps) <==> NoneLostAlong(s, steps)
    ensures SafeRun(s, steps) ==> NoneLost(Run(s, steps).value)
    decreases |steps|
  {
    if steps != [] {
      var s' := Next(s, steps[0]).value;
      if steps[0].WriteDeferral? && !SafeDeferral(s) {
        DeferralKeepsAccountExactlyWhen(s, s', steps[0].g);
        assert !NoneLost(s');
      } else {
        StepKeepsOneAtATime(s, s', steps[0]);
        StepAccounts(s, s', steps[0]);
        SafeExactlyWhenNoneLost(s', steps[1..]);
      }
    }
  }

  /**
   * Main result: while no negotiate gives up, a run never forgets a change of tracks if and only if each of its
   * deferrals is written when an answer is outstanding or being handled, another goroutine is about to negotiate, or
   * the last offer covers all changes anyway. Then, once everybody has returned and the last offer is answered, the
   * client has an offer that describes all tracks.
   */
  lemma NoLostRenegotiation(steps: seq<Step>)
    requires Run(Init(), steps).Some?
    ensures SafeRun(Init(), steps) <==> NoneLostAlong(Init(), steps)
    ensures var s := Run(Init(), steps).value;
            SafeRun(Init(), steps) && !s.troubled ==>
              && Accounted(s)
              && ((forall g :: Where(s, g).Finished?) && s.signal.Stable? ==> s.covered == s.version)
  {
    SafeExactlyWhenNoneLost(Init(), steps);
  }

  /**
   * Main result: whatever was given up or forgotten before, an offer that is created makes up for it, and from there on
   * the same holds: nothing is forgotten if and only if each deferral is safe, up to the next time a negotiate gives
   * up.
   */
  lemma NoLostSinceOffer(before: seq<Step>, g: Gid, after: seq<Step>)
    requires Run(Init(), before).Some? && Next(Run(Init(), before).value, CreateOffer(g, true)).Some?
    requires Run(Next(Run(Init(), before).value, CreateOffer(g, true)).value, after).Some?
    ensures var s := Next(Run(Init(), before).value, CreateOffer(g, true)).value;
            && NoneLost(s) && !s.troubled
            && (SafeRun(s, after) <==> NoneLostAlong(s, after))
            && (SafeRun(s, after) && !Run(s, after).value.troubled ==> Accounted(Run(s, after).value))
  {
    var s0 := Run(Init(), before).value;
    RunKeepsOneAtATime(Init(), before);
    StepKeepsOneAtATime(s0, Next(s0, CreateOffer(g, true)).value, CreateOffer(g, true));
    SafeExactlyWhenNoneLost(Next(s0, CreateOffer(g, true)).value, after);
  }

  /** Exactly when a deferral keeps the account: it is timely, or another goroutine is about to negotiate anyway. */
  lemma DeferralKeepsAccountExactlyWhen(s: State, s': State, g: Gid)
    requires OneAtATime(s) && Next(s, WriteDeferral(g)) == Some(s') && s.version != s.covered
    ensures Accounted(s') <==> Timely(s) || exists h :: Where(s, h).Entering?
  {
    if Timely(s) {
      DeferralAccounts(s, s', g);
    } else if h :| Where(s, h).Entering? {
      assert WillOffer(Where(s', h));
    } else {
      forall h ensures !WillOffer(Where(s', h)) && !Where(s', h).InSection() && !Where(s', h).Answered? {
        assert Exclusive(s, g);
        assert h != g ==> Where(s', h) == Where(s, h);
        assert h != g ==> !Where(s, h).InSection();
      }
    }
  }

  lemma OfferCreated() returns (steps: seq<Step>, s: State)
    ensures Run(Init(), steps) == Some(s)
    ensures s.threads == map[0 := Created] && s.open && s.pending && !s.needed && !s.troubled
    ensures s.signal == Stable && s.version == s.covered == 1
  {
    steps, s := Machines.Go(Next, Init(), [], Init(), ChangeTracks(0));
    steps, s := Machines.Go(Next, Init(), steps, s, Enter(0, true));
    steps, s := Machines.Go(Next, Init(), steps, s, ReadSignal(0));
    steps, s := Machines.Go(Next, Init(), steps, s, CreateOffer(0, true));
    assert s.threads == map[0 := Created];
  }

  /** A peer that joins a room with tracks: its first negotiate finds no handler, the next one makes up for it. */
  lemma HandlerComesLater()
    ensures exists steps :: Run(Init(), steps).Some? && Enter(0, false) in steps
              && var s := Run(Init(), steps).value; !s.troubled && s.covered == s.version == 1
  {
    var steps, s := GivenUp();
    var enter, start := Enter(0, false), steps;
    steps, s := Machines.Go(Next, Init(), steps, s, CallNegotiate(1));
    steps, s := Machines.Go(Next, Init(), steps, s, Enter(1, true));
    steps, s := Machines.Go(Next, Init(), steps, s, ReadSignal(1));
    steps, s := Machines.Go(Next, Init(), steps, s, CreateOffer(1, true));
    assert enter in steps;
  }

  lemma GivenUp() returns (steps: seq<Step>, s: State)
    ensures Run(Init(), steps) == Some(s) && steps == [ChangeTracks(0), Enter(0, false), Clear(0)]
    ensures s.threads == map[0 := Finished] && s.open && !s.pending && s.troubled && s.signal.Stable? && s.version == 1
  {
    steps, s := Machines.Go(Next, Init(), [], Init(), ChangeTracks(0));
    steps, s := Machines.Go(Next, Init(), steps, s, Enter(0, false));
    steps, s := Machines.Go(Next, Init(), steps, s, Clear(0));
    assert s.threads == map[0 := Finished];
  }

  /** One undisturbed negotiate: a change of tracks, an offer, no answer yet. */
  lemma OneRound() returns (steps: seq<Step>, s: State)
    ensures Run(Init(), steps) == Some(s)
    ensures s.threads == map[0 := Finished] && s.open && !s.pending && !s.needed && !s.troubled
    ensures s.signal == HaveLocalOffer && s.version == s.covered == 1
  {
    steps, s := OfferCreated();
    steps, s := Machines.Go(Next, Init(), steps, s, SetLocal(0, true));
    steps, s := Machines.Go(Next, Init(), steps, s, Send(0, true));
    steps, s := Machines.Go(Next, Init(), steps, s, Finish(0, 1));
    assert s.threads == map[0 := Finished];
  }

  /** A second change of tracks is about to be offered, but the first offer is still unanswered. */
  lemma AboutToDefer() returns (steps: seq<Step>, s: State)
    ensures Run(Init(), steps) == Some(s)
    ensures s.threads == map[0 := Finished, 1 := Deferring] && s.open && s.pending && !s.needed && !s.troubled
    ensures s.signal == HaveLocalOffer && s.covered == 1 && s.version == 2
  {
    steps, s := OneRound();
    steps, s := Machines.Go(Next, Init(), steps, s, ChangeTracks(1));
    steps, s := Machines.Go(Next, Init(), steps, s, Enter(1, true));
    steps, s := Machines.Go(Next, Init(), steps, s, ReadSignal(1));
    assert s.threads == map[0 := Finished, 1 := Deferring];
  }

  /** A change of tracks can be lost: HandleAnswer fits between the read of the signalling state and the flag. */
  lemma RenegotiationCanBeLost()
    ensures exists steps :: Run(Init(), steps).Some?
              && var s := Run(Init(), steps).value;
                 !s.troubled && s.open && (forall g :: Where(s, g).Finished?) && s.signal.Stable?
                   && s.covered < s.version
  {
    var steps, s := AboutToDefer();
    steps, s := Machines.Go(Next, Init(), steps, s, Answer(2));
    steps, s := Machines.Go(Next, Init(), steps, s, Resume(2, 3));
    steps, s := Machines.Go(Next, Init(), steps, s, WriteDeferral(1));
    assert s.threads == map[0 := Finished, 1 := Finished, 2 := Finished];
    assert Run(Init(), steps) == Some(s);
  }

  // ---------------------------------------------------------------------------------------------------------------
  // The peer in place: one goroutine alone in negotiate or HandleAnswer.

  /** What the peer connection and the handler do during one negotiate. */
  datatype Luck = Luck(handler: bool, offers: bool, setsLocal: bool, marshals: bool)

  /** The steps that one undisturbed negotiate takes from a state. */
  function NegotiateSteps(s: State, g: Gid, luck: Luck, next: Gid): seq<Step> {
    if !s.open || s.pending then [Enter(g, luck.handler)]
    else if !luck.handler then [Enter(g, false), Clear(g)]
    else if !s.signal.Stable? then [Enter(g, true), ReadSignal(g), WriteDeferral(g)]
    else [Enter(g, true), ReadSignal(g)] + OfferSteps(g, luck, next)
  }

  function OfferSteps(g: Gid, luck: Luck, next: Gid): seq<Step> {
    AttemptSteps(g, luck) + [if luck.offers && luck.setsLocal && luck.marshals then Finish(g, next) else Clear(g)]
  }

  /** The calls that make an offer, up to the first that fails. */
  function AttemptSteps(g: Gid, luck: Luck): seq<Step> {
    if !luck.offers then [CreateOffer(g, false)] else [CreateOffer(g, true)] + SendSteps(g, luck)
  }

  function SendSteps(g: Gid, luck: Luck): seq<Step> {
    if !luck.setsLocal then [SetLocal(g, false)] else [SetLocal(g, true), Send(g, luck.marshals)]
  }

  class Peer {
    var open: bool
    var negotiationPending: bool
    var renegotiationNeeded: bool
    var signal: Signal
    var version: nat
    var covered: nat
    var offers: nat
    var answers: nat
    ghost var troubled: bool
    ghost var threads: map<Gid, At>

    ghost function Abs(): State
      reads this
    {
      State(open, negotiationPending, renegotiationNeeded, signal, version, covered, offers, answers, troubled, threads)
    }

    /** The locked head of negotiate. */
    method EnterSection(ghost g: Gid, handler: bool) returns (entered: bool)
      requires Where(Abs(), g).Entering?
      modifies this
      ensures Next(old(Abs()), Enter(g, handler)) == Some(Abs())
      ensures entered <==> old(open && !negotiationPending)
    {
      entered := open && !negotiationPending;
      if !open {
        troubled, threads := true, threads[g := Finished];
      } else if negotiationPending {
        renegotiationNeeded, threads := true, threads[g := Finished];
      } else {
        negotiationPending, renegotiationNeeded := true, false;
        troubled := troubled || !handler;
        threads := threads[g := if handler then Guarded else Failing];
      }
    }

    method IsStable(ghost g: Gid) returns (stable: bool)
      requires Where(Abs(), g).Guarded?
      modifies this`threads
      ensures Next(old(Abs()), ReadSignal(g)) == Some(Abs()) && (stable <==> signal.Stable?)
    {
      stable := signal.Stable?;
      threads := threads[g := if stable then Offering else Deferring];
    }

    method Defer(ghost g: Gid)
      requires Where(Abs(), g).Deferring?
      modifies this
      ensures Next(old(Abs()), WriteDeferral(g)) == Some(Abs())
    {
      negotiationPending, renegotiationNeeded, threads := false, true, threads[g := Finished];
    }

    /** CreateOffer and SetLocalDescription of the peer connection. */
    method MakeOffer(ghost g: Gid, ok: bool)
      requires Where(Abs(), g).Offering?
      modifies this`covered, this`troubled, this`threads
      ensures Next(old(Abs()), CreateOffer(g, ok)) == Some(Abs())
    {
      if ok { covered := version; }
      troubled := !ok;
      threads := threads[g := if ok then Created else Failing];
    }

    method SetOffer(ghost g: Gid, ok: bool)
      requires Where(Abs(), g).Created?
      modifies this`signal, this`offers, this`troubled, this`threads
      ensures Next(old(Abs()), SetLocal(g, ok)) == Some(Abs())
    {
      if ok { signal, offers := HaveLocalOffer, offers + 1; }
      troubled := troubled || !ok;
      threads := threads[g := if ok then Sending else Failing];
    }

    method HandOver(ghost g: Gid, ok: bool)
      requires Where(Abs(), g).Sending?
      modifies this`troubled, this`threads
      ensures Next(old(Abs()), Send(g, ok)) == Some(Abs())
    {
      troubled := troubled || !ok;
      threads := threads[g := if ok then Sent else Failing];
    }

    method GiveUp(ghost g: Gid)
      requires Where(Abs(), g).Failing?
      modifies this
      ensures Next(old(Abs()), Clear(g)) == Some(Abs())
    {
      negotiationPending, threads := false, threads[g := Finished];
    }

    /** The locked tail of negotiate: whether another round is to be started. */
    method LeaveSection(ghost g: Gid, ghost next: Gid) returns (again: bool)
      requires Where(Abs(), g).Sent? && Free(Abs(), next)
      modifies this
      ensures Next(old(Abs()), Finish(g, next)) == Some(Abs()) && again == old(renegotiationNeeded)
    {
      again := renegotiationNeeded;
      negotiationPending, renegotiationNeeded, threads := false, false, threads[g := Finished];
      if again { threads := threads[next := Entering]; }
    }

    /**
     * HandleAnswer: whether the answer was applied, and whether another round is to be started. The peer connection
     * refuses every answer in the stable state, and may refuse others.
     */
    method HandleAnswer(ghost g: Gid, ghost next: Gid, refuses: bool) returns (applied: bool, again: bool)
      requires Free(Abs(), g) && Free(Abs(), next) && g != next
      modifies this
      ensures applied <==> old(signal.HaveLocalOffer?) && !refuses
      ensures applied ==> Run(old(Abs()), [Answer(g), Resume(g, next)]) == Some(Abs())
      ensures applied ==> again == old(renegotiationNeeded)
      ensures !applied ==> Abs() == old(Abs()) && !again
    {
      if signal.Stable? || refuses {
        return false, false;
      }
      ghost var s := Abs();
      Apply(g);
      ghost var s' := Abs();
      again := ResumeAfterAnswer(g, next);
      Machines.First(Next, s, Answer(g), [Resume(g, next)]);
      Machines.First(Next, s', Resume(g, next), []);
      assert [Answer(g)] + [Resume(g, next)] == [Answer(g), Resume(g, next)];
      assert [Resume(g, next)] + [] == [Resume(g, next)];
      applied := true;
    }

    /** SetRemoteDescription of the peer connection. */
    method Apply(ghost g: Gid)
      requires Free(Abs(), g) && signal.HaveLocalOffer?
      modifies this`signal, this`answers, this`threads
      ensures Next(old(Abs()), Answer(g)) == Some(Abs()) && threads == old(threads)[g := Answered]
    {
      signal, answers, threads := Stable, answers + 1, threads[g := Answered];
    }

    /** The locked part of HandleAnswer. */
    method ResumeAfterAnswer(ghost g: Gid, ghost next: Gid) returns (again: bool)
      requires Where(Abs(), g).Answered? && Free(Abs(), next)
      modifies this
      ensures Next(old(Abs()), Resume(g, next)) == Some(Abs()) && again == old(renegotiationNeeded)
    {
      again := renegotiationNeeded;
      renegotiationNeeded, threads := false, threads[g := Finished];
      if again { threads := threads[next := Entering]; }
    }

    /**
     * negotiate, alone: returns whether an offer was sent. It starts no further round, since nobody else can have asked
     * for one meanwhile.
     */
    method Negotiate(ghost g: Gid, ghost next: Gid, luck: Luck) returns (sent: bool)
      requires Where(Abs(), g).Entering? && Free(Abs(), next)
      modifies this
      ensures Run(old(Abs()), NegotiateSteps(old(Abs()), g, luck, next)) == Some(Abs())
      ensures sent <==> old(open && !negotiationPending && signal.Stable?) && luck == Luck(true, true, true, true)
    {
      ghost var s, steps := Abs(), [];
      assert steps + [Enter(g, luck.handler)] == [Enter(g, luck.handler)];
      sent := false;
      Machines.Extend(Next, s, steps, Enter(g, luck.handler));
      var entered := EnterSection(g, luck.handler);
      steps := steps + [Enter(g, luck.handler)];
      if !entered {
        return;
      }
      if !luck.handler {
        Machines.Extend(Next, s, steps, Clear(g));
        GiveUp(g);
        return;
      }
      Machines.Extend(Next, s, steps, ReadSignal(g));
      var stable := IsStable(g);
      steps := steps + [ReadSignal(g)];
      if !stable {
        Machines.Extend(Next, s, steps, WriteDeferral(g));
        Defer(g);
        assert steps + [WriteDeferral(g)] == [Enter(g, true), ReadSignal(g), WriteDeferral(g)];
        return;
      }
      assert steps == [Enter(g, true), ReadSignal(g)];
      sent := OfferAndLeave(s, steps, g, next, luck);
    }

    /** The part of negotiate from CreateOffer to its end. */
    method OfferAndLeave(ghost s: State, ghost before: seq<Step>, ghost g: Gid, ghost next: Gid, luck: Luck)
      returns (sent: bool)
      requires Run(s, before) == Some(Abs()) && Where(Abs(), g).Offering? && Free(Abs(), next)
      modifies this
      ensures Run(s, before + OfferSteps(g, luck, next)) == Some(Abs())
      ensures sent <==> luck.offers && luck.setsLocal && luck.marshals
    {
      sent := Attempt(s, before, g, next, luck);
      ghost var last := if sent then Finish(g, next) else Clear(g);
      ghost var steps := before + AttemptSteps(g, luck);
      Machines.Extend(Next, s, steps, last);
      assert before + OfferSteps(g, luck, next) == steps + [last];
      if sent {
        var again := LeaveSection(g, next);
      } else {
        GiveUp(g);
      }
    }

    method Attempt(ghost s: State, ghost before: seq<Step>, ghost g: Gid, ghost next: Gid, luck: Luck)
      returns (sent: bool)
      requires Run(s, before) == Some(Abs()) && Where(Abs(), g).Offering? && Free(Abs(), next)
      modifies this
      ensures Run(s, before + AttemptSteps(g, luck)) == Some(Abs()) && Free(Abs(), next)
      ensures sent <==> luck.offers && luck.setsLocal && luck.marshals
      ensures if sent then Where(Abs(), g).Sent? else Where(Abs(), g).Failing?
    {
      Machines.Extend(Next, s, before, CreateOffer(g, luck.offers));
      MakeOffer(g, luck.offers);
      ghost var steps := before + [CreateOffer(g, luck.offers)];
      if !luck.offers {
        return false;
      }
      sent := SetAndSend(s, steps, g, next, luck);
      assert steps + SendSteps(g, luck) == before + AttemptSteps(g, luck);
    }

    method SetAndSend(ghost s: State, ghost before: seq<Step>, ghost g: Gid, ghost next: Gid, luck: Luck)
      returns (sent: bool)
      requires Run(s, before) == Some(Abs()) && Where(Abs(), g).Created? && Free(Abs(), next)
      modifies this
      ensures Run(s, before + SendSteps(g, luck)) == Some(Abs()) && Free(Abs(), next)
      ensures sent <==> luck.setsLocal && luck.marshals
      ensures if sent then Where(Abs(), g).Sent? else Where(Abs(), g).Failing?
    {
      Machines.Extend(Next, s, before, SetLocal(g, luck.setsLocal));
      SetOffer(g, luck.setsLocal);
      if !luck.setsLocal {
        return false;
      }
      ghost var steps := before + [SetLocal(g, true)];
      Machines.Extend(Next, s, steps, Send(g, luck.marshals));
      HandOver(g, luck.marshals);
      assert steps + [Send(g, luck.marshals)] == before + SendSteps(g, luck);
      return luck.marshals;
    }
  }
}
