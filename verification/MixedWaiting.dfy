/**
 * Guards and mutexes together: every goroutine has its calls of the closing protocol and its program of locks and
 * calls. It enters a closing guard where its program says so, and goes on there with the program of the body.
 */
module MixedWaiting {
  import opened Options
  import Machines
  import L = LockOrder
  import C = CloseProtocol
  import P = CloseProgress

  type Gid = nat

  datatype State = State(closing: C.State, locks: L.State)

  datatype Step =
    | Enter(g: Gid, body: seq<L.Path>)  // the call of a guard, by the first caller or a late one
    | Task(task: C.Step)                // any other step of the closing protocol
    | Mutex(op: L.Step)                 // locks, a new program, or a call that the protocol has nothing to do for

  function Init(maxRooms: int): State { State(C.Init(maxRooms), L.State(map[], 0)) }

  /** The guard that the goroutine's closing stack is about to enter. */
  function Wanted(s: State, g: Gid): Option<L.Guard> {
    if g !in s.closing.threads || s.closing.threads[g].Empty? then None
    else
      match s.closing.threads[g].top
      case CallPeerClose(p) => Some(L.OfPeer(p))
      case CallRoomClose(r) => Some(L.OfRoom(r))
      case CallServerClose => Some(L.OfServer)
      case _ => None
  }

  /** The goroutine's program has come to the call of that guard. */
  predicate AtGuard(s: State, g: Gid) {
    L.AtCall(s.locks, g) && Wanted(s, g) == Some(s.locks.threads[g].ops[0].guard)
  }

  ghost function Next(s: State, step: Step): Option<State> {
    match step
    case Enter(g, body) =>
      var (closing, locks) := (C.Next(s.closing, C.Advance(g, 0)), L.Next(s.locks, L.Pass(g, body)));
      if AtGuard(s, g) && closing.Some? && locks.Some? then Some(State(closing.value, locks.value)) else None
    case Task(task) =>
      var closing := C.Next(s.closing, task);
      if (task.Advance? && Wanted(s, task.g).Some?) || closing.None? then None else Some(s.(closing := closing.value))
    case Mutex(op) =>
      var locks := L.Next(s.locks, op);
      if (op.Pass? && AtGuard(s, op.t)) || locks.None? then None else Some(s.(locks := locks.value))
  }

  ghost function Run(s: State, steps: seq<Step>): Option<State> { Machines.Run(Next, s, steps) }

  ghost predicate Fine(s: State) { C.Inv(s.closing) && L.Fine(s.locks) }

  lemma StepKeepsFine(s: State, s': State, step: Step)
    requires Fine(s) && Next(s, step) == Some(s')
    ensures Fine(s')
  {
    match step
    case Enter(g, body) =>
      C.StepKeepsInv(s.closing, s'.closing, C.Advance(g, 0));
      L.StepKeepsFine(s.locks, s'.locks, L.Pass(g, body));
    case Task(task) => C.StepKeepsInv(s.closing, s'.closing, task);
    case Mutex(op) => L.StepKeepsFine(s.locks, s'.locks, op);
  }

  lemma {:induction false} RunKeepsFine(s: State, steps: seq<Step>)
    requires Fine(s) && Run(s, steps).Some?
    ensures Fine(Run(s, steps).value)
    decreases |steps|
  {
    if steps != [] {
      StepKeepsFine(s, Next(s, steps[0]).value, steps[0]);
      RunKeepsFine(Next(s, steps[0]).value, steps[1..]);
    }
  }

  lemma InitIsFine(maxRooms: int)
    ensures Fine(Init(maxRooms))
  {
    P.InitHasInv(maxRooms);
    L.InitFine();
  }

  /** Main result: in every run a goroutine in front of a guard holds no mutex, as its program makes sure. */
  lemma NoMutexAtGuard(maxRooms: int, steps: seq<Step>, g: Gid)
    requires Run(Init(maxRooms), steps).Some? && AtGuard(Run(Init(maxRooms), steps).value, g)
    ensures Run(Init(maxRooms), steps).value.locks.threads[g].held == map[]
  {
    InitIsFine(maxRooms);
    RunKeepsFine(Init(maxRooms), steps);
    L.NothingHeldAtCall(Run(Init(maxRooms), steps).value.locks, g);
  }

  /** g is in front of a guard, and h is inside. */
  predicate WaitsAtGuard(s: State, g: Gid, h: Gid) { AtGuard(s, g) && P.WaitsFor(s.closing, g) == Some(h) }

  predicate WaitsFor(s: State, g: Gid, h: Gid) { L.WaitsFor(s.locks, g, h) || WaitsAtGuard(s, g, h) }

  /** Who has a mutex, or waits for one, is not in front of a guard. */
  lemma MutexLeadsAway(s: State, t: Gid, u: Gid)
    requires Fine(s) && L.WaitsFor(s.locks, t, u)
    ensures !AtGuard(s, u)
  {
    if AtGuard(s, u) { L.NothingHeldAtCall(s.locks, u); }
  }

  ghost predicate Circle(s: State, circle: seq<Gid>) {
    && |circle| >= 2 && circle[0] == circle[|circle| - 1]
    && forall i :: 0 <= i < |circle| - 1 ==> WaitsFor(s, circle[i], circle[i + 1])
  }

  /** From a wait for a mutex on, a circle only has waits for mutexes. */
  lemma {:induction false} MutexesFollow(s: State, circle: seq<Gid>, i: nat, j: nat)
    requires Fine(s) && Circle(s, circle) && i <= j < |circle| - 1 && L.WaitsFor(s.locks, circle[i], circle[i + 1])
    ensures L.WaitsFor(s.locks, circle[j], circle[j + 1])
    decreases j - i
  {
    if i < j {
      MutexLeadsAway(s, circle[i], circle[i + 1]);
      assert WaitsFor(s, circle[i + 1], circle[i + 2]);
      MutexesFollow(s, circle, i + 1, j);
    }
  }

  lemma NoMutexInCircle(s: State, circle: seq<Gid>, i: nat)
    requires Fine(s) && Circle(s, circle) && i < |circle| - 1
    ensures !L.WaitsFor(s.locks, circle[i], circle[i + 1])
  {
    if L.WaitsFor(s.locks, circle[i], circle[i + 1]) {
      var last := |circle| - 2;
      MutexesFollow(s, circle, i, last);
      MutexLeadsAway(s, circle[last], circle[last + 1]);
      assert WaitsFor(s, circle[0], circle[1]);
      forall j | 0 <= j < |circle| - 1 ensures L.WaitsFor(s.locks, circle[j], circle[j + 1]) {
        MutexesFollow(s, circle, 0, j);
      }
      L.FineHasNoCircle(s.locks, circle);
    }
  }

  /** Main result: no goroutines wait in a circle, some for guards and some for mutexes. */
  lemma NoCircularWait(maxRooms: int, steps: seq<Step>, circle: seq<Gid>)
    requires Run(Init(maxRooms), steps).Some?
    ensures !Circle(Run(Init(maxRooms), steps).value, circle)
  {
    InitIsFine(maxRooms);
    RunKeepsFine(Init(maxRooms), steps);
    var s := Run(Init(maxRooms), steps).value;
    if Circle(s, circle) {
      forall i | 0 <= i < |circle| - 1 ensures P.WaitsFor(s.closing, circle[i]) == Some(circle[i + 1]) {
        NoMutexInCircle(s, circle, i);
        assert WaitsFor(s, circle[i], circle[i + 1]);
      }
      P.RanksDescend(s.closing, circle, 0, |circle| - 1);
    }
  }

  predicate Unfinished(s: State, g: Gid) {
    L.Unfinished(s.locks, g) || (g in s.closing.threads && s.closing.threads[g].Push?)
  }

  /** The goroutine that takes a step. */
  function Actor(step: Step): Gid {
    match step
    case Enter(g, _) => g
    case Task(task) => task.g
    case Mutex(op) => op.t
  }

  /** A goroutine takes up a new program: only one that is to call a guard next, and nobody is inside. */
  predicate Starts(s: State, step: Step) {
    step.Mutex? && step.op.Go? && Wanted(s, step.op.t).Some? && P.WaitsFor(s.closing, step.op.t).None?
  }

  /**
   * Main result: while anything is unfinished, some unfinished goroutine waits for nobody, neither at a guard nor for a
   * mutex, and can go on: in its program, with a task, through a guard, or with the program that calls one.
   */
  lemma SomebodyGoesOn(maxRooms: int, steps: seq<Step>, g: Gid)
    requires Run(Init(maxRooms), steps).Some? && Unfinished(Run(Init(maxRooms), steps).value, g)
    ensures var s := Run(Init(maxRooms), steps).value;
            exists step: Step ::
              && Next(s, step).Some? && Unfinished(s, Actor(step)) && (forall h :: !WaitsFor(s, Actor(step), h))
              && (step.Mutex? && step.op.Go? ==> Starts(s, step))
  {
    InitIsFine(maxRooms);
    RunKeepsFine(Init(maxRooms), steps);
    var s := Run(Init(maxRooms), steps).value;
    if exists t :: L.Unfinished(s.locks, t) && !L.AtCall(s.locks, t) {
      var t, op := L.GoesOn(s.locks);
      assert Next(s, Mutex(op)).Some? && Actor(Mutex(op)) == t;
    } else if t :| L.AtCall(s.locks, t) && !AtGuard(s, t) {
      L.NothingHeldAtCall(s.locks, t);
      assert Next(s, Mutex(L.Pass(t, []))).Some? && Actor(Mutex(L.Pass(t, []))) == t;
    } else {
      var step := ProtocolGoesOn(s, g);
    }
  }

  /** Everybody is between two programs or in front of the guard that comes next. */
  lemma ProtocolGoesOn(s: State, g: Gid) returns (step: Step)
    requires Fine(s) && Unfinished(s, g)
    requires forall t :: L.Unfinished(s.locks, t) ==> AtGuard(s, t)
    ensures Next(s, step).Some? && Unfinished(s, Actor(step)) && forall h :: !WaitsFor(s, Actor(step), h)
    ensures step.Mutex? && step.op.Go? ==> Starts(s, step)
  {
    assert L.Unfinished(s.locks, g) ==> AtGuard(s, g);
    assert g in s.closing.threads && s.closing.threads[g].Push?;
    var h, pick := P.SomebodyRuns(s.closing, g);
    assert L.Unfinished(s.locks, h) ==> AtGuard(s, h);
    if L.Unfinished(s.locks, h) { L.NothingHeldAtCall(s.locks, h); }
    step := if Wanted(s, h).None? then Task(C.Advance(h, pick))
            else if AtGuard(s, h) then Enter(h, [])
            else Mutex(L.Go(h, []));
    assert C.Next(s.closing, C.Advance(h, 0)).Some? || Wanted(s, h).None?;
  }
}
