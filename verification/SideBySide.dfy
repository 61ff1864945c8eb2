/**
  Runs side by side. A level of the hybrid DAG is one parallel run of all its workers or, when
  nodes are dynamic, one run for each node, gathered: every run has slots, a listener and a halt
  flag of its own. They interleave freely and share nothing, so each comes to what it comes to
  alone, no slot limit holds across them, and a halt reaches only the run whose listener drains it.
 */
module SideBySide {
  import opened Wrappers
  import opened WorkerGraph
  import opened ParallelRun

  /** A parallel run, a dispatched node, which has neither slots nor a listener, or a node the user kept back. */
  datatype Place = Own(run: State) | Dispatch(phase: Phase) | Kept

  /** The run at place i takes a step. */
  datatype Move = Move(i: nat, a: Action)

  function PlaceStep(p: Place, a: Action): Option<Place> {
    match p
    case Own(s) => var t := Step(s, a); if t.Some? then Some(Own(t.value)) else None
    case Dispatch(phase) =>
      if phase == Waiting && a == Acquire(0) then Some(Dispatch(Running))
      else if phase == Running && a == Raise(0) then Some(Dispatch(Raised))
      else if phase == Running && a.Finish? && a.i == 0 then Some(Dispatch(Done(a.signal)))
      else None
    case Kept => None
  }

  function PlaceRun(p: Place, actions: seq<Action>): Option<Place> {
    if actions == [] then Some(p)
    else
      var q := PlaceRun(p, actions[..|actions| - 1]);
      if q.None? then None else PlaceStep(q.value, actions[|actions| - 1])
  }

  function MoveStep(ps: seq<Place>, m: Move): Option<seq<Place>> {
    if m.i >= |ps| then None
    else
      var p := PlaceStep(ps[m.i], m.a);
      if p.None? then None else Some(ps[m.i := p.value])
  }

  function Moved(ps: seq<Place>, ms: seq<Move>): Option<seq<Place>> {
    if ms == [] then Some(ps)
    else
      var qs := Moved(ps, ms[..|ms| - 1]);
      if qs.None? then None else MoveStep(qs.value, ms[|ms| - 1])
  }

  predicate PlaceOver(p: Place) {
    match p
    case Own(s) => Over(s)
    case Dispatch(phase) => IsDone(phase)
    case Kept => true
  }

  predicate AllOver(ps: seq<Place>) {
    forall i :: 0 <= i < |ps| ==> PlaceOver(ps[i])
  }

  /** An exception has escaped the run. */
  predicate Broken(p: Place) {
    if p.Own? then p.run.aborted else p.Dispatch? && p.phase.Raised?
  }

  /** Its listener has drained a HALT_ALL. */
  predicate Signalled(p: Place) { p.Own? && p.run.halt }

  predicate AnySignalled(ps: seq<Place>) {
    exists i :: 0 <= i < |ps| && Signalled(ps[i])
  }

  predicate Begun(p: Place) {
    if p.Own? then p.run.started != {} else p.Dispatch? && p.phase != Waiting
  }

  /** Before anything has happened. */
  predicate Fresh(p: Place, limit: nat) {
    match p
    case Own(s) => s == Init(|s.tasks|, limit)
    case Dispatch(phase) => phase == Waiting
    case Kept => true
  }

  predicate AllFresh(ps: seq<Place>, limit: nat) {
    forall i :: 0 <= i < |ps| ==> Fresh(ps[i], limit)
  }

  // ----- each run is what it is alone -----

  /** What the moves are to the run at place i. */
  function At(ms: seq<Move>, i: nat): seq<Action> {
    if ms == [] then []
    else At(ms[..|ms| - 1], i) + if ms[|ms| - 1].i == i then [ms[|ms| - 1].a] else []
  }

  lemma PlaceRunSnoc(p: Place, actions: seq<Action>, a: Action)
    requires PlaceRun(p, actions).Some?
    ensures PlaceRun(p, actions + [a]) == PlaceStep(PlaceRun(p, actions).value, a)
  {
    assert (actions + [a])[..|actions + [a]| - 1] == actions;
  }

  lemma MovedSnoc(ps: seq<Place>, ms: seq<Move>, m: Move)
    requires Moved(ps, ms).Some?
    ensures Moved(ps, ms + [m]) == MoveStep(Moved(ps, ms).value, m)
  {
    assert (ms + [m])[..|ms + [m]| - 1] == ms;
  }

  /** Runs side by side leave every place as its own part of the moves leaves it. */
  lemma {:induction false} EachAlone(ps: seq<Place>, ms: seq<Move>, i: nat)
    requires Moved(ps, ms).Some? && i < |ps|
    ensures |Moved(ps, ms).value| == |ps| && PlaceRun(ps[i], At(ms, i)) == Some(Moved(ps, ms).value[i])
  {
    if ms != [] {
      var front, last := ms[..|ms| - 1], ms[|ms| - 1];
      EachAlone(ps, front, i);
      if last.i == i {
        PlaceRunSnoc(ps[i], At(front, i), last.a);
      } else {
        assert At(ms, i) == At(front, i);
      }
    }
  }

  lemma {:induction false} OwnIsRun(s: State, actions: seq<Action>)
    ensures PlaceRun(Own(s), actions).Some? <==> Run(s, actions).Some?
    ensures Run(s, actions).Some? ==> PlaceRun(Own(s), actions) == Some(Own(Run(s, actions).value))
  {
    if actions != [] {
      OwnIsRun(s, actions[..|actions| - 1]);
    }
  }

  lemma {:induction false} KindKept(p: Place, actions: seq<Action>)
    requires PlaceRun(p, actions).Some?
    ensures var q := PlaceRun(p, actions).value;
            && (p.Own? <==> q.Own?) && (p.Dispatch? <==> q.Dispatch?)
            && (p.Dispatch? && p.phase == Waiting ==> q.phase in {Waiting, Running, Raised} || q.phase.Done?)
  {
    if actions != [] {
      KindKept(p, actions[..|actions| - 1]);
    }
  }

  /** What each place can be in: the invariant of its own run. */
  ghost predicate PlaceSound(p: Place, q: Place, limit: nat) {
    match p
    case Own(s) => q.Own? && Sound(q.run) && |q.run.tasks| == |s.tasks| && q.run.limit == limit
    case Dispatch(_) => q.Dispatch? && (q.phase in {Waiting, Running, Raised} || q.phase.Done?)
    case Kept => q == Kept
  }

  lemma PlacesSound(ps: seq<Place>, ms: seq<Move>, limit: nat, i: nat)
    requires AllFresh(ps, limit) && Moved(ps, ms).Some? && i < |ps|
    ensures |Moved(ps, ms).value| == |ps| && PlaceSound(ps[i], Moved(ps, ms).value[i], limit)
  {
    EachAlone(ps, ms, i);
    KindKept(ps[i], At(ms, i));
    if ps[i].Own? {
      var n := |ps[i].run.tasks|;
      OwnIsRun(Init(n, limit), At(ms, i));
      RunSound(n, limit, At(ms, i));
    }
  }

  // ----- how many run at once -----

  /** The workers at work there; a dispatched node counts as one. */
  function RunningAt(p: Place): nat {
    if p.Own? then RunningCount(p.run.tasks) else if p.Dispatch? && p.phase == Running then 1 else 0
  }

  function RunningIn(ps: seq<Place>): nat {
    if ps == [] then 0 else RunningIn(ps[..|ps| - 1]) + RunningAt(ps[|ps| - 1])
  }

  /** What a place has room for. */
  function Room(p: Place): nat {
    match p
    case Own(s) => if |s.tasks| < s.limit then |s.tasks| else s.limit
    case Dispatch(_) => 1
    case Kept => 0
  }

  function RoomIn(ps: seq<Place>): nat {
    if ps == [] then 0 else RoomIn(ps[..|ps| - 1]) + Room(ps[|ps| - 1])
  }

  lemma {:induction false} CountWithin(tasks: seq<Phase>)
    ensures RunningCount(tasks) <= |tasks|
  {
    if tasks != [] {
      CountWithin(tasks[..|tasks| - 1]);
    }
  }

  lemma {:induction false} SumsWithin(ps: seq<Place>, qs: seq<Place>)
    requires |qs| == |ps| && forall i :: 0 <= i < |ps| ==> RunningAt(qs[i]) <= Room(ps[i])
    ensures RunningIn(qs) <= RoomIn(ps)
  {
    if ps != [] {
      SumsWithin(ps[..|ps| - 1], qs[..|qs| - 1]);
    }
  }

  lemma {:induction false} SumsEqual(ps: seq<Place>, qs: seq<Place>)
    requires |qs| == |ps| && forall i :: 0 <= i < |ps| ==> RunningAt(qs[i]) == Room(ps[i])
    ensures RunningIn(qs) == RoomIn(ps)
  {
    if ps != [] {
      SumsEqual(ps[..|ps| - 1], qs[..|qs| - 1]);
    }
  }

  /** In no state of no interleaving do more run than the places have room for. */
  lemma NeverMoreThanRoom(ps: seq<Place>, ms: seq<Move>, limit: nat)
    requires AllFresh(ps, limit) && Moved(ps, ms).Some?
    ensures RunningIn(Moved(ps, ms).value) <= RoomIn(ps)
  {
    var qs := Moved(ps, ms).value;
    if ps == [] {
      MovedLength(ps, ms);
    } else {
      forall i | 0 <= i < |ps|
        ensures |qs| == |ps| && RunningAt(qs[i]) <= Room(ps[i])
      {
        PlacesSound(ps, ms, limit, i);
        if ps[i].Own? {
          CountWithin(qs[i].run.tasks);
        }
      }
      assert RunningAt(qs[0]) <= Room(ps[0]);
      SumsWithin(ps, qs);
    }
  }

  lemma {:induction false} MovedLength(ps: seq<Place>, ms: seq<Move>)
    requires Moved(ps, ms).Some?
    ensures |Moved(ps, ms).value| == |ps|
  {
    if ms != [] {
      MovedLength(ps, ms[..|ms| - 1]);
    }
  }

  // ----- interleavings that exist -----

  lemma {:induction false} MovedAppend(ps: seq<Place>, ms: seq<Move>, more: seq<Move>)
    requires Moved(ps, ms).Some?
    ensures Moved(ps, ms + more) == Moved(Moved(ps, ms).value, more)
  {
    if more == [] {
      assert ms + more == ms;
    } else {
      MovedAppend(ps, ms, more[..|more| - 1]);
      assert (ms + more)[..|ms + more| - 1] == ms + more[..|more| - 1];
    }
  }

  function MovesAt(i: nat, actions: seq<Action>): (ms: seq<Move>)
    ensures |ms| == |actions| && forall k :: 0 <= k < |ms| ==> ms[k] == Move(i, actions[k])
  {
    seq(|actions|, k requires 0 <= k < |actions| => Move(i, actions[k]))
  }

  lemma {:induction false} OnePlaceMoves(ps: seq<Place>, i: nat, actions: seq<Action>)
    requires i < |ps| && PlaceRun(ps[i], actions).Some?
    ensures Moved(ps, MovesAt(i, actions)) == Some(ps[i := PlaceRun(ps[i], actions).value])
  {
    if actions == [] {
      assert ps[i := ps[i]] == ps;
    } else {
      var front := actions[..|actions| - 1];
      OnePlaceMoves(ps, i, front);
      MovedSnoc(ps, MovesAt(i, front), Move(i, actions[|actions| - 1]));
      assert MovesAt(i, actions) == MovesAt(i, front) + [Move(i, actions[|actions| - 1])];
      var p, q := PlaceRun(ps[i], front).value, PlaceRun(ps[i], actions).value;
      assert ps[i := p][i := q] == ps[i := q];
    }
  }

  /** The runs carried out one after another. */
  function InTurn(parts: seq<seq<Action>>): seq<Move> {
    if parts == [] then []
    else InTurn(parts[..|parts| - 1]) + MovesAt(|parts| - 1, parts[|parts| - 1])
  }

  lemma {:induction false} InTurnMoves(ps: seq<Place>, parts: seq<seq<Action>>, qs: seq<Place>)
    requires |parts| <= |ps| == |qs|
    requires forall i :: 0 <= i < |parts| ==> PlaceRun(ps[i], parts[i]) == Some(qs[i])
    requires forall i :: |parts| <= i < |ps| ==> qs[i] == ps[i]
    ensures Moved(ps, InTurn(parts)) == Some(qs)
    decreases |parts|
  {
    if parts == [] {
      assert qs == ps;
    } else {
      var j := |parts| - 1;
      var mid := qs[j := ps[j]];
      InTurnMoves(ps, parts[..j], mid);
      OnePlaceMoves(mid, j, parts[j]);
      assert mid[j := qs[j]] == qs;
      MovedAppend(ps, InTurn(parts[..j]), MovesAt(j, parts[j]));
    }
  }

  /** No exception has escaped there. */
  predicate CalmPlace(p: Place) {
    if p.Own? then Calm(p.run) else !Broken(p)
  }

  predicate CanWork(p: Place) {
    p.Dispatch? || (p.Own? && p.run.tasks != [])
  }

  /** q carried on to its end r, without an exception and without a halt of its own. */
  ghost predicate CarriedOn(q: Place, r: Place) {
    && PlaceOver(r) && CalmPlace(r)
    && (Signalled(r) <==> Signalled(q))
    && (Signalled(q) ==> r.run.started == q.run.started)
    && (CanWork(q) && !Signalled(q) ==> Begun(r))
  }

  lemma CarryOn(p: Place, q: Place, limit: nat) returns (actions: seq<Action>, r: Place)
    requires PlaceSound(p, q, limit) && CalmPlace(q) && limit >= 1
    ensures PlaceRun(q, actions) == Some(r) && CarriedOn(q, r)
  {
    match q {
      case Own(s) =>
        actions := Completable(s);
        OwnIsRun(s, actions);
        SoundStays(s, actions);
        var t := Run(s, actions).value;
        if s.halt {
          NothingStartsAfterHalt(s, actions);
        } else if s.tasks != [] {
          NoHaltInState(t);
          assert 0 in t.started;
        }
        r := Own(t);
      case Dispatch(phase) =>
        PlaceRunSnoc(q, [], Acquire(0));
        PlaceRunSnoc(q, [], Finish(0, SUCCESS));
        if phase == Waiting {
          PlaceRunSnoc(q, [] + [Acquire(0)], Finish(0, SUCCESS));
          actions := [] + [Acquire(0)] + [Finish(0, SUCCESS)];
        } else {
          actions := if phase == Running then [] + [Finish(0, SUCCESS)] else [];
        }
        r := PlaceRun(q, actions).value;
      case Kept =>
        actions, r := [], Kept;
    }
  }

  lemma {:induction false} CarryAllOn(ps: seq<Place>, qs: seq<Place>, limit: nat) returns (parts: seq<seq<Action>>, rs: seq<Place>)
    requires |qs| == |ps| && limit >= 1
    requires forall i :: 0 <= i < |ps| ==> PlaceSound(ps[i], qs[i], limit) && CalmPlace(qs[i])
    ensures |parts| == |rs| == |qs|
    ensures forall i :: 0 <= i < |qs| ==> PlaceRun(qs[i], parts[i]) == Some(rs[i]) && CarriedOn(qs[i], rs[i])
  {
    if ps == [] {
      parts, rs := [], [];
    } else {
      var n := |ps| - 1;
      parts, rs := CarryAllOn(ps[..n], qs[..n], limit);
      var actions, r := CarryOn(ps[n], qs[n], limit);
      parts, rs := parts + [actions], rs + [r];
    }
  }

  /** Any interleaving in which no exception has escaped can be carried to the end of every run. */
  lemma CompleteFrom(ps: seq<Place>, ms: seq<Move>, limit: nat) returns (more: seq<Move>)
    requires AllFresh(ps, limit) && limit >= 1 && Moved(ps, ms).Some?
    requires forall i :: 0 <= i < |Moved(ps, ms).value| ==> CalmPlace(Moved(ps, ms).value[i])
    ensures Moved(ps, ms + more).Some?
    ensures var qs, rs := Moved(ps, ms).value, Moved(ps, ms + more).value;
            |qs| == |rs| == |ps| && forall i :: 0 <= i < |ps| ==> CarriedOn(qs[i], rs[i])
  {
    var qs := Moved(ps, ms).value;
    MovedLength(ps, ms);
    forall i | 0 <= i < |ps|
      ensures PlaceSound(ps[i], qs[i], limit)
    {
      PlacesSound(ps, ms, limit, i);
    }
    var parts, rs := CarryAllOn(ps, qs, limit);
    more := InTurn(parts);
    InTurnMoves(qs, parts, rs);
    MovedAppend(ps, ms, more);
  }

  function Acquires(n: nat): seq<Action> {
    if n == 0 then [] else Acquires(n - 1) + [Acquire(n - 1)]
  }

  /** The first j tasks have started, and nothing else has happened. */
  ghost predicate Acquired(s: State, n: nat, limit: nat, j: nat) {
    && |s.tasks| == n && s.limit == limit && !s.halt && !s.aborted && RunningCount(s.tasks) == j
    && forall k :: 0 <= k < n ==> s.tasks[k] == if k < j then Running else Waiting
  }

  lemma AcquireNext(s: State, n: nat, limit: nat, j: nat)
    requires Acquired(s, n, limit, j) && j < n && j < limit
    ensures Step(s, Acquire(j)).Some? && Acquired(Step(s, Acquire(j)).value, n, limit, j + 1)
  {
    CountAfter(s.tasks, j, Running);
  }

  lemma {:induction false} AcquireSome(n: nat, limit: nat, j: nat) returns (s: State)
    requires j <= n && j <= limit
    ensures Run(Init(n, limit), Acquires(j)) == Some(s) && Acquired(s, n, limit, j)
  {
    if j == 0 {
      NoneRunning(n);
      s := Init(n, limit);
    } else {
      var before := AcquireSome(n, limit, j - 1);
      AcquireNext(before, n, limit, j - 1);
      var actions;
      actions, s := RunSnoc(Init(n, limit), Acquires(j - 1), before, Acquire(j - 1));
    }
  }

  function Filling(p: Place): seq<Action> {
    match p
    case Own(_) => Acquires(Room(p))
    case Dispatch(_) => [Acquire(0)]
    case Kept => []
  }

  lemma FilledPlace(p: Place, limit: nat)
    requires Fresh(p, limit)
    ensures PlaceRun(p, Filling(p)).Some?
    ensures var q := PlaceRun(p, Filling(p)).value; RunningAt(q) == Room(p) && CalmPlace(q) && !Signalled(q)
  {
    match p {
      case Own(s) =>
        var t := AcquireSome(|s.tasks|, limit, Room(p));
        OwnIsRun(s, Filling(p));
      case Dispatch(_) => PlaceRunSnoc(p, [], Acquire(0));
      case Kept =>
    }
  }

  /** In some state of some interleaving the places are full. */
  lemma FullAtOnce(ps: seq<Place>, limit: nat) returns (ms: seq<Move>)
    requires AllFresh(ps, limit)
    ensures Moved(ps, ms).Some? && RunningIn(Moved(ps, ms).value) == RoomIn(ps)
    ensures forall i :: 0 <= i < |Moved(ps, ms).value| ==> CalmPlace(Moved(ps, ms).value[i]) && !Signalled(Moved(ps, ms).value[i])
  {
    forall i | 0 <= i < |ps|
      ensures PlaceRun(ps[i], Filling(ps[i])).Some?
      ensures var q := PlaceRun(ps[i], Filling(ps[i])).value; RunningAt(q) == Room(ps[i]) && CalmPlace(q) && !Signalled(q)
    {
      FilledPlace(ps[i], limit);
    }
    var parts := seq(|ps|, i requires 0 <= i < |ps| => Filling(ps[i]));
    var qs := seq(|ps|, i requires 0 <= i < |ps| => PlaceRun(ps[i], Filling(ps[i])).value);
    ms := InTurn(parts);
    InTurnMoves(ps, parts, qs);
    SumsEqual(ps, qs);
  }

  // ----- late starts -----

  /** The move starts a worker. */
  predicate Starts(ps: seq<Place>, m: Move) {
    MoveStep(ps, m).Some? && m.a.Acquire? && !Signalled(ps[m.i])
  }

  /** The moves that start a worker after a HALT_ALL has been drained, here or before. */
  function LateStarts(ps: seq<Place>, ms: seq<Move>): set<Move>
    requires Moved(ps, ms).Some?
  {
    if ms == [] then {}
    else
      var front, last := ms[..|ms| - 1], ms[|ms| - 1];
      var now := Moved(ps, front).value;
      LateStarts(ps, front) + if AnySignalled(now) && Starts(now, last) then {last} else {}
  }

  /** A late start is at another place than the halt. */
  lemma {:induction false} LateElsewhere(ps: seq<Place>, ms: seq<Move>, m: Move) returns (x: nat)
    requires Moved(ps, ms).Some? && m in LateStarts(ps, ms)
    ensures x < |ps| && m.i < |ps| && x != m.i && ps[x].Own? && !ps[m.i].Kept?
  {
    var front, last := ms[..|ms| - 1], ms[|ms| - 1];
    if m in LateStarts(ps, front) {
      x := LateElsewhere(ps, front, m);
    } else {
      var now := Moved(ps, front).value;
      x :| 0 <= x < |now| && Signalled(now[x]);
      MovedLength(ps, front);
      EachAlone(ps, front, x);
      KindKept(ps[x], At(front, x));
      EachAlone(ps, front, m.i);
      KindKept(ps[m.i], At(front, m.i));
    }
  }

  lemma {:induction false} SignalStays(p: Place, actions: seq<Action>)
    requires Signalled(p) && PlaceRun(p, actions).Some?
    ensures Signalled(PlaceRun(p, actions).value)
  {
    OwnIsRun(p.run, actions);
    NothingStartsAfterHalt(p.run, actions);
  }

  lemma AnySignalStays(ps: seq<Place>, ms: seq<Move>)
    requires AnySignalled(ps) && Moved(ps, ms).Some?
    ensures AnySignalled(Moved(ps, ms).value)
  {
    var x :| 0 <= x < |ps| && Signalled(ps[x]);
    EachAlone(ps, ms, x);
    SignalStays(ps[x], At(ms, x));
  }

  lemma BeginsByStart(ps: seq<Place>, m: Move, i: nat)
    requires MoveStep(ps, m).Some? && i < |ps| && !Begun(ps[i]) && Begun(MoveStep(ps, m).value[i])
    ensures m.i == i && Starts(ps, m)
  {
  }

  /** What begins once a HALT_ALL has been drained begins late. */
  lemma {:induction false} BegunLate(ps: seq<Place>, ms: seq<Move>, more: seq<Move>, i: nat) returns (m: Move)
    requires Moved(ps, ms).Some? && AnySignalled(Moved(ps, ms).value) && Moved(ps, ms + more).Some?
    requires i < |Moved(ps, ms).value| == |Moved(ps, ms + more).value|
    requires !Begun(Moved(ps, ms).value[i]) && Begun(Moved(ps, ms + more).value[i])
    ensures m.i == i && m in LateStarts(ps, ms + more)
    decreases |more|
  {
    assert more == [] ==> ms + more == ms;
    var shorter := more[..|more| - 1];
    assert (ms + more)[..|ms + more| - 1] == ms + shorter;
    MovedLength(ps, ms);
    MovedLength(ps, ms + shorter);
    if Begun(Moved(ps, ms + shorter).value[i]) {
      m := BegunLate(ps, ms, shorter, i);
    } else {
      MovedAppend(ps, ms, shorter);
      AnySignalStays(Moved(ps, ms).value, shorter);
      m := more[|more| - 1];
      BeginsByStart(Moved(ps, ms + shorter).value, m, i);
    }
  }
}
