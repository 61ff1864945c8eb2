/**
  One parallel run of workers: every worker is a task that waits for one of `limit` slots, runs
  and finishes; a listener may fire HALT_ALL at any moment; a collector takes finished tasks in
  any order and, once it sees the halt, joins the rest with a time limit. The tasks, the
  listener and the collector interleave freely, so a run is any sequence of enabled actions.
 */
module ParallelRun {
  import opened Wrappers
  import opened WorkerGraph

  const DEFAULT_LIMIT: nat := 4

  /** The slots a configured `max_concurrent` gives; None is a value that is no integer. */
  function LimitOf(configured: Option<int>): (limit: nat)
    ensures limit >= 1 && (configured.Some? && configured.value >= 1 ==> limit == configured.value)
  {
    if configured.Some? && configured.value >= 1 then configured.value else DEFAULT_LIMIT
  }

  /** `Expired`: a TimeoutError has escaped the worker; `Raised`: any other exception has. */
  datatype Phase = Waiting | Running | Done(signal: Signal) | Raised | Expired | Cancelled | TurnedAway

  predicate IsDone(p: Phase) { !p.Waiting? && !p.Running? }

  /** Where a result came from. */
  datatype Cause = Answered | RaisedError | CancelledError | HaltedFirst | JoinTimeout

  datatype Row = Row(task: nat, signal: Signal, cause: Cause)

  datatype State = State(tasks: seq<Phase>, limit: nat, halt: bool, draining: bool,
                         pending: set<nat>, rows: seq<Row>, started: set<nat>, aborted: bool)

  datatype Action =
    | Acquire(i: nat)                 // task i gets a slot
    | Finish(i: nat, signal: Signal)  // its worker returns
    | Raise(i: nat)                   // an exception other than a TimeoutError escapes its worker
    | Expire(i: nat)                  // a TimeoutError escapes its worker
    | Cancel(i: nat)                  // the cancellation that came with the halt reaches task i
    | FireHalt                        // the listener drains a HALT_ALL
    | Collect(i: nat)                 // the collector takes a finished task
    | StartDrain                      // the collector sees the halt
    | Join(i: nat)                    // the collector joins a finished task after that
    | GiveUp(i: nat)                  // or stops waiting for it

  function Below(n: nat): (s: set<nat>)
    ensures forall i: nat :: i in s <==> i < n
  {
    if n == 0 then {} else Below(n - 1) + {n - 1}
  }

  function RunningCount(tasks: seq<Phase>): nat {
    if tasks == [] then 0
    else RunningCount(tasks[..|tasks| - 1]) + if tasks[|tasks| - 1].Running? then 1 else 0
  }

  function Init(n: nat, limit: nat): State {
    State(seq(n, _ => Waiting), limit, false, false, Below(n), [], {}, false)
  }

  function RowOf(i: nat, p: Phase): Row
    requires IsDone(p)
  {
    match p
    case Done(signal) => Row(i, signal, Answered)
    case Raised => Row(i, FAILED, RaisedError)
    case Expired => Row(i, FAILED, JoinTimeout)
    case Cancelled => Row(i, HALTED, CancelledError)
    case TurnedAway => Row(i, FAILED, HaltedFirst)
  }

  /** The join after a halt takes an escaped TimeoutError for its own. */
  function JoinedRow(i: nat, p: Phase): Row
    requires IsDone(p)
  {
    if p.Expired? then Row(i, HALTED, JoinTimeout) else RowOf(i, p)
  }

  predicate Active(s: State, i: nat, p: Phase) {
    i < |s.tasks| && s.tasks[i] == p
  }

  predicate Collectable(s: State, i: nat) {
    i < |s.tasks| && i in s.pending && IsDone(s.tasks[i])
  }

  function Taken(s: State, row: Row): State {
    s.(pending := s.pending - {row.task}, rows := s.rows + [row])
  }

  /** The state after an action, when the action is enabled. */
  function Step(s: State, a: Action): Option<State> {
    if s.aborted then None else
    match a
    case Acquire(i) =>
      if !Active(s, i, Waiting) || RunningCount(s.tasks) >= s.limit then None
      else if s.halt then Some(s.(tasks := s.tasks[i := TurnedAway]))
      else Some(s.(tasks := s.tasks[i := Running], started := s.started + {i}))
    case Finish(i, signal) =>
      if Active(s, i, Running) then Some(s.(tasks := s.tasks[i := Done(signal)])) else None
    case Raise(i) =>
      if Active(s, i, Running) then Some(s.(tasks := s.tasks[i := Raised])) else None
    case Expire(i) =>
      if Active(s, i, Running) then Some(s.(tasks := s.tasks[i := Expired])) else None
    case Cancel(i) =>
      if s.halt && (Active(s, i, Waiting) || Active(s, i, Running)) then Some(s.(tasks := s.tasks[i := Cancelled])) else None
    case FireHalt =>
      if s.halt then None else Some(s.(halt := true))
    case Collect(i) =>
      if !s.draining && Collectable(s, i) then Some(Taken(s, RowOf(i, s.tasks[i]))) else None
    case StartDrain =>
      if s.halt && !s.draining && s.pending != {} then Some(s.(draining := true)) else None
    case Join(i) =>
      if !(s.draining && Collectable(s, i)) then None
      else if s.tasks[i].Raised? then Some(s.(aborted := true))
      else Some(Taken(s, JoinedRow(i, s.tasks[i])))
    case GiveUp(i) =>
      if s.draining && i in s.pending && (Active(s, i, Waiting) || Active(s, i, Running))
      then Some(Taken(s, Row(i, HALTED, JoinTimeout))) else None
  }

  function Run(s: State, actions: seq<Action>): Option<State> {
    if actions == [] then Some(s)
    else
      var t := Run(s, actions[..|actions| - 1]);
      if t.None? then None else Step(t.value, actions[|actions| - 1])
  }

  /** The collector has returned, or an exception has passed through it. */
  predicate Over(s: State) { s.aborted || s.pending == {} }

  // ----- what every state of every run satisfies -----

  function TasksOf(rows: seq<Row>): (r: seq<nat>)
    ensures |r| == |rows| && forall k :: 0 <= k < |r| ==> r[k] == rows[k].task
  {
    seq(|rows|, k requires 0 <= k < |rows| => rows[k].task)
  }

  /** Each task is still pending or has exactly one row. */
  ghost predicate Conserved(s: State) {
    multiset(s.pending) + multiset(TasksOf(s.rows)) == multiset(Below(|s.tasks|))
  }

  ghost predicate StartsFit(s: State) {
    && s.started <= Below(|s.tasks|)
    && forall i :: 0 <= i < |s.tasks| ==>
         && (i in s.started ==> !s.tasks[i].Waiting? && !s.tasks[i].TurnedAway?)
         && (s.tasks[i].Running? || s.tasks[i].Done? || s.tasks[i].Raised? || s.tasks[i].Expired? ==> i in s.started)
         && (s.tasks[i].Cancelled? || s.tasks[i].TurnedAway? ==> s.halt)
  }

  /** A row tells the truth about its task. */
  ghost predicate RowFits(s: State, r: Row) {
    && r.task < |s.tasks|
    && if r.cause == JoinTimeout then
         (r.signal == HALTED && s.halt && s.draining) || (r.signal == FAILED && s.tasks[r.task].Expired?)
       else IsDone(s.tasks[r.task]) && r == RowOf(r.task, s.tasks[r.task])
  }

  ghost predicate RowsFit(s: State) {
    forall r :: r in s.rows ==> RowFits(s, r)
  }

  ghost predicate Sound(s: State) {
    && RunningCount(s.tasks) <= s.limit && s.pending <= Below(|s.tasks|)
    && (s.draining ==> s.halt)
    && Conserved(s) && StartsFit(s) && RowsFit(s)
  }

  lemma {:induction false} CountAfter(tasks: seq<Phase>, i: nat, p: Phase)
    requires i < |tasks|
    ensures RunningCount(tasks[i := p]) + (if tasks[i].Running? then 1 else 0)
            == RunningCount(tasks) + if p.Running? then 1 else 0
  {
    var n := |tasks| - 1;
    if i == n {
      assert tasks[i := p][..n] == tasks[..n];
    } else {
      CountAfter(tasks[..n], i, p);
      assert tasks[i := p][..n] == tasks[..n][i := p];
    }
  }

  lemma {:induction false} NoneRunning(n: nat)
    ensures RunningCount(seq(n, _ => Waiting)) == 0
  {
    if n > 0 {
      NoneRunning(n - 1);
      assert seq(n, _ => Waiting)[..n - 1] == seq(n - 1, _ => Waiting);
    }
  }

  lemma InitSound(n: nat, limit: nat)
    ensures Sound(Init(n, limit))
  {
    NoneRunning(n);
  }

  lemma TakenConserves(s: State, row: Row)
    requires Conserved(s) && row.task in s.pending
    ensures Conserved(Taken(s, row))
  {
    var t := Taken(s, row);
    assert TasksOf(t.rows) == TasksOf(s.rows) + [row.task];
    assert multiset(s.pending) == multiset(t.pending) + multiset{row.task};
  }

  /** Moving one task on leaves the rows, which are about finished tasks, true. */
  lemma MoveKeepsRows(s: State, t: State, i: nat, p: Phase)
    requires RowsFit(s) && i < |s.tasks| && !IsDone(s.tasks[i])
    requires t.tasks == s.tasks[i := p] && t.rows == s.rows && t.halt == s.halt && t.draining == s.draining
    ensures RowsFit(t)
  {
    forall r | r in t.rows
      ensures RowFits(t, r)
    {
      assert RowFits(s, r);
    }
  }

  lemma TakenKeepsRows(s: State, row: Row)
    requires RowsFit(s) && RowFits(s, row)
    ensures RowsFit(Taken(s, row))
  {
    forall r | r in Taken(s, row).rows
      ensures RowFits(Taken(s, row), r)
    {
      assert r in s.rows || r == row;
    }
  }

  /** A task may move on in these ways. */
  ghost predicate Moves(s: State, i: nat, p: Phase) {
    && i < |s.tasks|
    && match p
       case Waiting => false
       case Running => s.tasks[i] == Waiting && RunningCount(s.tasks) < s.limit
       case TurnedAway => s.tasks[i] == Waiting && s.halt
       case Cancelled => (s.tasks[i] == Waiting || s.tasks[i] == Running) && s.halt
       case _ => s.tasks[i] == Running
  }

  lemma MoveSound(s: State, i: nat, p: Phase)
    requires Sound(s) && Moves(s, i, p)
    ensures Sound(s.(tasks := s.tasks[i := p], started := if p == Running then s.started + {i} else s.started))
  {
    CountAfter(s.tasks, i, p);
    MoveKeepsRows(s, s.(tasks := s.tasks[i := p], started := if p == Running then s.started + {i} else s.started), i, p);
  }

  lemma TakenSound(s: State, row: Row)
    requires Sound(s) && RowFits(s, row) && row.task in s.pending
    ensures Sound(Taken(s, row))
  {
    TakenConserves(s, row);
    TakenKeepsRows(s, row);
  }

  lemma FlagSound(s: State, t: State)
    requires s.halt ==> t.halt
    requires t == s.(halt := t.halt, draining := t.draining, aborted := t.aborted) && (s.draining ==> t.draining)
    requires t.draining ==> t.halt
    ensures Sound(s) ==> Sound(t)
  {
    if Sound(s) {
      forall r | r in t.rows
        ensures RowFits(t, r)
      {
        assert RowFits(s, r);
      }
    }
  }

  lemma StepSound(s: State, a: Action)
    requires Sound(s) && Step(s, a).Some?
    ensures Sound(Step(s, a).value)
  {
    match a {
      case Acquire(i) => MoveSound(s, i, if s.halt then TurnedAway else Running);
      case Finish(i, signal) => MoveSound(s, i, Done(signal));
      case Raise(i) => MoveSound(s, i, Raised);
      case Expire(i) => MoveSound(s, i, Expired);
      case Cancel(i) => MoveSound(s, i, Cancelled);
      case FireHalt => FlagSound(s, s.(halt := true));
      case StartDrain => FlagSound(s, s.(draining := true));
      case Collect(i) => TakenSound(s, RowOf(i, s.tasks[i]));
      case Join(i) =>
        if s.tasks[i].Raised? {
          FlagSound(s, s.(aborted := true));
        } else {
          TakenSound(s, JoinedRow(i, s.tasks[i]));
        }
      case GiveUp(i) => TakenSound(s, Row(i, HALTED, JoinTimeout));
    }
  }

  lemma {:induction false} SoundStays(s: State, actions: seq<Action>)
    requires Sound(s) && Run(s, actions).Some?
    ensures var t := Run(s, actions).value;
            Sound(t) && |t.tasks| == |s.tasks| && t.limit == s.limit
  {
    if actions != [] {
      var front := actions[..|actions| - 1];
      SoundStays(s, front);
      var before := Run(s, front).value;
      StepSound(before, actions[|actions| - 1]);
      assert |Step(before, actions[|actions| - 1]).value.tasks| == |before.tasks|;
    }
  }

  /** In every state of every run: at most `limit` run, no task is lost or doubled, rows are true. */
  lemma RunSound(n: nat, limit: nat, actions: seq<Action>)
    requires Run(Init(n, limit), actions).Some?
    ensures var s := Run(Init(n, limit), actions).value;
            Sound(s) && |s.tasks| == n && s.limit == limit
  {
    InitSound(n, limit);
    SoundStays(Init(n, limit), actions);
  }

  /** Once the halt has fired it stays, and no worker starts any more. */
  lemma {:induction false} NothingStartsAfterHalt(s: State, actions: seq<Action>)
    requires s.halt && Run(s, actions).Some?
    ensures Run(s, actions).value.halt && Run(s, actions).value.started == s.started
  {
    if actions != [] {
      NothingStartsAfterHalt(s, actions[..|actions| - 1]);
    }
  }

  lemma NoHaltInState(s: State)
    requires Sound(s) && s.pending == {} && !s.halt
    ensures s.started == Below(|s.tasks|)
    ensures forall r :: r in s.rows ==> r.cause == Answered || r.cause == RaisedError || (r.cause == JoinTimeout && r.signal == FAILED)
  {
    forall r | r in s.rows
      ensures r.cause == Answered || r.cause == RaisedError || (r.cause == JoinTimeout && r.signal == FAILED)
    {
      assert RowFits(s, r);
    }
    forall i | i in Below(|s.tasks|)
      ensures i in s.started
    {
      assert i in multiset(Below(|s.tasks|)) && multiset(s.pending) == multiset{};
      assert i in multiset(TasksOf(s.rows));
      var k :| 0 <= k < |s.rows| && TasksOf(s.rows)[k] == i;
      assert RowFits(s, s.rows[k]);
    }
  }

  /** A run that ends without a halt ran every worker, and reports what each of them did. */
  lemma NoHaltRunsAll(n: nat, limit: nat, actions: seq<Action>)
    requires Run(Init(n, limit), actions).Some?
    requires var s := Run(Init(n, limit), actions).value; s.pending == {} && !s.halt
    ensures var s := Run(Init(n, limit), actions).value;
            && s.started == Below(n)
            && forall r :: r in s.rows ==> r.cause == Answered || r.cause == RaisedError || (r.cause == JoinTimeout && r.signal == FAILED)
  {
    RunSound(n, limit, actions);
    NoHaltInState(Run(Init(n, limit), actions).value);
  }

  // ----- every run ends -----

  function Work(tasks: seq<Phase>): nat {
    if tasks == [] then 0
    else
      var p := tasks[|tasks| - 1];
      Work(tasks[..|tasks| - 1]) + if p.Waiting? then 2 else if p.Running? then 1 else 0
  }

  /** What is left to happen. */
  function Measure(s: State): nat {
    Work(s.tasks) + |s.pending| + (if s.halt then 0 else 1) + (if s.draining then 0 else 1) + if s.aborted then 0 else 1
  }

  lemma {:induction false} WorkAfter(tasks: seq<Phase>, i: nat, p: Phase)
    requires i < |tasks|
    ensures Work(tasks[i := p]) + (if tasks[i].Waiting? then 2 else if tasks[i].Running? then 1 else 0)
            == Work(tasks) + if p.Waiting? then 2 else if p.Running? then 1 else 0
  {
    var n := |tasks| - 1;
    if i == n {
      assert tasks[i := p][..n] == tasks[..n];
    } else {
      WorkAfter(tasks[..n], i, p);
      assert tasks[i := p][..n] == tasks[..n][i := p];
    }
  }

  lemma MoveShrinks(s: State, t: State, i: nat, p: Phase)
    requires i < |s.tasks| && t.tasks == s.tasks[i := p] && t.pending == s.pending
    requires t.halt == s.halt && t.draining == s.draining && t.aborted == s.aborted
    requires !IsDone(s.tasks[i]) && (IsDone(p) || (s.tasks[i].Waiting? && p.Running?))
    ensures Measure(t) < Measure(s)
  {
    WorkAfter(s.tasks, i, p);
  }

  lemma TakenShrinks(s: State, row: Row)
    requires row.task in s.pending
    ensures Measure(Taken(s, row)) < Measure(s)
  {
    assert |s.pending - {row.task}| == |s.pending| - 1;
  }

  lemma StepShrinks(s: State, a: Action)
    requires Step(s, a).Some?
    ensures Measure(Step(s, a).value) < Measure(s)
  {
    var t := Step(s, a).value;
    match a {
      case Acquire(i) => MoveShrinks(s, t, i, if s.halt then TurnedAway else Running);
      case Finish(i, signal) => MoveShrinks(s, t, i, Done(signal));
      case Raise(i) => MoveShrinks(s, t, i, Raised);
      case Expire(i) => MoveShrinks(s, t, i, Expired);
      case Cancel(i) => MoveShrinks(s, t, i, Cancelled);
      case Collect(i) => TakenShrinks(s, RowOf(i, s.tasks[i]));
      case Join(i) =>
        if !s.tasks[i].Raised? {
          TakenShrinks(s, JoinedRow(i, s.tasks[i]));
        }
      case GiveUp(i) => TakenShrinks(s, Row(i, HALTED, JoinTimeout));
      case FireHalt =>
      case StartDrain =>
    }
  }

  lemma {:induction false} RunBounded(s: State, actions: seq<Action>)
    requires Run(s, actions).Some?
    ensures |actions| + Measure(Run(s, actions).value) <= Measure(s)
  {
    if actions != [] {
      var front := actions[..|actions| - 1];
      RunBounded(s, front);
      StepShrinks(Run(s, front).value, actions[|actions| - 1]);
    }
  }

  lemma {:induction false} InitMeasure(n: nat, limit: nat)
    ensures Measure(Init(n, limit)) == 3 * n + 3
  {
    BelowSize(n);
    AllWork(n);
  }

  lemma {:induction false} BelowSize(n: nat)
    ensures |Below(n)| == n
  {
    if n > 0 {
      BelowSize(n - 1);
    }
  }

  lemma {:induction false} AllWork(n: nat)
    ensures Work(seq(n, _ => Waiting)) == 2 * n
  {
    if n > 0 {
      AllWork(n - 1);
      assert seq(n, _ => Waiting)[..n - 1] == seq(n - 1, _ => Waiting);
    }
  }

  lemma {:induction false} SomeRunning(tasks: seq<Phase>) returns (i: nat)
    requires RunningCount(tasks) > 0
    ensures i < |tasks| && tasks[i].Running?
  {
    var n := |tasks| - 1;
    if tasks[n].Running? {
      i := n;
    } else {
      i := SomeRunning(tasks[..n]);
    }
  }

  /** As long as the collector waits, something other than a halt can happen. */
  lemma NeverStuck(s: State) returns (a: Action)
    requires Sound(s) && !Over(s) && s.limit >= 1
    ensures Step(s, a).Some? && a != FireHalt && !a.Raise? && !a.Expire?
  {
    var i :| i in s.pending;
    if IsDone(s.tasks[i]) {
      a := if s.draining then Join(i) else Collect(i);
    } else if s.draining {
      a := GiveUp(i);
    } else if s.tasks[i].Running? {
      a := Finish(i, SUCCESS);
    } else if RunningCount(s.tasks) < s.limit {
      a := Acquire(i);
    } else {
      var j := SomeRunning(s.tasks);
      a := Finish(j, SUCCESS);
    }
  }

  /** Every run takes at most 3n + 3 steps, and one that can go no further is over. */
  lemma EveryRunEnds(n: nat, configured: Option<int>, actions: seq<Action>)
    requires Run(Init(n, LimitOf(configured)), actions).Some?
    ensures |actions| <= 3 * n + 3
    ensures (forall a :: Step(Run(Init(n, LimitOf(configured)), actions).value, a).None?)
            ==> Over(Run(Init(n, LimitOf(configured)), actions).value)
  {
    var s := Run(Init(n, LimitOf(configured)), actions).value;
    InitMeasure(n, LimitOf(configured));
    RunBounded(Init(n, LimitOf(configured)), actions);
    RunSound(n, LimitOf(configured), actions);
    if !Over(s) {
      var a := NeverStuck(s);
    }
  }

  lemma {:induction false} RunCons(s: State, a: Action, rest: seq<Action>)
    requires Step(s, a).Some?
    ensures Run(s, [a] + rest) == Run(Step(s, a).value, rest)
  {
    var all := [a] + rest;
    if rest == [] {
      assert all[..0] == [] && all[|all| - 1] == a;
    } else {
      RunCons(s, a, rest[..|rest| - 1]);
      assert all[..|all| - 1] == [a] + rest[..|rest| - 1] && all[|all| - 1] == rest[|rest| - 1];
    }
  }

  /** No exception has escaped a worker, or is to be met by the join. */
  predicate Calm(s: State) {
    !s.aborted && forall i :: 0 <= i < |s.tasks| ==> !s.tasks[i].Raised?
  }

  /**
    Any run can be carried to its end without a halt, and without an exception where none has
    escaped so far; in particular a whole schedule exists.
   */
  lemma {:induction false} Completable(s: State) returns (actions: seq<Action>)
    requires Sound(s) && s.limit >= 1
    ensures Run(s, actions).Some? && Over(Run(s, actions).value) && FireHalt !in actions
    ensures Run(s, actions).value.halt == s.halt && (Calm(s) ==> Calm(Run(s, actions).value))
    decreases Measure(s)
  {
    if Over(s) {
      actions := [];
    } else {
      var a := NeverStuck(s);
      var t := Step(s, a).value;
      StepSound(s, a);
      StepShrinks(s, a);
      var rest := Completable(t);
      RunCons(s, a, rest);
      actions := [a] + rest;
    }
  }

  /** A worker from which an exception other than a TimeoutError escaped, joined only after the halt. */
  ghost predicate JoinsRaised(s: State, actions: seq<Action>, k: nat) {
    && k < |actions| && actions[k].Join? && Run(s, actions[..k]).Some?
    && Active(Run(s, actions[..k]).value, actions[k].i, Raised)
  }

  /** The run is cut short by an exception exactly when that happens. */
  lemma {:induction false} AbortsIff(s: State, actions: seq<Action>)
    requires !s.aborted && Run(s, actions).Some?
    ensures Run(s, actions).value.aborted <==> exists k: nat :: JoinsRaised(s, actions, k)
  {
    if actions != [] {
      var n := |actions| - 1;
      var front := actions[..n];
      AbortsIff(s, front);
      forall k: nat | k < n
        ensures JoinsRaised(s, actions, k) <==> JoinsRaised(s, front, k)
      {
        assert front[..k] == actions[..k];
      }
      if Run(s, actions).value.aborted {
        assert JoinsRaised(s, actions, n);
      }
      if k: nat :| JoinsRaised(s, actions, k) {
        assert k == n || JoinsRaised(s, front, k);
      }
    }
  }

  lemma RunSnoc(s: State, actions: seq<Action>, now: State, a: Action) returns (longer: seq<Action>, next: State)
    requires Run(s, actions) == Some(now) && Step(now, a).Some?
    ensures longer == actions + [a] && Some(next) == Step(now, a) == Run(s, longer)
  {
    longer, next := actions + [a], Step(now, a).value;
    assert longer[..|longer| - 1] == actions;
  }

  lemma CountTwo(p: Phase, q: Phase)
    ensures RunningCount([p, q]) == (if p.Running? then 1 else 0) + if q.Running? then 1 else 0
  {
    assert [p, q][..1] == [p] && [p][..0] == [];
    assert RunningCount([p]) == if p.Running? then 1 else 0;
  }

  lemma BothRunning() returns (actions: seq<Action>, s: State)
    ensures Run(Init(2, 2), actions) == Some(s) && s == Init(2, 2).(tasks := [Running, Running], started := {0, 1})
  {
    var s0 := Init(2, 2);
    assert s0.tasks == [Waiting, Waiting];
    CountTwo(Waiting, Waiting);
    CountTwo(Running, Waiting);
    actions, s := RunSnoc(s0, [], s0, Acquire(0));
    assert s.tasks == [Running, Waiting];
    actions, s := RunSnoc(s0, actions, s, Acquire(1));
    assert s.tasks == [Running, Running] && s.started == {0, 1};
  }

  /**
    Such a run: of two workers one has succeeded, an exception has escaped the other, and the
    halt fires before either is collected. The first worker's result is lost with the run.
   */
  lemma EscapedExceptionAborts() returns (actions: seq<Action>, s: State)
    ensures Run(Init(2, 2), actions) == Some(s) && s.aborted && s.tasks == [Done(SUCCESS), Raised] && s.rows == []
  {
    actions, s := BothRunning();
    actions, s := RunSnoc(Init(2, 2), actions, s, Finish(0, SUCCESS));
    actions, s := RunSnoc(Init(2, 2), actions, s, Raise(1));
    assert s.tasks == [Done(SUCCESS), Raised] && 1 in s.pending;
    actions, s := RunSnoc(Init(2, 2), actions, s, FireHalt);
    actions, s := RunSnoc(Init(2, 2), actions, s, StartDrain);
    actions, s := RunSnoc(Init(2, 2), actions, s, Join(1));
  }

  /** Carries out a schedule that ends the run. */
  method RunParallelWorkers(n: nat, configured: Option<int>, schedule: seq<Action>) returns (s: State)
    requires Run(Init(n, LimitOf(configured)), schedule).Some? && Over(Run(Init(n, LimitOf(configured)), schedule).value)
    ensures s == Run(Init(n, LimitOf(configured)), schedule).value
    ensures Sound(s) && Over(s)
    ensures !s.aborted ==> multiset(TasksOf(s.rows)) == multiset(Below(n))
  {
    var limit := LimitOf(configured);
    s := Init(n, limit);
    for k := 0 to |schedule|
      invariant Run(Init(n, limit), schedule[..k]) == Some(s)
    {
      ScheduleGoesOn(Init(n, limit), schedule, k + 1);
      assert schedule[..k + 1][..k] == schedule[..k];
      s := Step(s, schedule[k]).value;
    }
    assert schedule[..|schedule|] == schedule;
    RunSound(n, limit, schedule);
  }

  lemma {:induction false} ScheduleGoesOn(s: State, actions: seq<Action>, k: nat)
    requires k <= |actions| && Run(s, actions).Some?
    ensures Run(s, actions[..k]).Some?
    decreases |actions|
  {
    if k < |actions| {
      var front := actions[..|actions| - 1];
      ScheduleGoesOn(s, front, k);
      assert front[..k] == actions[..k];
    } else {
      assert actions[..k] == actions;
    }
  }
}
