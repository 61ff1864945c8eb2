/**
  The blackboard pattern: a shared board of slots, and rounds that run, one after another,
  every knowledge source that has not run and whose dependencies have all been attempted.
  A source that fails is attempted all the same, so its dependents are not held back.
 */
module Blackboard {
  import opened Wrappers
  import opened WorkerGraph
  import opened Schedulability
  import opened LevelScheduler
  import opened SchedulerAgreement

  datatype Status = Filled(output: Option<string>) | Missed(error: string)

  datatype Entry = Entry(round: nat, source: string, status: Status)

  /** How a slot value is judged: is it an explicit failure line, and how is it reported if so. */
  datatype Judge = Judge(isFailure: Option<string> -> bool, errorText: Option<string> -> string)

  class BlackboardState {
    const judge: Judge
    const slotNames: seq<string>
    var slots: map<string, Option<string>>
    var failed: map<string, string>
    var attempted: set<string>
    var filled: set<string>
    var history: seq<Entry>
    var round: nat

    /** Every attempted slot is either filled or failed, never both. */
    ghost predicate Valid()
      reads this
    {
      filled !! failed.Keys && filled + failed.Keys == attempted
    }

    constructor (names: seq<string>, judge: Judge)
      ensures Valid() && this.judge == judge && slotNames == names
      ensures slots == map n | n in names :: None
      ensures attempted == {} && filled == {} && failed == map[] && history == [] && round == 0
    {
      this.judge, slotNames := judge, names;
      slots := map n | n in names :: None;
      failed, attempted, filled, history, round := map[], {}, {}, [], 0;
    }

    method MarkFailed(slot: string, error: string)
      modifies this
      ensures failed == old(failed)[slot := error] && attempted == old(attempted) + {slot}
      ensures history == old(history) + [Entry(round, slot, Missed(error))]
      ensures slots == old(slots) && filled == old(filled) && round == old(round)
      ensures old(Valid()) && slot !in old(filled) ==> Valid()
    {
      failed := failed[slot := error];
      attempted := attempted + {slot};
      history := history + [Entry(round, slot, Missed(error))];
    }

    method Write(slot: string, value: Option<string>)
      modifies this
      ensures round == old(round) && attempted == old(attempted) + {slot}
      ensures judge.isFailure(value) ==>
                && failed == old(failed)[slot := judge.errorText(value)]
                && slots == old(slots) && filled == old(filled)
                && history == old(history) + [Entry(round, slot, Missed(judge.errorText(value)))]
      ensures !judge.isFailure(value) ==>
                && failed == old(failed) - {slot}
                && slots == old(slots)[slot := value] && filled == old(filled) + {slot}
                && history == old(history) + [Entry(round, slot, Filled(value))]
      ensures old(Valid()) && slot !in old(filled) ==> Valid()
    {
      if judge.isFailure(value) {
        MarkFailed(slot, judge.errorText(value));
        return;
      }
      slots := slots[slot := value];
      filled := filled + {slot};
      attempted := attempted + {slot};
      failed := failed - {slot};
      history := history + [Entry(round, slot, Filled(value))];
    }

    predicate IsComplete()
      reads this
    {
      |attempted| >= |slots|
    }

    /** Slots without successful content, in slot order. */
    method UnfilledSlots() returns (names: seq<string>)
      ensures forall n :: n in names <==> n in slotNames && n !in filled
    {
      names := [];
      for i := 0 to |slotNames|
        invariant forall n :: n in names <==> n in slotNames[..i] && n !in filled
      {
        if slotNames[i] !in filled {
          names := names + [slotNames[i]];
        }
      }
      assert slotNames[..|slotNames|] == slotNames;
    }
  }

  datatype Outcome = Success(output: Option<string>) | Failed(error: string) | Halted(error: string)

  datatype Run = Run(source: string, outcome: Outcome)

  /**
    What the outside world does: the result each source would produce, and whether a HALT_ALL
    is seen just before, during, or just after the i-th run.
   */
  datatype World = World(outcome: string -> Outcome, haltBefore: nat -> bool, haltDuring: nat -> bool, haltAfter: nat -> bool)

  ghost function OutcomeOf(world: World, i: nat, source: string): Outcome {
    if world.haltDuring(i) then Halted("HALT_ALL") else world.outcome(source)
  }

  ghost predicate QuietAt(world: World, i: nat) {
    !world.haltBefore(i) && !world.haltDuring(i) && !world.haltAfter(i)
  }

  ghost predicate Lands(o: Outcome, judge: Judge) {
    o.Success? && !judge.isFailure(o.output)
  }

  ghost function Attempted(runs: seq<Run>): set<string> {
    if runs == [] then {} else Attempted(runs[..|runs| - 1]) + {runs[|runs| - 1].source}
  }

  ghost function Landed(runs: seq<Run>, judge: Judge): set<string> {
    if runs == [] then {}
    else Landed(runs[..|runs| - 1], judge) + if Lands(runs[|runs| - 1].outcome, judge) then {runs[|runs| - 1].source} else {}
  }

  lemma {:induction false} LandedWithin(runs: seq<Run>, judge: Judge)
    ensures Landed(runs, judge) <= Attempted(runs)
    ensures forall i :: 0 <= i < |runs| ==> runs[i].source in Attempted(runs)
  {
    if runs != [] {
      LandedWithin(runs[..|runs| - 1], judge);
    }
  }

  /** The board tells exactly what the runs did. */
  ghost predicate BoardRecords(board: BlackboardState, runs: seq<Run>)
    reads board
  {
    && board.Valid()
    && |board.history| == |runs|
    && board.attempted == Attempted(runs)
    && board.filled == Landed(runs, board.judge)
    && (forall i :: 0 <= i < |runs| ==> board.history[i].source == runs[i].source)
    && (forall i :: 0 <= i < |runs| ==> (board.history[i].status.Filled? <==> Lands(runs[i].outcome, board.judge)))
    && (forall i :: 0 <= i < |runs| && Lands(runs[i].outcome, board.judge) ==>
          runs[i].source in board.slots && board.slots[runs[i].source] == runs[i].outcome.output)
  }

  function Sources(runs: seq<Run>): (ids: seq<string>)
    ensures |ids| == |runs| && forall i :: 0 <= i < |runs| ==> ids[i] == runs[i].source
  {
    seq(|runs|, i requires 0 <= i < |runs| => runs[i].source)
  }

  /** Run one knowledge source and record it on the board. */
  method RunSource(board: BlackboardState, source: string, world: World, i: nat, ghost runs: seq<Run>) returns (run: Run)
    requires BoardRecords(board, runs) && i == |runs|
    requires source !in board.attempted && source in board.slots
    modifies board
    ensures run == Run(source, OutcomeOf(world, i, source))
    ensures BoardRecords(board, runs + [run])
    ensures board.round == old(board.round) && board.slots.Keys == old(board.slots.Keys)
  {
    assert (runs + [Run(source, OutcomeOf(world, i, source))])[..|runs|] == runs;
    LandedWithin(runs, board.judge);
    var outcome := if world.haltDuring(i) then Halted("HALT_ALL") else world.outcome(source);
    run := Run(source, outcome);
    match outcome
    case Success(output) => board.Write(source, output);
    case Failed(error) => board.MarkFailed(source, if error == "" then "unknown error" else error);
    case Halted(error) => board.MarkFailed(source, if error == "" then "unknown error" else error);
  }

  // ----- rounds -----

  function Eligible(cs: seq<Config>, attempted: set<string>): seq<Config> {
    if cs == [] then []
    else
      var c := cs[|cs| - 1];
      Eligible(cs[..|cs| - 1], attempted)
      + if c.id !in attempted && DepsWithin(c, attempted) then [c] else []
  }

  /** The sources that the first r rounds run, in order, when nothing halts them. */
  ghost function FirstRounds(cs: seq<Config>, r: nat): seq<Config> {
    if r == 0 then [] else FirstRounds(cs, r - 1) + Level(cs, r - 1)
  }

  lemma {:induction false} EligibleIsSelect(all: seq<Config>, cs: seq<Config>, r: nat)
    requires UniqueIds(all) && forall c :: c in cs ==> c in all
    ensures Eligible(cs, Settled(all, r)) == Select(cs, Settled(all, r + 1) - Settled(all, r))
  {
    if cs != [] {
      var c := cs[|cs| - 1];
      EligibleIsSelect(all, cs[..|cs| - 1], r);
      assert c.id in Settled(all, r + 1) <==> DepsWithin(c, Settled(all, r)) by {
        if c.id in Settled(all, r + 1) {
          SettledElim(all, c, r);
        } else if DepsWithin(c, Settled(all, r)) {
          SettledIntro(all, c, r);
        }
      }
    }
  }

  lemma JoinIds(a: seq<Config>, b: seq<Config>, s: set<string>, t: set<string>)
    requires Ids(a) == s && Ids(b) == t - s && s <= t
    ensures Ids(a + b) == t
  {
    assert Ids(a + b) == Ids(a) + Ids(b);
  }

  lemma {:induction false} FirstRoundsSettle(cs: seq<Config>, r: nat)
    ensures Ids(FirstRounds(cs, r)) == Settled(cs, r)
  {
    if r > 0 {
      var k := r - 1;
      FirstRoundsSettle(cs, k);
      LevelIds(cs, k);
      SettledGrows(cs, k, r);
      JoinIds(FirstRounds(cs, k), Level(cs, k), Settled(cs, k), Settled(cs, r));
    }
  }

  lemma LevelIds(cs: seq<Config>, k: nat)
    ensures Ids(Level(cs, k)) == Settled(cs, k + 1) - Settled(cs, k)
  {
    SelectKeeps(cs, Settled(cs, k + 1) - Settled(cs, k));
    SettledWithinIds(cs, k + 1);
    forall w | w in Settled(cs, k + 1) - Settled(cs, k)
      ensures w in Ids(Level(cs, k))
    {
      var c :| c in cs && c.id == w;
      assert c in Level(cs, k);
    }
  }

  lemma WorkerAt(cs: seq<Config>, k: nat) returns (w: string)
    requires Level(cs, k) != []
    ensures HasLevel(cs, w, k)
  {
    SelectKeeps(cs, Settled(cs, k + 1) - Settled(cs, k));
    var c := Level(cs, k)[0];
    assert c in Level(cs, k);
    w := c.id;
  }

  lemma NoneAbove(cs: seq<Config>, r: nat, m: nat)
    requires Level(cs, r) == [] && r <= m
    ensures Level(cs, m) == []
  {
    if Level(cs, m) != [] {
      var w := WorkerAt(cs, m);
      OccupiedBelow(cs, w, m, r);
    }
  }

  /** Once a round has nothing to run, no later round has. */
  lemma {:induction false} NothingLater(cs: seq<Config>, r: nat, m: nat)
    requires Level(cs, r) == [] && r <= m
    ensures FirstRounds(cs, m) == FirstRounds(cs, r)
    decreases m
  {
    if r < m {
      NothingLater(cs, r, m - 1);
      NoneAbove(cs, r, m - 1);
    }
  }

  lemma AllSettledLater(cs: seq<Config>, r: nat, m: nat)
    requires Ids(cs) <= Settled(cs, r) && r <= m
    ensures FirstRounds(cs, m) == FirstRounds(cs, r)
  {
    SettledWithinIds(cs, r + 1);
    assert Settled(cs, r + 1) - Settled(cs, r) == {};
    SelectNone(cs, Settled(cs, r + 1) - Settled(cs, r));
    NothingLater(cs, r, m);
  }

  lemma SelectNone(cs: seq<Config>, s: set<string>)
    requires s == {}
    ensures Select(cs, s) == []
  {
  }

  // ----- the loop -----

  ghost predicate Quiet(world: World, lo: nat, hi: nat) {
    forall i :: lo <= i < hi ==> QuietAt(world, i)
  }

  /** A halt stops the board after n runs: seen before the next one, or during or just after the last. */
  ghost predicate HaltStops(world: World, n: nat, anotherDue: bool) {
    || (anotherDue && Quiet(world, 0, n) && world.haltBefore(n))
    || (n > 0 && Quiet(world, 0, n - 1) && !world.haltBefore(n - 1) && (world.haltDuring(n - 1) || world.haltAfter(n - 1)))
  }

  /** The runs are those of the listed sources, in order, with the outcomes the world gives. */
  ghost predicate Runs(runs: seq<Run>, listed: seq<string>, world: World) {
    && |runs| <= |listed|
    && forall i :: 0 <= i < |runs| ==> runs[i] == Run(listed[i], OutcomeOf(world, i, listed[i]))
  }

  /** The body of the inner loop: look for a halt, run the source, look again. */
  method RunDue(board: BlackboardState, source: string, world: World, runs0: seq<Run>) returns (runs: seq<Run>, halted: bool)
    requires BoardRecords(board, runs0)
    requires source !in board.attempted && source in board.slots
    modifies board
    ensures BoardRecords(board, runs) && board.slots.Keys == old(board.slots.Keys)
    ensures halted <==> !QuietAt(world, |runs0|)
    ensures runs == if world.haltBefore(|runs0|) then runs0
                    else runs0 + [Run(source, OutcomeOf(world, |runs0|, source))]
  {
    var i := |runs0|;
    if world.haltBefore(i) {
      return runs0, true;
    }
    var run := RunSource(board, source, world, i, runs0);
    runs := runs0 + [run];
    if world.haltDuring(i) {
      return runs, true;
    }
    halted := world.haltAfter(i);
  }

  /** The sources of a round hold the positions of `listed` that follow the runs so far. */
  ghost predicate Due(listed: seq<string>, done: nat, eligible: seq<Config>) {
    && |listed| == done + |eligible|
    && forall j :: 0 <= j < |eligible| ==> listed[done + j] == eligible[j].id
  }

  lemma RunsSnoc(runs: seq<Run>, listed: seq<string>, world: World)
    requires Runs(runs, listed, world) && |runs| < |listed|
    ensures Runs(runs + [Run(listed[|runs|], OutcomeOf(world, |runs|, listed[|runs|]))], listed, world)
  {
  }

  lemma RunsLonger(runs: seq<Run>, listed: seq<string>, longer: seq<string>, world: World)
    requires Runs(runs, listed, world) && listed <= longer
    ensures Runs(runs, longer, world)
  {
  }

  method RunRound(board: BlackboardState, eligible: seq<Config>, world: World, runs0: seq<Run>, ghost listed: seq<string>)
    returns (runs: seq<Run>, halted: bool)
    requires BoardRecords(board, runs0) && Quiet(world, 0, |runs0|) && Runs(runs0, listed, world)
    requires Due(listed, |runs0|, eligible) && UniqueIds(eligible)
    requires forall c :: c in eligible ==> c.id !in board.attempted && c.id in board.slots
    modifies board
    ensures BoardRecords(board, runs) && Runs(runs, listed, world)
    ensures board.slots.Keys == old(board.slots.Keys)
    ensures !halted ==> |runs| == |listed| && Quiet(world, 0, |runs|)
    ensures halted ==> HaltStops(world, |runs|, |runs| < |listed|)
  {
    runs, halted := runs0, false;
    for j := 0 to |eligible|
      invariant !halted && |runs| == |runs0| + j
      invariant BoardRecords(board, runs) && board.slots.Keys == old(board.slots.Keys)
      invariant Runs(runs, listed, world)
      invariant Quiet(world, 0, |runs|)
      invariant forall m :: j <= m < |eligible| ==> eligible[m].id !in board.attempted && eligible[m].id in board.slots
    {
      ghost var soFar := runs;
      RunsSnoc(runs, listed, world);
      runs, halted := RunDue(board, eligible[j].id, world, runs);
      assert (soFar + [Run(eligible[j].id, OutcomeOf(world, |soFar|, eligible[j].id))])[..|soFar|] == soFar;
      if halted {
        return;
      }
    }
  }

  /** Where the loop stands at the start of round r. */
  ghost predicate AtRound(cs: seq<Config>, world: World, runs: seq<Run>, r: nat) {
    && Runs(runs, IdsOf(FirstRounds(cs, r)), world)
    && |runs| == |FirstRounds(cs, r)|
    && Quiet(world, 0, |runs|)
  }

  method EligibleNow(board: BlackboardState, cs: seq<Config>, ghost world: World, r: nat, ghost runs: seq<Run>)
    returns (eligible: seq<Config>)
    requires UniqueIds(cs) && BoardRecords(board, runs) && AtRound(cs, world, runs, r)
    ensures eligible == Level(cs, r)
    ensures Due(IdsOf(FirstRounds(cs, r + 1)), |runs|, eligible) && UniqueIds(eligible)
    ensures Runs(runs, IdsOf(FirstRounds(cs, r + 1)), world)
    ensures forall c :: c in eligible ==> c.id in Ids(cs) && c.id !in board.attempted
  {
    RunsSettle(cs, runs, r, world);
    eligible := Eligible(cs, board.attempted);
    EligibleIsSelect(cs, cs, r);
    LevelMembers(cs, r);
    RunsLonger(runs, IdsOf(FirstRounds(cs, r)), IdsOf(FirstRounds(cs, r + 1)), world);
  }

  /** One round. `settled` says the board stops here because nothing can change any more. */
  method PlayRound(board: BlackboardState, cs: seq<Config>, world: World, r: nat, runs0: seq<Run>)
    returns (runs: seq<Run>, halted: bool, settled: bool)
    requires UniqueIds(cs) && BoardRecords(board, runs0) && AtRound(cs, world, runs0, r)
    requires board.slots.Keys == Ids(cs)
    modifies board
    ensures board.slots.Keys == old(board.slots.Keys) && BoardRecords(board, runs)
    ensures if halted then StoppedEarly(cs, world, runs, r + 1) else AtRound(cs, world, runs, r + 1)
    ensures !halted && settled ==> Level(cs, r) == [] || |Attempted(runs)| >= |Ids(cs)|
  {
    board.round := r;
    var eligible := EligibleNow(board, cs, world, r, runs0);
    runs, halted, settled := runs0, false, true;
    if eligible != [] {
      runs, halted := RunRound(board, eligible, world, runs0, IdsOf(FirstRounds(cs, r + 1)));
      settled := board.IsComplete();
      assert |board.slots| == |board.slots.Keys|;
    }
  }

  method HandleBlackboard(cs: seq<Config>, judge: Judge, world: World, maxRounds: nat)
    returns (board: BlackboardState, runs: seq<Run>, halted: bool)
    requires UniqueIds(cs)
    ensures fresh(board) && board.judge == judge && BoardRecords(board, runs)
    ensures if halted then StoppedEarly(cs, world, runs, maxRounds) else AtRound(cs, world, runs, maxRounds)
  {
    board := new BlackboardState(IdsOf(cs), judge);
    IdsCovered(cs);
    assert board.slots.Keys == set n | n in IdsOf(cs);
    runs, halted := [], false;
    var r, settled := 0, false;
    while r < maxRounds && !halted && !settled
      invariant 0 <= r <= maxRounds && board.judge == judge && fresh(board)
      invariant BoardRecords(board, runs) && board.slots.Keys == Ids(cs)
      invariant if halted then StoppedEarly(cs, world, runs, maxRounds) else AtRound(cs, world, runs, r)
      invariant settled && !halted ==> FirstRounds(cs, r) == FirstRounds(cs, maxRounds)
    {
      runs, halted, settled := PlayRound(board, cs, world, r, runs);
      r := r + 1;
      if halted {
        HaltedInRound(cs, world, runs, r, maxRounds);
      } else if settled {
        SettledForGood(cs, runs, r, maxRounds, world);
      }
    }
  }

  /** A halt leaves a prefix of the runs that were planned. */
  ghost predicate StoppedEarly(cs: seq<Config>, world: World, runs: seq<Run>, maxRounds: nat) {
    && Runs(runs, IdsOf(FirstRounds(cs, maxRounds)), world)
    && HaltStops(world, |runs|, |runs| < |FirstRounds(cs, maxRounds)|)
  }

  lemma HaltedInRound(cs: seq<Config>, world: World, runs: seq<Run>, r: nat, m: nat)
    requires r <= m && StoppedEarly(cs, world, runs, r)
    ensures StoppedEarly(cs, world, runs, m)
  {
    RoundExtends(cs, r, m);
    RunsLonger(runs, IdsOf(FirstRounds(cs, r)), IdsOf(FirstRounds(cs, m)), world);
  }

  lemma SettledForGood(cs: seq<Config>, runs: seq<Run>, r: nat, m: nat, world: World)
    requires UniqueIds(cs) && 0 < r <= m && AtRound(cs, world, runs, r)
    requires Level(cs, r - 1) == [] || |Attempted(runs)| >= |Ids(cs)|
    ensures FirstRounds(cs, r) == FirstRounds(cs, m)
  {
    if Level(cs, r - 1) == [] {
      NothingLater(cs, r - 1, m);
      NothingLater(cs, r - 1, r);
    } else {
      RunsSettle(cs, runs, r, world);
      SettledWithinIds(cs, r);
      BigEnough(Settled(cs, r), Ids(cs));
      AllSettledLater(cs, r, m);
    }
  }

  lemma IdsCovered(cs: seq<Config>)
    ensures (set n | n in IdsOf(cs)) == Ids(cs)
  {
    forall w | w in Ids(cs)
      ensures w in IdsOf(cs)
    {
      var c :| c in cs && c.id == w;
      var i :| 0 <= i < |cs| && cs[i] == c;
      assert IdsOf(cs)[i] == w;
    }
  }

  lemma BigEnough(s: set<string>, t: set<string>)
    requires s <= t && |s| >= |t|
    ensures s == t
  {
    assert t == s + (t - s);
    assert |t| == |s| + |t - s|;
  }

  lemma LevelMembers(cs: seq<Config>, r: nat)
    requires UniqueIds(cs)
    ensures UniqueIds(Level(cs, r))
    ensures forall c :: c in Level(cs, r) ==> c.id in Ids(cs) && c.id !in Settled(cs, r)
  {
    SelectKeeps(cs, Settled(cs, r + 1) - Settled(cs, r));
    SelectUnique(cs, Settled(cs, r + 1) - Settled(cs, r));
  }

  lemma {:induction false} RoundExtends(cs: seq<Config>, r: nat, m: nat)
    requires r <= m
    ensures FirstRounds(cs, r) <= FirstRounds(cs, m)
    decreases m
  {
    if r < m {
      RoundExtends(cs, r, m - 1);
    }
  }

  lemma RunsSettle(cs: seq<Config>, runs: seq<Run>, r: nat, world: World)
    requires Runs(runs, IdsOf(FirstRounds(cs, r)), world) && |runs| == |FirstRounds(cs, r)|
    ensures Attempted(runs) == Settled(cs, r)
  {
    FirstRoundsSettle(cs, r);
    SameSources(runs, FirstRounds(cs, r));
  }

  lemma {:induction false} SameSources(runs: seq<Run>, cs: seq<Config>)
    requires |runs| == |cs| && forall i :: 0 <= i < |runs| ==> runs[i].source == cs[i].id
    ensures Attempted(runs) == Ids(cs)
  {
    if runs != [] {
      var n := |cs| - 1;
      SameSources(runs[..n], cs[..n]);
      assert cs == cs[..n] + [cs[n]];
      assert Ids(cs) == Ids(cs[..n]) + {cs[n].id};
    } else {
      assert Ids(cs) == {};
    }
  }

  // ----- what the loop's contract means -----

  /**
    Given |cs| rounds and no halt, the board attempts exactly the sources that reach neither a
    dependency cycle nor an unknown source.
   */
  lemma BoardAttemptsGrounded(cs: seq<Config>, world: World, runs: seq<Run>, maxRounds: nat, w: string)
    requires UniqueIds(cs) && AtRound(cs, world, runs, maxRounds) && maxRounds >= |cs|
    ensures w in Attempted(runs) <==> w in Ids(cs) && !ReachesCycle(cs, w) && !ReachesUnknown(cs, w)
  {
    RunsSettle(cs, runs, maxRounds, world);
    SettlesByCount(cs, maxRounds);
    SettledGrows(cs, |cs|, maxRounds);
    SettledWithinIds(cs, maxRounds);
    if w in Ids(cs) {
      GroundedIff(cs, w);
    }
  }

  /** On a graph that can be scheduled, round k runs level k of the DAG scheduler, in the same order. */
  lemma {:induction false} RoundsAreLevels(cs: seq<Config>, levels: seq<seq<Config>>, k: nat)
    requires IsLevelling(cs, levels) && k <= |levels|
    ensures FirstRounds(cs, k) == Flatten(levels[..k])
  {
    if k > 0 {
      RoundsAreLevels(cs, levels, k - 1);
      assert levels[..k][..k - 1] == levels[..k - 1];
    }
  }

  lemma {:induction false} FirstRoundsUnique(cs: seq<Config>, r: nat)
    requires UniqueIds(cs)
    ensures UniqueIds(FirstRounds(cs, r))
  {
    if r > 0 {
      FirstRoundsUnique(cs, r - 1);
      FirstRoundsSettle(cs, r - 1);
      LevelMembers(cs, r - 1);
      UniqueConcat(FirstRounds(cs, r - 1), Level(cs, r - 1));
    }
  }

  lemma UniqueConcat(a: seq<Config>, b: seq<Config>)
    requires UniqueIds(a) && UniqueIds(b) && forall c :: c in b ==> c.id !in Ids(a)
    ensures UniqueIds(a + b)
  {
    forall i, j | 0 <= i < j < |a + b|
      ensures (a + b)[i].id != (a + b)[j].id
    {
      if i < |a| <= j {
        assert a[i] in a && b[j - |a|] in b;
      }
    }
  }

  /** Whether or not it halts, a board runs no source twice, and none before its dependencies. */
  lemma RunsOnceAfterDeps(cs: seq<Config>, world: World, runs: seq<Run>, m: nat, i: nat, c: Config)
    requires UniqueIds(cs) && Runs(runs, IdsOf(FirstRounds(cs, m)), world)
    requires i < |runs| && c in cs && c.id == runs[i].source
    ensures forall j :: 0 <= j < |runs| && j != i ==> runs[j].source != runs[i].source
    ensures forall d :: d in c.deps ==> exists j :: 0 <= j < i && runs[j].source == d
  {
    FirstRoundsUnique(cs, m);
    var all := FirstRounds(cs, m);
    assert all[i].id == c.id;
    forall j | 0 <= j < |runs| && j != i
      ensures runs[j].source != runs[i].source
    {
      assert all[j].id != all[i].id;
    }
    forall d | d in c.deps
      ensures exists j :: 0 <= j < i && runs[j].source == d
    {
      var j := DepsComeFirst(cs, m, i, c, d);
      assert runs[j].source == d;
    }
  }

  lemma {:induction false} DepsComeFirst(cs: seq<Config>, m: nat, i: nat, c: Config, d: string) returns (j: nat)
    requires UniqueIds(cs) && i < |FirstRounds(cs, m)| && FirstRounds(cs, m)[i].id == c.id && c in cs && d in c.deps
    ensures j < i && FirstRounds(cs, m)[j].id == d
    decreases m
  {
    var front := FirstRounds(cs, m - 1);
    if i < |front| {
      j := DepsComeFirst(cs, m - 1, i, c, d);
    } else {
      LevelIds(cs, m - 1);
      var e := Level(cs, m - 1)[i - |front|];
      assert e in Level(cs, m - 1) && e.id == c.id && c.id in Ids(Level(cs, m - 1));
      SettledElim(cs, c, m - 1);
      FirstRoundsSettle(cs, m - 1);
      var f :| f in front && f.id == d;
      j :| 0 <= j < |front| && front[j] == f;
    }
  }
}
