/**
  What whole runs of the hybrid DAG keep, and what they do not: the halt, the respawns of
  recovery, the slot limit and the user's skips, each with its exact condition, with batches and
  with dynamic nodes.
 */
module HybridDagRuns {
  import opened Wrappers
  import opened WorkerGraph
  import opened ParallelRun
  import opened SideBySide
  import opened LevelScheduler
  import opened SchedulerAgreement
  import opened HybridDag

  // ----- the flag the levels share -----

  /** Nothing but rows of skipped workers has been added. */
  ghost predicate StaysHalted(before: DagState, after: DagState) {
    && before.rows <= after.rows && after == before.(rows := after.rows)
    && forall i :: |before.rows| <= i < |after.rows| ==> after.rows[i].signal == HALTED && after.rows[i].fate == LevelSkipped
  }

  lemma HaltedStep(before: DagState, d: DagState, level: seq<Config>, o: Outcome, w: World)
    requires before.halt && !before.aborted
    ensures StaysHalted(before, d) ==> StaysHalted(before, LevelStep(d, level, o, w))
  {
    if StaysHalted(before, d) {
      var after := LevelStep(d, level, o, w);
      assert after == d.(rows := d.rows + HaltedRows(level));
    }
  }

  /** After the level in which the flag is set no worker starts, and all further results are marked halted. */
  lemma {:induction false} HaltIsFinal(levels: seq<seq<Config>>, outs: seq<Outcome>, w: World, h: nat, n: nat)
    requires h <= n <= |levels| == |outs| && Dag(levels, outs, w, h).halt && !Dag(levels, outs, w, h).aborted
    ensures StaysHalted(Dag(levels, outs, w, h), Dag(levels, outs, w, n))
    decreases n
  {
    if h < n {
      HaltIsFinal(levels, outs, w, h, n - 1);
      HaltedStep(Dag(levels, outs, w, h), Dag(levels, outs, w, n - 1), levels[n - 1], outs[n - 1], w);
    }
  }

  lemma {:induction false} QuietOutcomes(levels: seq<seq<Config>>, outs: seq<Outcome>, w: World, n: nat)
    requires n <= |levels| == |outs| && forall k :: 0 <= k < n ==> !outs[k].halt
    ensures !Dag(levels, outs, w, n).halt
  {
    if n > 0 {
      QuietOutcomes(levels, outs, w, n - 1);
    }
  }

  lemma {:induction false} CalmOutcomes(levels: seq<seq<Config>>, outs: seq<Outcome>, w: World, n: nat)
    requires n <= |levels| == |outs| && forall k :: 0 <= k < n ==> !outs[k].aborted
    ensures !Dag(levels, outs, w, n).aborted
  {
    if n > 0 {
      CalmOutcomes(levels, outs, w, n - 1);
    }
  }

  /** With dynamic nodes the flag of the run is never set. */
  lemma DynamicNeverHalts(levels: seq<seq<Config>>, w: World, moves: seq<seq<Move>>, n: nat)
    requires AllScheduled(levels, w, moves) && n <= |levels| && Dynamic(w)
    ensures !Dag(levels, Outcomes(levels, w, moves), w, n).halt
  {
    forall k | 0 <= k < n
      ensures !Outcomes(levels, w, moves)[k].halt
    {
      NodesAccount(levels[k], w, moves[k]);
    }
    QuietOutcomes(levels, Outcomes(levels, w, moves), w, n);
  }

  // ----- respawns after a halt -----

  lemma {:induction false} RespawnsNone(rows: seq<DagRow>, w: World)
    ensures Respawns(rows, w) == [] <==> !Recovers(w) || forall i :: 0 <= i < |rows| ==> rows[i].signal == SUCCESS
  {
    if rows != [] && Recovers(w) {
      RespawnsNone(rows[..|rows| - 1], w);
    }
  }

  /** Level k is run, and carried to its end. */
  ghost predicate Completed(levels: seq<seq<Config>>, outs: seq<Outcome>, w: World, k: nat)
    requires |levels| == |outs|
  {
    k < |levels| && !Dag(levels, outs, w, k).halt && !Dag(levels, outs, w, k + 1).aborted
  }

  /** Level k leaves a worker that did not succeed, in it or before it a HALT_ALL having been drained. */
  ghost predicate FailureAfterHalt(levels: seq<seq<Config>>, outs: seq<Outcome>, w: World, k: nat)
    requires |levels| == |outs|
  {
    && Completed(levels, outs, w, k) && Dag(levels, outs, w, k + 1).signalled
    && exists i :: 0 <= i < |outs[k].rows| && outs[k].rows[i].signal != SUCCESS
  }

  lemma LateRespawnStep(d: DagState, level: seq<Config>, o: Outcome, w: World)
    ensures var after := LevelStep(d, level, o, w);
            |after.respawnedLate| > 0 <==>
              || |d.respawnedLate| > 0
              || (Recovers(w) && !d.halt && !after.aborted && after.signalled
                  && exists i :: 0 <= i < |o.rows| && o.rows[i].signal != SUCCESS)
  {
    RespawnsNone(o.rows, w);
  }

  /** What stays once it is set is set after n steps iff one of them sets it. */
  lemma {:induction false} SetBySome(going: seq<bool>, sets: seq<bool>, n: nat)
    requires n <= |sets| < |going| && !going[0]
    requires forall j {:trigger sets[j]} :: 0 <= j < |sets| ==> going[j + 1] == (going[j] || sets[j])
    ensures going[n] <==> exists k :: 0 <= k < n && sets[k]
  {
    if n > 0 {
      SetBySome(going, sets, n - 1);
      assert going[n - 1 + 1] == (going[n - 1] || sets[n - 1]);
    }
  }

  ghost predicate Late(levels: seq<seq<Config>>, outs: seq<Outcome>, w: World, n: nat)
    requires n <= |levels| == |outs|
  {
    |Dag(levels, outs, w, n).respawnedLate| > 0
  }

  ghost predicate RespawnsLate(levels: seq<seq<Config>>, outs: seq<Outcome>, w: World, k: nat)
    requires |levels| == |outs|
  {
    Recovers(w) && FailureAfterHalt(levels, outs, w, k)
  }

  lemma FailureIsStep(levels: seq<seq<Config>>, outs: seq<Outcome>, w: World, k: nat)
    requires k < |levels| == |outs|
    ensures Late(levels, outs, w, k + 1) <==> Late(levels, outs, w, k) || RespawnsLate(levels, outs, w, k)
  {
    LateRespawnStep(Dag(levels, outs, w, k), levels[k], outs[k], w);
  }

  lemma LateBySome(levels: seq<seq<Config>>, outs: seq<Outcome>, w: World)
    requires |levels| == |outs|
    ensures Late(levels, outs, w, |levels|) <==> exists k :: 0 <= k < |levels| && RespawnsLate(levels, outs, w, k)
  {
    var n := |levels|;
    var late := seq(n + 1, j requires 0 <= j <= n => Late(levels, outs, w, j));
    var sets := seq(n, j requires 0 <= j < n => RespawnsLate(levels, outs, w, j));
    assert !late[0];
    forall j {:trigger sets[j]} | 0 <= j < n
      ensures late[j + 1] == (late[j] || sets[j])
    {
      FailureIsStep(levels, outs, w, j);
    }
    SetBySome(late, sets, n);
    assert late[n] == Late(levels, outs, w, n);
    assert forall k :: 0 <= k < n ==> sets[k] == RespawnsLate(levels, outs, w, k);
  }

  /**
    Recovery does not look at the halt: workers are spawned anew after a HALT_ALL exactly when
    spawns are enabled outside a frozen replay and a level carried to its end leaves a worker that
    did not succeed, a HALT_ALL having been drained in that level or before.
   */
  lemma RespawnsAfterHaltIff(levels: seq<seq<Config>>, outs: seq<Outcome>, w: World)
    requires |levels| == |outs|
    ensures Dag(levels, outs, w, |levels|).respawnedLate != []
            <==> Recovers(w) && exists k: nat :: FailureAfterHalt(levels, outs, w, k)
  {
    LateBySome(levels, outs, w);
    if k: nat :| FailureAfterHalt(levels, outs, w, k) {
      assert Recovers(w) ==> RespawnsLate(levels, outs, w, k);
    }
  }

  /** A level's outcome is signalled when a listener of it has drained a HALT_ALL. */
  lemma SignalledIs(level: seq<Config>, w: World, ms: seq<Move>)
    requires Scheduled(level, w, ms)
    ensures OutcomeOf(level, w, ms).signalled <==> AnySignalled(Ends(level, w, ms))
  {
    if Dynamic(w) {
      NodesAccount(level, w, ms);
    } else if Gated(level, w, false) != [] {
      assert OutcomeOf(level, w, ms).signalled == LevelEnd(level, w, ms).halt == Signalled(Ends(level, w, ms)[0]);
    }
  }

  /** Without a HALT_ALL in a level none of its starts is late. */
  lemma QuietLevel(level: seq<Config>, w: World, ms: seq<Move>)
    requires Scheduled(level, w, ms)
    ensures !OutcomeOf(level, w, ms).signalled ==> OutcomeOf(level, w, ms).late == {}
  {
    var ps := Places(level, w);
    SignalledIs(level, w, ms);
    if m :| m in LateStarts(ps, ms) {
      LateNeedsSignal(ps, ms, m);
    }
  }

  lemma QuietStep(d: DagState, level: seq<Config>, o: Outcome, w: World)
    requires !d.signalled ==> d.respawnedLate == [] && d.startedLate == {}
    requires !o.signalled ==> o.late == {}
    ensures var after := LevelStep(d, level, o, w);
            !after.signalled ==> after.respawnedLate == [] && after.startedLate == {}
  {
  }

  lemma {:induction false} QuietRun(levels: seq<seq<Config>>, outs: seq<Outcome>, w: World, n: nat)
    requires n <= |levels| == |outs| && forall k :: 0 <= k < n ==> !outs[k].signalled ==> outs[k].late == {}
    ensures var d := Dag(levels, outs, w, n); !d.signalled ==> d.respawnedLate == [] && d.startedLate == {}
  {
    if n > 0 {
      QuietRun(levels, outs, w, n - 1);
      QuietStep(Dag(levels, outs, w, n - 1), levels[n - 1], outs[n - 1], w);
    }
  }

  /** As long as no HALT_ALL has been drained, nothing is late. */
  lemma NoHaltNothingLate(levels: seq<seq<Config>>, w: World, moves: seq<seq<Move>>, n: nat)
    requires AllScheduled(levels, w, moves) && n <= |levels|
    ensures var d := Dag(levels, Outcomes(levels, w, moves), w, n);
            !d.signalled ==> d.respawnedLate == [] && d.startedLate == {}
  {
    var outs := Outcomes(levels, w, moves);
    forall k | 0 <= k < n
      ensures !outs[k].signalled ==> outs[k].late == {}
    {
      QuietLevel(levels[k], w, moves[k]);
    }
    QuietRun(levels, outs, w, n);
  }

  lemma {:induction false} LateNeedsSignal(ps: seq<Place>, ms: seq<Move>, m: Move)
    requires Moved(ps, ms).Some? && m in LateStarts(ps, ms)
    ensures AnySignalled(Moved(ps, ms).value)
  {
    var n := |ms| - 1;
    if m in LateStarts(ps, ms[..n]) {
      LateNeedsSignal(ps, ms[..n], m);
    }
    assert ms[..n] + ms[n..] == ms;
    MovedAppend(ps, ms[..n], ms[n..]);
    AnySignalStays(Moved(ps, ms[..n]).value, ms[n..]);
  }

  // ----- schedules that exist -----

  /** A worker with a listener: it neither is dispatched nor was declined. */
  predicate Listens(id: string, w: World) { !Dispatched(id, w) && !Declined(id, w) }

  predicate Works(id: string, w: World) { Dispatched(id, w) || !Declined(id, w) }

  predicate AllCalm(qs: seq<Place>) {
    forall i :: 0 <= i < |qs| ==> CalmPlace(qs[i])
  }

  /** What the carried-on level looks like: no exception, and everything ran that no halt kept from it. */
  ghost predicate EndsWell(level: seq<Config>, w: World, ms: seq<Move>)
    requires Scheduled(level, w, ms)
  {
    && AllCalm(Ends(level, w, ms))
    && forall i :: 0 <= i < |Places(level, w)| && CanWork(Places(level, w)[i]) ==>
         Signalled(Ends(level, w, ms)[i]) || Begun(Ends(level, w, ms)[i])
  }

  /** Any beginning of a level without an exception can be carried on to the end of the level. */
  lemma LevelFrom(level: seq<Config>, w: World, front: seq<Move>) returns (more: seq<Move>)
    requires Moved(Places(level, w), front).Some? && AllCalm(Moved(Places(level, w), front).value)
    ensures Scheduled(level, w, front + more) && EndsWell(level, w, front + more)
    ensures var qs, rs := Moved(Places(level, w), front).value, Ends(level, w, front + more);
            |qs| == |rs| && forall i :: 0 <= i < |qs| ==> CarriedOn(qs[i], rs[i])
  {
    var ps, limit := Places(level, w), LimitOf(w.maxConcurrent);
    more := CompleteFrom(ps, front, limit);
    var qs, rs := Moved(ps, front).value, Moved(ps, front + more).value;
    assert AllOver(rs) && AllCalm(rs);
    assert rs == Ends(level, w, front + more);
    forall i | 0 <= i < |ps| && CanWork(ps[i])
      ensures Signalled(rs[i]) || Begun(rs[i])
    {
      PlacesSound(ps, front, limit, i);
      assert CanWork(qs[i]);
    }
  }

  lemma WellNotAborted(level: seq<Config>, w: World, ms: seq<Move>)
    requires Scheduled(level, w, ms) && EndsWell(level, w, ms)
    ensures !OutcomeOf(level, w, ms).aborted
  {
    if Dynamic(w) {
      NodesAccount(level, w, ms);
    } else if Gated(level, w, false) != [] {
      assert CalmPlace(Ends(level, w, ms)[0]);
      assert OutcomeOf(level, w, ms).aborted == LevelEnd(level, w, ms).aborted;
    }
  }

  ghost predicate QuietEnd(level: seq<Config>, w: World, ms: seq<Move>)
    requires Scheduled(level, w, ms)
  {
    EndsWell(level, w, ms) && !AnySignalled(Ends(level, w, ms))
  }

  lemma QuietMoves(level: seq<Config>, w: World) returns (ms: seq<Move>)
    ensures Scheduled(level, w, ms) && QuietEnd(level, w, ms)
  {
    var ps := Places(level, w);
    assert Moved(ps, []) == Some(ps) && AllCalm(ps);
    ms := LevelFrom(level, w, []);
    assert [] + ms == ms;
  }

  lemma {:induction false} AllQuiet(levels: seq<seq<Config>>, w: World) returns (moves: seq<seq<Move>>)
    ensures AllScheduled(levels, w, moves)
    ensures forall k :: 0 <= k < |levels| ==> QuietEnd(levels[k], w, moves[k])
  {
    if levels == [] {
      moves := [];
    } else {
      var n := |levels| - 1;
      var front := AllQuiet(levels[..n], w);
      var ms := QuietMoves(levels[n], w);
      moves := front + [ms];
      forall k | 0 <= k < |levels|
        ensures Scheduled(levels[k], w, moves[k]) && QuietEnd(levels[k], w, moves[k])
      {
        assert k < n ==> levels[..n][k] == levels[k];
      }
    }
  }

  /** Every level runs quietly but level h, which has the given moves. */
  lemma QuietBut(levels: seq<seq<Config>>, w: World, h: nat, ms: seq<Move>) returns (moves: seq<seq<Move>>)
    requires h < |levels| && Scheduled(levels[h], w, ms) && EndsWell(levels[h], w, ms)
    ensures AllScheduled(levels, w, moves) && moves[h] == ms
    ensures forall k :: 0 <= k < |levels| && k != h ==> QuietEnd(levels[k], w, moves[k])
    ensures forall k :: 0 <= k <= h ==> !Dag(levels, Outcomes(levels, w, moves), w, k).halt
    ensures forall k :: 0 <= k <= |levels| ==> !Dag(levels, Outcomes(levels, w, moves), w, k).aborted
  {
    var quiet := AllQuiet(levels, w);
    moves := quiet[h := ms];
    var outs := Outcomes(levels, w, moves);
    forall k | 0 <= k < |levels|
      ensures !outs[k].aborted && (k != h ==> !outs[k].halt)
    {
      WellNotAborted(levels[k], w, moves[k]);
      if k != h {
        QuietOutcome(levels[k], w, moves[k]);
      }
    }
    forall k | 0 <= k <= |levels|
      ensures !Dag(levels, outs, w, k).aborted && (k <= h ==> !Dag(levels, outs, w, k).halt)
    {
      CalmOutcomes(levels, outs, w, k);
      if k <= h {
        QuietOutcomes(levels, outs, w, k);
      }
    }
  }

  lemma QuietOutcome(level: seq<Config>, w: World, ms: seq<Move>)
    requires Scheduled(level, w, ms) && QuietEnd(level, w, ms)
    ensures !OutcomeOf(level, w, ms).halt
  {
    SignalledIs(level, w, ms);
    if Dynamic(w) {
      NodesAccount(level, w, ms);
    }
  }

  /** The run at place x drains a HALT_ALL before anything else happens in the level. */
  lemma HaltFirst(level: seq<Config>, w: World, x: nat) returns (ms: seq<Move>, more: seq<Move>)
    requires x < |Places(level, w)| && Places(level, w)[x].Own?
    ensures ms == [Move(x, FireHalt)] + more && Scheduled(level, w, ms) && EndsWell(level, w, ms)
    ensures Signalled(Ends(level, w, ms)[x]) && Ends(level, w, ms)[x].run.started == {}
    ensures forall i :: 0 <= i < |Places(level, w)| && i != x ==> !Signalled(Ends(level, w, ms)[i])
  {
    var ps := Places(level, w);
    MovedSnoc(ps, [], Move(x, FireHalt));
    var front := [] + [Move(x, FireHalt)];
    assert front == [Move(x, FireHalt)];
    var qs := Moved(ps, front).value;
    assert qs == ps[x := Own(ps[x].run.(halt := true))];
    assert AllCalm(qs);
    more := LevelFrom(level, w, front);
    ms := front + more;
    assert CarriedOn(qs[x], Ends(level, w, ms)[x]);
  }

  // ----- starts after a halt -----

  /** A worker with a listener, and another one in its level or a later one. */
  ghost predicate PairAt(levels: seq<seq<Config>>, w: World, h: nat, x: nat, k: nat, y: nat) {
    && h <= k < |levels| && x < |levels[h]| && y < |levels[k]| && (h == k ==> x != y)
    && Listens(levels[h][x].id, w) && Works(levels[k][y].id, w)
  }

  ghost predicate HasPair(levels: seq<seq<Config>>, w: World) {
    exists h: nat, x: nat, k: nat, y: nat :: PairAt(levels, w, h, x, k, y)
  }

  ghost predicate ListensAt(levels: seq<seq<Config>>, w: World, h: nat, x: nat) {
    h < |levels| && x < |levels[h]| && Listens(levels[h][x].id, w)
  }

  /** In some schedule of the run a worker starts after a HALT_ALL has been drained. */
  ghost predicate CanStartLate(levels: seq<seq<Config>>, w: World) {
    exists moves :: AllScheduled(levels, w, moves)
                    && Dag(levels, Outcomes(levels, w, moves), w, |levels|).startedLate != {}
  }

  lemma StartedSnoc(level: seq<Config>, qs: seq<Place>, id: string)
    requires |qs| == |level| > 0 && NodesEnded(qs)
    ensures var n := |level| - 1;
            id in Gathered(level, qs).started <==>
              id in Gathered(level[..n], qs[..n]).started || (level[n].id == id && Begun(qs[n]))
  {
  }

  lemma {:induction false} GatheredStarted(level: seq<Config>, qs: seq<Place>, id: string)
    requires |qs| == |level| && NodesEnded(qs)
    ensures id in Gathered(level, qs).started <==> exists i :: 0 <= i < |level| && level[i].id == id && Begun(qs[i])
  {
    if level != [] {
      var n := |level| - 1;
      StartedSnoc(level, qs, id);
      GatheredStarted(level[..n], qs[..n], id);
      if i :| 0 <= i < |level| && level[i].id == id && Begun(qs[i]) {
        assert i == n || (level[..n][i].id == id && Begun(qs[..n][i]));
      }
    }
  }

  lemma BegunWorks(level: seq<Config>, w: World, ms: seq<Move>, i: nat)
    requires Dynamic(w) && Scheduled(level, w, ms) && i < |level|
    ensures Begun(Ends(level, w, ms)[i]) ==> Works(level[i].id, w)
    ensures Signalled(Ends(level, w, ms)[i]) ==> Listens(level[i].id, w)
  {
    assert PlaceSound(NodePlace(level[i].id, w), Ends(level, w, ms)[i], LimitOf(w.maxConcurrent));
  }

  /** Whoever starts in level k works, whoever drains a HALT_ALL listens, and a late start has both. */
  ghost predicate TellsWho(levels: seq<seq<Config>>, w: World, k: nat, o: Outcome)
    requires k < |levels|
  {
    && (o.started != {} ==> exists y :: 0 <= y < |levels[k]| && Works(levels[k][y].id, w))
    && (o.signalled ==> exists x: nat :: ListensAt(levels, w, k, x))
    && (o.late != {} ==> HasPair(levels, w))
  }

  lemma DynamicLevel(levels: seq<seq<Config>>, w: World, ms: seq<Move>, k: nat)
    requires Dynamic(w) && k < |levels| && Scheduled(levels[k], w, ms)
    ensures TellsWho(levels, w, k, NodesOutcome(levels[k], w, ms))
  {
    var level, o := levels[k], NodesOutcome(levels[k], w, ms);
    NodesAccount(level, w, ms);
    if id :| id in o.started {
      GatheredStarted(level, GatheredEnds(level, w, ms), id);
      var y :| 0 <= y < |level| && level[y].id == id && Begun(Ends(level, w, ms)[y]);
      BegunWorks(level, w, ms, y);
    }
    if o.signalled {
      var x :| 0 <= x < |level| && Signalled(Ends(level, w, ms)[x]);
      BegunWorks(level, w, ms, x);
      assert ListensAt(levels, w, k, x);
    }
    if id :| id in o.late {
      var m :| m in LateStarts(Places(level, w), ms) && m.i < |level| && level[m.i].id == id;
      var x := LateElsewhere(Places(level, w), ms, m);
      assert PairAt(levels, w, k, x, k, m.i);
    }
  }

  lemma {:induction false} LateNeedsPair(levels: seq<seq<Config>>, outs: seq<Outcome>, w: World, n: nat)
    requires n <= |levels| == |outs| && forall k :: 0 <= k < n ==> TellsWho(levels, w, k, outs[k])
    ensures var d := Dag(levels, outs, w, n);
            && (d.signalled ==> exists h: nat, x: nat :: h < n && ListensAt(levels, w, h, x))
            && (d.startedLate != {} ==> HasPair(levels, w))
  {
    if n > 0 {
      LateNeedsPair(levels, outs, w, n - 1);
      assert TellsWho(levels, w, n - 1, outs[n - 1]);
      if Dag(levels, outs, w, n - 1).signalled && outs[n - 1].started != {} {
        var h: nat, x: nat :| h < n - 1 && ListensAt(levels, w, h, x);
        var y :| 0 <= y < |levels[n - 1]| && Works(levels[n - 1][y].id, w);
        assert PairAt(levels, w, h, x, n - 1, y);
      }
    }
  }

  lemma LateInDynamic(levels: seq<seq<Config>>, w: World, moves: seq<seq<Move>>)
    requires AllScheduled(levels, w, moves) && Dynamic(w)
    ensures Dag(levels, Outcomes(levels, w, moves), w, |levels|).startedLate != {} ==> HasPair(levels, w)
  {
    var outs := Outcomes(levels, w, moves);
    forall k | 0 <= k < |levels|
      ensures TellsWho(levels, w, k, outs[k])
    {
      DynamicLevel(levels, w, moves[k], k);
    }
    LateNeedsPair(levels, outs, w, |levels|);
  }

  lemma BatchNotLate(level: seq<Config>, w: World, ms: seq<Move>)
    requires Scheduled(level, w, ms) && !Dynamic(w)
    ensures var o := BatchOutcome(level, w, ms); o.late == {} && o.halt == o.signalled
  {
    var ps := Places(level, w);
    if m :| m in LateStarts(ps, ms) {
      var x := LateElsewhere(ps, ms, m);
    }
  }

  lemma {:induction false} BatchesRespectHalt(levels: seq<seq<Config>>, outs: seq<Outcome>, w: World, n: nat)
    requires n <= |levels| == |outs| && forall k :: 0 <= k < n ==> outs[k].late == {} && outs[k].halt == outs[k].signalled
    ensures var d := Dag(levels, outs, w, n); d.startedLate == {} && d.halt == d.signalled
  {
    if n > 0 {
      BatchesRespectHalt(levels, outs, w, n - 1);
    }
  }

  /** With batches nothing starts after a HALT_ALL, in its level or later, in any schedule. */
  lemma NothingLateInBatches(levels: seq<seq<Config>>, w: World, moves: seq<seq<Move>>, n: nat)
    requires AllScheduled(levels, w, moves) && n <= |levels| && !Dynamic(w)
    ensures var d := Dag(levels, Outcomes(levels, w, moves), w, n);
            d.startedLate == {} && d.halt == d.signalled
  {
    var outs := Outcomes(levels, w, moves);
    forall k | 0 <= k < n
      ensures outs[k].late == {} && outs[k].halt == outs[k].signalled
    {
      BatchNotLate(levels[k], w, moves[k]);
    }
    BatchesRespectHalt(levels, outs, w, n);
  }

  /** With level h halted first, every other node of it starts late. */
  lemma HaltedLevel(level: seq<Config>, w: World, x: nat, ms: seq<Move>, more: seq<Move>)
    requires Dynamic(w) && x < |level| && Listens(level[x].id, w)
    requires ms == [Move(x, FireHalt)] + more && Scheduled(level, w, ms) && EndsWell(level, w, ms)
    requires forall i :: 0 <= i < |level| && i != x ==> !Signalled(Ends(level, w, ms)[i])
    ensures forall y :: 0 <= y < |level| && y != x && Works(level[y].id, w) ==> level[y].id in NodesOutcome(level, w, ms).late
  {
    var ps, front := Places(level, w), [Move(x, FireHalt)];
    MovedSnoc(ps, [], Move(x, FireHalt));
    assert front == [] + front;
    var qs := Moved(ps, front).value;
    assert qs == ps[x := Own(ps[x].run.(halt := true))] && Signalled(qs[x]);
    forall y | 0 <= y < |level| && y != x && Works(level[y].id, w)
      ensures level[y].id in NodesOutcome(level, w, ms).late
    {
      assert CanWork(ps[y]) && Begun(Ends(level, w, ms)[y]);
      var m := BegunLate(ps, front, more, y);
    }
  }

  lemma QuietStarts(level: seq<Config>, w: World, ms: seq<Move>, y: nat)
    requires Dynamic(w) && Scheduled(level, w, ms) && EndsWell(level, w, ms) && y < |level| && Works(level[y].id, w)
    ensures Signalled(Ends(level, w, ms)[y]) || level[y].id in NodesOutcome(level, w, ms).started
  {
    assert CanWork(Places(level, w)[y]);
    GatheredStarted(level, GatheredEnds(level, w, ms), level[y].id);
  }

  lemma LateStep(d: DagState, level: seq<Config>, o: Outcome, w: World, id: string)
    requires id in d.startedLate || (!d.halt && !d.aborted && id in o.started && (d.signalled || id in o.late))
    ensures id in LevelStep(d, level, o, w).startedLate
  {
  }

  /** Who starts late in level k, which is run, counts as started late from then on. */
  lemma {:induction false} LateAdded(levels: seq<seq<Config>>, outs: seq<Outcome>, w: World, k: nat, id: string, n: nat)
    requires k < n <= |levels| == |outs| && !Dag(levels, outs, w, k).halt && !Dag(levels, outs, w, k).aborted
    requires id in outs[k].started && (Dag(levels, outs, w, k).signalled || id in outs[k].late)
    ensures id in Dag(levels, outs, w, n).startedLate
    decreases n
  {
    if k < n - 1 {
      LateAdded(levels, outs, w, k, id, n - 1);
    }
    LateStep(Dag(levels, outs, w, n - 1), levels[n - 1], outs[n - 1], w, id);
  }

  lemma SignalStep(d: DagState, level: seq<Config>, o: Outcome, w: World)
    ensures d.signalled || (!d.halt && !d.aborted && o.signalled) ==> LevelStep(d, level, o, w).signalled
  {
  }

  lemma {:induction false} SignalReaches(levels: seq<seq<Config>>, outs: seq<Outcome>, w: World, h: nat, k: nat)
    requires h < k <= |levels| == |outs| && !Dag(levels, outs, w, h).halt && !Dag(levels, outs, w, h).aborted
    requires outs[h].signalled
    ensures Dag(levels, outs, w, k).signalled
  {
    SignalStep(Dag(levels, outs, w, k - 1), levels[k - 1], outs[k - 1], w);
    if h < k - 1 {
      SignalReaches(levels, outs, w, h, k - 1);
    }
  }

  /** Such a schedule: the listener of the first of the pair drains a HALT_ALL before anything starts in its level. */
  lemma LateRun(levels: seq<seq<Config>>, w: World, h: nat, x: nat, k: nat, y: nat) returns (moves: seq<seq<Move>>)
    requires Dynamic(w) && PairAt(levels, w, h, x, k, y)
    ensures AllScheduled(levels, w, moves) && levels[k][y].id in Dag(levels, Outcomes(levels, w, moves), w, |levels|).startedLate
  {
    var ms, more := HaltFirst(levels[h], w, x);
    HaltedLevel(levels[h], w, x, ms, more);
    moves := QuietBut(levels, w, h, ms);
    DynamicNeverHalts(levels, w, moves, h);
    DynamicNeverHalts(levels, w, moves, k);
    assert OutcomeOf(levels[h], w, ms).signalled by {
      SignalledIs(levels[h], w, ms);
    }
    assert levels[k][y].id in OutcomeOf(levels[k], w, moves[k]).started by {
      QuietStarts(levels[k], w, moves[k], y);
    }
    if h < k {
      SignalReaches(levels, Outcomes(levels, w, moves), w, h, k);
    }
    LateAdded(levels, Outcomes(levels, w, moves), w, k, levels[k][y].id, |levels|);
  }

  /**
    A HALT_ALL stops the starts that come after it in every schedule exactly when nodes are not
    dynamic, or no worker that listens has another one beside it or in a later level: with dynamic
    nodes it reaches only the node whose listener drains it.
   */
  lemma StartsAfterHaltIff(levels: seq<seq<Config>>, w: World)
    ensures CanStartLate(levels, w) <==> Dynamic(w) && HasPair(levels, w)
  {
    forall moves | AllScheduled(levels, w, moves)
      ensures Dag(levels, Outcomes(levels, w, moves), w, |levels|).startedLate != {} ==> Dynamic(w) && HasPair(levels, w)
    {
      if Dynamic(w) {
        LateInDynamic(levels, w, moves);
      } else {
        NothingLateInBatches(levels, w, moves, |levels|);
      }
    }
    if Dynamic(w) && HasPair(levels, w) {
      var h: nat, x: nat, k: nat, y: nat :| PairAt(levels, w, h, x, k, y);
      var moves := LateRun(levels, w, h, x, k, y);
    }
  }

  // ----- respawns after a halt, over all schedules -----

  /** In some schedule of the run a worker is spawned anew after a HALT_ALL has been drained. */
  ghost predicate CanRespawnLate(levels: seq<seq<Config>>, w: World) {
    exists moves :: AllScheduled(levels, w, moves)
                    && Dag(levels, Outcomes(levels, w, moves), w, |levels|).respawnedLate != []
  }

  ghost predicate SomeListens(levels: seq<seq<Config>>, w: World) {
    exists h: nat, x: nat :: ListensAt(levels, w, h, x)
  }

  lemma {:induction false} GatedExact(cs: seq<Config>, w: World, declined: bool)
    ensures forall c :: c in Gated(cs, w, declined) <==> c in cs && Declined(c.id, w) == declined
  {
    if cs != [] {
      GatedExact(cs[..|cs| - 1], w, declined);
      assert cs == cs[..|cs| - 1] + [cs[|cs| - 1]];
    }
  }

  lemma SignalListens(levels: seq<seq<Config>>, w: World, ms: seq<Move>, k: nat)
    requires k < |levels| && Scheduled(levels[k], w, ms) && OutcomeOf(levels[k], w, ms).signalled
    ensures SomeListens(levels, w)
  {
    if Dynamic(w) {
      DynamicLevel(levels, w, ms, k);
    } else {
      var approved := Gated(levels[k], w, false);
      GatedExact(levels[k], w, false);
      assert approved[0] in levels[k];
      var x :| 0 <= x < |levels[k]| && levels[k][x] == approved[0];
      assert ListensAt(levels, w, k, x);
    }
  }

  lemma {:induction false} SignalledBySome(levels: seq<seq<Config>>, outs: seq<Outcome>, w: World, n: nat) returns (k: nat)
    requires n <= |levels| == |outs| && Dag(levels, outs, w, n).signalled
    ensures k < n && outs[k].signalled
  {
    if Dag(levels, outs, w, n - 1).signalled {
      k := SignalledBySome(levels, outs, w, n - 1);
    } else {
      k := n - 1;
    }
  }

  /** A run whose workers never started leaves none that succeeded. */
  lemma NeverStarted(s: State)
    requires Sound(s) && s.started == {}
    ensures forall r :: 0 <= r < |s.rows| ==> s.rows[r].signal != SUCCESS
  {
    forall r | 0 <= r < |s.rows|
      ensures s.rows[r].signal != SUCCESS
    {
      assert RowFits(s, s.rows[r]);
    }
  }

  lemma AllRows(s: State)
    requires Conserved(s) && s.pending == {}
    ensures |s.rows| == |s.tasks|
  {
    BelowSize(|s.tasks|);
    assert |multiset(TasksOf(s.rows))| == |multiset(Below(|s.tasks|))|;
  }

  lemma {:induction false} GatheredRow(level: seq<Config>, qs: seq<Place>, x: nat)
    requires |qs| == |level| && NodesEnded(qs) && x < |level| && !Broken(qs[x])
    ensures NodeOf(level[x].id, qs[x]).row.value in Gathered(level, qs).rows
  {
    var n := |level| - 1;
    if x < n {
      GatheredRow(level[..n], qs[..n], x);
    }
  }

  /** The run at place x was halted before it began, and so leaves a worker that did not succeed. */
  lemma HaltedFails(level: seq<Config>, w: World, ms: seq<Move>, x: nat)
    requires Scheduled(level, w, ms) && EndsWell(level, w, ms) && x < |Places(level, w)|
    requires Ends(level, w, ms)[x].Own? && Signalled(Ends(level, w, ms)[x]) && Ends(level, w, ms)[x].run.started == {}
    ensures exists i :: 0 <= i < |OutcomeOf(level, w, ms).rows| && OutcomeOf(level, w, ms).rows[i].signal != SUCCESS
  {
    var p, q := Places(level, w)[x], Ends(level, w, ms)[x];
    assert PlaceSound(p, q, LimitOf(w.maxConcurrent)) && CalmPlace(q) && PlaceOver(q);
    NeverStarted(q.run);
    AllRows(q.run);
    if Dynamic(w) {
      GatheredRow(level, GatheredEnds(level, w, ms), x);
      var row := NodeOf(level[x].id, q).row.value;
      assert row in OutcomeOf(level, w, ms).rows;
    } else {
      assert q.run == LevelEnd(level, w, ms);
      assert OutcomeOf(level, w, ms).rows[0].signal == q.run.rows[0].signal;
    }
  }

  /** A place whose run has a listener, in a level with a worker that listens. */
  lemma ListeningPlace(level: seq<Config>, w: World, x: nat) returns (i: nat)
    requires x < |level| && Listens(level[x].id, w)
    ensures i < |Places(level, w)| && Places(level, w)[i].Own?
  {
    if Dynamic(w) {
      i := x;
    } else {
      GatedExact(level, w, false);
      assert level[x] in Gated(level, w, false);
      i := 0;
    }
  }

  lemma RespawnRun(levels: seq<seq<Config>>, w: World, h: nat, x: nat) returns (moves: seq<seq<Move>>)
    requires Recovers(w) && ListensAt(levels, w, h, x)
    ensures AllScheduled(levels, w, moves) && Dag(levels, Outcomes(levels, w, moves), w, |levels|).respawnedLate != []
  {
    var i := ListeningPlace(levels[h], w, x);
    var ms, more := HaltFirst(levels[h], w, i);
    HaltedFails(levels[h], w, ms, i);
    assert Signalled(Ends(levels[h], w, ms)[i]);
    SignalledIs(levels[h], w, ms);
    moves := QuietBut(levels, w, h, ms);
    var outs := Outcomes(levels, w, moves);
    SignalReaches(levels, outs, w, h, h + 1);
    assert FailureAfterHalt(levels, outs, w, h);
    RespawnsAfterHaltIff(levels, outs, w);
  }

  /**
    So a run can spawn workers anew after a HALT_ALL exactly when recovery is on and some worker
    of the plan listens at all, with batches and with dynamic nodes.
   */
  lemma CanRespawnLateIff(levels: seq<seq<Config>>, w: World)
    ensures CanRespawnLate(levels, w) <==> Recovers(w) && SomeListens(levels, w)
  {
    forall moves | AllScheduled(levels, w, moves)
      ensures Dag(levels, Outcomes(levels, w, moves), w, |levels|).respawnedLate != [] ==> Recovers(w) && SomeListens(levels, w)
    {
      var outs := Outcomes(levels, w, moves);
      RespawnsAfterHaltIff(levels, outs, w);
      if Dag(levels, outs, w, |levels|).respawnedLate != [] {
        var k: nat :| FailureAfterHalt(levels, outs, w, k);
        var j := SignalledBySome(levels, outs, w, k + 1);
        SignalListens(levels, w, moves[j], j);
      }
    }
    if Recovers(w) && SomeListens(levels, w) {
      var h: nat, x: nat :| ListensAt(levels, w, h, x);
      var moves := RespawnRun(levels, w, h, x);
    }
  }

  // ----- how many run at once -----

  function WorkersIn(level: seq<Config>, w: World): nat {
    if level == [] then 0
    else WorkersIn(level[..|level| - 1], w) + if Works(level[|level| - 1].id, w) then 1 else 0
  }

  /** The most workers of a level that can run at once, a dispatched node counting as one. */
  function AtOnce(level: seq<Config>, w: World): nat {
    if Dynamic(w) then WorkersIn(level, w)
    else if |Gated(level, w, false)| < LimitOf(w.maxConcurrent) then |Gated(level, w, false)|
    else LimitOf(w.maxConcurrent)
  }

  lemma {:induction false} NodesRoom(level: seq<Config>, w: World)
    requires Dynamic(w)
    ensures RoomIn(Places(level, w)) == WorkersIn(level, w)
  {
    if level != [] {
      var n := |level| - 1;
      NodesRoom(level[..n], w);
      assert Places(level, w)[..n] == Places(level[..n], w);
    }
  }

  lemma LevelRoom(level: seq<Config>, w: World)
    ensures RoomIn(Places(level, w)) == AtOnce(level, w)
  {
    if Dynamic(w) {
      NodesRoom(level, w);
    } else if Gated(level, w, false) != [] {
      var ps := Places(level, w);
      assert ps[..0] == [] && RoomIn(ps) == RoomIn(ps[..0]) + Room(ps[0]);
    }
  }

  /** That many can run at once, in some schedule, and never more, in any. */
  lemma MostAtOnce(level: seq<Config>, w: World)
    ensures forall ms :: Moved(Places(level, w), ms).Some? ==> RunningIn(Moved(Places(level, w), ms).value) <= AtOnce(level, w)
    ensures exists ms :: Moved(Places(level, w), ms).Some? && RunningIn(Moved(Places(level, w), ms).value) == AtOnce(level, w)
  {
    var ps, limit := Places(level, w), LimitOf(w.maxConcurrent);
    LevelRoom(level, w);
    forall ms | Moved(ps, ms).Some?
      ensures RunningIn(Moved(ps, ms).value) <= AtOnce(level, w)
    {
      NeverMoreThanRoom(ps, ms, limit);
    }
    var ms := FullAtOnce(ps, limit);
  }

  /** At the j-th move of level k, which is run, more run than `max_concurrent` allows. */
  ghost predicate OverLimitAt(levels: seq<seq<Config>>, w: World, moves: seq<seq<Move>>, k: nat, j: nat)
    requires AllScheduled(levels, w, moves)
  {
    && k < |levels| && j <= |moves[k]|
    && !Dag(levels, Outcomes(levels, w, moves), w, k).halt && !Dag(levels, Outcomes(levels, w, moves), w, k).aborted
    && Moved(Places(levels[k], w), moves[k][..j]).Some?
    && RunningIn(Moved(Places(levels[k], w), moves[k][..j]).value) > LimitOf(w.maxConcurrent)
  }

  ghost predicate CanExceedLimit(levels: seq<seq<Config>>, w: World) {
    exists moves :: AllScheduled(levels, w, moves) && exists k: nat, j: nat :: OverLimitAt(levels, w, moves, k, j)
  }

  lemma CrowdedRun(levels: seq<seq<Config>>, w: World, k: nat) returns (moves: seq<seq<Move>>, j: nat)
    requires k < |levels| && AtOnce(levels[k], w) > LimitOf(w.maxConcurrent)
    ensures AllScheduled(levels, w, moves) && OverLimitAt(levels, w, moves, k, j)
  {
    var ps := Places(levels[k], w);
    LevelRoom(levels[k], w);
    var front := FullAtOnce(ps, LimitOf(w.maxConcurrent));
    var more := LevelFrom(levels[k], w, front);
    moves := QuietBut(levels, w, k, front + more);
    j := |front|;
    assert moves[k][..j] == front;
  }

  lemma CrowdNeedsRoom(levels: seq<seq<Config>>, w: World, moves: seq<seq<Move>>, k: nat, j: nat)
    requires AllScheduled(levels, w, moves) && OverLimitAt(levels, w, moves, k, j)
    ensures Dynamic(w) && WorkersIn(levels[k], w) > LimitOf(w.maxConcurrent)
  {
    LevelRoom(levels[k], w);
    NeverMoreThanRoom(Places(levels[k], w), moves[k][..j], LimitOf(w.maxConcurrent));
  }

  /**
    Over the whole run `max_concurrent` holds in every schedule exactly when nodes are not
    dynamic, or no level has more workers than it allows, those the user declines not counted
    unless they are dispatched: every dynamic node has slots of its own, or none.
   */
  lemma LimitExceededIff(levels: seq<seq<Config>>, w: World)
    ensures CanExceedLimit(levels, w)
            <==> Dynamic(w) && exists k :: 0 <= k < |levels| && WorkersIn(levels[k], w) > LimitOf(w.maxConcurrent)
  {
    if CanExceedLimit(levels, w) {
      var moves :| AllScheduled(levels, w, moves) && exists k: nat, j: nat :: OverLimitAt(levels, w, moves, k, j);
      var k: nat, j: nat :| OverLimitAt(levels, w, moves, k, j);
      CrowdNeedsRoom(levels, w, moves, k, j);
    }
    if Dynamic(w) {
      if k :| 0 <= k < |levels| && WorkersIn(levels[k], w) > LimitOf(w.maxConcurrent) {
        var moves, j := CrowdedRun(levels, w, k);
      }
    }
  }

  // ----- the user's skip -----

  lemma {:induction false} RespawnsAre(rows: seq<DagRow>, w: World, id: string)
    ensures id in Respawns(rows, w) <==> Recovers(w) && exists row :: row in rows && row.id == id && row.signal != SUCCESS
  {
    if rows != [] {
      var front, last := rows[..|rows| - 1], rows[|rows| - 1];
      RespawnsAre(front, w, id);
      assert rows == front + [last];
    }
  }

  lemma DeclinedInBatch(level: seq<Config>, w: World, ms: seq<Move>, c: Config)
    requires !Dynamic(w) && Scheduled(level, w, ms) && c in level && Declined(c.id, w)
    ensures var o := BatchOutcome(level, w, ms);
            c.id in o.skipped && c.id !in o.started && c.id !in Respawns(o.rows, w)
  {
    GatedExact(level, w, false);
    GatedExact(level, w, true);
    var o, approved := BatchOutcome(level, w, ms), Gated(level, w, false);
    var i :| 0 <= i < |Gated(level, w, true)| && Gated(level, w, true)[i] == c;
    assert IdsOf(Gated(level, w, true))[i] == c.id;
    forall j | 0 <= j < |approved|
      ensures approved[j].id != c.id
    {
      assert approved[j] in approved;
    }
    RespawnsAre(o.rows, w, c.id);
  }

  /** A declined node starts exactly when it is dispatched; else it leaves a failed row. */
  lemma DeclinedNode(level: seq<Config>, w: World, ms: seq<Move>, i: nat)
    requires Dynamic(w) && Scheduled(level, w, ms) && i < |level| && Declined(level[i].id, w)
    ensures var q := Ends(level, w, ms)[i];
            (Begun(q) <==> Dispatched(level[i].id, w)) && (!Dispatched(level[i].id, w) ==> q == Kept)
  {
    var q := Ends(level, w, ms)[i];
    assert PlaceSound(NodePlace(level[i].id, w), q, LimitOf(w.maxConcurrent)) && PlaceOver(q);
  }

  lemma {:induction false} GatheredRowIs(level: seq<Config>, qs: seq<Place>, row: DagRow)
    requires |qs| == |level| && NodesEnded(qs) && row in Gathered(level, qs).rows
    ensures exists i :: 0 <= i < |level| && level[i].id == row.id && NodeOf(level[i].id, qs[i]).row == Some(row)
  {
    var n := |level| - 1;
    if row in Gathered(level[..n], qs[..n]).rows {
      GatheredRowIs(level[..n], qs[..n], row);
      var i :| 0 <= i < n && level[..n][i].id == row.id && NodeOf(level[..n][i].id, qs[..n][i]).row == Some(row);
      assert level[i].id == row.id && NodeOf(level[i].id, qs[i]).row == Some(row);
    } else {
      assert NodeOf(level[n].id, qs[n]).row == Some(row);
    }
  }

  lemma DeclinedInDynamic(level: seq<Config>, w: World, ms: seq<Move>, c: Config)
    requires Dynamic(w) && Scheduled(level, w, ms) && c in level && Declined(c.id, w)
    ensures var o := NodesOutcome(level, w, ms);
            && (c.id in o.started <==> Dispatched(c.id, w))
            && (!Dispatched(c.id, w) ==> (c.id in Respawns(o.rows, w) <==> Recovers(w)))
  {
    var o, qs := NodesOutcome(level, w, ms), GatheredEnds(level, w, ms);
    var i :| 0 <= i < |level| && level[i] == c;
    forall j | 0 <= j < |level| && level[j].id == c.id
      ensures (Begun(qs[j]) <==> Dispatched(c.id, w)) && (!Dispatched(c.id, w) ==> qs[j] == Kept)
    {
      DeclinedNode(level, w, ms, j);
    }
    GatheredStarted(level, qs, c.id);
    if !Dispatched(c.id, w) {
      GatheredRow(level, qs, i);
      RespawnsAre(o.rows, w, c.id);
      assert DagRow(c.id, FAILED, NoResult) in o.rows;
    }
  }

  /**
    In a level that is run, a worker the user declined runs all the same, or is spawned anew,
    exactly when nodes are dynamic, the run is no frozen replay, and it is dispatched or no
    exception escapes the level: a dispatched node does not pass the gate, and the skip of any
    other counts as a failure, which recovery takes up if the level is carried to its end.
   */
  lemma DeclinedInLevel(level: seq<Config>, w: World, ms: seq<Move>, c: Config)
    requires Scheduled(level, w, ms) && c in level && Declined(c.id, w)
    ensures var o := OutcomeOf(level, w, ms);
            c.id in o.started || (!o.aborted && c.id in Respawns(o.rows, w))
            <==> Dynamic(w) && !w.switches.frozen && (w.suits(c.id) || !o.aborted)
  {
    if Dynamic(w) {
      DeclinedInDynamic(level, w, ms, c);
    } else {
      DeclinedInBatch(level, w, ms, c);
    }
  }

  /** Levels of one plan share no worker. */
  lemma LevelOfWorker(cs: seq<Config>, levels: seq<seq<Config>>, j: nat, k: nat, c: Config, e: Config)
    requires UniqueIds(cs) && IsLevelling(cs, levels) && j < |levels| && k < |levels|
    requires c in levels[j] && e in levels[k] && c.id == e.id
    ensures j == k
  {
    LevelMeaning(cs, levels, j, c);
    LevelMeaning(cs, levels, k, e);
  }

  lemma ActsInDynamic(level: seq<Config>, w: World, ms: seq<Move>, id: string)
    requires Dynamic(w) && Scheduled(level, w, ms)
    ensures var o := NodesOutcome(level, w, ms);
            id in o.started || id in Respawns(o.rows, w) ==> exists c :: c in level && c.id == id
  {
    var o, qs := NodesOutcome(level, w, ms), GatheredEnds(level, w, ms);
    GatheredStarted(level, qs, id);
    RespawnsAre(o.rows, w, id);
    if row :| row in o.rows && row.id == id {
      GatheredRowIs(level, qs, row);
    }
  }

  lemma ActsInBatch(level: seq<Config>, w: World, ms: seq<Move>, id: string)
    requires !Dynamic(w) && Scheduled(level, w, ms)
    ensures var o := BatchOutcome(level, w, ms);
            id in o.started || id in Respawns(o.rows, w) ==> exists c :: c in level && c.id == id
  {
    var o, approved := BatchOutcome(level, w, ms), Gated(level, w, false);
    RespawnsAre(o.rows, w, id);
    if id in o.started || id in Respawns(o.rows, w) {
      var j :| 0 <= j < |approved| && approved[j].id == id;
      GatedExact(level, w, false);
      assert approved[j] in level;
    }
  }

  /** Who starts or is spawned anew in a level belongs to it. */
  lemma ActsInLevel(level: seq<Config>, w: World, ms: seq<Move>, id: string)
    requires Scheduled(level, w, ms)
    ensures Acts(OutcomeOf(level, w, ms), w, id) ==> exists c :: c in level && c.id == id
  {
    if Dynamic(w) {
      ActsInDynamic(level, w, ms, id);
    } else {
      ActsInBatch(level, w, ms, id);
    }
  }

  /** Worker id starts, or is spawned anew, in a level that is run and comes to o. */
  predicate Acts(o: Outcome, w: World, id: string) {
    id in o.started || (!o.aborted && id in Respawns(o.rows, w))
  }

  lemma ActsStep(d: DagState, level: seq<Config>, o: Outcome, w: World, id: string)
    ensures var after := LevelStep(d, level, o, w);
            Moving(after, id) <==> Moving(d, id) || (!d.halt && !d.aborted && Acts(o, w, id))
  {
  }

  predicate Moving(d: DagState, id: string) { id in d.started || id in d.respawned }

  predicate SetsGoing(levels: seq<seq<Config>>, outs: seq<Outcome>, w: World, k: nat, id: string)
    requires k < |levels| == |outs|
  {
    !Dag(levels, outs, w, k).halt && !Dag(levels, outs, w, k).aborted && Acts(outs[k], w, id)
  }

  predicate Going(levels: seq<seq<Config>>, outs: seq<Outcome>, w: World, k: nat, id: string)
    requires k <= |levels| == |outs|
  {
    Moving(Dag(levels, outs, w, k), id)
  }

  lemma ActsAt(levels: seq<seq<Config>>, outs: seq<Outcome>, w: World, k: nat, id: string)
    requires k < |levels| == |outs|
    ensures Going(levels, outs, w, k + 1, id) <==> Going(levels, outs, w, k, id) || SetsGoing(levels, outs, w, k, id)
  {
    ActsStep(Dag(levels, outs, w, k), levels[k], outs[k], w, id);
  }

  /** A worker that only level k can set going acts in the run iff level k is run and sets it going. */
  lemma ActsOnlyIn(levels: seq<seq<Config>>, outs: seq<Outcome>, w: World, k: nat, id: string)
    requires k < |levels| == |outs| && forall j :: 0 <= j < |levels| && j != k ==> !Acts(outs[j], w, id)
    ensures Going(levels, outs, w, |levels|, id) <==> SetsGoing(levels, outs, w, k, id)
  {
    var n := |levels|;
    var going := seq(n + 1, j requires 0 <= j <= n => Going(levels, outs, w, j, id));
    var sets := seq(n, j requires 0 <= j < n => SetsGoing(levels, outs, w, j, id));
    assert !going[0];
    forall j {:trigger sets[j]} | 0 <= j < n
      ensures going[j + 1] == (going[j] || sets[j])
    {
      ActsAt(levels, outs, w, j, id);
    }
    SetBySome(going, sets, n);
    assert going[n] == Going(levels, outs, w, n, id) && sets[k] == SetsGoing(levels, outs, w, k, id);
  }

  lemma OthersDoNotAct(cs: seq<Config>, levels: seq<seq<Config>>, w: World, moves: seq<seq<Move>>, k: nat, c: Config)
    requires UniqueIds(cs) && IsLevelling(cs, levels) && AllScheduled(levels, w, moves) && k < |levels| && c in levels[k]
    ensures forall j :: 0 <= j < |levels| && j != k ==> !Acts(Outcomes(levels, w, moves)[j], w, c.id)
  {
    forall j | 0 <= j < |levels| && j != k
      ensures !Acts(Outcomes(levels, w, moves)[j], w, c.id)
    {
      ActsInLevel(levels[j], w, moves[j], c.id);
      if e :| e in levels[j] && e.id == c.id {
        LevelOfWorker(cs, levels, j, k, e, c);
      }
    }
  }

  /** An exception escapes level k, which is run, exactly when the run is cut short there. */
  lemma AbortedAt(levels: seq<seq<Config>>, outs: seq<Outcome>, w: World, k: nat)
    requires k < |levels| == |outs| && !Dag(levels, outs, w, k).halt && !Dag(levels, outs, w, k).aborted
    ensures Dag(levels, outs, w, k + 1).aborted <==> outs[k].aborted
  {
  }

  /**
    So over a whole run a worker of level k that the user declined starts or is spawned anew
    exactly when nodes are dynamic, the run is no frozen replay, no exception has cut it short
    before level k, and the worker is dispatched or none escapes level k either.
   */
  lemma DeclinedRunsIff(cs: seq<Config>, levels: seq<seq<Config>>, w: World, moves: seq<seq<Move>>, k: nat, c: Config)
    requires UniqueIds(cs) && IsLevelling(cs, levels) && AllScheduled(levels, w, moves)
    requires k < |levels| && c in levels[k] && Declined(c.id, w)
    ensures var outs := Outcomes(levels, w, moves);
            var end := Dag(levels, outs, w, |levels|);
            c.id in end.started || c.id in end.respawned
            <==> && Dynamic(w) && !w.switches.frozen && !Dag(levels, outs, w, k).aborted
                 && (w.suits(c.id) || !Dag(levels, outs, w, k + 1).aborted)
  {
    var outs := Outcomes(levels, w, moves);
    OthersDoNotAct(cs, levels, w, moves, k, c);
    ActsOnlyIn(levels, outs, w, k, c.id);
    DeclinedInLevel(levels[k], w, moves[k], c);
    if Dynamic(w) {
      DynamicNeverHalts(levels, w, moves, k);
      if !Dag(levels, outs, w, k).aborted {
        AbortedAt(levels, outs, w, k);
      }
    }
  }

  // ----- runs in which these things happen -----

  /** No gate, the default limit, nothing dispatched, and respawned workers fail too. */
  function Ungated(switches: Switches): World {
    World(Gate(false, {}), _ => CallbackRaised, None, switches, _ => false, _ => false)
  }

  /** The user says "skip" to everyone; only node "a" has tools, and so is dispatched. */
  function AllDeclined(): World {
    World(Gate(true, {"*"}), _ => Answer("skip"), None, Switches(true, false, true), id => id == "a", _ => false)
  }

  lemma CancelledAlone(limit: nat) returns (actions: seq<Action>, s: State)
    requires limit >= 1
    ensures Run(Init(1, limit), actions) == Some(s)
    ensures s == Init(1, limit).(tasks := [Cancelled], halt := true, started := {0})
  {
    var s0 := Init(1, limit);
    assert s0.tasks == [Waiting] && [Waiting][..0] == [];
    actions, s := RunSnoc(s0, [], s0, Acquire(0));
    assert s.tasks == [Running] && s.started == {0};
    actions, s := RunSnoc(s0, actions, s, FireHalt);
    actions, s := RunSnoc(s0, actions, s, Cancel(0));
    assert s.tasks == [Cancelled];
  }

  lemma HaltedAlone(limit: nat) returns (actions: seq<Action>, s: State)
    requires limit >= 1
    ensures Run(Init(1, limit), actions) == Some(s) && s.halt && !s.aborted && s.pending == {}
    ensures s.rows == [Row(0, HALTED, CancelledError)]
  {
    actions, s := CancelledAlone(limit);
    assert 0 in s.pending;
    actions, s := RunSnoc(Init(1, limit), actions, s, StartDrain);
    actions, s := RunSnoc(Init(1, limit), actions, s, Join(0));
    assert s.pending == {};
  }

  lemma OneLevel(level: seq<Config>, w: World, ms: seq<Move>) returns (moves: seq<seq<Move>>)
    requires Scheduled(level, w, ms)
    ensures moves == [ms] && AllScheduled([level], w, moves)
    ensures Dag([level], Outcomes([level], w, moves), w, 1) == LevelStep(UNSTARTED, level, OutcomeOf(level, w, ms), w)
  {
    moves := [ms];
    assert Dag([level], Outcomes([level], w, moves), w, 0) == UNSTARTED;
  }

  /** One worker in a batch, which the actions carry to the end s. */
  lemma BatchOfOne(w: World, actions: seq<Action>, s: State) returns (ms: seq<Move>)
    requires w == Ungated(Switches(true, false, false)) && Run(Init(1, 4), actions) == Some(s) && s.pending == {}
    ensures Scheduled([Config("a", [])], w, ms) && Ends([Config("a", [])], w, ms) == [Own(s)]
    ensures Gated([Config("a", [])], w, false) == [Config("a", [])]
  {
    var level := [Config("a", [])];
    assert level[..0] == [];
    assert Gated(level, w, false) == level;
    OwnIsRun(Init(1, 4), actions);
    OnePlaceMoves([Own(Init(1, 4))], 0, actions);
    ms := MovesAt(0, actions);
    assert [Own(Init(1, 4))][0 := Own(s)] == [Own(s)];
  }

  lemma CancelledBatch(w: World, actions: seq<Action>, s: State) returns (ms: seq<Move>)
    requires w == Ungated(Switches(true, false, false)) && Run(Init(1, 4), actions) == Some(s)
    requires s.halt && !s.aborted && s.pending == {} && s.rows == [Row(0, HALTED, CancelledError)]
    ensures var level := [Config("a", [])];
            && Scheduled(level, w, ms)
            && var o := OutcomeOf(level, w, ms);
               !o.aborted && o.signalled && o.rows == [DagRow("a", HALTED, FromLevel(CancelledError))]
  {
    ms := BatchOfOne(w, actions, s);
    assert LevelEnd([Config("a", [])], w, ms) == s;
  }

  lemma OneRespawn(row: DagRow, w: World)
    requires Recovers(w) && row.signal != SUCCESS
    ensures Respawns([row], w) == [row.id]
  {
    assert [row][..0] == [];
  }

  /** With batches: the only worker is cancelled by the halt, and spawned anew. */
  lemma RespawnAfterHalt() returns (moves: seq<seq<Move>>)
    ensures var w, levels := Ungated(Switches(true, false, false)), [[Config("a", [])]];
            AllScheduled(levels, w, moves) && Dag(levels, Outcomes(levels, w, moves), w, 1).respawnedLate == ["a"]
  {
    var w, level := Ungated(Switches(true, false, false)), [Config("a", [])];
    var actions, s := HaltedAlone(4);
    var ms := CancelledBatch(w, actions, s);
    OneRespawn(DagRow("a", HALTED, FromLevel(CancelledError)), w);
    moves := OneLevel(level, w, ms);
  }

  /** With dynamic nodes: the first level's node drains a HALT_ALL, and the second level's worker starts all the same. */
  lemma StartAfterHalt() returns (moves: seq<seq<Move>>)
    ensures var w, levels := Ungated(Switches(true, false, true)), [[Config("a", [])], [Config("b", ["a"])]];
            AllScheduled(levels, w, moves) && "b" in Dag(levels, Outcomes(levels, w, moves), w, 2).startedLate
  {
    var w, levels := Ungated(Switches(true, false, true)), [[Config("a", [])], [Config("b", ["a"])]];
    assert PairAt(levels, w, 0, 0, 1, 0);
    moves := LateRun(levels, w, 0, 0, 1, 0);
  }

  /** Five dynamic nodes of one level run at once under a limit of four. */
  lemma FiveAtOnce(level: seq<Config>) returns (moves: seq<seq<Move>>, j: nat)
    requires |level| == 5
    ensures var w := Ungated(Switches(true, false, true));
            LimitOf(w.maxConcurrent) == 4 && AllScheduled([level], w, moves) && OverLimitAt([level], w, moves, 0, j)
  {
    var w := Ungated(Switches(true, false, true));
    NoneGated(level, w);
    moves, j := CrowdedRun([level], w, 0);
  }

  lemma {:induction false} NoneGated(level: seq<Config>, w: World)
    requires !w.gate.hasCallback
    ensures WorkersIn(level, w) == |level|
  {
    if level != [] {
      NoneGated(level[..|level| - 1], w);
    }
  }

  /** Of two declined workers the dispatched one starts, and the other is spawned anew. */
  lemma DeclinedRunsAnyway() returns (moves: seq<seq<Move>>)
    ensures var w, levels := AllDeclined(), [[Config("a", []), Config("b", [])]];
            && Declined("a", w) && Declined("b", w) && AllScheduled(levels, w, moves)
            && var d := Dag(levels, Outcomes(levels, w, moves), w, 1); "a" in d.started && "b" in d.respawned
  {
    var w, level := AllDeclined(), [Config("a", []), Config("b", [])];
    var ms := QuietMoves(level, w);
    DeclinedInDynamic(level, w, ms, level[0]);
    DeclinedInDynamic(level, w, ms, level[1]);
    WellNotAborted(level, w, ms);
    moves := OneLevel(level, w, ms);
  }

  lemma DispatchedRaises() returns (ms: seq<Move>)
    ensures var w, level := AllDeclined(), [Config("a", []), Config("b", [])];
            Scheduled(level, w, ms) && Ends(level, w, ms) == [Dispatch(Raised), Kept]
  {
    var ps: seq<Place> := [Dispatch(Waiting), Kept];
    assert Places([Config("a", []), Config("b", [])], AllDeclined()) == ps;
    MovedSnoc(ps, [], Move(0, Acquire(0)));
    ms := [] + [Move(0, Acquire(0))];
    assert ps[0 := Dispatch(Running)] == [Dispatch(Running), Kept];
    MovedSnoc(ps, ms, Move(0, Raise(0)));
    ms := ms + [Move(0, Raise(0))];
    assert [Dispatch(Running), Kept][0 := Dispatch(Raised)] == [Dispatch(Raised), Kept];
  }

  /** Unless an exception escapes the dispatched one: then the run ends before recovery, and the other does nothing. */
  lemma EscapeSparesDeclined() returns (moves: seq<seq<Move>>)
    ensures var w, levels := AllDeclined(), [[Config("a", []), Config("b", [])]];
            && AllScheduled(levels, w, moves)
            && var d := Dag(levels, Outcomes(levels, w, moves), w, 1); d.aborted && "b" !in d.started && d.respawned == []
  {
    var w, level := AllDeclined(), [Config("a", []), Config("b", [])];
    var ms := DispatchedRaises();
    NodesAccount(level, w, ms);
    assert Broken(Ends(level, w, ms)[0]);
    DeclinedInDynamic(level, w, ms, level[1]);
    moves := OneLevel(level, w, ms);
  }
}
