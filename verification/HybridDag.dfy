/**
  The hybrid DAG run: level after level, each either through the user's gate and then in one
  parallel run, under a halt flag shared by all levels, or with its nodes side by side when nodes
  are dynamic; with a recovery step that may respawn what did not succeed.
 */
module HybridDag {
  import opened Wrappers
  import opened WorkerGraph
  import opened Schedulability
  import opened ParallelRun
  import opened SideBySide
  import opened LevelScheduler
  import opened SchedulerAgreement

  // ----- the gate in front of a level -----

  /** What the user's callback does when asked about a worker. */
  datatype Decision = Answer(text: string) | CallbackRaised

  datatype Gate = Gate(hasCallback: bool, tokens: set<string>)

  predicate ShouldInterrupt(id: string, tokens: set<string>) {
    "*" in tokens || "__all__" in tokens || id in tokens
  }

  /** The answers, stripped and in lower case, that skip a worker. */
  const DECLINING := ["skip", "abort", "no", "cancel"]

  /** `spawns`: a spawn interface is there and spawning is enabled; `frozen`: a frozen replay. */
  datatype Switches = Switches(spawns: bool, frozen: bool, dynamicNodes: bool)

  /**
    What a run does not decide itself: the user's answers, the settings, which nodes have tools or
    are complex enough to be dispatched, and whether a respawned worker succeeds. How the steps of
    a level interleave, and what workers come to, is a list of moves given beside it.
   */
  datatype World = World(gate: Gate, decide: string -> Decision, maxConcurrent: Option<int>, switches: Switches,
                         suits: string -> bool, recover: string -> bool)

  predicate Recovers(w: World) { w.switches.spawns && !w.switches.frozen }

  predicate Dynamic(w: World) { w.switches.spawns && w.switches.dynamicNodes }

  predicate Dispatched(id: string, w: World) { Dynamic(w) && !w.switches.frozen && w.suits(id) }

  predicate Declined(id: string, w: World) {
    && w.gate.hasCallback && ShouldInterrupt(id, w.gate.tokens)
    && w.decide(id).Answer? && w.decide(id).text in DECLINING
  }

  /** The workers the user lets through, or keeps back, in their order. */
  function Gated(cs: seq<Config>, w: World, declined: bool): seq<Config> {
    if cs == [] then []
    else
      var c := cs[|cs| - 1];
      Gated(cs[..|cs| - 1], w, declined) + if Declined(c.id, w) == declined then [c] else []
  }

  method CheckBeforeWorkers(cs: seq<Config>, w: World) returns (approved: seq<Config>, skipped: seq<string>)
    ensures approved == Gated(cs, w, false)
    ensures skipped == IdsOf(Gated(cs, w, true))
  {
    approved, skipped := [], [];
    for i := 0 to |cs|
      invariant approved == Gated(cs[..i], w, false)
      invariant skipped == IdsOf(Gated(cs[..i], w, true))
    {
      assert cs[..i + 1][..i] == cs[..i];
      if !w.gate.hasCallback || !ShouldInterrupt(cs[i].id, w.gate.tokens) {
        approved := approved + [cs[i]];
        continue;
      }
      var decision := w.decide(cs[i].id);
      if decision.CallbackRaised? || decision.text !in DECLINING {
        approved := approved + [cs[i]];
      } else {
        skipped := skipped + [cs[i].id];
      }
    }
    assert cs[..|cs|] == cs;
  }

  // ----- one level -----

  datatype Fate = FromLevel(cause: Cause) | LevelSkipped | ByRecovery | ByDispatch | NoResult

  datatype DagRow = DagRow(id: string, signal: Signal, fate: Fate)

  /**
    `halt` is the flag the levels share; `signalled` says that a HALT_ALL has been drained at all,
    and what started or was respawned after that is late.
   */
  datatype DagState = DagState(rows: seq<DagRow>, skipped: seq<string>, halt: bool, signalled: bool,
                               started: set<string>, startedLate: set<string>,
                               respawned: seq<string>, respawnedLate: seq<string>, aborted: bool)

  const UNSTARTED := DagState([], [], false, false, {}, {}, [], [], false)

  function RowIds(rows: seq<DagRow>): (r: seq<string>)
    ensures |r| == |rows| && forall k :: 0 <= k < |r| ==> r[k] == rows[k].id
  {
    seq(|rows|, k requires 0 <= k < |rows| => rows[k].id)
  }

  function HaltedRows(level: seq<Config>): (r: seq<DagRow>)
    ensures RowIds(r) == IdsOf(level)
  {
    seq(|level|, k requires 0 <= k < |level| => DagRow(level[k].id, HALTED, LevelSkipped))
  }

  function Named(rows: seq<Row>, cs: seq<Config>): (r: seq<DagRow>)
    requires forall k :: 0 <= k < |rows| ==> rows[k].task < |cs|
    ensures |r| == |rows|
    ensures forall k :: 0 <= k < |r| ==> r[k] == DagRow(cs[rows[k].task].id, rows[k].signal, FromLevel(rows[k].cause))
  {
    seq(|rows|, k requires 0 <= k < |rows| => DagRow(cs[rows[k].task].id, rows[k].signal, FromLevel(rows[k].cause)))
  }

  function RecoveredRow(row: DagRow, w: World): DagRow {
    if row.signal != SUCCESS && w.recover(row.id) then DagRow(row.id, SUCCESS, ByRecovery) else row
  }

  function Recovered(rows: seq<DagRow>, w: World): (r: seq<DagRow>)
    ensures |r| == |rows| && forall k :: 0 <= k < |r| ==> r[k] == if Recovers(w) then RecoveredRow(rows[k], w) else rows[k]
    ensures RowIds(r) == RowIds(rows)
  {
    if Recovers(w) then seq(|rows|, k requires 0 <= k < |rows| => RecoveredRow(rows[k], w)) else rows
  }

  /** The workers that recovery spawns anew. */
  function Respawns(rows: seq<DagRow>, w: World): seq<string> {
    if rows == [] || !Recovers(w) then []
    else
      var row := rows[|rows| - 1];
      Respawns(rows[..|rows| - 1], w) + if row.signal != SUCCESS then [row.id] else []
  }

  function NamesAt(indices: set<nat>, cs: seq<Config>): set<string> {
    set i | i in indices && i < |cs| :: cs[i].id
  }

  /** A node is dispatched, or run alone through the gate and under a halt flag of its own. */
  function NodePlace(id: string, w: World): Place {
    if Dispatched(id, w) then Dispatch(Waiting)
    else if Declined(id, w) then Kept
    else Own(Init(1, LimitOf(w.maxConcurrent)))
  }

  /** The runs a level consists of. */
  function Places(level: seq<Config>, w: World): (ps: seq<Place>)
    ensures AllFresh(ps, LimitOf(w.maxConcurrent))
  {
    if Dynamic(w) then seq(|level|, i requires 0 <= i < |level| => NodePlace(level[i].id, w))
    else
      var n := |Gated(level, w, false)|;
      if n == 0 then [] else [Own(Init(n, LimitOf(w.maxConcurrent)))]
  }

  /** The moves carry every run of the level to its end. */
  predicate Scheduled(level: seq<Config>, w: World, ms: seq<Move>) {
    var qs := Moved(Places(level, w), ms);
    qs.Some? && AllOver(qs.value)
  }

  function Ends(level: seq<Config>, w: World, ms: seq<Move>): (qs: seq<Place>)
    requires Scheduled(level, w, ms)
    ensures |qs| == |Places(level, w)| && AllOver(qs)
    ensures forall i :: 0 <= i < |qs| ==> PlaceSound(Places(level, w)[i], qs[i], LimitOf(w.maxConcurrent))
  {
    EndsSound(level, w, ms);
    Moved(Places(level, w), ms).value
  }

  lemma EndsSound(level: seq<Config>, w: World, ms: seq<Move>)
    requires Scheduled(level, w, ms)
    ensures var ps, qs := Places(level, w), Moved(Places(level, w), ms).value;
            |qs| == |ps| && forall i :: 0 <= i < |qs| ==> PlaceSound(ps[i], qs[i], LimitOf(w.maxConcurrent))
  {
    var ps := Places(level, w);
    MovedLength(ps, ms);
    forall i | 0 <= i < |ps|
      ensures PlaceSound(ps[i], Moved(ps, ms).value[i], LimitOf(w.maxConcurrent))
    {
      PlacesSound(ps, ms, LimitOf(w.maxConcurrent), i);
    }
  }

  /** What running a level comes to, when it is run at all. */
  datatype Outcome = Outcome(rows: seq<DagRow>, skipped: seq<string>, halt: bool, signalled: bool,
                             started: set<string>, late: set<string>, aborted: bool)

  const NOTHING := Outcome([], [], false, false, {}, {}, false)

  /** The workers that these starts start. */
  function LateNames(level: seq<Config>, w: World, starts: set<Move>): set<string> {
    if Dynamic(w) then set m | m in starts && m.i < |level| :: level[m.i].id
    else
      var approved := Gated(level, w, false);
      set m | m in starts && m.a.Acquire? && m.a.i < |approved| :: approved[m.a.i].id
  }

  /** The end of the one run of a batch. */
  function LevelEnd(level: seq<Config>, w: World, ms: seq<Move>): (s: State)
    requires !Dynamic(w) && Gated(level, w, false) != [] && Scheduled(level, w, ms)
    ensures forall r :: 0 <= r < |s.rows| ==> s.rows[r].task < |Gated(level, w, false)|
    ensures !s.aborted ==> multiset(TasksOf(s.rows)) == multiset(Below(|Gated(level, w, false)|))
  {
    var s := Ends(level, w, ms)[0].run;
    assert PlaceSound(Places(level, w)[0], Ends(level, w, ms)[0], LimitOf(w.maxConcurrent));
    assert forall r :: 0 <= r < |s.rows| ==> RowFits(s, s.rows[r]);
    assert s.pending == {} ==> multiset(s.pending) == multiset{};
    s
  }

  function BatchOutcome(level: seq<Config>, w: World, ms: seq<Move>): Outcome
    requires !Dynamic(w) && Scheduled(level, w, ms)
  {
    var approved, skipped := Gated(level, w, false), IdsOf(Gated(level, w, true));
    if approved == [] then NOTHING.(skipped := skipped)
    else
      var s := LevelEnd(level, w, ms);
      Outcome(Named(s.rows, approved), skipped, s.halt, s.halt, NamesAt(s.started, approved),
              LateNames(level, w, LateStarts(Places(level, w), ms)), s.aborted)
  }

  /** What a node comes to; no row if an exception escapes it. */
  datatype Node = Node(row: Option<DagRow>, started: bool, signalled: bool)

  predicate NodeEnded(q: Place) {
    PlaceOver(q) && (q.Own? && !q.run.aborted ==> |q.run.rows| == 1) && (q.Dispatch? ==> q.phase.Raised? || q.phase.Done?)
  }

  function NodeOf(id: string, q: Place): (n: Node)
    requires NodeEnded(q)
    ensures n.row.Some? ==> n.row.value.id == id
    ensures n.row.None? <==> Broken(q)
  {
    var row :=
      match q
      case Own(s) => if s.aborted then None else Some(DagRow(id, s.rows[0].signal, FromLevel(s.rows[0].cause)))
      case Dispatch(phase) => if phase.Raised? then None else Some(DagRow(id, phase.signal, ByDispatch))
      case Kept => Some(DagRow(id, FAILED, NoResult));
    Node(row, Begun(q), Signalled(q))
  }

  lemma OnlyRow(s: State)
    requires Conserved(s) && |s.tasks| == 1 && s.pending == {}
    ensures |s.rows| == 1
  {
    BelowSize(1);
    assert |multiset(TasksOf(s.rows))| == |multiset(Below(1))| == 1;
  }

  lemma NodeEnds(id: string, w: World, q: Place)
    requires PlaceSound(NodePlace(id, w), q, LimitOf(w.maxConcurrent)) && PlaceOver(q)
    ensures NodeEnded(q)
  {
    if q.Own? && !q.run.aborted {
      OnlyRow(q.run);
    }
  }

  predicate NodesEnded(qs: seq<Place>) {
    forall i :: 0 <= i < |qs| ==> NodeEnded(qs[i])
  }

  /** What gathering the nodes of a level comes to; the rows come back in the order of the level. */
  function Gathered(level: seq<Config>, qs: seq<Place>): Outcome
    requires |qs| == |level| && NodesEnded(qs)
  {
    if level == [] then NOTHING
    else
      var front, id := Gathered(level[..|level| - 1], qs[..|level| - 1]), level[|level| - 1].id;
      var n := NodeOf(id, qs[|level| - 1]);
      Outcome(front.rows + (if n.row.Some? then [n.row.value] else []), [], false, front.signalled || n.signalled,
              front.started + (if n.started then {id} else {}), {}, front.aborted || n.row.None?)
  }

  function GatheredEnds(level: seq<Config>, w: World, ms: seq<Move>): (qs: seq<Place>)
    requires Dynamic(w) && Scheduled(level, w, ms)
    ensures |qs| == |level| && NodesEnded(qs) && qs == Ends(level, w, ms)
  {
    var qs := Ends(level, w, ms);
    assert NodesEnded(qs) by {
      forall i | 0 <= i < |qs|
        ensures NodeEnded(qs[i])
      {
        NodeEnds(level[i].id, w, qs[i]);
      }
    }
    qs
  }

  function NodesOutcome(level: seq<Config>, w: World, ms: seq<Move>): Outcome
    requires Dynamic(w) && Scheduled(level, w, ms)
  {
    Gathered(level, GatheredEnds(level, w, ms)).(late := LateNames(level, w, LateStarts(Places(level, w), ms)))
  }

  function OutcomeOf(level: seq<Config>, w: World, ms: seq<Move>): Outcome
    requires Scheduled(level, w, ms)
  {
    if Dynamic(w) then NodesOutcome(level, w, ms) else BatchOutcome(level, w, ms)
  }

  predicate AllScheduled(levels: seq<seq<Config>>, w: World, moves: seq<seq<Move>>) {
    |moves| == |levels| && forall k :: 0 <= k < |levels| ==> Scheduled(levels[k], w, moves[k])
  }

  function Outcomes(levels: seq<seq<Config>>, w: World, moves: seq<seq<Move>>): (r: seq<Outcome>)
    requires AllScheduled(levels, w, moves)
    ensures |r| == |levels| && forall k :: 0 <= k < |r| ==> r[k] == OutcomeOf(levels[k], w, moves[k])
  {
    seq(|levels|, k requires 0 <= k < |levels| => OutcomeOf(levels[k], w, moves[k]))
  }

  /** What a level adds to the run. */
  function LevelStep(d: DagState, level: seq<Config>, o: Outcome, w: World): DagState {
    if d.aborted then d
    else if d.halt then d.(rows := d.rows + HaltedRows(level))
    else
      var e := d.(halt := o.halt, signalled := d.signalled || o.signalled, started := d.started + o.started,
                  startedLate := d.startedLate + if d.signalled then o.started else o.late);
      if o.aborted then e.(aborted := true)
      else
        var spawned := Respawns(o.rows, w);
        e.(rows := d.rows + Recovered(o.rows, w), skipped := d.skipped + o.skipped, respawned := d.respawned + spawned,
           respawnedLate := d.respawnedLate + if e.signalled then spawned else [])
  }

  /** The run after its first n levels. */
  function Dag(levels: seq<seq<Config>>, outs: seq<Outcome>, w: World, n: nat): DagState
    requires n <= |levels| == |outs|
  {
    if n == 0 then UNSTARTED
    else LevelStep(Dag(levels, outs, w, n - 1), levels[n - 1], outs[n - 1], w)
  }

  // ----- the loops -----

  method RecoverFailedWorkers(rows: seq<DagRow>, w: World) returns (updated: seq<DagRow>, spawned: seq<string>)
    ensures updated == Recovered(rows, w) && spawned == Respawns(rows, w)
  {
    if !Recovers(w) {
      return rows, [];
    }
    updated, spawned := [], [];
    for i := 0 to |rows|
      invariant |updated| == i && forall k :: 0 <= k < i ==> updated[k] == RecoveredRow(rows[k], w)
      invariant spawned == Respawns(rows[..i], w)
    {
      assert rows[..i + 1][..i] == rows[..i];
      if rows[i].signal == SUCCESS {
        updated := updated + [rows[i]];
        continue;
      }
      spawned := spawned + [rows[i].id];
      updated := updated + [if w.recover(rows[i].id) then DagRow(rows[i].id, SUCCESS, ByRecovery) else rows[i]];
    }
    assert rows[..|rows|] == rows;
  }

  method RunWorkersWithHitl(level: seq<Config>, w: World, ms: seq<Move>) returns (o: Outcome)
    requires !Dynamic(w) && Scheduled(level, w, ms)
    ensures o == BatchOutcome(level, w, ms)
  {
    var approved, skipped := CheckBeforeWorkers(level, w);
    if approved == [] {
      return NOTHING.(skipped := skipped);
    }
    BatchAlone(level, w, ms);
    var s := RunParallelWorkers(|approved|, w.maxConcurrent, At(ms, 0));
    o := Outcome(Named(s.rows, approved), skipped, s.halt, s.halt, NamesAt(s.started, approved),
                 LateNames(level, w, LateStarts(Places(level, w), ms)), s.aborted);
  }

  lemma BatchAlone(level: seq<Config>, w: World, ms: seq<Move>)
    requires !Dynamic(w) && Gated(level, w, false) != [] && Scheduled(level, w, ms)
    ensures Run(Init(|Gated(level, w, false)|, LimitOf(w.maxConcurrent)), At(ms, 0)) == Some(LevelEnd(level, w, ms))
    ensures Over(LevelEnd(level, w, ms))
  {
    EachAlone(Places(level, w), ms, 0);
    OwnIsRun(Places(level, w)[0].run, At(ms, 0));
    assert PlaceOver(Ends(level, w, ms)[0]);
  }

  /** One node on its own, with its part of the moves. */
  method RunDagNodeOrDispatch(id: string, w: World, actions: seq<Action>) returns (n: Node)
    requires PlaceRun(NodePlace(id, w), actions).Some? && NodeEnded(PlaceRun(NodePlace(id, w), actions).value)
    ensures n == NodeOf(id, PlaceRun(NodePlace(id, w), actions).value)
  {
    if Dispatched(id, w) {
      var p := RunDispatch(actions);
      return NodeOf(id, p);
    }
    var approved, skipped := CheckBeforeWorkers([Config(id, [])], w);
    assert [Config(id, [])][..0] == [];
    if approved == [] {
      KindKept(Kept, actions);
      return Node(Some(DagRow(id, FAILED, NoResult)), false, false);
    }
    OwnIsRun(Init(1, LimitOf(w.maxConcurrent)), actions);
    var s := RunParallelWorkers(1, w.maxConcurrent, actions);
    n := NodeOf(id, Own(s));
  }

  method RunDispatch(actions: seq<Action>) returns (p: Place)
    requires PlaceRun(Dispatch(Waiting), actions).Some?
    ensures p == PlaceRun(Dispatch(Waiting), actions).value
  {
    p := Dispatch(Waiting);
    for k := 0 to |actions|
      invariant PlaceRun(Dispatch(Waiting), actions[..k]) == Some(p)
    {
      PlaceGoesOn(Dispatch(Waiting), actions, k + 1);
      assert actions[..k + 1][..k] == actions[..k];
      p := PlaceStep(p, actions[k]).value;
    }
    assert actions[..|actions|] == actions;
  }

  lemma {:induction false} PlaceGoesOn(p: Place, actions: seq<Action>, k: nat)
    requires k <= |actions| && PlaceRun(p, actions).Some?
    ensures PlaceRun(p, actions[..k]).Some?
    decreases |actions|
  {
    if k < |actions| {
      var front := actions[..|actions| - 1];
      PlaceGoesOn(p, front, k);
      assert front[..k] == actions[..k];
    } else {
      assert actions[..k] == actions;
    }
  }

  method RunDagLevelWorkers(level: seq<Config>, w: World, ms: seq<Move>) returns (o: Outcome)
    requires Scheduled(level, w, ms)
    ensures o == OutcomeOf(level, w, ms)
  {
    if !Dynamic(w) {
      o := RunWorkersWithHitl(level, w, ms);
      return;
    }
    ghost var qs := GatheredEnds(level, w, ms);
    o := NOTHING;
    for i := 0 to |level|
      invariant o == Gathered(level[..i], qs[..i])
    {
      assert level[..i + 1][..i] == level[..i] && qs[..i + 1][..i] == qs[..i];
      EachAlone(Places(level, w), ms, i);
      var n := RunDagNodeOrDispatch(level[i].id, w, At(ms, i));
      o := Outcome(o.rows + (if n.row.Some? then [n.row.value] else []), [], false, o.signalled || n.signalled,
                   o.started + (if n.started then {level[i].id} else {}), {}, o.aborted || n.row.None?);
    }
    assert level[..|level|] == level && qs[..|level|] == qs;
    o := o.(late := LateNames(level, w, LateStarts(Places(level, w), ms)));
  }

  method RunLevels(levels: seq<seq<Config>>, w: World, moves: seq<seq<Move>>) returns (d: DagState)
    requires AllScheduled(levels, w, moves)
    ensures d == Dag(levels, Outcomes(levels, w, moves), w, |levels|)
  {
    ghost var outs := Outcomes(levels, w, moves);
    d := UNSTARTED;
    for k := 0 to |levels|
      invariant d == Dag(levels, outs, w, k)
    {
      if d.aborted {
        continue;
      }
      if d.halt {
        d := d.(rows := d.rows + HaltedRows(levels[k]));
      } else {
        var o := RunDagLevelWorkers(levels[k], w, moves[k]);
        d := d.(halt := o.halt, signalled := d.signalled || o.signalled, started := d.started + o.started,
                startedLate := d.startedLate + if d.signalled then o.started else o.late);
        if o.aborted {
          d := d.(aborted := true);
          continue;
        }
        var rows, spawned := RecoverFailedWorkers(o.rows, w);
        d := d.(rows := d.rows + rows, skipped := d.skipped + o.skipped, respawned := d.respawned + spawned,
                respawnedLate := d.respawnedLate + if d.signalled then spawned else []);
      }
    }
  }

  /** The whole run: its results and the user's skips are, together, the planned workers. */
  method RunHybridDag(cs: seq<Config>, w: World, moves: seq<seq<Move>>) returns (d: Result<DagState>, ghost levels: seq<seq<Config>>)
    requires UniqueIds(cs)
    requires forall ls :: IsLevelling(cs, ls) ==> AllScheduled(ls, w, moves)
    ensures d.Ok? <==> Schedulable(cs)
    ensures d.Err? ==> Rejects(cs, d.error)
    ensures d.Ok? ==> IsLevelling(cs, levels) && AllScheduled(levels, w, moves)
    ensures d.Ok? ==> d.value == Dag(levels, Outcomes(levels, w, moves), w, |levels|)
    ensures d.Ok? && !d.value.aborted ==> Accounted(d.value) == multiset(IdsOf(cs))
  {
    levels := [];
    var levelled := GroupByLevel(cs);
    if levelled.Err? {
      return Err(levelled.error), levels;
    }
    levels := levelled.value;
    var run := RunLevels(levelled.value, w, moves);
    OutcomesAccount(levels, w, moves);
    if !run.aborted {
      WholeRunAccounts(cs, levels, Outcomes(levels, w, moves), w);
    }
    d := Ok(run);
  }

  // ----- every worker is accounted for -----

  lemma OneMoreId(front: seq<Config>, c: Config)
    ensures multiset(IdsOf(front + [c])) == multiset(IdsOf(front)) + multiset{c.id}
  {
    assert IdsOf(front + [c]) == IdsOf(front) + [c.id];
  }

  lemma {:induction false} GateSplits(cs: seq<Config>, w: World)
    ensures multiset(IdsOf(Gated(cs, w, false))) + multiset(IdsOf(Gated(cs, w, true))) == multiset(IdsOf(cs))
  {
    if cs != [] {
      var front, c := cs[..|cs| - 1], cs[|cs| - 1];
      GateSplits(front, w);
      assert cs == front + [c];
      OneMoreId(front, c);
      if Declined(c.id, w) {
        OneMoreId(Gated(front, w, true), c);
        assert Gated(cs, w, false) == Gated(front, w, false);
      } else {
        OneMoreId(Gated(front, w, false), c);
        assert Gated(cs, w, true) == Gated(front, w, true);
      }
    }
  }

  function Pick(p: seq<nat>, names: seq<string>): (r: seq<string>)
    requires forall k :: 0 <= k < |p| ==> p[k] < |names|
    ensures |r| == |p| && forall k :: 0 <= k < |r| ==> r[k] == names[p[k]]
  {
    seq(|p|, k requires 0 <= k < |p| => names[p[k]])
  }

  lemma IndicesBelow(p: seq<nat>, n: nat)
    requires multiset(p) == multiset(Below(n))
    ensures forall k :: 0 <= k < |p| ==> p[k] < n
  {
    forall k | 0 <= k < |p|
      ensures p[k] < n
    {
      assert p[k] in multiset(p);
    }
  }

  lemma DropOne<T>(s: seq<T>, j: nat)
    requires j < |s|
    ensures multiset(s) == multiset(s[..j] + s[j + 1..]) + multiset{s[j]}
  {
    assert s == s[..j] + [s[j]] + s[j + 1..];
  }

  lemma CancelOne<T>(a: multiset<T>, b: multiset<T>, x: T)
    requires a + multiset{x} == b + multiset{x}
    ensures a == b
  {
    forall y
      ensures a[y] == b[y]
    {
      assert (a + multiset{x})[y] == (b + multiset{x})[y];
    }
  }

  lemma DropLast(p: seq<nat>, n: nat) returns (j: nat)
    requires multiset(p) == multiset(Below(n + 1))
    ensures j < |p| && p[j] == n && multiset(p[..j] + p[j + 1..]) == multiset(Below(n))
  {
    assert n in multiset(Below(n + 1));
    j :| j < |p| && p[j] == n;
    DropOne(p, j);
    assert multiset(Below(n + 1)) == multiset(Below(n)) + multiset{n};
    CancelOne(multiset(p[..j] + p[j + 1..]), multiset(Below(n)), n);
  }

  lemma PickWithout(p: seq<nat>, names: seq<string>, j: nat, rest: seq<nat>)
    requires names != [] && j < |p| && rest == p[..j] + p[j + 1..] && p[j] == |names| - 1
    requires forall k :: 0 <= k < |p| ==> p[k] < |names|
    requires forall k :: 0 <= k < |rest| ==> rest[k] < |names| - 1
    ensures multiset(Pick(p, names)) == multiset(Pick(rest, names[..|names| - 1])) + multiset{names[|names| - 1]}
  {
    var picked := Pick(p, names);
    DropOne(picked, j);
    assert Pick(rest, names[..|names| - 1]) == picked[..j] + picked[j + 1..];
  }

  /** Naming each task once names each worker once. */
  lemma {:induction false} PickPermutes(p: seq<nat>, names: seq<string>)
    requires multiset(p) == multiset(Below(|names|))
    requires forall k :: 0 <= k < |p| ==> p[k] < |names|
    ensures multiset(Pick(p, names)) == multiset(names)
    decreases |names|
  {
    if names == [] {
      assert |multiset(p)| == |multiset(Below(0))| == 0;
    } else {
      var n, front := |names| - 1, names[..|names| - 1];
      var j := DropLast(p, n);
      var rest := p[..j] + p[j + 1..];
      IndicesBelow(rest, n);
      PickPermutes(rest, front);
      PickWithout(p, names, j, rest);
      assert multiset(names) == multiset(front) + multiset{names[n]} by {
        assert names == front + [names[n]];
      }
    }
  }

  /** A finished level leaves each of its workers one result, or one skip by the user. */
  ghost predicate Accounts(o: Outcome, level: seq<Config>) {
    !o.aborted ==> multiset(RowIds(o.rows)) + multiset(o.skipped) == multiset(IdsOf(level))
  }

  lemma BatchAccounts(level: seq<Config>, w: World, ms: seq<Move>)
    requires !Dynamic(w) && Scheduled(level, w, ms)
    ensures Accounts(BatchOutcome(level, w, ms), level)
  {
    GateSplits(level, w);
    var approved := Gated(level, w, false);
    if approved != [] {
      var s := LevelEnd(level, w, ms);
      if !s.aborted {
        PickPermutes(TasksOf(s.rows), IdsOf(approved));
        assert RowIds(Named(s.rows, approved)) == Pick(TasksOf(s.rows), IdsOf(approved));
      }
    }
  }

  lemma {:induction false} GatheredAccounts(level: seq<Config>, qs: seq<Place>)
    requires |qs| == |level| && NodesEnded(qs)
    ensures var o := Gathered(level, qs);
            && !o.halt && o.skipped == []
            && (!o.aborted ==> RowIds(o.rows) == IdsOf(level))
            && (o.aborted <==> exists i :: 0 <= i < |qs| && Broken(qs[i]))
            && (o.signalled <==> AnySignalled(qs))
  {
    if level != [] {
      var n := |level| - 1;
      GatheredAccounts(level[..n], qs[..n]);
      assert qs == qs[..n] + [qs[n]];
    }
  }

  /**
    Dynamic nodes give every worker its own row, in order, skip no one, and leave the halt flag of
    the run alone, whoever drains a HALT_ALL. An exception that escapes one node is the run's.
   */
  lemma NodesAccount(level: seq<Config>, w: World, ms: seq<Move>)
    requires Dynamic(w) && Scheduled(level, w, ms)
    ensures var o := NodesOutcome(level, w, ms);
            && !o.halt && o.skipped == []
            && (!o.aborted ==> RowIds(o.rows) == IdsOf(level))
            && (o.aborted <==> exists i :: 0 <= i < |level| && Broken(Ends(level, w, ms)[i]))
            && (o.signalled <==> AnySignalled(Ends(level, w, ms)))
  {
    GatheredAccounts(level, GatheredEnds(level, w, ms));
  }

  lemma OutcomeAccounts(level: seq<Config>, w: World, ms: seq<Move>)
    requires Scheduled(level, w, ms)
    ensures Accounts(OutcomeOf(level, w, ms), level)
  {
    if Dynamic(w) {
      NodesAccount(level, w, ms);
    } else {
      BatchAccounts(level, w, ms);
    }
  }

  function Accounted(d: DagState): multiset<string> {
    multiset(RowIds(d.rows)) + multiset(d.skipped)
  }

  lemma RowIdsAppend(a: seq<DagRow>, b: seq<DagRow>)
    ensures multiset(RowIds(a + b)) == multiset(RowIds(a)) + multiset(RowIds(b))
  {
    assert RowIds(a + b) == RowIds(a) + RowIds(b);
  }

  lemma LevelAccounts(d: DagState, level: seq<Config>, o: Outcome, w: World)
    requires Accounts(o, level) && !LevelStep(d, level, o, w).aborted
    ensures !d.aborted && Accounted(LevelStep(d, level, o, w)) == Accounted(d) + multiset(IdsOf(level))
  {
    RowIdsAppend(d.rows, if d.halt then HaltedRows(level) else Recovered(o.rows, w));
  }

  lemma IdsAppend(a: seq<Config>, b: seq<Config>)
    ensures IdsOf(a + b) == IdsOf(a) + IdsOf(b)
  {
  }

  ghost predicate AllAccount(outs: seq<Outcome>, levels: seq<seq<Config>>) {
    |outs| == |levels| && forall k :: 0 <= k < |levels| ==> Accounts(outs[k], levels[k])
  }

  lemma OutcomesAccount(levels: seq<seq<Config>>, w: World, moves: seq<seq<Move>>)
    requires AllScheduled(levels, w, moves)
    ensures AllAccount(Outcomes(levels, w, moves), levels)
  {
    forall k | 0 <= k < |levels|
      ensures Accounts(Outcomes(levels, w, moves)[k], levels[k])
    {
      OutcomeAccounts(levels[k], w, moves[k]);
    }
  }

  lemma FlattenNext(levels: seq<seq<Config>>, n: nat)
    requires n < |levels|
    ensures multiset(IdsOf(Flatten(levels[..n + 1]))) == multiset(IdsOf(Flatten(levels[..n]))) + multiset(IdsOf(levels[n]))
  {
    assert levels[..n + 1][..n] == levels[..n];
    IdsAppend(Flatten(levels[..n]), levels[n]);
  }

  lemma AccountedNext(levels: seq<seq<Config>>, outs: seq<Outcome>, w: World, n: nat)
    requires AllAccount(outs, levels) && n < |levels| && !Dag(levels, outs, w, n + 1).aborted
    ensures !Dag(levels, outs, w, n).aborted
    ensures Accounted(Dag(levels, outs, w, n + 1)) == Accounted(Dag(levels, outs, w, n)) + multiset(IdsOf(levels[n]))
  {
    LevelAccounts(Dag(levels, outs, w, n), levels[n], outs[n], w);
  }

  /**
    Unless an exception cuts the run short, after n levels every worker of those levels has
    exactly one result or was skipped by the user exactly once, and no one else has.
   */
  lemma {:induction false} EveryWorkerAccounted(levels: seq<seq<Config>>, outs: seq<Outcome>, w: World, n: nat)
    requires AllAccount(outs, levels) && n <= |levels| && !Dag(levels, outs, w, n).aborted
    ensures Accounted(Dag(levels, outs, w, n)) == multiset(IdsOf(Flatten(levels[..n])))
  {
    if n == 0 {
      assert levels[..n] == [];
    } else {
      AccountedNext(levels, outs, w, n - 1);
      EveryWorkerAccounted(levels, outs, w, n - 1);
      FlattenNext(levels, n - 1);
    }
  }

  lemma TakeOut(b: seq<Config>, c: Config) returns (rest: seq<Config>)
    requires c in b
    ensures multiset(b) == multiset(rest) + multiset{c}
    ensures multiset(IdsOf(b)) == multiset(IdsOf(rest)) + multiset{c.id}
  {
    var j :| 0 <= j < |b| && b[j] == c;
    rest := b[..j] + b[j + 1..];
    DropOne(b, j);
    DropOne(IdsOf(b), j);
    assert IdsOf(rest) == IdsOf(b)[..j] + IdsOf(b)[j + 1..];
  }

  lemma {:induction false} PermutedIds(a: seq<Config>, b: seq<Config>)
    requires multiset(a) == multiset(b)
    ensures multiset(IdsOf(a)) == multiset(IdsOf(b))
    decreases |a|
  {
    if a == [] {
      assert |multiset(b)| == |multiset(a)| == 0;
    } else {
      var front, c := a[..|a| - 1], a[|a| - 1];
      assert a == front + [c];
      assert c in multiset(b);
      var rest := TakeOut(b, c);
      CancelOne(multiset(front), multiset(rest), c);
      PermutedIds(front, rest);
      OneMoreId(front, c);
    }
  }

  /** So for a levelled graph the whole run accounts for the planned workers, each once. */
  lemma WholeRunAccounts(cs: seq<Config>, levels: seq<seq<Config>>, outs: seq<Outcome>, w: World)
    requires UniqueIds(cs) && IsLevelling(cs, levels) && AllAccount(outs, levels) && !Dag(levels, outs, w, |levels|).aborted
    ensures Accounted(Dag(levels, outs, w, |levels|)) == multiset(IdsOf(cs))
  {
    EveryWorkerAccounted(levels, outs, w, |levels|);
    assert levels[..|levels|] == levels;
    LevellingPartitions(cs, levels);
    PermutedIds(Flatten(levels), cs);
  }

  /** When level k is reached, every dependency of its workers has a result or was skipped. */
  lemma DependenciesAccounted(cs: seq<Config>, levels: seq<seq<Config>>, outs: seq<Outcome>, w: World, k: nat, c: Config, d: string)
    requires UniqueIds(cs) && IsLevelling(cs, levels) && AllAccount(outs, levels)
    requires k < |levels| && c in levels[k] && d in c.deps && !Dag(levels, outs, w, k).aborted
    ensures d in Accounted(Dag(levels, outs, w, k))
  {
    DependencyFlattened(cs, levels, k, c, d);
    EveryWorkerAccounted(levels, outs, w, k);
    assert d in multiset(IdsOf(Flatten(levels[..k])));
  }

  lemma DependencyFlattened(cs: seq<Config>, levels: seq<seq<Config>>, k: nat, c: Config, d: string)
    requires UniqueIds(cs) && IsLevelling(cs, levels) && k < |levels| && c in levels[k] && d in c.deps
    ensures d in IdsOf(Flatten(levels[..k]))
  {
    LevelMeaning(cs, levels, k, c);
    var j, e :| 0 <= j < k && e in levels[j] && e.id == d;
    assert levels[..k][j] == levels[j];
    FlattenHolds(levels[..k], j, e);
    var i :| 0 <= i < |Flatten(levels[..k])| && Flatten(levels[..k])[i] == e;
    assert IdsOf(Flatten(levels[..k]))[i] == d;
  }

  lemma {:induction false} FlattenHolds(levels: seq<seq<Config>>, j: nat, e: Config)
    requires j < |levels| && e in levels[j]
    ensures e in Flatten(levels)
  {
    if j < |levels| - 1 {
      FlattenHolds(levels[..|levels| - 1], j, e);
    }
  }
}
