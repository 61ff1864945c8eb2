/**
  The sequential engine behind the pipeline and planner-executor patterns: workers run one at
  a time in topological order until a HALT_ALL is drained between two steps or, when the
  chain stops on failure, until a worker fails.
 */
module SequentialEngine {
  import opened WorkerGraph
  import opened Schedulability
  import opened KahnScheduler

  datatype Mode = Pipeline | PlannerExecutor

  /** How a result came about; a worker that ran was given the outputs of `inputs`, in that order. */
  datatype Origin = Ran(inputs: seq<string>) | SkippedByHalt | SkippedByFailure

  datatype WorkerResult = WorkerResult(id: string, signal: Signal, origin: Origin)

  /** What each worker would answer, and whether a HALT_ALL is drained just before step i. */
  datatype World = World(outcome: string -> Signal, halt: nat -> bool)

  /** The upstream outputs a worker is given: the successful ones in a pipeline, all of them in a plan. */
  ghost function InputsFor(deps: seq<string>, mode: Mode, outcome: string -> Signal): seq<string> {
    if deps == [] then []
    else
      var d := deps[|deps| - 1];
      InputsFor(deps[..|deps| - 1], mode, outcome)
      + if mode == PlannerExecutor || outcome(d) == SUCCESS then [d] else []
  }

  ghost predicate FailedUnderStop(order: seq<Config>, stop: bool, world: World, i: nat)
    requires i < |order|
  {
    stop && world.outcome(order[i].id) == FAILED
  }

  /** The first n results are those of workers that ran, none of which ended the chain early. */
  ghost predicate RanPrefix(order: seq<Config>, mode: Mode, stop: bool, world: World, results: seq<WorkerResult>, n: nat) {
    && n <= |order| && n <= |results|
    && (forall i :: 0 <= i < n ==>
          && !world.halt(i)
          && results[i] == WorkerResult(order[i].id, world.outcome(order[i].id),
                                        Ran(InputsFor(order[i].deps, mode, world.outcome))))
    && (forall i :: 0 <= i < n - 1 ==> !FailedUnderStop(order, stop, world, i))
  }

  ghost predicate SkippedFrom(order: seq<Config>, results: seq<WorkerResult>, n: nat, signal: Signal, origin: Origin) {
    && |results| == |order|
    && forall i :: n <= i < |order| ==> results[i] == WorkerResult(order[i].id, signal, origin)
  }

  /** The cut is where the chain ends: at the first drained halt or after the first failure that stops it. */
  ghost predicate EndsAt(order: seq<Config>, stop: bool, world: World, results: seq<WorkerResult>, cut: nat)
    requires cut <= |order|
  {
    if cut > 0 && FailedUnderStop(order, stop, world, cut - 1) then
      SkippedFrom(order, results, cut, FAILED, SkippedByFailure)
    else if cut < |order| then
      world.halt(cut) && SkippedFrom(order, results, cut, HALTED, SkippedByHalt)
    else
      |results| == |order|
  }

  ghost predicate ChainRun(order: seq<Config>, mode: Mode, stop: bool, world: World, results: seq<WorkerResult>, cut: nat) {
    && cut <= |order|
    && RanPrefix(order, mode, stop, world, results, cut)
    && EndsAt(order, stop, world, results, cut)
  }

  /** The inputs actually recorded so far, looked up dependency by dependency. */
  method CollectInputs(deps: seq<string>, mode: Mode, recorded: map<string, Signal>, ghost outcome: string -> Signal)
    returns (inputs: seq<string>)
    requires forall d :: d in deps ==> d in recorded && recorded[d] == outcome(d)
    ensures inputs == InputsFor(deps, mode, outcome)
  {
    inputs := [];
    for i := 0 to |deps|
      invariant inputs == InputsFor(deps[..i], mode, outcome)
    {
      assert deps[..i + 1][..i] == deps[..i];
      var d := deps[i];
      if d in recorded && (mode == PlannerExecutor || recorded[d] == SUCCESS) {
        inputs := inputs + [d];
      }
    }
    assert deps[..|deps|] == deps;
  }

  method SkipRest(order: seq<Config>, results0: seq<WorkerResult>, signal: Signal, origin: Origin) returns (results: seq<WorkerResult>)
    requires |results0| <= |order|
    ensures |results| == |order| && results[..|results0|] == results0
    ensures SkippedFrom(order, results, |results0|, signal, origin)
  {
    results := results0;
    for i := |results0| to |order|
      invariant |results| == i && results[..|results0|] == results0
      invariant forall j :: |results0| <= j < i ==> results[j] == WorkerResult(order[j].id, signal, origin)
    {
      results := results + [WorkerResult(order[i].id, signal, origin)];
    }
  }

  /** Every executed worker's dependencies already have recorded results. */
  ghost predicate Recorded(order: seq<Config>, world: World, recorded: map<string, Signal>, n: nat)
    requires n <= |order|
  {
    forall i :: 0 <= i < n ==> order[i].id in recorded && recorded[order[i].id] == world.outcome(order[i].id)
  }

  lemma DepsRecorded(cs: seq<Config>, order: seq<Config>, world: World, recorded: map<string, Signal>, n: nat)
    requires (forall c :: c in order ==> c in cs) && DepsFirst(cs, IdsOf(order)) && n < |order|
    requires Recorded(order, world, recorded, n)
    ensures forall d :: d in order[n].deps ==> d in recorded && recorded[d] == world.outcome(d)
  {
    assert order[n] in order;
    forall d | d in order[n].deps
      ensures d in recorded && recorded[d] == world.outcome(d)
    {
      assert d in Elements(IdsOf(order)[..n]);
      var i :| 0 <= i < n && IdsOf(order)[i] == d;
      assert order[i].id in recorded;
    }
  }

  method RunStep(cs: seq<Config>, order: seq<Config>, mode: Mode, world: World, recorded: map<string, Signal>, idx: nat)
    returns (result: WorkerResult)
    requires (forall c :: c in order ==> c in cs) && DepsFirst(cs, IdsOf(order)) && idx < |order|
    requires Recorded(order, world, recorded, idx)
    ensures result == WorkerResult(order[idx].id, world.outcome(order[idx].id),
                                   Ran(InputsFor(order[idx].deps, mode, world.outcome)))
  {
    DepsRecorded(cs, order, world, recorded, idx);
    var inputs := CollectInputs(order[idx].deps, mode, recorded, world.outcome);
    result := WorkerResult(order[idx].id, world.outcome(order[idx].id), Ran(inputs));
  }

  lemma RanOneMore(order: seq<Config>, mode: Mode, stop: bool, world: World, results: seq<WorkerResult>, result: WorkerResult)
    requires |results| < |order| && RanPrefix(order, mode, stop, world, results, |results|)
    requires |results| > 0 ==> !FailedUnderStop(order, stop, world, |results| - 1)
    requires var c := order[|results|];
             !world.halt(|results|) &&
             result == WorkerResult(c.id, world.outcome(c.id), Ran(InputsFor(c.deps, mode, world.outcome)))
    ensures RanPrefix(order, mode, stop, world, results + [result], |results| + 1)
  {
  }

  /** The chain proper, on an order already computed. */
  method RunChain(cs: seq<Config>, order: seq<Config>, mode: Mode, stop: bool, world: World)
    returns (results: seq<WorkerResult>, ghost cut: nat)
    requires (forall c :: c in order ==> c in cs) && DepsFirst(cs, IdsOf(order))
    ensures ChainRun(order, mode, stop, world, results, cut)
    ensures |results| == |order| && forall i :: 0 <= i < |order| ==> results[i].id == order[i].id
  {
    var recorded: map<string, Signal> := map[];
    var failed: set<string> := {};
    results := [];
    for idx := 0 to |order|
      invariant |results| == idx && RanPrefix(order, mode, stop, world, results, idx)
      invariant idx > 0 ==> !FailedUnderStop(order, stop, world, idx - 1)
      invariant Recorded(order, world, recorded, idx)
      invariant stop ==> failed == {}
    {
      var config := order[idx];
      if world.halt(idx) {
        ghost var ran := results;
        results := SkipRest(order, results, HALTED, SkippedByHalt);
        PrefixKept(order, mode, stop, world, ran, results, idx);
        return results, idx;
      }
      if stop && exists d :: d in config.deps && d in failed {
        // No worker that stops the chain is ever followed by another step.
        assert false;
      }
      var result := RunStep(cs, order, mode, world, recorded, idx);
      var signal := result.signal;
      RanOneMore(order, mode, stop, world, results, result);
      recorded := recorded[config.id := signal];
      results := results + [result];
      if signal == FAILED {
        failed := failed + {config.id};
        if stop {
          ghost var ran := results;
          results := SkipRest(order, results, FAILED, SkippedByFailure);
          PrefixKept(order, mode, stop, world, ran, results, idx + 1);
          return results, idx + 1;
        }
      }
    }
    cut := |order|;
  }

  lemma PrefixKept(order: seq<Config>, mode: Mode, stop: bool, world: World, ran: seq<WorkerResult>, results: seq<WorkerResult>, n: nat)
    requires |ran| == n && RanPrefix(order, mode, stop, world, ran, n) && ran <= results
    ensures RanPrefix(order, mode, stop, world, results, n)
  {
  }

  method RunSequentialWorkers(cs: seq<Config>, mode: Mode, stop: bool, world: World)
    returns (r: Result<seq<WorkerResult>>, ghost order: seq<Config>, ghost cut: nat)
    requires UniqueIds(cs)
    ensures r.Ok? <==> Schedulable(cs)
    ensures r.Err? ==> Rejects(cs, r.error)
    ensures r.Ok? ==> IsOrder(cs, order) && ChainRun(order, mode, stop, world, r.value, cut)
  {
    order, cut := [], 0;
    var sorted := TopologicalSort(cs);
    if sorted.Err? {
      return Err(sorted.error), [], 0;
    }
    forall c | c in sorted.value
      ensures c in cs
    {
      assert c in multiset(sorted.value);
    }
    var results;
    results, cut := RunChain(cs, sorted.value, mode, stop, world);
    return Ok(results), sorted.value, cut;
  }

  // ----- what the chain promises -----

  /** The chain is a function of the world: where it is cut, and so every result, is determined. */
  lemma ChainIsDetermined(order: seq<Config>, mode: Mode, stop: bool, world: World,
                          r1: seq<WorkerResult>, c1: nat, r2: seq<WorkerResult>, c2: nat)
    requires ChainRun(order, mode, stop, world, r1, c1) && ChainRun(order, mode, stop, world, r2, c2)
    ensures c1 == c2 && r1 == r2
  {
    CutNotLater(order, mode, stop, world, r1, c1, r2, c2);
    CutNotLater(order, mode, stop, world, r2, c2, r1, c1);
  }

  lemma CutNotLater(order: seq<Config>, mode: Mode, stop: bool, world: World,
                    r1: seq<WorkerResult>, c1: nat, r2: seq<WorkerResult>, c2: nat)
    requires ChainRun(order, mode, stop, world, r1, c1) && ChainRun(order, mode, stop, world, r2, c2)
    ensures c1 <= c2
  {
  }

  /**
    With stop-on-failure no worker ever runs on top of a failed one: every dependency of a
    worker that ran has itself run, earlier, and did not fail.
   */
  lemma NothingRunsOnFailure(cs: seq<Config>, order: seq<Config>, mode: Mode, world: World,
                             results: seq<WorkerResult>, cut: nat, i: nat, d: string)
    requires IsOrder(cs, order) && ChainRun(order, mode, true, world, results, cut)
    requires i < |results| && results[i].origin.Ran? && d in order[i].deps
    ensures exists j :: 0 <= j < i && results[j].id == d && results[j].origin.Ran? && results[j].signal != FAILED
  {
    assert order[i] in multiset(order);
    assert order[i] in cs;
    assert d in Elements(IdsOf(order)[..i]);
    var j :| 0 <= j < i && IdsOf(order)[j] == d;
    assert !FailedUnderStop(order, true, world, j);
  }
}
