/**
  Level assignment for the hybrid-DAG pattern: repeated passes over the workers not yet
  placed, bounded by |cs| + 1 passes, then one bucket per level.
 */
module LevelScheduler {
  import opened Wrappers
  import opened WorkerGraph
  import opened Schedulability

  /** The workers of level k, in the order given. */
  ghost function Level(cs: seq<Config>, k: nat): seq<Config> {
    Select(cs, Settled(cs, k + 1) - Settled(cs, k))
  }

  ghost predicate RightLevels(cs: seq<Config>, levels: map<string, nat>) {
    forall w {:trigger HasLevel(cs, w, levels[w])} :: w in levels ==> HasLevel(cs, w, levels[w])
  }

  /** The largest recorded level among ids. */
  method MaxOver(ids: seq<string>, levels: map<string, nat>) returns (m: nat)
    requires ids != [] && forall d :: d in ids ==> d in levels
    ensures exists d :: d in ids && levels[d] == m
    ensures forall d :: d in ids ==> levels[d] <= m
  {
    m := levels[ids[0]];
    for i := 1 to |ids|
      invariant exists d :: d in ids && levels[d] == m
      invariant forall j :: 0 <= j < i ==> levels[ids[j]] <= m
    {
      if levels[ids[i]] > m {
        m := levels[ids[i]];
      }
    }
  }

  /** A worker sits one above its deepest dependency. */
  lemma OneAboveDeepest(cs: seq<Config>, c: Config, levels: map<string, nat>, d: string)
    requires UniqueIds(cs) && c in cs && RightLevels(cs, levels) && DepsWithin(c, levels.Keys)
    requires d in c.deps && forall d' :: d' in c.deps ==> levels[d'] <= levels[d]
    ensures HasLevel(cs, c.id, levels[d] + 1)
  {
    forall d' | d' in c.deps
      ensures d' in Settled(cs, levels[d] + 1)
    {
      SettledOnceLevelled(cs, d', levels[d'], levels[d] + 1);
    }
    OneAbove(cs, c, d, levels[d]);
  }

  lemma RecordLevel(cs: seq<Config>, levels: map<string, nat>, w: string, l: nat)
    requires RightLevels(cs, levels) && HasLevel(cs, w, l)
    ensures RightLevels(cs, levels[w := l])
  {
    var levels' := levels[w := l];
    forall v | v in levels'
      ensures HasLevel(cs, v, levels'[v])
    {
      if v != w {
        assert HasLevel(cs, v, levels[v]);
      }
    }
  }

  /** Place c if all its dependencies are placed. */
  method TryPlace(cs: seq<Config>, c: Config, levels: map<string, nat>)
    returns (placed: bool, levels': map<string, nat>)
    requires UniqueIds(cs) && c in cs && RightLevels(cs, levels)
    ensures placed <==> DepsWithin(c, levels.Keys)
    ensures placed ==> levels'.Keys == levels.Keys + {c.id}
    ensures !placed ==> levels' == levels
    ensures RightLevels(cs, levels')
  {
    placed, levels' := false, levels;
    if c.deps == [] {
      SettledIntro(cs, c, 0);
      RecordLevel(cs, levels, c.id, 0);
      placed, levels' := true, levels[c.id := 0];
    } else if DepsWithin(c, levels.Keys) {
      var m := MaxOver(c.deps, levels);
      ghost var d :| d in c.deps && levels[d] == m;
      OneAboveDeepest(cs, c, levels, d);
      RecordLevel(cs, levels, c.id, m + 1);
      placed, levels' := true, levels[c.id := m + 1];
    }
  }

  method CheckDepsKnown(cs: seq<Config>) returns (error: Option<ScheduleError>)
    ensures error == None ==> AllDepsKnown(cs)
    ensures error.Some? ==> error.value.UnknownDependency? && Rejects(cs, error.value)
  {
    var known := Ids(cs);
    for i := 0 to |cs|
      invariant forall i' :: 0 <= i' < i ==> DepsWithin(cs[i'], known)
    {
      for j := 0 to |cs[i].deps|
        invariant forall j' :: 0 <= j' < j ==> cs[i].deps[j'] in known
      {
        if cs[i].deps[j] !in known {
          assert FirstUnknownAt(cs, i, j);
          return Some(UnknownDependency(cs[i].id, cs[i].deps[j]));
        }
      }
    }
    return None;
  }

  /** The configs not yet in placed, in the order given. */
  ghost function Waiting(cs: seq<Config>, placed: set<string>): seq<Config> {
    Select(cs, Ids(cs) - placed)
  }

  lemma WaitingKeeps(cs: seq<Config>, placed: set<string>)
    requires UniqueIds(cs)
    ensures UniqueIds(Waiting(cs, placed))
    ensures forall j :: 0 <= j < |Waiting(cs, placed)| ==>
                          Waiting(cs, placed)[j] in cs && Waiting(cs, placed)[j].id !in placed
  {
    SelectKeeps(cs, Ids(cs) - placed);
    SelectUnique(cs, Ids(cs) - placed);
    forall j | 0 <= j < |Waiting(cs, placed)|
      ensures Waiting(cs, placed)[j] in cs && Waiting(cs, placed)[j].id !in placed
    {
      assert Waiting(cs, placed)[j] in Waiting(cs, placed);
    }
  }

  lemma WaitingLater(cs: seq<Config>, before: set<string>, after: set<string>)
    requires before <= after
    ensures Select(Waiting(cs, before), Ids(cs) - after) == Waiting(cs, after)
  {
    SelectTwice(cs, Ids(cs) - before, Ids(cs) - after);
  }

  /** Handling the next waiting worker extends the list of those that stay, or drops its id. */
  lemma WaitingStep(waiting: seq<Config>, i: nat, left: set<string>)
    requires UniqueIds(waiting) && i < |waiting| && waiting[i].id in left
    ensures Select(waiting[..i + 1], left) == Select(waiting[..i], left) + [waiting[i]]
    ensures Select(waiting[..i + 1], left - {waiting[i].id}) == Select(waiting[..i], left)
  {
    var front, c := waiting[..i], waiting[i];
    assert waiting[..i + 1] == front + [c];
    SelectSnoc(front, c, left);
    SelectSnoc(front, c, left - {c.id});
    SelectAgrees(front, left, left - {c.id});
  }

  ghost predicate Stuck(waiting: seq<Config>, placed: set<string>) {
    forall c :: c in waiting ==> !DepsWithin(c, placed)
  }

  lemma StuckSnoc(waiting: seq<Config>, c: Config, placed: set<string>)
    requires !DepsWithin(c, placed)
    ensures Stuck(waiting, placed) ==> Stuck(waiting + [c], placed)
  {
  }

  /** One pass: place, in order, each waiting worker whose dependencies are placed by then. */
  method Pass(cs: seq<Config>, levels0: map<string, nat>, remaining: seq<Config>)
    returns (levels: map<string, nat>, still: seq<Config>, progress: bool)
    requires UniqueIds(cs)
    requires levels0.Keys <= Ids(cs) && RightLevels(cs, levels0)
    requires remaining == Waiting(cs, levels0.Keys)
    ensures levels0.Keys <= levels.Keys <= Ids(cs) && RightLevels(cs, levels)
    ensures still == Waiting(cs, levels.Keys)
    ensures progress ==> |still| < |remaining|
    ensures !progress ==> levels == levels0
    ensures !progress ==> Stuck(remaining, levels0.Keys)
  {
    levels, still, progress := levels0, [], false;
    ghost var left := Ids(cs) - levels0.Keys;
    WaitingKeeps(cs, levels0.Keys);
    for i := 0 to |remaining|
      invariant levels0.Keys <= levels.Keys <= Ids(cs) && RightLevels(cs, levels)
      invariant left == Ids(cs) - levels.Keys
      invariant still == Select(remaining[..i], left)
      invariant |still| <= i && (progress ==> |still| < i) && (!progress ==> levels == levels0)
      invariant forall j :: i <= j < |remaining| ==> remaining[j].id in left
      invariant !progress ==> Stuck(remaining[..i], levels0.Keys)
    {
      var c := remaining[i];
      assert remaining[..i + 1] == remaining[..i] + [c];
      WaitingStep(remaining, i, left);
      var placed;
      placed, levels := TryPlace(cs, c, levels);
      if placed {
        progress, left := true, left - {c.id};
      } else {
        still := still + [c];
        StuckSnoc(remaining[..i], c, levels.Keys);
      }
    }
    assert remaining[..|remaining|] == remaining;
    WaitingLater(cs, levels0.Keys, levels.Keys);
  }

  ghost predicate IsLevelling(cs: seq<Config>, levels: seq<seq<Config>>) {
    && (forall k :: 0 <= k < |levels| ==> levels[k] == Level(cs, k) && levels[k] != [])
    && (forall c :: c in cs ==> c.id in Settled(cs, |levels|))
  }

  lemma LevelIs(cs: seq<Config>, levels: map<string, nat>, w: string, k: nat)
    requires RightLevels(cs, levels) && w in levels
    ensures w in Settled(cs, k + 1) - Settled(cs, k) <==> levels[w] == k
  {
    assert HasLevel(cs, w, levels[w]);
    if w in Settled(cs, k + 1) - Settled(cs, k) {
      LevelUnique(cs, w, k, levels[w]);
    }
  }

  lemma LowerNeighbour(cs: seq<Config>, w: string, m: nat) returns (d: string)
    requires HasLevel(cs, w, m + 1)
    ensures HasLevel(cs, d, m)
  {
    var c := ReadyElim(cs, Settled(cs, m + 1), w);
    if DepsWithin(c, Settled(cs, m)) {
      SettledIntro(cs, c, m);
    }
    d :| d in c.deps && d !in Settled(cs, m);
  }

  /** Below an occupied level there is an occupied level. */
  lemma {:induction false} OccupiedBelow(cs: seq<Config>, w: string, m: nat, k: nat)
    requires HasLevel(cs, w, m) && k <= m
    ensures Level(cs, k) != []
    decreases m - k
  {
    if k == m {
      SettledWithinIds(cs, m + 1);
      SelectKeeps(cs, Settled(cs, m + 1) - Settled(cs, m));
      var c :| c in cs && c.id == w;
      assert c in Level(cs, k);
    } else {
      var d := LowerNeighbour(cs, w, m - 1);
      OccupiedBelow(cs, d, m - 1, k);
    }
  }

  /** Append each config to the bucket of its level. */
  method Bucket(cs: seq<Config>, levels: map<string, nat>, count: nat) returns (buckets: seq<seq<Config>>)
    requires RightLevels(cs, levels)
    requires forall c :: c in cs ==> c.id in levels && levels[c.id] < count
    ensures |buckets| == count
    ensures forall k :: 0 <= k < count ==> buckets[k] == Level(cs, k)
  {
    buckets := seq(count, _ => []);
    for i := 0 to |cs|
      invariant |buckets| == count
      invariant forall k :: 0 <= k < count ==> buckets[k] == Select(cs[..i], Settled(cs, k + 1) - Settled(cs, k))
    {
      var c := cs[i];
      var l := levels[c.id];
      ghost var before := buckets;
      buckets := buckets[l := buckets[l] + [c]];
      assert cs[..i + 1] == cs[..i] + [c];
      forall k | 0 <= k < count
        ensures buckets[k] == Select(cs[..i + 1], Settled(cs, k + 1) - Settled(cs, k))
      {
        LevelIs(cs, levels, c.id, k);
        SelectSnoc(cs[..i], c, Settled(cs, k + 1) - Settled(cs, k));
      }
    }
    assert cs[..|cs|] == cs;
  }

  /** When nothing can be placed any more, the workers left over are the ones that never settle. */
  lemma StuckIsUngrounded(cs: seq<Config>, levels: map<string, nat>)
    requires UniqueIds(cs) && levels.Keys <= Ids(cs) && RightLevels(cs, levels)
    requires Stuck(Waiting(cs, levels.Keys), levels.Keys)
    ensures levels.Keys == Grounded(cs)
  {
    SelectKeeps(cs, Ids(cs) - levels.Keys);
    ClosedContainsSettled(cs, levels.Keys, |cs|);
    forall w | w in levels
      ensures w in Grounded(cs)
    {
      assert HasLevel(cs, w, levels[w]);
      LevelledIsGrounded(cs, w, levels[w]);
    }
  }

  lemma SelectSize(cs: seq<Config>, s: set<string>)
    ensures |Select(cs, s)| <= |cs|
    ensures Ids(cs) <= s ==> Select(cs, s) == cs
  {
    if cs != [] {
      SelectSize(cs[..|cs| - 1], s);
      assert cs == cs[..|cs| - 1] + [cs[|cs| - 1]];
    }
  }

  /**
    Assign every worker its level, in at most |cs| + 1 passes. The passes always suffice: the
    loop never ends with workers left and no error raised.
   */
  method AssignLevels(cs: seq<Config>) returns (levels: map<string, nat>, error: Option<ScheduleError>)
    requires UniqueIds(cs) && AllDepsKnown(cs)
    ensures RightLevels(cs, levels)
    ensures error == None ==> levels.Keys == Ids(cs) == Grounded(cs)
    ensures error.Some? ==> Rejects(cs, error.value)
  {
    levels := map[];
    var remaining := cs;
    SelectSize(cs, Ids(cs));
    assert Ids(cs) - levels.Keys == Ids(cs);
    var pass := 0;
    while pass < |cs| + 1 && remaining != []
      invariant levels.Keys <= Ids(cs) && RightLevels(cs, levels)
      invariant remaining == Waiting(cs, levels.Keys)
      invariant 0 <= pass <= |cs| + 1 && |remaining| + pass <= |cs|
    {
      var progress;
      levels, remaining, progress := Pass(cs, levels, remaining);
      if !progress && remaining != [] {
        StuckIsUngrounded(cs, levels);
        StillWaiting(cs, levels.Keys);
        return levels, Some(CircularDependency(IdsOf(remaining)));
      }
      pass := pass + 1;
    }
    StillWaiting(cs, levels.Keys);
    StuckIsUngrounded(cs, levels);
    return levels, None;
  }

  lemma StillWaiting(cs: seq<Config>, placed: set<string>)
    requires placed <= Ids(cs)
    ensures Waiting(cs, placed) == [] <==> placed == Ids(cs)
  {
    SelectKeeps(cs, Ids(cs) - placed);
    if w :| w in Ids(cs) - placed {
      var c :| c in cs && c.id == w;
      assert c in Waiting(cs, placed);
    } else if Waiting(cs, placed) != [] {
      assert Waiting(cs, placed)[0] in Waiting(cs, placed);
    }
  }

  method TopLevel(cs: seq<Config>, levels: map<string, nat>) returns (top: nat)
    requires cs != [] && levels.Keys == Ids(cs)
    ensures exists w :: w in levels && levels[w] == top
    ensures forall c :: c in cs ==> c.id in levels && levels[c.id] <= top
  {
    var ids := IdsOf(cs);
    forall d | d in ids
      ensures d in levels
    {
      var i :| 0 <= i < |ids| && ids[i] == d;
      assert cs[i] in cs;
    }
    top := MaxOver(ids, levels);
    forall c | c in cs
      ensures c.id in ids
    {
      var i :| 0 <= i < |cs| && cs[i] == c;
      assert ids[i] == c.id;
    }
  }

  /** The levels of a schedulable graph, or the reason there are none. */
  method GroupByLevel(cs: seq<Config>) returns (r: Result<seq<seq<Config>>>)
    requires UniqueIds(cs)
    ensures r.Ok? <==> Schedulable(cs)
    ensures r.Ok? ==> IsLevelling(cs, r.value)
    ensures r.Err? ==> Rejects(cs, r.error)
  {
    if cs == [] {
      return Ok([]);
    }
    var error := CheckDepsKnown(cs);
    if error.Some? {
      RejectionIsUnique(cs, error.value, error.value);
      return Err(error.value);
    }
    var levels;
    levels, error := AssignLevels(cs);
    if error.Some? {
      RejectionIsUnique(cs, error.value, error.value);
      return Err(error.value);
    }
    var buckets := BucketByLevel(cs, levels);
    return Ok(buckets);
  }

  method BucketByLevel(cs: seq<Config>, levels: map<string, nat>) returns (buckets: seq<seq<Config>>)
    requires cs != [] && RightLevels(cs, levels) && levels.Keys == Ids(cs)
    ensures IsLevelling(cs, buckets)
  {
    var top := TopLevel(cs, levels);
    buckets := Bucket(cs, levels, top + 1);
    EveryLevelOccupied(cs, levels, top);
  }

  lemma EveryLevelOccupied(cs: seq<Config>, levels: map<string, nat>, top: nat)
    requires RightLevels(cs, levels) && exists w :: w in levels && levels[w] == top
    requires forall c :: c in cs ==> c.id in levels && levels[c.id] <= top
    ensures forall k :: 0 <= k <= top ==> Level(cs, k) != []
    ensures forall c :: c in cs ==> c.id in Settled(cs, top + 1)
  {
    var w :| w in levels && levels[w] == top;
    assert HasLevel(cs, w, levels[w]);
    forall k | 0 <= k <= top
      ensures Level(cs, k) != []
    {
      OccupiedBelow(cs, w, top, k);
    }
    forall c | c in cs
      ensures c.id in Settled(cs, top + 1)
    {
      assert HasLevel(cs, c.id, levels[c.id]);
      SettledOnceLevelled(cs, c.id, levels[c.id], top + 1);
    }
  }
}
