/**
  What the two schedulers promise together, read off their contracts: they refuse the same
  graphs with the same error, and on the others the queue order is the levels, concatenated,
  up to reordering inside a level.
 */
module SchedulerAgreement {
  import opened WorkerGraph
  import opened Schedulability
  import opened LevelScheduler
  import opened KahnScheduler

  /** Run both on one graph. */
  method ScheduleBoth(cs: seq<Config>) returns (order: Result<seq<Config>>, levels: Result<seq<seq<Config>>>)
    requires UniqueIds(cs)
    ensures order.Ok? <==> levels.Ok?
    ensures order.Ok? <==> AllDepsKnown(cs) && forall w :: w in Ids(cs) ==> !ReachesCycle(cs, w)
    ensures order.Err? ==> levels.Err? && order.error == levels.error
    ensures order.Ok? ==> IsOrder(cs, order.value) && IsLevelling(cs, levels.value)
  {
    order := TopologicalSort(cs);
    levels := GroupByLevel(cs);
    SchedulableIffAcyclic(cs);
    if order.Err? {
      RejectionIsUnique(cs, order.error, levels.error);
    }
  }

  function Flatten(levels: seq<seq<Config>>): seq<Config> {
    if levels == [] then [] else Flatten(levels[..|levels| - 1]) + levels[|levels| - 1]
  }

  lemma {:induction false} SelectUnion(cs: seq<Config>, s: set<string>, t: set<string>)
    requires s !! t
    ensures multiset(Select(cs, s + t)) == multiset(Select(cs, s)) + multiset(Select(cs, t))
  {
    if cs != [] {
      SelectUnion(cs[..|cs| - 1], s, t);
    }
  }

  lemma SelectNothing(cs: seq<Config>)
    ensures Select(cs, {}) == []
  {
  }

  /** Level k is what round k + 1 settles beyond round k. */
  lemma LevelJoins(cs: seq<Config>, k: nat)
    ensures multiset(Select(cs, Settled(cs, k))) + multiset(Level(cs, k)) == multiset(Select(cs, Settled(cs, k + 1)))
  {
    var s, t := Settled(cs, k), Settled(cs, k + 1);
    SettledGrows(cs, k, k + 1);
    SelectUnion(cs, s, t - s);
    assert s + (t - s) == t;
  }

  lemma FlattenLast(front: seq<seq<Config>>)
    requires front != []
    ensures multiset(Flatten(front)) == multiset(Flatten(front[..|front| - 1])) + multiset(front[|front| - 1])
  {
  }

  lemma FlattenedNone(cs: seq<Config>)
    ensures multiset(Flatten([])) == multiset(Select(cs, Settled(cs, 0)))
  {
    SelectNothing(cs);
  }

  lemma FlattenedNext(cs: seq<Config>, front: seq<seq<Config>>, k: nat)
    requires |front| == k + 1 && front[k] == Level(cs, k)
    requires multiset(Flatten(front[..k])) == multiset(Select(cs, Settled(cs, k)))
    ensures multiset(Flatten(front)) == multiset(Select(cs, Settled(cs, k + 1)))
  {
    FlattenLast(front);
    LevelJoins(cs, k);
  }

  /** The first levels hold what as many rounds settle, each worker once. */
  lemma {:induction false} FlattenedLevels(cs: seq<Config>, front: seq<seq<Config>>)
    requires forall i :: 0 <= i < |front| ==> front[i] == Level(cs, i)
    ensures multiset(Flatten(front)) == multiset(Select(cs, Settled(cs, |front|)))
  {
    if front == [] {
      FlattenedNone(cs);
    } else {
      var k := |front| - 1;
      FlattenedLevels(cs, front[..k]);
      FlattenedNext(cs, front, k);
    }
  }

  /** The levels hold every worker exactly once. */
  lemma LevellingPartitions(cs: seq<Config>, levels: seq<seq<Config>>)
    requires UniqueIds(cs) && IsLevelling(cs, levels)
    ensures multiset(Flatten(levels)) == multiset(cs)
  {
    var n := |levels|;
    FlattenedLevels(cs, levels);
    SelectSize(cs, Settled(cs, n));
    assert Ids(cs) <= Settled(cs, n);
  }

  /**
    Each worker stands in the level numbered by its longest dependency chain: some chain of k
    edges starts at it, none is longer, and all its dependencies stand in lower levels.
   */
  lemma LevelMeaning(cs: seq<Config>, levels: seq<seq<Config>>, k: nat, c: Config)
    requires UniqueIds(cs) && IsLevelling(cs, levels) && k < |levels| && c in levels[k]
    ensures exists p :: Walk(cs, p) && p[0] == c.id && |p| == k + 1
    ensures forall p :: Walk(cs, p) && p[0] == c.id ==> |p| <= k + 1
    ensures forall d :: d in c.deps ==> exists j, e :: 0 <= j < k && e in levels[j] && e.id == d
  {
    SelectKeeps(cs, Settled(cs, k + 1) - Settled(cs, k));
    LevelIsLongestChain(cs, c.id, k);
    forall d | d in c.deps
      ensures exists j, e :: 0 <= j < k && e in levels[j] && e.id == d
    {
      var j, e := DependencyBelow(cs, levels, k, c, d);
    }
  }

  lemma DependencyBelow(cs: seq<Config>, levels: seq<seq<Config>>, k: nat, c: Config, d: string)
    returns (j: nat, e: Config)
    requires UniqueIds(cs) && IsLevelling(cs, levels) && k < |levels|
    requires c in cs && c.id in Settled(cs, k + 1) && d in c.deps
    ensures j < k && e in levels[j] && e.id == d
  {
    assert Edge(cs, c.id, d);
    StepDown(cs, c.id, d, k + 1);
    j := LevelExists(cs, d, k);
    e := MemberOfLevel(cs, d, j);
  }

  lemma MemberOfLevel(cs: seq<Config>, w: string, k: nat) returns (c: Config)
    requires HasLevel(cs, w, k)
    ensures c in Level(cs, k) && c.id == w
  {
    SettledWithinIds(cs, k + 1);
    SelectKeeps(cs, Settled(cs, k + 1) - Settled(cs, k));
    c :| c in cs && c.id == w;
  }

  /**
    The queue order is the flattened levels up to reordering inside a level: for every k, the
    workers of level k occupy the same stretch of positions in both.
   */
  lemma OrderFollowsLevels(cs: seq<Config>, order: seq<Config>, levels: seq<seq<Config>>, k: nat)
    requires UniqueIds(cs) && IsOrder(cs, order) && IsLevelling(cs, levels) && k <= |levels|
    ensures multiset(order) == multiset(Flatten(levels))
    ensures |Flatten(levels[..k])| <= |order|
    ensures multiset(order[..|Flatten(levels[..k])|]) == multiset(Flatten(levels[..k]))
  {
    LevellingPartitions(cs, levels);
    FlattenedLevels(cs, levels[..k]);
    RisingSplits(cs, order, levels, k);
    SameSize(Flatten(levels[..k]), Select(cs, Settled(cs, k)));
  }

  lemma SameSize(a: seq<Config>, b: seq<Config>)
    requires multiset(a) == multiset(b)
    ensures |a| == |b|
  {
    assert |a| == |multiset(a)| && |b| == |multiset(b)|;
  }

  lemma PermutationIds(cs: seq<Config>, order: seq<Config>)
    requires UniqueIds(cs) && multiset(order) == multiset(cs)
    ensures UniqueIds(order) && forall c :: c in order <==> c in cs
  {
    forall c
      ensures c in order <==> c in cs
    {
      assert c in order <==> c in multiset(order);
      assert c in cs <==> c in multiset(cs);
    }
    forall i, j | 0 <= i < j < |order|
      ensures order[i].id != order[j].id
    {
      if order[i].id == order[j].id {
        assert order[i] in cs && order[j] in cs && order[i] == order[j];
        TwiceCounts(order, i, j);
        UniqueMultiplicity(cs, order[i]);
      }
    }
  }

  lemma TwiceCounts(s: seq<Config>, i: nat, j: nat)
    requires i < j < |s| && s[i] == s[j]
    ensures multiset(s)[s[i]] >= 2
  {
    assert s == s[..j] + [s[j]] + s[j + 1..];
    assert s[i] in s[..j];
  }

  /** A list rising by level has the workers settled by round k as a prefix. */
  lemma RisingSplits(cs: seq<Config>, order: seq<Config>, levels: seq<seq<Config>>, k: nat)
    requires UniqueIds(cs) && IsOrder(cs, order) && IsLevelling(cs, levels) && k <= |levels|
    ensures var m := |Select(cs, Settled(cs, k))|;
            m <= |order| && multiset(order[..m]) == multiset(Select(cs, Settled(cs, k)))
  {
    PermutationIds(cs, order);
    var s := Settled(cs, k);
    var m := 0;
    while m < |order| && order[m].id in s
      invariant 0 <= m <= |order| && forall i :: 0 <= i < m ==> order[i].id in s
    {
      m := m + 1;
    }
    forall i | m <= i < |order|
      ensures order[i].id !in s
    {
      if i > m && order[i].id in s {
        assert order[m] in cs && order[m].id in Settled(cs, |levels|);
        var a := LevelExists(cs, order[m].id, |levels|);
        var b := LevelExists(cs, order[i].id, k);
        assert a <= b;
        SettledGrows(cs, a + 1, k);
      }
    }
    PrefixIsSelect(cs, order, s, m);
  }

  lemma PrefixIsSelect(cs: seq<Config>, order: seq<Config>, s: set<string>, m: nat)
    requires UniqueIds(cs) && UniqueIds(order) && (forall c :: c in order <==> c in cs) && m <= |order|
    requires forall i :: 0 <= i < |order| ==> (order[i].id in s <==> i < m)
    ensures |Select(cs, s)| == m && multiset(order[..m]) == multiset(Select(cs, s))
  {
    SelectKeeps(cs, s);
    SelectUnique(cs, s);
    forall c
      ensures c in order[..m] <==> c in Select(cs, s)
    {
      if c in Select(cs, s) {
        var i :| 0 <= i < |order| && order[i] == c;
        assert order[..m][i] == c;
      }
    }
    SameConfigsPermute(order[..m], Select(cs, s));
    assert |multiset(order[..m])| == |multiset(Select(cs, s))|;
  }
}
