/**
  Which graphs can be scheduled, which error answers the others, and what it means for the
  walks of the graph; also selections and permutations of uniquely named configs.
 */
module Schedulability {
  import opened WorkerGraph

  // ----- selections -----

  function Select(cs: seq<Config>, ids: set<string>): seq<Config> {
    if cs == [] then []
    else Select(cs[..|cs| - 1], ids) + (if cs[|cs| - 1].id in ids then [cs[|cs| - 1]] else [])
  }

  lemma {:induction false} SelectKeeps(cs: seq<Config>, ids: set<string>)
    ensures forall c :: c in Select(cs, ids) <==> c in cs && c.id in ids
  {
    if cs != [] {
      SelectKeeps(cs[..|cs| - 1], ids);
      assert cs == cs[..|cs| - 1] + [cs[|cs| - 1]];
    }
  }

  lemma {:induction false} SelectAgrees(cs: seq<Config>, s: set<string>, s': set<string>)
    requires forall c :: c in cs ==> (c.id in s <==> c.id in s')
    ensures Select(cs, s) == Select(cs, s')
  {
    if cs != [] {
      SelectAgrees(cs[..|cs| - 1], s, s');
    }
  }

  lemma SelectSnoc(cs: seq<Config>, c: Config, s: set<string>)
    ensures Select(cs + [c], s) == if c.id in s then Select(cs, s) + [c] else Select(cs, s)
  {
    assert (cs + [c])[..|cs|] == cs;
  }

  lemma {:induction false} SelectTwice(cs: seq<Config>, s: set<string>, t: set<string>)
    requires t <= s
    ensures Select(Select(cs, s), t) == Select(cs, t)
  {
    if cs != [] {
      var front, c := cs[..|cs| - 1], cs[|cs| - 1];
      assert cs == front + [c];
      SelectTwice(front, s, t);
      SelectSnoc(front, c, s);
      SelectSnoc(front, c, t);
      if c.id in s {
        SelectSnoc(Select(front, s), c, t);
      }
    }
  }

  lemma {:induction false} SelectUnique(cs: seq<Config>, s: set<string>)
    requires UniqueIds(cs)
    ensures UniqueIds(Select(cs, s))
  {
    if cs != [] {
      var front, c := cs[..|cs| - 1], cs[|cs| - 1];
      SelectUnique(front, s);
      SelectKeeps(front, s);
      forall f | f in front
        ensures f.id != c.id
      {
      }
    }
  }

  // ----- when a schedule must be refused -----

  ghost predicate Schedulable(cs: seq<Config>) {
    AllDepsKnown(cs) && Grounded(cs) == Ids(cs)
  }

  ghost predicate FirstUnknownAt(cs: seq<Config>, i: nat, j: nat) {
    && i < |cs| && j < |cs[i].deps|
    && cs[i].deps[j] !in Ids(cs)
    && (forall j' :: 0 <= j' < j ==> cs[i].deps[j'] in Ids(cs))
    && (forall i' :: 0 <= i' < i ==> DepsWithin(cs[i'], Ids(cs)))
  }

  /**
    The one error a scheduler may raise for cs: the first unknown reference in reading order,
    or else the workers that can never run, in the order given.
   */
  ghost predicate Rejects(cs: seq<Config>, e: ScheduleError) {
    match e
    case UnknownDependency(w, d) =>
      exists i: nat, j: nat :: FirstUnknownAt(cs, i, j) && cs[i].id == w && cs[i].deps[j] == d
    case CircularDependency(ws) =>
      AllDepsKnown(cs) && Grounded(cs) != Ids(cs) && ws == IdsOf(Select(cs, Ids(cs) - Grounded(cs)))
  }

  lemma UnknownBreaksSchedule(cs: seq<Config>, i: nat, j: nat)
    requires FirstUnknownAt(cs, i, j)
    ensures !DepsWithin(cs[i], Ids(cs)) && !AllDepsKnown(cs)
  {
    assert cs[i].deps[j] in cs[i].deps;
  }

  /** A refusal and a schedule exclude each other, and no graph has two refusals. */
  lemma RejectionIsUnique(cs: seq<Config>, e: ScheduleError, e': ScheduleError)
    requires Rejects(cs, e)
    ensures !Schedulable(cs)
    ensures Rejects(cs, e') ==> e == e'
  {
    if e.UnknownDependency? {
      var i: nat, j: nat :| FirstUnknownAt(cs, i, j) && cs[i].id == e.worker && cs[i].deps[j] == e.dep;
      UnknownBreaksSchedule(cs, i, j);
      if e'.UnknownDependency? && Rejects(cs, e') {
        var k: nat, l: nat :| FirstUnknownAt(cs, k, l) && cs[k].id == e'.worker && cs[k].deps[l] == e'.dep;
        UnknownBreaksSchedule(cs, k, l);
        assert i == k && j == l;
      }
    } else if e'.UnknownDependency? && Rejects(cs, e') {
      var k: nat, l: nat :| FirstUnknownAt(cs, k, l) && cs[k].id == e'.worker && cs[k].deps[l] == e'.dep;
      UnknownBreaksSchedule(cs, k, l);
    }
  }

  /** A graph can be scheduled exactly when every reference is known and no worker reaches a cycle. */
  lemma SchedulableIffAcyclic(cs: seq<Config>)
    requires UniqueIds(cs)
    ensures Schedulable(cs) <==> AllDepsKnown(cs) && forall w :: w in Ids(cs) ==> !ReachesCycle(cs, w)
  {
    SettledWithinIds(cs, |cs|);
    forall w | w in Ids(cs)
      ensures AllDepsKnown(cs) ==> (w in Grounded(cs) <==> !ReachesCycle(cs, w))
    {
      GroundedIff(cs, w);
      if AllDepsKnown(cs) {
        KnownNeverEscapes(cs, w);
      }
    }
  }

  lemma KnownNeverEscapes(cs: seq<Config>, w: string)
    requires AllDepsKnown(cs) && w in Ids(cs)
    ensures !ReachesUnknown(cs, w)
  {
    forall p | Walk(cs, p) && p[0] == w
      ensures p[|p| - 1] in Ids(cs)
    {
      if |p| > 1 {
        assert Edge(cs, p[|p| - 2], p[|p| - 2 + 1]);
      }
    }
  }

  /** A circularity error names exactly the workers that reach a cycle. */
  lemma CircularNamesCycleReachers(cs: seq<Config>, ws: seq<string>, w: string)
    requires UniqueIds(cs) && Rejects(cs, CircularDependency(ws))
    ensures w in ws <==> w in Ids(cs) && ReachesCycle(cs, w)
  {
    var bad := Ids(cs) - Grounded(cs);
    SelectKeeps(cs, bad);
    assert w in ws <==> w in bad by {
      var sel := Select(cs, bad);
      if w in bad {
        var c :| c in cs && c.id == w;
        var i :| 0 <= i < |sel| && sel[i] == c;
        assert ws[i] == w;
      }
      if w in ws {
        var i :| 0 <= i < |ws| && ws[i] == w;
        assert sel[i] in sel;
      }
    }
    if w in Ids(cs) {
      GroundedIff(cs, w);
      KnownNeverEscapes(cs, w);
    }
  }

  // ----- permutations of uniquely named configs -----

  lemma {:induction false} UniqueMultiplicity(cs: seq<Config>, c: Config)
    requires UniqueIds(cs)
    ensures multiset(cs)[c] == if c in cs then 1 else 0
  {
    if cs != [] {
      var front, last := cs[..|cs| - 1], cs[|cs| - 1];
      assert cs == front + [last];
      UniqueMultiplicity(front, c);
    }
  }

  lemma SameConfigsPermute(cs: seq<Config>, ds: seq<Config>)
    requires UniqueIds(cs) && UniqueIds(ds)
    requires forall c :: c in cs <==> c in ds
    ensures multiset(cs) == multiset(ds)
  {
    forall c
      ensures multiset(cs)[c] == multiset(ds)[c]
    {
      UniqueMultiplicity(cs, c);
      UniqueMultiplicity(ds, c);
    }
  }
}
