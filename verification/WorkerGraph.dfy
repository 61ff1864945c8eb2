/**
  The `depends_on` graph shared by the three schedulers, with two independent readings of it:

  - `Settled(cs, k)`, the workers that k simultaneous rounds of "run everything whose
    dependencies have run" would have run;
  - walks along dependency edges, from which cycles, unknown references and chain lengths
    are defined.

  The lemmas at the end tie the two readings together; the schedulers are specified by the
  first and inherit the second.
 */
module WorkerGraph {

  datatype Config = Config(id: string, deps: seq<string>)

  /** How a worker's result is marked. */
  datatype Signal = SUCCESS | FAILED | HALTED

  datatype ScheduleError =
    | UnknownDependency(worker: string, dep: string)
    | CircularDependency(workers: seq<string>)

  datatype Result<+T> = Ok(value: T) | Err(error: ScheduleError)

  predicate UniqueIds(cs: seq<Config>) {
    forall i, j :: 0 <= i < j < |cs| ==> cs[i].id != cs[j].id
  }

  function Ids(cs: seq<Config>): set<string> {
    set c | c in cs :: c.id
  }

  function IdsOf(cs: seq<Config>): (ids: seq<string>)
    ensures |ids| == |cs|
    ensures forall i :: 0 <= i < |cs| ==> ids[i] == cs[i].id
  {
    seq(|cs|, i requires 0 <= i < |cs| => cs[i].id)
  }

  predicate DepsWithin(c: Config, placed: set<string>) {
    forall d :: d in c.deps ==> d in placed
  }

  predicate AllDepsKnown(cs: seq<Config>) {
    forall c :: c in cs ==> DepsWithin(c, Ids(cs))
  }

  /** The workers whose dependencies all lie in s. */
  ghost function Ready(cs: seq<Config>, s: set<string>): set<string> {
    if cs == [] then {}
    else Ready(cs[..|cs| - 1], s) + if DepsWithin(cs[|cs| - 1], s) then {cs[|cs| - 1].id} else {}
  }

  ghost function Settled(cs: seq<Config>, k: nat): set<string> {
    if k == 0 then {} else Ready(cs, Settled(cs, k - 1))
  }

  /** The workers that some number of rounds settles (`SettlesByCount` shows |cs| rounds do). */
  ghost function Grounded(cs: seq<Config>): set<string> {
    Settled(cs, |cs|)
  }

  ghost predicate HasLevel(cs: seq<Config>, w: string, k: nat) {
    w in Settled(cs, k + 1) && w !in Settled(cs, k)
  }

  // ----- walks -----

  ghost predicate Edge(cs: seq<Config>, a: string, b: string) {
    exists c :: c in cs && c.id == a && b in c.deps
  }

  /** p follows dependency edges: each entry depends on the next one. */
  ghost predicate Walk(cs: seq<Config>, p: seq<string>) {
    |p| >= 1 && forall i :: 0 <= i < |p| - 1 ==> Edge(cs, p[i], p[i + 1])
  }

  ghost predicate Repeats(p: seq<string>) {
    exists i, j :: 0 <= i < j < |p| && p[i] == p[j]
  }

  ghost predicate ReachesCycle(cs: seq<Config>, w: string) {
    exists p :: Walk(cs, p) && p[0] == w && Repeats(p)
  }

  ghost predicate ReachesUnknown(cs: seq<Config>, w: string) {
    exists p :: Walk(cs, p) && p[0] == w && p[|p| - 1] !in Ids(cs)
  }

  // ----- facts about Settled -----

  lemma {:induction false} ReadyElim(cs: seq<Config>, s: set<string>, w: string) returns (c: Config)
    requires w in Ready(cs, s)
    ensures c in cs && c.id == w && DepsWithin(c, s)
  {
    var last := cs[|cs| - 1];
    if last.id == w && DepsWithin(last, s) {
      c := last;
    } else {
      c := ReadyElim(cs[..|cs| - 1], s, w);
    }
  }

  lemma {:induction false} ReadyIntro(cs: seq<Config>, s: set<string>, c: Config)
    requires c in cs && DepsWithin(c, s)
    ensures c.id in Ready(cs, s)
  {
    if c != cs[|cs| - 1] {
      ReadyIntro(cs[..|cs| - 1], s, c);
    }
  }

  lemma SettledWithinIds(cs: seq<Config>, k: nat)
    ensures Settled(cs, k) <= Ids(cs)
  {
    forall w | w in Settled(cs, k)
      ensures w in Ids(cs)
    {
      var c := ReadyElim(cs, Settled(cs, k - 1), w);
    }
  }

  lemma {:induction false} SettledGrows(cs: seq<Config>, j: nat, k: nat)
    requires j <= k
    ensures Settled(cs, j) <= Settled(cs, k)
    decreases k
  {
    if j != k && j != 0 {
      SettledGrows(cs, j - 1, k - 1);
      forall w | w in Settled(cs, j)
        ensures w in Settled(cs, k)
      {
        var c := ReadyElim(cs, Settled(cs, j - 1), w);
        ReadyIntro(cs, Settled(cs, k - 1), c);
      }
    }
  }

  lemma SettledIntro(cs: seq<Config>, c: Config, k: nat)
    requires c in cs && DepsWithin(c, Settled(cs, k))
    ensures c.id in Settled(cs, k + 1)
  {
    ReadyIntro(cs, Settled(cs, k), c);
  }

  /** What settles in round k + 1 has its dependencies settled by round k. */
  lemma SettledElim(cs: seq<Config>, c: Config, k: nat)
    requires UniqueIds(cs) && c in cs && c.id in Settled(cs, k + 1)
    ensures DepsWithin(c, Settled(cs, k))
  {
    var c' := ReadyElim(cs, Settled(cs, k), c.id);
    assert c' == c;
  }

  /** One step down an edge costs one round. */
  lemma StepDown(cs: seq<Config>, a: string, b: string, k: nat)
    requires UniqueIds(cs)
    requires Edge(cs, a, b) && a in Settled(cs, k)
    ensures k >= 1 && b in Settled(cs, k - 1)
  {
    var c :| c in cs && c.id == a && b in c.deps;
    SettledElim(cs, c, k - 1);
  }

  /** Walking i edges from a worker settled by round k costs i rounds. */
  lemma {:induction false} WalkDown(cs: seq<Config>, p: seq<string>, k: nat, i: nat)
    requires UniqueIds(cs)
    requires Walk(cs, p) && p[0] in Settled(cs, k) && i < |p|
    ensures i < k && p[i] in Settled(cs, k - i)
    decreases i
  {
    if i > 0 {
      WalkDown(cs, p, k, i - 1);
      assert Edge(cs, p[i - 1], p[i - 1 + 1]);
      StepDown(cs, p[i - 1], p[i], k - (i - 1));
    }
  }

  /** The first round that settles w. */
  lemma {:induction false} LevelExists(cs: seq<Config>, w: string, k: nat) returns (l: nat)
    requires w in Settled(cs, k)
    ensures l < k && HasLevel(cs, w, l)
    decreases k
  {
    if w in Settled(cs, k - 1) {
      l := LevelExists(cs, w, k - 1);
    } else {
      l := k - 1;
    }
  }

  lemma SettledOnceLevelled(cs: seq<Config>, w: string, l: nat, k: nat)
    requires HasLevel(cs, w, l) && l < k
    ensures w in Settled(cs, k)
  {
    SettledGrows(cs, l + 1, k);
  }

  lemma LevelUnique(cs: seq<Config>, w: string, k: nat, l: nat)
    requires HasLevel(cs, w, k) && HasLevel(cs, w, l)
    ensures k == l
  {
    if k < l {
      SettledGrows(cs, k + 1, l);
    } else if l < k {
      SettledGrows(cs, l + 1, k);
    }
  }

  /** A worker sits one level above a dependency that none of its others exceeds. */
  lemma OneAbove(cs: seq<Config>, c: Config, d: string, l: nat)
    requires UniqueIds(cs) && c in cs && d in c.deps
    requires HasLevel(cs, d, l) && DepsWithin(c, Settled(cs, l + 1))
    ensures HasLevel(cs, c.id, l + 1)
  {
    SettledIntro(cs, c, l + 1);
    if c.id in Settled(cs, l + 1) {
      SettledElim(cs, c, l);
    }
  }

  /** A settled worker cannot walk back onto itself. */
  lemma SettledNeverRepeats(cs: seq<Config>, p: seq<string>, k: nat)
    requires UniqueIds(cs)
    requires Walk(cs, p) && p[0] in Settled(cs, k)
    ensures !Repeats(p)
    ensures forall i :: 0 <= i < |p| ==> p[i] in Ids(cs)
  {
    forall i | 0 <= i < |p|
      ensures p[i] in Ids(cs)
    {
      WalkDown(cs, p, k, i);
      SettledWithinIds(cs, k - i);
    }
    if i, j :| 0 <= i < j < |p| && p[i] == p[j] {
      WalkDown(cs, p, k, i);
      var l := LevelExists(cs, p[i], k - i);
      var q := p[i..];
      assert Walk(cs, q) by {
        forall m | 0 <= m < |q| - 1
          ensures Edge(cs, q[m], q[m + 1])
        {
          assert Edge(cs, p[i + m], p[i + m + 1]);
        }
      }
      WalkDown(cs, q, l + 1, j - i);
      SettledGrows(cs, l + 1 - (j - i), l);
    }
  }

  /** A worker that k rounds leave unsettled starts a walk of k edges, or one that leaves the graph. */
  lemma {:induction false} UnsettledWalks(cs: seq<Config>, w: string, k: nat) returns (p: seq<string>)
    requires w in Ids(cs) && w !in Settled(cs, k)
    ensures Walk(cs, p) && p[0] == w
    ensures |p| == k + 1 || p[|p| - 1] !in Ids(cs)
    decreases k
  {
    if k == 0 {
      p := [w];
    } else {
      var c :| c in cs && c.id == w;
      if DepsWithin(c, Settled(cs, k - 1)) {
        SettledIntro(cs, c, k - 1);
      }
      var d :| d in c.deps && d !in Settled(cs, k - 1);
      assert Edge(cs, w, d);
      if d in Ids(cs) {
        var q := UnsettledWalks(cs, d, k - 1);
        p := [w] + q;
        forall i | 0 <= i < |p| - 1
          ensures Edge(cs, p[i], p[i + 1])
        {
          if i > 0 {
            assert Edge(cs, q[i - 1], q[i - 1 + 1]);
          }
        }
      } else {
        p := [w, d];
      }
    }
  }

  // ----- a pigeonhole for walks -----

  function Elements(p: seq<string>): set<string> {
    set x | x in p
  }

  lemma {:induction false} DistinctFits(p: seq<string>, s: set<string>)
    requires !Repeats(p)
    requires forall i :: 0 <= i < |p| ==> p[i] in s
    ensures |p| <= |s|
    decreases |p|
  {
    if |p| > 0 {
      var x, q := p[|p| - 1], p[..|p| - 1];
      forall i | 0 <= i < |q|
        ensures q[i] in s - {x}
      {
        assert p[i] != p[|p| - 1];
      }
      assert !Repeats(q) by {
        forall i, j | 0 <= i < j < |q|
          ensures q[i] != q[j]
        {
          assert p[i] != p[j];
        }
      }
      DistinctFits(q, s - {x});
      assert p[|p| - 1] in s;
    }
  }

  lemma {:induction false} IdsFit(cs: seq<Config>)
    ensures |Ids(cs)| <= |cs|
    ensures UniqueIds(cs) ==> |Ids(cs)| == |cs|
  {
    if cs != [] {
      var n := |cs| - 1;
      IdsFit(cs[..n]);
      assert cs == cs[..n] + [cs[n]];
      assert Ids(cs) == Ids(cs[..n]) + {cs[n].id};
    } else {
      assert Ids(cs) == {};
    }
  }

  // ----- the two readings agree -----

  /**
    The level of a worker is the number of edges on its longest dependency chain: some walk
    has that many, and no walk has more.
   */
  lemma LevelIsLongestChain(cs: seq<Config>, w: string, k: nat)
    requires UniqueIds(cs) && HasLevel(cs, w, k)
    ensures exists p :: Walk(cs, p) && p[0] == w && |p| == k + 1
    ensures forall p :: Walk(cs, p) && p[0] == w ==> |p| <= k + 1
  {
    SettledWithinIds(cs, k + 1);
    var p := UnsettledWalks(cs, w, k);
    SettledNeverRepeats(cs, p, k + 1);
    assert Walk(cs, p) && p[0] == w && |p| == k + 1;
    forall q | Walk(cs, q) && q[0] == w
      ensures |q| <= k + 1
    {
      WalkDown(cs, q, k + 1, |q| - 1);
    }
  }

  /** |cs| rounds settle everything that any number of rounds settles. */
  lemma SettlesByCount(cs: seq<Config>, k: nat)
    requires UniqueIds(cs)
    ensures Settled(cs, k) <= Grounded(cs)
  {
    forall w | w in Settled(cs, k)
      ensures w in Grounded(cs)
    {
      var l := LevelExists(cs, w, k);
      SettledWithinIds(cs, l + 1);
      var p := UnsettledWalks(cs, w, l);
      SettledNeverRepeats(cs, p, l + 1);
      DistinctFits(p, Ids(cs));
      IdsFit(cs);
      SettledGrows(cs, l + 1, |cs|);
    }
  }

  lemma LevelledIsGrounded(cs: seq<Config>, w: string, l: nat)
    requires UniqueIds(cs) && HasLevel(cs, w, l)
    ensures w in Grounded(cs)
  {
    SettlesByCount(cs, l + 1);
  }

  /** Exactly the workers that reach neither a cycle nor an unknown id ever settle. */
  lemma GroundedIff(cs: seq<Config>, w: string)
    requires UniqueIds(cs) && w in Ids(cs)
    ensures w in Grounded(cs) <==> !ReachesCycle(cs, w) && !ReachesUnknown(cs, w)
  {
    if w in Grounded(cs) {
      forall p | Walk(cs, p) && p[0] == w
        ensures !Repeats(p) && p[|p| - 1] in Ids(cs)
      {
        SettledNeverRepeats(cs, p, |cs|);
      }
    } else {
      var p := UnsettledWalks(cs, w, |cs|);
      if p[|p| - 1] in Ids(cs) && !Repeats(p) {
        forall i | 0 <= i < |p|
          ensures p[i] in Ids(cs)
        {
          if i < |p| - 1 {
            assert Edge(cs, p[i], p[i + 1]);
          }
        }
        DistinctFits(p, Ids(cs));
        IdsFit(cs);
      }
    }
  }

  /** A set that contains every worker whose dependencies it contains has all grounded workers. */
  lemma {:induction false} ClosedContainsSettled(cs: seq<Config>, s: set<string>, k: nat)
    requires forall c :: c in cs && DepsWithin(c, s) ==> c.id in s
    ensures Settled(cs, k) <= s
  {
    if k > 0 {
      ClosedContainsSettled(cs, s, k - 1);
      forall w | w in Settled(cs, k)
        ensures w in s
      {
        var c := ReadyElim(cs, Settled(cs, k - 1), w);
      }
    }
  }
}
