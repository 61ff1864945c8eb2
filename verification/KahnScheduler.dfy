/**
  First-in-first-out topological sort for the sequential patterns: in-degrees and child
  lists (both counting repeated dependency entries), a queue of workers whose in-degree
  has reached zero, and a cycle report when the queue dries up early.
 */
module KahnScheduler {
  import opened Wrappers
  import opened WorkerGraph
  import opened Schedulability

  // ----- counting dependency entries -----

  /** How many entries of deps are not in done. */
  ghost function Pending(deps: seq<string>, done: set<string>): nat {
    if deps == [] then 0
    else Pending(deps[..|deps| - 1], done) + if deps[|deps| - 1] in done then 0 else 1
  }

  lemma {:induction false} PendingZero(deps: seq<string>, done: set<string>)
    ensures Pending(deps, done) == 0 <==> forall d :: d in deps ==> d in done
  {
    if deps != [] {
      var front, d := deps[..|deps| - 1], deps[|deps| - 1];
      assert deps == front + [d];
      PendingZero(front, done);
    }
  }

  lemma {:induction false} PendingAll(deps: seq<string>)
    ensures Pending(deps, {}) == |deps|
  {
    if deps != [] {
      PendingAll(deps[..|deps| - 1]);
    }
  }

  /** Finishing x releases exactly its entries. */
  lemma {:induction false} PendingAfter(deps: seq<string>, done: set<string>, x: string)
    requires x !in done
    ensures Pending(deps, done) == Pending(deps, done + {x}) + multiset(deps)[x]
  {
    if deps != [] {
      var front, d := deps[..|deps| - 1], deps[|deps| - 1];
      assert deps == front + [d];
      PendingAfter(front, done, x);
    }
  }

  // ----- building in-degrees and child lists -----

  /** The entries of cs[m] already indexed when the loops stand at config i, entry j. */
  ghost function Indexed(cs: seq<Config>, i: nat, j: nat, m: nat): seq<string>
    requires m < |cs| && i <= |cs| && (i < |cs| ==> j <= |cs[i].deps|)
  {
    if m < i then cs[m].deps else if m == i then cs[i].deps[..j] else []
  }

  ghost predicate DegreeRight(cs: seq<Config>, i: nat, j: nat, m: nat, inDegree: map<string, nat>)
    requires m < |cs| && i <= |cs| && (i < |cs| ==> j <= |cs[i].deps|)
  {
    cs[m].id in inDegree && inDegree[cs[m].id] == |Indexed(cs, i, j, m)|
  }

  ghost predicate ChildrenRight(cs: seq<Config>, i: nat, j: nat, m: nat, children: map<string, seq<string>>)
    requires m < |cs| && i <= |cs| && (i < |cs| ==> j <= |cs[i].deps|)
  {
    forall d :: d in children ==> multiset(children[d])[cs[m].id] == multiset(Indexed(cs, i, j, m))[d]
  }

  ghost predicate IndexedUpTo(cs: seq<Config>, i: nat, j: nat, inDegree: map<string, nat>, children: map<string, seq<string>>)
    requires i <= |cs| && (i < |cs| ==> j <= |cs[i].deps|)
  {
    && (forall m :: 0 <= m < |cs| ==> DegreeRight(cs, i, j, m, inDegree))
    && (forall m :: 0 <= m < |cs| ==> ChildrenRight(cs, i, j, m, children))
  }

  ghost predicate KeysRight(known: set<string>, inDegree: map<string, nat>, children: map<string, seq<string>>) {
    && inDegree.Keys == children.Keys == known
    && forall d :: d in children ==> AllIn(children[d], known)
  }

  ghost predicate AllIn(s: seq<string>, ids: set<string>) {
    forall x :: x in s ==> x in ids
  }

  lemma DegreeOneMore(cs: seq<Config>, i: nat, j: nat, m: nat, inDegree: map<string, nat>)
    requires UniqueIds(cs) && i < |cs| && j < |cs[i].deps| && m < |cs|
    requires DegreeRight(cs, i, j, m, inDegree) && cs[i].id in inDegree
    ensures DegreeRight(cs, i, j + 1, m, inDegree[cs[i].id := inDegree[cs[i].id] + 1])
  {
  }

  lemma CountSnoc(s: seq<string>, x: string, y: string)
    ensures multiset(s + [x])[y] == multiset(s)[y] + if x == y then 1 else 0
  {
  }

  lemma ChildrenOneMore(cs: seq<Config>, i: nat, j: nat, m: nat, children: map<string, seq<string>>)
    requires UniqueIds(cs) && i < |cs| && j < |cs[i].deps| && m < |cs|
    requires ChildrenRight(cs, i, j, m, children) && cs[i].deps[j] in children
    ensures ChildrenRight(cs, i, j + 1, m, children[cs[i].deps[j] := children[cs[i].deps[j]] + [cs[i].id]])
  {
    var dep, id, target := cs[i].deps[j], cs[i].id, cs[m].id;
    var children' := children[dep := children[dep] + [id]];
    assert m != i ==> target != id;
    assert cs[i].deps[..j + 1] == cs[i].deps[..j] + [dep];
    forall d | d in children'
      ensures multiset(children'[d])[target] == multiset(Indexed(cs, i, j + 1, m))[d]
    {
      CountSnoc(children[dep], id, target);
      CountSnoc(cs[i].deps[..j], dep, d);
    }
  }

  lemma IndexOneMore(cs: seq<Config>, i: nat, j: nat, inDegree: map<string, nat>, children: map<string, seq<string>>)
    requires UniqueIds(cs) && i < |cs| && j < |cs[i].deps|
    requires IndexedUpTo(cs, i, j, inDegree, children) && cs[i].deps[j] in children && cs[i].id in inDegree
    ensures IndexedUpTo(cs, i, j + 1, inDegree[cs[i].id := inDegree[cs[i].id] + 1],
                        children[cs[i].deps[j] := children[cs[i].deps[j]] + [cs[i].id]])
  {
    var j' := j + 1;
    var inDegree' := inDegree[cs[i].id := inDegree[cs[i].id] + 1];
    var children' := children[cs[i].deps[j] := children[cs[i].deps[j]] + [cs[i].id]];
    forall m | 0 <= m < |cs|
      ensures DegreeRight(cs, i, j', m, inDegree') && ChildrenRight(cs, i, j', m, children')
    {
      assert DegreeRight(cs, i, j, m, inDegree) && ChildrenRight(cs, i, j, m, children);
      DegreeOneMore(cs, i, j, m, inDegree);
      ChildrenOneMore(cs, i, j, m, children);
    }
  }

  lemma KeysOneMore(known: set<string>, inDegree: map<string, nat>, children: map<string, seq<string>>, id: string, d: string)
    requires KeysRight(known, inDegree, children) && id in known && d in known
    ensures KeysRight(known, inDegree[id := inDegree[id] + 1], children[d := children[d] + [id]])
  {
  }

  lemma NextConfig(cs: seq<Config>, i: nat, inDegree: map<string, nat>, children: map<string, seq<string>>)
    requires i < |cs| && IndexedUpTo(cs, i, |cs[i].deps|, inDegree, children)
    ensures IndexedUpTo(cs, i + 1, 0, inDegree, children)
  {
    var i' := i + 1;
    forall m | 0 <= m < |cs|
      ensures DegreeRight(cs, i', 0, m, inDegree) && ChildrenRight(cs, i', 0, m, children)
    {
      assert DegreeRight(cs, i, |cs[i].deps|, m, inDegree) && ChildrenRight(cs, i, |cs[i].deps|, m, children);
      assert Indexed(cs, i', 0, m) == Indexed(cs, i, |cs[i].deps|, m);
    }
  }

  /** Index one config's entries, up to its first unknown one if it has any. */
  method IndexConfig(cs: seq<Config>, known: set<string>, i: nat,
                     inDegree0: map<string, nat>, children0: map<string, seq<string>>)
    returns (inDegree: map<string, nat>, children: map<string, seq<string>>, unknown: Option<nat>)
    requires UniqueIds(cs) && i < |cs| && cs[i].id in known
    requires IndexedUpTo(cs, i, 0, inDegree0, children0) && KeysRight(known, inDegree0, children0)
    ensures KeysRight(known, inDegree, children)
    ensures unknown == None ==> IndexedUpTo(cs, i, |cs[i].deps|, inDegree, children) && DepsWithin(cs[i], known)
    ensures unknown.Some? ==> unknown.value < |cs[i].deps| && cs[i].deps[unknown.value] !in known
                              && forall j' :: 0 <= j' < unknown.value ==> cs[i].deps[j'] in known
  {
    inDegree, children := inDegree0, children0;
    var c := cs[i];
    for j := 0 to |c.deps|
      invariant IndexedUpTo(cs, i, j, inDegree, children)
      invariant KeysRight(known, inDegree, children)
      invariant forall j' :: 0 <= j' < j ==> c.deps[j'] in known
    {
      var dep := c.deps[j];
      if dep !in known {
        return inDegree, children, Some(j);
      }
      IndexOneMore(cs, i, j, inDegree, children);
      KeysOneMore(known, inDegree, children, c.id, dep);
      children := children[dep := children[dep] + [c.id]];
      inDegree := inDegree[c.id := inDegree[c.id] + 1];
    }
    return inDegree, children, None;
  }

  /** Index every config, up to the first unknown entry if there is one. */
  method BuildIndex(cs: seq<Config>, known: set<string>)
    returns (inDegree: map<string, nat>, children: map<string, seq<string>>, unknown: Option<(nat, nat)>)
    requires UniqueIds(cs) && forall i :: 0 <= i < |cs| ==> cs[i].id in known
    ensures KeysRight(known, inDegree, children)
    ensures unknown == None ==> IndexedUpTo(cs, |cs|, 0, inDegree, children)
    ensures unknown == None ==> forall i :: 0 <= i < |cs| ==> DepsWithin(cs[i], known)
    ensures unknown.Some? ==>
              var (i, j) := unknown.value;
              && i < |cs| && j < |cs[i].deps| && cs[i].deps[j] !in known
              && (forall j' :: 0 <= j' < j ==> cs[i].deps[j'] in known)
              && (forall i' :: 0 <= i' < i ==> DepsWithin(cs[i'], known))
  {
    inDegree := map id | id in known :: 0;
    children := map id | id in known :: [];
    for i := 0 to |cs|
      invariant IndexedUpTo(cs, i, 0, inDegree, children)
      invariant KeysRight(known, inDegree, children)
      invariant forall i' :: 0 <= i' < i ==> DepsWithin(cs[i'], known)
    {
      var bad;
      inDegree, children, bad := IndexConfig(cs, known, i, inDegree, children);
      if bad.Some? {
        return inDegree, children, Some((i, bad.value));
      }
      NextConfig(cs, i, inDegree, children);
    }
    return inDegree, children, None;
  }

  // ----- draining the queue -----

  /** Decrement the in-degree of each child entry; the children that reach zero are freed. */
  method Release(kids: seq<string>, inDegree0: map<string, nat>) returns (inDegree: map<string, nat>, freed: seq<string>)
    requires forall x :: x in kids ==> x in inDegree0 && multiset(kids)[x] <= inDegree0[x]
    ensures inDegree.Keys == inDegree0.Keys
    ensures forall x :: x in inDegree ==> inDegree[x] + multiset(kids)[x] == inDegree0[x]
    ensures !Repeats(freed)
    ensures forall x :: x in freed <==> x in kids && x in inDegree && inDegree[x] == 0
  {
    inDegree, freed := inDegree0, [];
    for i := 0 to |kids|
      invariant inDegree.Keys == inDegree0.Keys
      invariant forall x :: x in inDegree ==> inDegree[x] + multiset(kids[..i])[x] == inDegree0[x]
      invariant !Repeats(freed)
      invariant forall x :: x in freed <==> x in kids[..i] && x in inDegree && inDegree[x] == 0
    {
      var child := kids[i];
      EntriesLeft(kids, i);
      inDegree := inDegree[child := inDegree[child] - 1];
      if inDegree[child] == 0 {
        RepeatsSnoc(freed, child);
        freed := freed + [child];
      }
    }
    assert kids[..|kids|] == kids;
  }

  lemma EntriesLeft(kids: seq<string>, i: nat)
    requires i < |kids|
    ensures kids[..i + 1] == kids[..i] + [kids[i]]
    ensures multiset(kids[..i + 1]) == multiset(kids[..i]) + multiset{kids[i]}
    ensures multiset(kids[..i + 1])[kids[i]] <= multiset(kids)[kids[i]]
  {
    assert kids == kids[..i + 1] + kids[i + 1..];
    assert kids[..i + 1] == kids[..i] + [kids[i]];
  }

  lemma RepeatsSnoc(s: seq<string>, x: string)
    requires !Repeats(s) && x !in s
    ensures !Repeats(s + [x])
  {
  }

  lemma RepeatsConcat(s: seq<string>, t: seq<string>)
    requires !Repeats(s) && !Repeats(t) && forall x :: x in t ==> x !in s
    ensures !Repeats(s + t)
  {
    forall i, j | 0 <= i < j < |s + t|
      ensures (s + t)[i] != (s + t)[j]
    {
      if i < |s| <= j {
        assert t[j - |s|] in t;
      } else if |s| <= i {
        assert t[i - |s|] != t[j - |s|];
      }
    }
  }

  ghost predicate Degrees(cs: seq<Config>, inDegree: map<string, nat>, done: set<string>) {
    forall c :: c in cs ==> c.id in inDegree && inDegree[c.id] == Pending(c.deps, done)
  }

  /** The workers found so far are exactly those whose dependencies are all done. */
  ghost predicate Discovered(cs: seq<Config>, found: seq<string>, done: set<string>) {
    && !Repeats(found)
    && (forall x :: x in found ==> x in Ids(cs))
    && (forall c :: c in cs ==> (c.id in found <==> DepsWithin(c, done)))
  }

  /** Levels never fall along found, and from position p on they differ by at most one. */
  ghost predicate LevelsRise(cs: seq<Config>, found: seq<string>, levels: seq<nat>, p: nat) {
    && |found| == |levels| && p <= |levels|
    && (forall i {:trigger HasLevel(cs, found[i], levels[i])} :: 0 <= i < |levels| ==> HasLevel(cs, found[i], levels[i]))
    && (forall i, j :: 0 <= i < j < |levels| ==> levels[i] <= levels[j])
    && (forall i :: p <= i < |levels| ==> levels[i] <= levels[p] + 1)
  }

  ghost predicate DepsFirst(cs: seq<Config>, done: seq<string>) {
    forall i, c :: 0 <= i < |done| && c in cs && c.id == done[i] ==> DepsWithin(c, Elements(done[..i]))
  }

  lemma StepDegrees(cs: seq<Config>, inDegree: map<string, nat>, inDegree': map<string, nat>, done: set<string>,
                    node: string, kids: seq<string>)
    requires Degrees(cs, inDegree, done) && node !in done && inDegree'.Keys == inDegree.Keys
    requires forall c :: c in cs ==> multiset(kids)[c.id] == multiset(c.deps)[node]
    requires forall x :: x in inDegree' ==> inDegree'[x] + multiset(kids)[x] == inDegree[x]
    ensures Degrees(cs, inDegree', done + {node})
  {
    forall c | c in cs
      ensures c.id in inDegree' && inDegree'[c.id] == Pending(c.deps, done + {node})
    {
      PendingAfter(c.deps, done, node);
    }
  }

  lemma KidsHaveRoom(cs: seq<Config>, inDegree: map<string, nat>, done: set<string>, node: string, kids: seq<string>)
    requires Degrees(cs, inDegree, done) && node !in done && AllIn(kids, Ids(cs))
    requires forall c :: c in cs ==> multiset(kids)[c.id] == multiset(c.deps)[node]
    ensures forall x :: x in kids ==> x in inDegree && multiset(kids)[x] <= inDegree[x]
  {
    forall x | x in kids
      ensures x in inDegree && multiset(kids)[x] <= inDegree[x]
    {
      var c :| c in cs && c.id == x;
      PendingAfter(c.deps, done, node);
    }
  }

  lemma StepDiscovered(cs: seq<Config>, found: seq<string>, done: set<string>, inDegree': map<string, nat>,
                       node: string, kids: seq<string>, freed: seq<string>)
    requires UniqueIds(cs) && Discovered(cs, found, done) && node !in done
    requires AllIn(kids, Ids(cs)) && Degrees(cs, inDegree', done + {node})
    requires forall c :: c in cs ==> multiset(kids)[c.id] == multiset(c.deps)[node]
    requires !Repeats(freed)
    requires forall x :: x in freed <==> x in kids && x in inDegree' && inDegree'[x] == 0
    ensures Discovered(cs, found + freed, done + {node})
    ensures forall c :: c in cs && c.id in freed ==> node in c.deps && DepsWithin(c, done + {node})
  {
    forall c | c in cs
      ensures c.id in freed <==> node in c.deps && DepsWithin(c, done + {node})
    {
      PendingZero(c.deps, done + {node});
    }
    forall x | x in freed
      ensures x in Ids(cs) && x !in found
    {
      var c :| c in cs && c.id == x;
    }
    RepeatsConcat(found, freed);
    forall c | c in cs
      ensures c.id in found + freed <==> DepsWithin(c, done + {node})
    {
      if DepsWithin(c, done + {node}) && node !in c.deps {
        assert DepsWithin(c, done);
      }
    }
  }

  /** A worker freed by one of level l has level l + 1. */
  lemma FreedLevel(cs: seq<Config>, found: seq<string>, levels: seq<nat>, p: nat, c: Config)
    requires UniqueIds(cs) && LevelsRise(cs, found, levels, p) && p < |found|
    requires c in cs && found[p] in c.deps && DepsWithin(c, Elements(found[..p + 1]))
    ensures HasLevel(cs, c.id, levels[p] + 1)
  {
    forall d | d in c.deps
      ensures d in Settled(cs, levels[p] + 1)
    {
      assert d in found[..p + 1];
      var i :| 0 <= i < p + 1 && found[i] == d;
      assert HasLevel(cs, found[i], levels[i]);
      SettledOnceLevelled(cs, d, levels[i], levels[p] + 1);
    }
    assert HasLevel(cs, found[p], levels[p]);
    OneAbove(cs, c, found[p], levels[p]);
  }

  ghost function Repeat(l: nat, n: nat): (r: seq<nat>)
    ensures |r| == n && forall i :: 0 <= i < n ==> r[i] == l
  {
    seq(n, _ => l)
  }

  /** So the levels keep rising. */
  lemma StepLevels(cs: seq<Config>, found: seq<string>, levels: seq<nat>, p: nat, freed: seq<string>)
    requires LevelsRise(cs, found, levels, p) && p < |found|
    requires forall i :: 0 <= i < |freed| ==> HasLevel(cs, freed[i], levels[p] + 1)
    ensures LevelsRise(cs, found + freed, levels + Repeat(levels[p] + 1, |freed|), p + 1)
  {
    var found', levels' := found + freed, levels + Repeat(levels[p] + 1, |freed|);
    forall i | 0 <= i < |levels'|
      ensures HasLevel(cs, found'[i], levels'[i])
    {
      if i < |levels| {
        assert HasLevel(cs, found[i], levels[i]);
      } else {
        assert HasLevel(cs, freed[i - |levels|], levels[p] + 1);
      }
    }
  }

  /** Everything the drain loop keeps: done has left the queue, done + queue has been found. */
  ghost predicate Draining(cs: seq<Config>, done: seq<string>, queue: seq<string>, inDegree: map<string, nat>, levels: seq<nat>) {
    && Degrees(cs, inDegree, Elements(done))
    && Discovered(cs, done + queue, Elements(done))
    && LevelsRise(cs, done + queue, levels, |done|)
    && DepsFirst(cs, done)
  }

  ghost predicate ChildrenIndex(cs: seq<Config>, children: map<string, seq<string>>) {
    && children.Keys == Ids(cs)
    && forall d :: d in children ==> KidsOf(cs, d, children[d])
  }

  ghost predicate KidsOf(cs: seq<Config>, d: string, kids: seq<string>) {
    AllIn(kids, Ids(cs)) && forall c :: c in cs ==> multiset(kids)[c.id] == multiset(c.deps)[d]
  }

  lemma IndexIsComplete(cs: seq<Config>, inDegree: map<string, nat>, children: map<string, seq<string>>)
    requires IndexedUpTo(cs, |cs|, 0, inDegree, children) && KeysRight(Ids(cs), inDegree, children)
    ensures ChildrenIndex(cs, children)
    ensures Degrees(cs, inDegree, {})
  {
    forall c | c in cs
      ensures c.id in inDegree && inDegree[c.id] == Pending(c.deps, {})
      ensures forall d :: d in children ==> multiset(children[d])[c.id] == multiset(c.deps)[d]
    {
      var m :| 0 <= m < |cs| && cs[m] == c;
      assert DegreeRight(cs, |cs|, 0, m, inDegree) && ChildrenRight(cs, |cs|, 0, m, children);
      PendingAll(c.deps);
    }
  }

  lemma NewlyDone(done: seq<string>, queue: seq<string>)
    requires queue != [] && !Repeats(done + queue)
    ensures queue[0] !in Elements(done)
    ensures Elements(done + [queue[0]]) == Elements(done) + {queue[0]}
    ensures (done + queue)[..|done| + 1] == done + [queue[0]]
    ensures forall more :: (done + [queue[0]]) + (queue[1..] + more) == (done + queue) + more
  {
    assert (done + queue)[|done|] == queue[0];
    forall i | 0 <= i < |done|
      ensures done[i] != queue[0]
    {
      assert (done + queue)[i] == done[i];
    }
    assert [queue[0]] + queue[1..] == queue;
  }

  /** Serving the head of the queue keeps the drain invariant. */
  lemma DrainStep(cs: seq<Config>, done: seq<string>, queue: seq<string>, inDegree: map<string, nat>, levels: seq<nat>,
                  kids: seq<string>, inDegree': map<string, nat>, freed: seq<string>)
    requires UniqueIds(cs) && queue != [] && Draining(cs, done, queue, inDegree, levels)
    requires KidsOf(cs, queue[0], kids) && inDegree'.Keys == inDegree.Keys
    requires forall x :: x in inDegree' ==> inDegree'[x] + multiset(kids)[x] == inDegree[x]
    requires !Repeats(freed) && forall x :: x in freed <==> x in kids && x in inDegree' && inDegree'[x] == 0
    ensures Draining(cs, done + [queue[0]], queue[1..] + freed, inDegree', levels + Repeat(levels[|done|] + 1, |freed|))
  {
    var node, found, p := queue[0], done + queue, |done|;
    NewlyDone(done, queue);
    assert found + freed == (done + [node]) + (queue[1..] + freed);
    StepDegrees(cs, inDegree, inDegree', Elements(done), node, kids);
    StepDiscovered(cs, found, Elements(done), inDegree', node, kids, freed);
    forall i | 0 <= i < |freed|
      ensures HasLevel(cs, freed[i], levels[p] + 1)
    {
      assert freed[i] in freed;
      var c :| c in cs && c.id == freed[i];
      FreedLevel(cs, found, levels, p, c);
    }
    StepLevels(cs, found, levels, p, freed);
    DepsFirstSnoc(cs, done, queue);
  }

  lemma DepsFirstSnoc(cs: seq<Config>, done: seq<string>, queue: seq<string>)
    requires queue != [] && DepsFirst(cs, done) && Discovered(cs, done + queue, Elements(done))
    ensures DepsFirst(cs, done + [queue[0]])
  {
    var done' := done + [queue[0]];
    forall i, c | 0 <= i < |done'| && c in cs && c.id == done'[i]
      ensures DepsWithin(c, Elements(done'[..i]))
    {
      assert done'[..i] == done[..i];
      if i == |done| {
        assert (done + queue)[|done|] in done + queue;
      }
    }
  }

  method Sources(cs: seq<Config>, inDegree: map<string, nat>) returns (queue: seq<string>)
    requires UniqueIds(cs) && Degrees(cs, inDegree, {})
    ensures exists levels :: Draining(cs, [], queue, inDegree, levels)
  {
    queue := [];
    for i := 0 to |cs|
      invariant |queue| <= i && !Repeats(queue)
      invariant forall x :: x in queue <==> exists m :: 0 <= m < i && cs[m].id == x && inDegree[x] == 0
    {
      if inDegree[cs[i].id] == 0 {
        RepeatsSnoc(queue, cs[i].id);
        queue := queue + [cs[i].id];
      }
    }
    SourcesFound(cs, inDegree, queue);
  }

  lemma SourcesFound(cs: seq<Config>, inDegree: map<string, nat>, queue: seq<string>)
    requires UniqueIds(cs) && Degrees(cs, inDegree, {}) && !Repeats(queue)
    requires forall x :: x in queue <==> exists m :: 0 <= m < |cs| && cs[m].id == x && x in inDegree && inDegree[x] == 0
    ensures Draining(cs, [], queue, inDegree, Repeat(0, |queue|))
  {
    assert Elements([]) == {} && [] + queue == queue;
    forall c | c in cs
      ensures c.id in queue <==> DepsWithin(c, {})
    {
      PendingZero(c.deps, {});
      var m :| 0 <= m < |cs| && cs[m] == c;
    }
    forall i | 0 <= i < |queue|
      ensures queue[i] in Ids(cs) && HasLevel(cs, queue[i], 0)
    {
      assert queue[i] in queue;
      var m :| 0 <= m < |cs| && cs[m].id == queue[i];
      SettledIntro(cs, cs[m], 0);
    }
  }

  lemma FoundFits(cs: seq<Config>, found: seq<string>, done: set<string>)
    requires Discovered(cs, found, done)
    ensures |found| <= |cs|
  {
    forall i | 0 <= i < |found|
      ensures found[i] in Ids(cs)
    {
      assert found[i] in found;
    }
    DistinctFits(found, Ids(cs));
    IdsFit(cs);
  }

  /** Serve the queue to the end: what is served is exactly what can ever run. */
  method Drain(cs: seq<Config>, inDegree0: map<string, nat>, children: map<string, seq<string>>, queue0: seq<string>)
    returns (done: seq<string>)
    requires UniqueIds(cs) && ChildrenIndex(cs, children)
    requires exists levels :: Draining(cs, [], queue0, inDegree0, levels)
    ensures Discovered(cs, done, Elements(done)) && DepsFirst(cs, done)
    ensures exists levels :: LevelsRise(cs, done, levels, |done|)
  {
    var inDegree, queue := inDegree0, queue0;
    done := [];
    ghost var levels :| Draining(cs, [], queue0, inDegree0, levels);
    while queue != []
      invariant Draining(cs, done, queue, inDegree, levels)
      decreases |cs| - |done|
    {
      FoundFits(cs, done + queue, Elements(done));
      var node := queue[0];
      NewlyDone(done, queue);
      assert node in done + queue;
      assert KidsOf(cs, node, children[node]);
      KidsHaveRoom(cs, inDegree, Elements(done), node, children[node]);
      ghost var before := inDegree;
      var freed;
      inDegree, freed := Release(children[node], inDegree);
      DrainStep(cs, done, queue, before, levels, children[node], inDegree, freed);
      levels := levels + Repeat(levels[|done|] + 1, |freed|);
      done, queue := done + [node], queue[1..] + freed;
    }
    assert done + queue == done;
  }

  lemma DrainedIsGrounded(cs: seq<Config>, done: seq<string>, levels: seq<nat>)
    requires UniqueIds(cs) && Discovered(cs, done, Elements(done)) && LevelsRise(cs, done, levels, |done|)
    ensures Elements(done) == Grounded(cs)
  {
    forall x | x in done
      ensures x in Grounded(cs)
    {
      var i :| 0 <= i < |done| && done[i] == x;
      assert HasLevel(cs, done[i], levels[i]);
      LevelledIsGrounded(cs, x, levels[i]);
    }
    DrainedIsClosed(cs, done);
  }

  lemma DrainedIsClosed(cs: seq<Config>, done: seq<string>)
    requires Discovered(cs, done, Elements(done))
    ensures Grounded(cs) <= Elements(done)
  {
    ClosedContainsSettled(cs, Elements(done), |cs|);
  }

  /** A topological order: a permutation of cs, every dependency earlier, levels never falling. */
  ghost predicate IsOrder(cs: seq<Config>, order: seq<Config>) {
    && multiset(order) == multiset(cs)
    && DepsFirst(cs, IdsOf(order))
    && RisesByLevel(cs, order)
  }

  ghost predicate RisesByLevel(cs: seq<Config>, order: seq<Config>) {
    forall i, j, k, l :: 0 <= i < j < |order| && HasLevel(cs, order[i].id, k) && HasLevel(cs, order[j].id, l) ==> k <= l
  }

  lemma RisingLevels(cs: seq<Config>, order: seq<Config>, levels: seq<nat>)
    requires LevelsRise(cs, IdsOf(order), levels, |order|)
    ensures RisesByLevel(cs, order)
  {
    forall i, j, k, l | 0 <= i < j < |order| && HasLevel(cs, order[i].id, k) && HasLevel(cs, order[j].id, l)
      ensures k <= l
    {
      assert HasLevel(cs, IdsOf(order)[i], levels[i]) && HasLevel(cs, IdsOf(order)[j], levels[j]);
      LevelUnique(cs, order[i].id, k, levels[i]);
      LevelUnique(cs, order[j].id, l, levels[j]);
    }
  }

  lemma OrderPermutes(cs: seq<Config>, order: seq<Config>)
    requires UniqueIds(cs) && (forall c :: c in order ==> c in cs)
    requires !Repeats(IdsOf(order)) && Elements(IdsOf(order)) == Ids(cs)
    ensures multiset(order) == multiset(cs)
  {
    forall i, j | 0 <= i < j < |order|
      ensures order[i].id != order[j].id
    {
      assert IdsOf(order)[i] != IdsOf(order)[j];
    }
    forall c | c in cs
      ensures c in order
    {
      assert c.id in Elements(IdsOf(order));
      var i :| 0 <= i < |order| && IdsOf(order)[i] == c.id;
      assert order[i] in order;
    }
    SameConfigsPermute(cs, order);
  }

  /** The ids left out of the order, in the order given, are the ones a cycle error reports. */
  lemma LeftOverIsCircular(cs: seq<Config>, done: set<string>)
    requires AllDepsKnown(cs) && done == Grounded(cs) && done != Ids(cs)
    ensures Rejects(cs, CircularDependency(IdsOf(Select(cs, Ids(cs) - done))))
  {
  }

  /** Topological order of the workers, or the reason there is none. */
  method TopologicalSort(cs: seq<Config>) returns (r: Result<seq<Config>>)
    requires UniqueIds(cs)
    ensures r.Ok? <==> Schedulable(cs)
    ensures r.Ok? ==> IsOrder(cs, r.value)
    ensures r.Err? ==> Rejects(cs, r.error)
  {
    var known := Ids(cs);
    assert forall i :: 0 <= i < |cs| ==> cs[i] in cs;
    var inDegree, children, unknown := BuildIndex(cs, known);
    if unknown.Some? {
      var (i, j) := unknown.value;
      assert FirstUnknownAt(cs, i, j);
      UnknownBreaksSchedule(cs, i, j);
      return Err(UnknownDependency(cs[i].id, cs[i].deps[j]));
    }
    IndexIsComplete(cs, inDegree, children);
    var queue := Sources(cs, inDegree);
    var done := Drain(cs, inDegree, children, queue);
    ghost var levels :| LevelsRise(cs, done, levels, |done|);
    DrainedIsGrounded(cs, done, levels);
    r := Conclude(cs, done, levels);
  }

  /** Look the configs up, and report a cycle if some never left the queue. */
  method Conclude(cs: seq<Config>, done: seq<string>, ghost levels: seq<nat>) returns (r: Result<seq<Config>>)
    requires UniqueIds(cs) && AllDepsKnown(cs)
    requires !Repeats(done) && Elements(done) == Grounded(cs)
    requires DepsFirst(cs, done) && LevelsRise(cs, done, levels, |done|)
    ensures r.Ok? <==> Schedulable(cs)
    ensures r.Ok? ==> IsOrder(cs, r.value)
    ensures r.Err? ==> Rejects(cs, r.error)
  {
    SettledWithinIds(cs, |cs|);
    var order := LookUp(cs, done);
    SizeTells(cs, done);
    if |order| != |cs| {
      LeftOverIsCircular(cs, Elements(done));
      return Err(CircularDependency(IdsOf(Unresolved(cs, done))));
    }
    assert IdsOf(order) == done;
    RisingLevels(cs, order, levels);
    OrderPermutes(cs, order);
    return Ok(order);
  }

  function Unresolved(cs: seq<Config>, done: seq<string>): seq<Config> {
    Select(cs, Ids(cs) - Elements(done))
  }

  method LookUp(cs: seq<Config>, done: seq<string>) returns (order: seq<Config>)
    requires UniqueIds(cs) && Elements(done) <= Ids(cs)
    ensures IdsOf(order) == done && forall c :: c in order ==> c in cs
  {
    var idMap := map c | c in cs :: c.id := c;
    order := [];
    for i := 0 to |done|
      invariant |order| == i && forall j :: 0 <= j < i ==> order[j].id == done[j] && order[j] in cs
    {
      assert done[i] in Elements(done);
      order := order + [idMap[done[i]]];
    }
  }

  /** A list of distinct known ids is as long as cs exactly when it has them all. */
  lemma SizeTells(cs: seq<Config>, done: seq<string>)
    requires UniqueIds(cs) && !Repeats(done) && Elements(done) <= Ids(cs)
    ensures |done| == |cs| <==> Elements(done) == Ids(cs)
  {
    IdsFit(cs);
    DistinctCount(done);
    SameSizeSubset(Elements(done), Ids(cs));
  }

  lemma SameSizeSubset(s: set<string>, t: set<string>)
    requires s <= t
    ensures |s| == |t| <==> s == t
  {
    assert t == s + (t - s);
    assert |t| == |s| + |t - s|;
  }

  lemma {:induction false} DistinctCount(s: seq<string>)
    requires !Repeats(s)
    ensures |Elements(s)| == |s|
  {
    if s != [] {
      var front, x := s[..|s| - 1], s[|s| - 1];
      assert s == front + [x];
      forall i, j | 0 <= i < j < |front|
        ensures front[i] != front[j]
      {
        assert s[i] != s[j];
      }
      DistinctCount(front);
      forall i | 0 <= i < |front|
        ensures front[i] != x
      {
        assert s[i] != s[|s| - 1];
      }
      assert Elements(s) == Elements(front) + {x};
    }
  }
}
