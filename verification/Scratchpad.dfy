/**
  The tool scratchpad: a bounded cache of full tool outputs over an optional durable store.
  With a durable store the pad behaves as an unbounded map from references to artifacts,
  through eviction and reload; paging through an artifact yields exactly its content.
 */
module Scratchpad {
  import opened Wrappers

  const MAX_ARTIFACTS: nat := 500
  const DEFAULT_LIMIT: nat := 12_000

  datatype Artifact = Artifact(ref: string, tool: string, content: string, created: nat)

  /** Reference ids as they are drawn, and the clock when each is. Ids never repeat; the clock never goes back. */
  datatype Supply = Supply(uuid: nat -> string, clock: nat -> nat)

  ghost predicate Sound(s: Supply) {
    && (forall i: nat, j: nat :: i != j ==> s.uuid(i) != s.uuid(j))
    && (forall i: nat, j: nat :: i <= j ==> s.clock(i) <= s.clock(j))
  }

  datatype Slice =
    | Missing
    | PastEnd(offset: nat, total: nat)
    | Chunk(text: string, from: nat, total: nat, next: Option<nat>)

  function SliceOf(content: string, offset: int, limit: int): Slice {
    var off := if offset < 0 then 0 else offset;
    var lim := if limit <= 0 then DEFAULT_LIMIT else limit;
    if off >= |content| then PastEnd(off, |content|)
    else
      var tail := if off + lim < |content| then off + lim else |content|;
      Chunk(content[off..tail], off, |content|, if tail < |content| then Some(tail) else None)
  }

  /** The text collected by asking for a slice and then for each slice its hint names. */
  function FollowHints(content: string, offset: nat, limit: int): string
    decreases |content| - offset
  {
    match SliceOf(content, offset, limit)
    case Chunk(text, from, _, next) =>
      text + if next.Some? && offset < next.value <= |content| then FollowHints(content, next.value, limit) else ""
    case _ => ""
  }

  /** Following the hints from any offset terminates and collects everything from there on. */
  lemma {:induction false} PagingCollectsAll(content: string, offset: nat, limit: int)
    ensures FollowHints(content, offset, limit) == if offset <= |content| then content[offset..] else ""
    decreases |content| - offset
  {
    var s := SliceOf(content, offset, limit);
    if s.Chunk? {
      SliceThenRest(content, offset, limit);
      if s.next.Some? {
        PagingCollectsAll(content, s.next.value, limit);
      }
    }
  }

  lemma SliceThenRest(content: string, offset: nat, limit: int)
    requires offset < |content|
    ensures var s := SliceOf(content, offset, limit);
            && s.Chunk?
            && (s.next.None? ==> s.text == content[offset..])
            && (s.next.Some? ==> offset < s.next.value < |content| && content[offset..] == s.text + content[s.next.value..])
  {
  }

  // ----- the cache as a list in insertion order -----

  function Lookup(cache: seq<Artifact>, ref: string): Option<Artifact> {
    if cache == [] then None
    else if cache[0].ref == ref then Some(cache[0])
    else Lookup(cache[1..], ref)
  }

  ghost predicate DistinctRefs(cache: seq<Artifact>) {
    forall i, j :: 0 <= i < j < |cache| ==> cache[i].ref != cache[j].ref
  }

  lemma {:induction false} LookupFinds(cache: seq<Artifact>, ref: string)
    ensures Lookup(cache, ref).Some? ==> Lookup(cache, ref).value in cache && Lookup(cache, ref).value.ref == ref
    ensures Lookup(cache, ref).None? ==> forall a :: a in cache ==> a.ref != ref
  {
    if cache != [] {
      LookupFinds(cache[1..], ref);
      assert cache == [cache[0]] + cache[1..];
    }
  }

  ghost function CacheMap(cache: seq<Artifact>): map<string, Artifact> {
    map r | r in Refs(cache) && Lookup(cache, r).Some? :: Lookup(cache, r).value
  }

  ghost function Refs(cache: seq<Artifact>): set<string> {
    set a | a in cache :: a.ref
  }

  lemma CacheHas(cache: seq<Artifact>, a: Artifact)
    requires DistinctRefs(cache) && a in cache
    ensures Lookup(cache, a.ref) == Some(a) && a.ref in CacheMap(cache) && CacheMap(cache)[a.ref] == a
  {
    LookupFinds(cache, a.ref);
    var i :| 0 <= i < |cache| && cache[i] == a;
    var b := Lookup(cache, a.ref).value;
    var j :| 0 <= j < |cache| && cache[j] == b;
    assert a.ref in Refs(cache);
  }

  /** The entry evicted from a full cache is the first among those created earliest. */
  ghost predicate IsOldest(cache: seq<Artifact>, k: nat) {
    && k < |cache|
    && (forall j :: 0 <= j < k ==> cache[k].created < cache[j].created)
    && (forall j :: k < j < |cache| ==> cache[k].created <= cache[j].created)
  }

  method Oldest(cache: seq<Artifact>) returns (k: nat)
    requires cache != []
    ensures IsOldest(cache, k)
  {
    k := 0;
    for i := 1 to |cache|
      invariant IsOldest(cache[..i], k)
    {
      if cache[i].created < cache[k].created {
        k := i;
      }
    }
    assert cache[..|cache|] == cache;
  }

  /** The newest entry is the one evicted exactly when its clock reads earlier than every other's. */
  lemma NewestEvictedIff(cache: seq<Artifact>, k: nat)
    requires IsOldest(cache, k)
    ensures k == |cache| - 1 <==> forall j :: 0 <= j < |cache| - 1 ==> cache[|cache| - 1].created < cache[j].created
  {
    if k < |cache| - 1 {
      assert cache[k].created <= cache[|cache| - 1].created;
    }
  }

  ghost predicate Evicted(before: seq<Artifact>, after: seq<Artifact>, k: nat) {
    if |before| <= MAX_ARTIFACTS then after == before
    else IsOldest(before, k) && after == before[..k] + before[k + 1..]
  }

  lemma RemoveAt(s: seq<Artifact>, k: nat)
    requires DistinctRefs(s) && k < |s|
    ensures DistinctRefs(s[..k] + s[k + 1..])
    ensures forall a :: a in s[..k] + s[k + 1..] ==> a in s
  {
    var r := s[..k] + s[k + 1..];
    assert forall i :: 0 <= i < |r| ==> r[i] == s[if i < k then i else i + 1];
  }

  /** Append a new entry, then evict the oldest if the cache is over its bound. */
  method Admit(cache: seq<Artifact>, art: Artifact) returns (after: seq<Artifact>)
    requires DistinctRefs(cache) && forall a :: a in cache ==> a.ref != art.ref && a.created <= art.created
    ensures exists k :: 0 <= k < |cache| + 1 && Evicted(cache + [art], after, k)
    ensures |after| == if |cache| >= MAX_ARTIFACTS then |cache| else |cache| + 1
    ensures DistinctRefs(after) && art in after
    ensures forall a :: a in after ==> a in cache || a == art
  {
    var grown := cache + [art];
    after := grown;
    if |grown| <= MAX_ARTIFACTS {
      assert Evicted(grown, after, 0);
    } else {
      var k := Oldest(grown);
      NewestEvictedIff(grown, k);
      assert grown[0] == cache[0] && cache[0] in cache;
      RemoveAt(grown, k);
      after := grown[..k] + grown[k + 1..];
      assert Evicted(grown, after, k);
      assert after[|after| - 1] == art;
    }
  }

  // ----- the pad -----

  ghost function ViewOf(durable: bool, cache: seq<Artifact>, store: map<string, Artifact>): map<string, Artifact> {
    if durable then store else CacheMap(cache)
  }

  lemma StoredIsSeen(durable: bool, cache: seq<Artifact>, store: map<string, Artifact>, art: Artifact, after: seq<Artifact>)
    requires DistinctRefs(after) && art in after && art.ref !in store && art.ref !in Refs(cache)
    ensures var now := ViewOf(durable, after, if durable then store[art.ref := art] else store);
            && art.ref !in ViewOf(durable, cache, store) && art.ref in now && now[art.ref] == art
            && (durable ==> now == store[art.ref := art])
  {
    CacheHas(after, art);
  }

  class ToolScratchpad {
    const supply: Supply
    const durable: bool
    var drawn: nat
    var cache: seq<Artifact>
    var store: map<string, Artifact>

    ghost predicate Valid()
      reads this
    {
      Consistent(supply, durable, drawn, cache, store)
    }

    /** The map the pad stands for. */
    ghost function View(): map<string, Artifact>
      reads this
    {
      ViewOf(durable, cache, store)
    }

    ghost function State(): PadState
      reads this
    {
      PadState(drawn, cache, store)
    }

    constructor (supply: Supply, durable: bool)
      requires Sound(supply)
      ensures Valid() && this.durable == durable && this.supply == supply && View() == map[] && cache == []
    {
      this.supply, this.durable := supply, durable;
      drawn, cache, store := 0, [], map[];
    }

    /** Reads go through the cache; a miss reloads from the durable store, without evicting. */
    method Get(ref: string) returns (r: Option<Artifact>)
      requires Valid()
      modifies `cache
      ensures Valid() && View() == old(View())
      ensures r == if ref in View() then Some(View()[ref]) else None
      ensures PadStep(supply, durable, DoGet(ref), old(State()), State())
    {
      r := Lookup(cache, ref);
      LookupFinds(cache, ref);
      if r.Some? {
        return;
      }
      if durable && ref in store {
        cache := cache + [store[ref]];
        return Some(store[ref]);
      }
    }

    method RecallSlice(ref: string, offset: int, limit: int) returns (s: Slice)
      requires Valid()
      modifies `cache
      ensures Valid() && View() == old(View())
      ensures s == if ref in View() then SliceOf(View()[ref].content, offset, limit) else Missing
    {
      var art := Get(ref);
      s := if art.Some? then SliceOf(art.value.content, offset, limit) else Missing;
    }

    /**
      Store under a fresh reference, spill it, and evict the oldest entry if the cache is over
      its bound. The entry just stored is never the one evicted.
     */
    method Store(tool: string, content: string) returns (art: Artifact)
      requires Valid()
      modifies this
      ensures Valid() && drawn == old(drawn) + 1
      ensures art == Artifact(supply.uuid(old(drawn)), tool, content, supply.clock(old(drawn)))
      ensures art.ref !in old(View()) && art.ref in View() && View()[art.ref] == art
      ensures durable ==> View() == old(View())[art.ref := art]
      ensures PadStep(supply, durable, DoStore(tool, content), old(State()), State())
      ensures art in cache
    {
      art := Artifact(supply.uuid(drawn), tool, content, supply.clock(drawn));
      FreshRef(supply, durable, drawn, cache, store, art);
      var after := Admit(cache, art);
      StoreKeepsConsistent(supply, durable, drawn, cache, store, art, after);
      StoredIsSeen(durable, cache, store, art, after);
      drawn := drawn + 1;
      cache := after;
      if durable {
        store := store[art.ref := art];
      }
    }
  }

  /** The reference and the time were handed out together by the supply. */
  ghost predicate Issued(supply: Supply, drawn: nat, a: Artifact) {
    exists i: nat :: i < drawn && supply.uuid(i) == a.ref && supply.clock(i) == a.created
  }

  ghost predicate Consistent(supply: Supply, durable: bool, drawn: nat, cache: seq<Artifact>, store: map<string, Artifact>) {
    && Sound(supply) && DistinctRefs(cache)
    && (forall a :: a in cache ==> Issued(supply, drawn, a))
    && (forall r :: r in store ==> store[r].ref == r && Issued(supply, drawn, store[r]))
    && (if durable then forall a :: a in cache ==> a.ref in store && store[a.ref] == a
        else store == map[] && |cache| <= MAX_ARTIFACTS)
  }

  lemma IssuedLater(supply: Supply, drawn: nat, a: Artifact, art: Artifact)
    requires Sound(supply) && art.ref == supply.uuid(drawn) && art.created == supply.clock(drawn)
    requires Issued(supply, drawn, a)
    ensures Issued(supply, drawn + 1, a) && a.ref != art.ref && a.created <= art.created
  {
  }

  lemma FreshRef(supply: Supply, durable: bool, drawn: nat, cache: seq<Artifact>, store: map<string, Artifact>, art: Artifact)
    requires Consistent(supply, durable, drawn, cache, store)
    requires art.ref == supply.uuid(drawn) && art.created == supply.clock(drawn)
    ensures forall a :: a in cache ==> a.ref != art.ref && a.created <= art.created
    ensures art.ref !in store && art.ref !in Refs(cache)
  {
    forall a | Issued(supply, drawn, a)
      ensures a.ref != art.ref && a.created <= art.created
    {
      IssuedLater(supply, drawn, a, art);
    }
  }

  lemma StoreKeepsConsistent(supply: Supply, durable: bool, drawn: nat, cache: seq<Artifact>, store: map<string, Artifact>,
                             art: Artifact, after: seq<Artifact>)
    requires Consistent(supply, durable, drawn, cache, store)
    requires art.ref == supply.uuid(drawn) && art.created == supply.clock(drawn)
    requires DistinctRefs(after) && forall a :: a in after ==> a in cache || a == art
    requires !durable ==> |after| <= MAX_ARTIFACTS
    ensures Consistent(supply, durable, drawn + 1, after, if durable then store[art.ref := art] else store)
  {
    FreshRef(supply, durable, drawn, cache, store, art);
    assert Issued(supply, drawn + 1, art);
    forall a | Issued(supply, drawn, a)
      ensures Issued(supply, drawn + 1, a)
    {
      IssuedLater(supply, drawn, a, art);
    }
  }

  // ----- how far the bound on the cache goes -----

  datatype PadState = PadState(drawn: nat, cache: seq<Artifact>, store: map<string, Artifact>)

  datatype PadOp = DoStore(tool: string, content: string) | DoGet(ref: string)

  /** A read that finds its entry in the store alone. */
  ghost predicate Reloads(op: PadOp, s: PadState) {
    op.DoGet? && Lookup(s.cache, op.ref).None? && op.ref in s.store
  }

  ghost predicate PadStep(supply: Supply, durable: bool, op: PadOp, s: PadState, t: PadState) {
    match op
    case DoStore(tool, content) =>
      var art := Artifact(supply.uuid(s.drawn), tool, content, supply.clock(s.drawn));
      && t.drawn == s.drawn + 1
      && t.store == (if durable then s.store[art.ref := art] else s.store)
      && exists k :: 0 <= k < |s.cache| + 1 && Evicted(s.cache + [art], t.cache, k)
    case DoGet(ref) =>
      t == if Reloads(op, s) then s.(cache := s.cache + [s.store[ref]]) else s
  }

  ghost predicate PadRun(supply: Supply, durable: bool, ops: seq<PadOp>, states: seq<PadState>) {
    && |states| == |ops| + 1 && states[0] == PadState(0, [], map[])
    && forall i :: 0 <= i < |ops| ==> PadStep(supply, durable, ops[i], states[i], states[i + 1])
  }

  lemma StepSize(supply: Supply, durable: bool, op: PadOp, s: PadState, t: PadState)
    requires PadStep(supply, durable, op, s, t)
    ensures op.DoStore? ==> |t.cache| == if |s.cache| >= MAX_ARTIFACTS then |s.cache| else |s.cache| + 1
    ensures op.DoGet? ==> |t.cache| == if Reloads(op, s) then |s.cache| + 1 else |s.cache|
  {
  }

  /** In no run does the cache ever shrink. */
  lemma {:induction false} SizeNeverShrinks(supply: Supply, durable: bool, ops: seq<PadOp>, states: seq<PadState>, i: nat, j: nat)
    requires PadRun(supply, durable, ops, states) && i <= j <= |ops|
    ensures |states[i].cache| <= |states[j].cache|
    decreases j - i
  {
    if i < j {
      StepSize(supply, durable, ops[j - 1], states[j - 1], states[j]);
      SizeNeverShrinks(supply, durable, ops, states, i, j - 1);
    }
  }

  /**
    Storing alone respects the bound, but a reload is not followed by an eviction: in every run
    the cache is within the bound after n operations if and only if none of them reloaded an entry
    into a full cache.
   */
  lemma {:induction false} BoundHoldsIff(supply: Supply, durable: bool, ops: seq<PadOp>, states: seq<PadState>, n: nat)
    requires PadRun(supply, durable, ops, states) && n <= |ops|
    ensures |states[n].cache| <= MAX_ARTIFACTS
            <==> forall i :: 0 <= i < n && Reloads(ops[i], states[i]) ==> |states[i].cache| < MAX_ARTIFACTS
  {
    if n > 0 {
      BoundHoldsIff(supply, durable, ops, states, n - 1);
      StepSize(supply, durable, ops[n - 1], states[n - 1], states[n]);
    }
  }

  /** Without a store nothing is ever reloaded, so the bound always holds. */
  lemma {:induction false} CacheOnlyBounded(supply: Supply, ops: seq<PadOp>, states: seq<PadState>, n: nat)
    requires PadRun(supply, false, ops, states) && n <= |ops|
    ensures states[n].store == map[] && |states[n].cache| <= MAX_ARTIFACTS
  {
    if n > 0 {
      CacheOnlyBounded(supply, ops, states, n - 1);
      StepSize(supply, false, ops[n - 1], states[n - 1], states[n]);
    }
  }

  // ----- a run over the bound -----

  lemma {:induction false} FewRefs(cache: seq<Artifact>)
    ensures |Refs(cache)| <= |cache|
  {
    if cache != [] {
      var front, last := cache[..|cache| - 1], cache[|cache| - 1];
      FewRefs(front);
      assert cache == front + [last] && Refs(cache) == Refs(front) + {last.ref};
    } else {
      assert Refs(cache) == {};
    }
  }

  lemma SubsetSize(s: set<string>, t: set<string>)
    ensures s <= t ==> |s| <= |t|
  {
    if s <= t {
      assert t == s + (t - s);
    }
  }

  lemma SomeEvicted(cache: seq<Artifact>, store: map<string, Artifact>)
    requires |cache| < |store|
    ensures exists r :: r in store && Lookup(cache, r).None?
  {
    FewRefs(cache);
    SubsetSize(store.Keys, Refs(cache));
    var r :| r in store.Keys && r !in Refs(cache);
    LookupFinds(cache, r);
  }

  /** One entry more than the bound is stored, so one is evicted; reading it puts the cache over the bound. */
  method OverfillPad(supply: Supply) returns (pad: ToolScratchpad)
    requires Sound(supply)
    ensures fresh(pad) && pad.Valid() && |pad.cache| == MAX_ARTIFACTS + 1
  {
    pad := new ToolScratchpad(supply, true);
    for i := 0 to MAX_ARTIFACTS + 1
      invariant fresh(pad) && pad.Valid() && pad.durable
      invariant |pad.store| == i && |pad.cache| == if i < MAX_ARTIFACTS then i else MAX_ARTIFACTS
    {
      var art := pad.Store("tool", "output");
    }
    SomeEvicted(pad.cache, pad.store);
    var ref :| ref in pad.store && Lookup(pad.cache, ref).None?;
    var art := pad.Get(ref);
  }
}
