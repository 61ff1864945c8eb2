/**
  Typo correction for provider slugs: the two-row edit distance, and the search for the one
  nearest slug. The distance is tied to edit scripts, from which it inherits being a metric.
 */
module EditDistance {
  import opened Wrappers

  datatype Edit = Keep(c: char) | Substitute(c: char, d: char) | Delete(c: char) | Insert(d: char)

  ghost function Cost(script: seq<Edit>): nat {
    if script == [] then 0 else Cost(script[..|script| - 1]) + if script[|script| - 1].Keep? then 0 else 1
  }

  /** What the script reads. */
  ghost function Source(script: seq<Edit>): string {
    if script == [] then ""
    else
      Source(script[..|script| - 1])
      + match script[|script| - 1]
        case Keep(c) => [c]
        case Substitute(c, _) => [c]
        case Delete(c) => [c]
        case Insert(_) => []
  }

  /** What the script writes. */
  ghost function Target(script: seq<Edit>): string {
    if script == [] then ""
    else
      Target(script[..|script| - 1])
      + match script[|script| - 1]
        case Keep(c) => [c]
        case Substitute(_, d) => [d]
        case Delete(_) => []
        case Insert(d) => [d]
  }

  ghost predicate Edits(script: seq<Edit>, a: string, b: string) {
    Source(script) == a && Target(script) == b
  }

  function Min3(x: nat, y: nat, z: nat): nat {
    if x <= y && x <= z then x else if y <= z then y else z
  }

  /** The distance recurrence on last characters. */
  ghost function Distance(a: string, b: string): nat
    decreases |a| + |b|
  {
    if a == "" then |b|
    else if b == "" then |a|
    else
      var a', b' := a[..|a| - 1], b[..|b| - 1];
      Min3(Distance(a, b') + 1, Distance(a', b) + 1,
           Distance(a', b') + if a[|a| - 1] != b[|b| - 1] then 1 else 0)
  }

  // ----- the distance is the least cost of an edit script -----

  lemma Snoc(script: seq<Edit>, e: Edit)
    ensures (script + [e])[..|script + [e]| - 1] == script
    ensures Cost(script + [e]) == Cost(script) + if e.Keep? then 0 else 1
  {
    assert (script + [e])[..|script|] == script;
  }

  /** Some script turns a into b at the cost of the distance. */
  lemma {:induction false} DistanceReached(a: string, b: string) returns (script: seq<Edit>)
    ensures Edits(script, a, b) && Cost(script) == Distance(a, b)
    decreases |a| + |b|
  {
    if a == "" && b == "" {
      script := [];
    } else {
      var front, e: Edit;
      if a == "" || (b != "" && Distance(a, b) == Distance(a, b[..|b| - 1]) + 1) {
        front := DistanceReached(a, b[..|b| - 1]);
        e := Insert(b[|b| - 1]);
      } else if b == "" || Distance(a, b) == Distance(a[..|a| - 1], b) + 1 {
        front := DistanceReached(a[..|a| - 1], b);
        e := Delete(a[|a| - 1]);
      } else {
        front := DistanceReached(a[..|a| - 1], b[..|b| - 1]);
        var x, y := a[|a| - 1], b[|b| - 1];
        e := if x == y then Keep(x) else Substitute(x, y);
      }
      script := front + [e];
      Snoc(front, e);
    }
  }

  /** No script turns a into b for less. */
  lemma {:induction false} DistanceLeast(script: seq<Edit>, a: string, b: string)
    requires Edits(script, a, b)
    ensures Distance(a, b) <= Cost(script)
    decreases |script|
  {
    if script != [] {
      var front := script[..|script| - 1];
      DistanceLeast(front, Source(front), Target(front));
      assert a != "" && Source(front) != a ==> a[..|a| - 1] == Source(front);
      assert b != "" && Target(front) != b ==> b[..|b| - 1] == Target(front);
      match script[|script| - 1]
      case Keep(c) =>
      case Substitute(c, d) =>
      case Delete(c) => DropLastSource(a, b);
      case Insert(d) => DropLastTarget(a, b);
    }
  }

  lemma DropLastSource(a: string, b: string)
    requires a != ""
    ensures Distance(a, b) <= Distance(a[..|a| - 1], b) + 1
  {
  }

  lemma DropLastTarget(a: string, b: string)
    requires b != ""
    ensures Distance(a, b) <= Distance(a, b[..|b| - 1]) + 1
  {
  }

  // ----- the distance is a metric -----

  lemma {:induction false} CostFree(script: seq<Edit>)
    requires Cost(script) == 0
    ensures Source(script) == Target(script)
  {
    if script != [] {
      CostFree(script[..|script| - 1]);
    }
  }

  lemma {:induction false} SelfDistance(a: string)
    ensures Distance(a, a) == 0
  {
    if a != "" {
      SelfDistance(a[..|a| - 1]);
    }
  }

  lemma DistanceZero(a: string, b: string)
    ensures Distance(a, b) == 0 <==> a == b
  {
    var script := DistanceReached(a, b);
    if Distance(a, b) == 0 {
      CostFree(script);
    }
    SelfDistance(a);
  }

  lemma {:induction false} DistanceSymmetric(a: string, b: string)
    ensures Distance(a, b) == Distance(b, a)
    decreases |a| + |b|
  {
    if a != "" && b != "" {
      DistanceSymmetric(a, b[..|b| - 1]);
      DistanceSymmetric(a[..|a| - 1], b);
      DistanceSymmetric(a[..|a| - 1], b[..|b| - 1]);
    }
  }

  /** Do one script after another, in one pass. */
  lemma {:induction false} Compose(s: seq<Edit>, t: seq<Edit>) returns (r: seq<Edit>)
    requires Target(s) == Source(t)
    ensures Edits(r, Source(s), Target(t)) && Cost(r) <= Cost(s) + Cost(t)
    decreases |s| + |t|
  {
    if s == [] && t == [] {
      r := [];
    } else if t != [] && t[|t| - 1].Insert? {
      var front := Compose(s, t[..|t| - 1]);
      Snoc(front, t[|t| - 1]);
      r := front + [t[|t| - 1]];
    } else if s != [] && s[|s| - 1].Delete? {
      var front := Compose(s[..|s| - 1], t);
      Snoc(front, s[|s| - 1]);
      r := front + [s[|s| - 1]];
    } else {
      MeetInMiddle(s, t);
      var front := Compose(s[..|s| - 1], t[..|t| - 1]);
      var fused := Fuse(s[|s| - 1], t[|t| - 1]);
      if fused.Some? {
        Snoc(front, fused.value);
        r := front + [fused.value];
      } else {
        r := front;
      }
    }
  }

  /** When neither script ends on its own, both end on the same middle character. */
  lemma MeetInMiddle(s: seq<Edit>, t: seq<Edit>)
    requires Target(s) == Source(t) && (s != [] || t != [])
    requires t == [] || !t[|t| - 1].Insert?
    requires s == [] || !s[|s| - 1].Delete?
    ensures s != [] && t != []
    ensures Target(s[..|s| - 1]) == Source(t[..|t| - 1])
    ensures Written(s[|s| - 1]) == t[|t| - 1].c
  {
    if s != [] && t != [] {
      var x, y := Written(s[|s| - 1]), t[|t| - 1].c;
      assert Target(s) == Target(s[..|s| - 1]) + [x];
      assert Source(t) == Source(t[..|t| - 1]) + [y];
      assert Target(s)[..|Target(s)| - 1] == Target(s[..|s| - 1]);
      assert Source(t)[..|Source(t)| - 1] == Source(t[..|t| - 1]);
      assert Target(s)[|Target(s)| - 1] == x && Source(t)[|Source(t)| - 1] == y;
    }
  }

  ghost function Written(e: Edit): char
    requires !e.Delete?
  {
    if e.Keep? then e.c else e.d
  }

  /** Two edits through a common middle character, as at most one. */
  ghost function Fuse(first: Edit, second: Edit): (r: Option<Edit>)
    requires !first.Delete? && !second.Insert? && Written(first) == second.c
  {
    match second
    case Keep(_) => Some(first)
    case Substitute(_, d) => Some(if first.Insert? then Insert(d) else Substitute(first.c, d))
    case Delete(_) => if first.Insert? then None else Some(Delete(first.c))
  }

  lemma DistanceTriangle(a: string, b: string, c: string)
    ensures Distance(a, c) <= Distance(a, b) + Distance(b, c)
  {
    var s := DistanceReached(a, b);
    var t := DistanceReached(b, c);
    var r := Compose(s, t);
    DistanceLeast(r, a, c);
  }

  // ----- the two-row loop -----

  ghost predicate Row(row: seq<nat>, a: string, b: string, n: nat) {
    |row| == n && n <= |b| + 1 && forall j {:trigger row[j]} :: 0 <= j < n ==> row[j] == Distance(a, b[..j])
  }

  lemma Recurrence(a: string, b: string, i: nat, j: nat)
    requires i < |a| && j < |b|
    ensures Distance(a[..i + 1], b[..j + 1]) ==
            Min3(Distance(a[..i + 1], b[..j]) + 1, Distance(a[..i], b[..j + 1]) + 1,
                 Distance(a[..i], b[..j]) + if a[i] != b[j] then 1 else 0)
  {
    assert a[..i + 1][..i] == a[..i] && b[..j + 1][..j] == b[..j];
  }

  lemma RowAt(row: seq<nat>, a: string, b: string, n: nat, j: nat)
    requires Row(row, a, b, n) && j < n
    ensures row[j] == Distance(a, b[..j])
  {
  }

  lemma RowSnoc(row: seq<nat>, a: string, b: string, j: nat, d: nat)
    requires j < |b| && Row(row, a, b, j + 1) && d == Distance(a, b[..j + 1])
    ensures Row(row + [d], a, b, j + 2)
  {
  }

  method NextRow(a: string, b: string, i: nat, prev: seq<nat>) returns (cur: seq<nat>)
    requires i < |a| && Row(prev, a[..i], b, |b| + 1)
    ensures Row(cur, a[..i + 1], b, |b| + 1)
  {
    cur := [i + 1];
    assert b[..0] == "";
    for j := 0 to |b|
      invariant |cur| == j + 1 && Row(cur, a[..i + 1], b, j + 1)
    {
      var ins, delete, sub := cur[j] + 1, prev[j + 1] + 1, prev[j] + if a[i] != b[j] then 1 else 0;
      RowAt(cur, a[..i + 1], b, j + 1, j);
      RowAt(prev, a[..i], b, |b| + 1, j);
      RowAt(prev, a[..i], b, |b| + 1, j + 1);
      Recurrence(a, b, i, j);
      RowSnoc(cur, a[..i + 1], b, j, Min3(ins, delete, sub));
      cur := cur + [Min3(ins, delete, sub)];
    }
  }

  method Levenshtein(a: string, b: string) returns (d: nat)
    ensures d == Distance(a, b)
  {
    if a == b {
      SelfDistance(a);
      return 0;
    }
    if a == "" {
      return |b|;
    }
    if b == "" {
      return |a|;
    }
    var prev: seq<nat> := seq(|b| + 1, j requires 0 <= j <= |b| => j);
    for i := 0 to |a|
      invariant Row(prev, a[..i], b, |b| + 1)
    {
      prev := NextRow(a, b, i, prev);
    }
    assert a[..|a|] == a && b[..|b|] == b;
    return prev[|b|];
  }

  // ----- the suggestion -----

  ghost predicate UniqueNearest(s: string, pool: seq<string>, c: string) {
    && c in pool && Distance(s, c) <= 2
    && forall o :: o in pool && o != c ==> Distance(s, c) < Distance(s, o)
  }

  /** `pool` is the sorted slug pool, without repetitions; `s` is already normalised. */
  method SuggestTypoProviderSlug(s: string, pool: seq<string>) returns (r: Option<string>)
    requires forall i, j :: 0 <= i < j < |pool| ==> pool[i] != pool[j]
    ensures forall c :: r == Some(c) <==> s !in pool && UniqueNearest(s, pool, c)
  {
    if s in pool {
      return None;
    }
    var best: nat, matches: seq<string> := 1_000_000_000, [];
    for i := 0 to |pool|
      invariant NearestSoFar(s, pool[..i], best, matches)
    {
      var d := Levenshtein(s, pool[i]);
      NearestStep(s, pool[..i], best, matches, pool[i]);
      assert pool[..i + 1] == pool[..i] + [pool[i]];
      if d < best {
        best := d;
        matches := [pool[i]];
      } else if d == best {
        matches := matches + [pool[i]];
      }
    }
    assert pool[..|pool|] == pool;
    if best > 2 || |matches| != 1 {
      NoUniqueNearest(s, pool, best, matches);
      return None;
    }
    assert matches[0] in matches;
    OneMatchIsNearest(s, pool, best, matches[0]);
    return Some(matches[0]);
  }

  /** best is the least distance seen (capped at the starting value) and matches has every slug at it, once. */
  ghost predicate NearestSoFar(s: string, seen: seq<string>, best: nat, matches: seq<string>) {
    && best <= 1_000_000_000 && (best < 1_000_000_000 ==> matches != [])
    && (forall c :: c in seen ==> best <= Distance(s, c))
    && (forall c :: c in matches <==> c in seen && Distance(s, c) == best)
    && (forall j, k :: 0 <= j < k < |matches| ==> matches[j] != matches[k])
  }

  lemma NearestStep(s: string, seen: seq<string>, best: nat, matches: seq<string>, c: string)
    requires NearestSoFar(s, seen, best, matches) && c !in seen
    ensures Distance(s, c) < best ==> NearestSoFar(s, seen + [c], Distance(s, c), [c])
    ensures Distance(s, c) == best ==> NearestSoFar(s, seen + [c], best, matches + [c])
    ensures Distance(s, c) > best ==> NearestSoFar(s, seen + [c], best, matches)
  {
  }

  lemma NoUniqueNearest(s: string, pool: seq<string>, best: nat, matches: seq<string>)
    requires NearestSoFar(s, pool, best, matches)
    requires best > 2 || |matches| != 1
    ensures forall c :: !UniqueNearest(s, pool, c)
  {
    if best <= 2 {
      assert matches[0] in matches && matches[1] in matches;
    }
  }

  lemma OneMatchIsNearest(s: string, pool: seq<string>, best: nat, m: string)
    requires best <= 2 && forall c :: c in pool ==> best <= Distance(s, c)
    requires m in pool && Distance(s, m) == best
    requires forall c :: c in pool && Distance(s, c) == best ==> c == m
    ensures forall c :: UniqueNearest(s, pool, c) <==> c == m
  {
  }

  /**
    A typo within two edits is corrected whenever every other slug lies outside twice its
    distance from the intended one.
   */
  lemma TypoRadius(s: string, pool: seq<string>, c: string)
    requires c in pool && Distance(s, c) <= 2
    requires forall o :: o in pool && o != c ==> 2 * Distance(s, c) < Distance(c, o)
    ensures UniqueNearest(s, pool, c)
  {
    forall o | o in pool && o != c
      ensures Distance(s, c) < Distance(s, o)
    {
      DistanceTriangle(c, s, o);
      DistanceSymmetric(c, s);
    }
  }
}
