/**
  Short-term memory of one conversation thread: turns are appended, the oldest are folded into
  one summary turn when the transcript grows too long in tokens, and dropped when it grows too
  long in turns.
 */
module SessionMemory {
  import opened Wrappers

  /**
    `mentions` are the artifact refs written as `ref=…` in the text of a turn. A summary turn
    also carries, in its metadata, the refs that were extracted from what it replaced.
   */
  datatype Turn =
    | Ordinary(id: nat, mentions: seq<string>)
    | Summary(mentions: seq<string>, carried: seq<string>)

  // ----- artifact refs -----

  method MergeArtifactRefs(existing: seq<string>, fresh_: seq<string>) returns (out: seq<string>)
    ensures out == MergedRefs(existing + fresh_)
  {
    var refs := existing + fresh_;
    var seen: set<string> := {};
    out := [];
    for i := 0 to |refs|
      invariant out == MergedRefs(refs[..i])
      invariant forall r :: r in seen <==> r in out
    {
      assert refs[..i + 1][..i] == refs[..i];
      if refs[i] != "" && refs[i] !in seen {
        seen := seen + {refs[i]};
        out := out + [refs[i]];
      }
    }
    assert refs[..|refs|] == refs;
  }

  /** The non-empty refs, each at its first occurrence. */
  function MergedRefs(refs: seq<string>): seq<string> {
    if refs == [] then []
    else
      var front, last := MergedRefs(refs[..|refs| - 1]), refs[|refs| - 1];
      if last == "" || last in front then front else front + [last]
  }

  lemma {:induction false} MergedRefsExact(refs: seq<string>)
    ensures forall r :: r in MergedRefs(refs) <==> r != "" && r in refs
    ensures forall i, j :: 0 <= i < j < |MergedRefs(refs)| ==> MergedRefs(refs)[i] != MergedRefs(refs)[j]
  {
    if refs != [] {
      MergedRefsExact(refs[..|refs| - 1]);
      assert refs == refs[..|refs| - 1] + [refs[|refs| - 1]];
    }
  }

  function Mentioned(turns: seq<Turn>): seq<string> {
    if turns == [] then [] else Mentioned(turns[..|turns| - 1]) + turns[|turns| - 1].mentions
  }

  // ----- summarising -----

  /** `split(n)` of n turns are folded into a summary; at least two, and never all. */
  ghost predicate Splits(split: nat -> nat) {
    forall n: nat :: n >= 4 ==> 2 <= split(n) < n
  }

  const MIN_TURNS := 4
  const ROUNDS: nat := 3

  /** What the summariser makes of the oldest turns; None if it is not asked or fails. */
  function SummarizeOldest(turns: seq<Turn>, split: nat -> nat, answer: Option<seq<string>>): Option<seq<Turn>>
    requires Splits(split)
  {
    if |turns| < MIN_TURNS || answer.None? then None
    else
      var k := split(|turns|);
      Some([Summary(answer.value, MergedRefs(Mentioned(turns[..k])))] + turns[k..])
  }

  /** Tokens of a transcript, the threshold, and the summariser's answer in each round. */
  datatype Model = Model(tokens: seq<Turn> -> nat, threshold: nat, split: nat -> nat, answers: nat -> Option<seq<string>>)

  /** The rounds from `round` on; the flag is whether the last attempt made, if any, gave a summary. */
  function Summarized(turns: seq<Turn>, m: Model, round: nat, reported: bool): (seq<Turn>, bool)
    requires Splits(m.split) && round <= ROUNDS
    decreases ROUNDS - round
  {
    if round == ROUNDS || m.tokens(turns) <= m.threshold || |turns| < MIN_TURNS then (turns, reported)
    else
      var next := SummarizeOldest(turns, m.split, m.answers(round));
      if next.None? then (turns, false)
      else if |next.value| >= |turns| then (turns, true)
      else Summarized(next.value, m, round + 1, true)
  }

  method MaybeSummarize(turns: seq<Turn>, m: Model) returns (compressed: seq<Turn>, reported: bool)
    requires Splits(m.split)
    ensures (compressed, reported) == Summarized(turns, m, 0, false)
  {
    if |turns| < MIN_TURNS {
      return turns, false;
    }
    compressed, reported := turns, false;
    for round := 0 to ROUNDS
      invariant Summarized(compressed, m, round, reported) == Summarized(turns, m, 0, false)
    {
      if m.tokens(compressed) <= m.threshold || |compressed| < MIN_TURNS {
        return;
      }
      var next := SummarizeOldest(compressed, m.split, m.answers(round));
      if next.None? {
        return compressed, false;
      }
      if |next.value| >= |compressed| {
        return compressed, true;
      }
      compressed, reported := next.value, true;
    }
  }

  /** The check that a summary is shorter never fails: two turns or more become one. */
  lemma SummaryShrinks(turns: seq<Turn>, split: nat -> nat, answer: Option<seq<string>>)
    requires Splits(split)
    ensures var next := SummarizeOldest(turns, split, answer);
            next.Some? ==> |next.value| < |turns| && next.value != [] && next.value[0].Summary?
                           && next.value[|next.value| - 1] == turns[|turns| - 1]
  {
    if |turns| >= MIN_TURNS {
      assert 2 <= split(|turns|) < |turns|;
    }
  }

  /** The transcript after j successful rounds, if that many are made. */
  function Folded(turns: seq<Turn>, m: Model, j: nat): Option<seq<Turn>>
    requires Splits(m.split)
  {
    if j == 0 then Some(turns)
    else
      var before := Folded(turns, m, j - 1);
      if before.None? || !Due(before.value, m) then None
      else SummarizeOldest(before.value, m.split, m.answers(j - 1))
  }

  /** A further attempt is due. */
  predicate Due(turns: seq<Turn>, m: Model) {
    m.tokens(turns) > m.threshold && |turns| >= MIN_TURNS
  }

  /** After j successful rounds another is due, and its attempt fails. */
  ghost predicate FailsAfter(turns: seq<Turn>, m: Model, j: nat)
    requires Splits(m.split)
  {
    var now := Folded(turns, m, j);
    now.Some? && Due(now.value, m) && m.answers(j).None?
  }

  /** Every successful round shortens the transcript. */
  lemma {:induction false} FoldedShrinks(turns: seq<Turn>, m: Model, j: nat)
    requires Splits(m.split) && Folded(turns, m, j).Some?
    ensures |Folded(turns, m, j).value| + j <= |turns|
  {
    if j > 0 {
      FoldedShrinks(turns, m, j - 1);
      SummaryShrinks(Folded(turns, m, j - 1).value, m.split, m.answers(j - 1));
    }
  }

  /** No attempt fails after a round that was not reached. */
  lemma {:induction false} FoldedBefore(turns: seq<Turn>, m: Model, i: nat, j: nat)
    requires Splits(m.split) && i <= j && Folded(turns, m, j).Some?
    ensures Folded(turns, m, i).Some? && (i < j ==> !FailsAfter(turns, m, i) && Due(Folded(turns, m, i).value, m))
  {
    if i < j {
      FoldedBefore(turns, m, i, j - 1);
    }
  }

  /** The rounds end with the first attempt that fails, and then hand on nothing. */
  lemma {:induction false} StopsAt(turns: seq<Turn>, m: Model, round: nat, j: nat)
    requires Splits(m.split) && round <= j < ROUNDS && FailsAfter(turns, m, j) && Folded(turns, m, round).Some?
    ensures Summarized(Folded(turns, m, round).value, m, round, round > 0) == (Folded(turns, m, j).value, false)
    decreases j - round
  {
    FoldedBefore(turns, m, round, j);
    if round < j {
      FoldedBefore(turns, m, round + 1, j);
      SummaryShrinks(Folded(turns, m, round).value, m.split, m.answers(round));
      StopsAt(turns, m, round + 1, j);
    }
  }

  ghost predicate NoneFails(turns: seq<Turn>, m: Model)
    requires Splits(m.split)
  {
    forall j: nat :: j < ROUNDS ==> !FailsAfter(turns, m, j)
  }

  /** When no attempt fails, a summary is handed on if there was one. */
  lemma {:induction false} NeverStops(turns: seq<Turn>, m: Model, round: nat)
    requires Splits(m.split) && round <= ROUNDS && NoneFails(turns, m) && Folded(turns, m, round).Some?
    ensures var now := Folded(turns, m, round).value;
            var r := Summarized(now, m, round, round > 0);
            && |r.0| <= |now| && (r.0 != now ==> |r.0| < |now|)
            && (r.1 <==> round > 0 || r.0 != now)
    decreases ROUNDS - round
  {
    var now := Folded(turns, m, round).value;
    if round < ROUNDS && Due(now, m) {
      assert !FailsAfter(turns, m, round);
      SummaryShrinks(now, m.split, m.answers(round));
      NeverStops(turns, m, round + 1);
    }
  }

  /**
    A summary is handed on exactly when the transcript has changed and no attempt failed; and it
    changes without one exactly when, after at least one successful round and before the last,
    another was due and its attempt failed.
   */
  lemma ReportedIff(turns: seq<Turn>, m: Model)
    requires Splits(m.split)
    ensures var r := Summarized(turns, m, 0, false);
            && |r.0| <= |turns| && (r.0 != turns ==> |r.0| < |turns|)
            && (r.1 <==> r.0 != turns && NoneFails(turns, m))
            && (r.0 != turns && !r.1 <==> exists j: nat :: 1 <= j < ROUNDS && FailsAfter(turns, m, j))
  {
    if NoneFails(turns, m) {
      NeverStops(turns, m, 0);
    } else {
      var j: nat :| j < ROUNDS && FailsAfter(turns, m, j);
      FailedRun(turns, m, j);
      if k: nat :| 1 <= k < ROUNDS && FailsAfter(turns, m, k) {
        FailedRun(turns, m, k);
      }
    }
  }

  lemma FailedRun(turns: seq<Turn>, m: Model, j: nat)
    requires Splits(m.split) && j < ROUNDS && FailsAfter(turns, m, j)
    ensures var r := Summarized(turns, m, 0, false); !r.1 && |r.0| + j <= |turns| && (j == 0 ==> r.0 == turns)
  {
    StopsAt(turns, m, 0, j);
    FoldedShrinks(turns, m, j);
  }

  /** It does happen: eight turns, each a token, are folded to four, and the second attempt fails. */
  lemma LostReport(turns: seq<Turn>)
    requires |turns| == 8
    ensures var m := Model((ts: seq<Turn>) => |ts|, 3, (n: nat) => n * 7 / 10, (i: nat) => if i == 0 then Some([]) else None);
            && Splits(m.split)
            && var r := Summarized(turns, m, 0, false); |r.0| == 4 && !r.1
  {
    var m := Model((ts: seq<Turn>) => |ts|, 3, (n: nat) => n * 7 / 10, (i: nat) => if i == 0 then Some([]) else None);
    var next := SummarizeOldest(turns, m.split, m.answers(0));
    assert |next.value| == 4;
    assert Summarized(next.value, m, 1, true) == (next.value, false);
  }

  // ----- refs across summaries -----

  ghost predicate Knows(turns: seq<Turn>, ref: string) {
    exists t :: t in turns && (ref in t.mentions || (t.Summary? && ref in t.carried))
  }

  lemma {:induction false} MentionedExact(turns: seq<Turn>, ref: string)
    ensures ref in Mentioned(turns) <==> exists t :: t in turns && ref in t.mentions
  {
    if turns != [] {
      var front, last := turns[..|turns| - 1], turns[|turns| - 1];
      MentionedExact(front, ref);
      assert turns == front + [last];
    }
  }

  lemma KnowsAppend(a: seq<Turn>, b: seq<Turn>, ref: string)
    ensures Knows(a + b, ref) <==> Knows(a, ref) || Knows(b, ref)
  {
    if t :| t in a && (ref in t.mentions || (t.Summary? && ref in t.carried)) {
      assert t in a + b;
    }
    if t :| t in b && (ref in t.mentions || (t.Summary? && ref in t.carried)) {
      assert t in a + b;
    }
  }

  /**
    A ref known before a summary is known after it exactly when it is still written somewhere:
    in the text of a turn that was folded, in the new summary, or among the turns kept. What only
    the metadata of an earlier, folded summary carried is forgotten.
   */
  lemma RefKeptIff(turns: seq<Turn>, split: nat -> nat, answer: seq<string>, ref: string)
    requires Splits(split) && |turns| >= MIN_TURNS && ref != ""
    ensures 2 <= split(|turns|) < |turns|
    ensures Knows(SummarizeOldest(turns, split, Some(answer)).value, ref)
            <==> ref in answer || (exists t :: t in turns[..split(|turns|)] && ref in t.mentions) || Knows(turns[split(|turns|)..], ref)
  {
    var k := split(|turns|);
    var summary := Summary(answer, MergedRefs(Mentioned(turns[..k])));
    MentionedExact(turns[..k], ref);
    MergedRefsExact(Mentioned(turns[..k]));
    KnowsAppend([summary], turns[k..], ref);
    assert summary in [summary];
  }

  /** A second summary that does not repeat it forgets what the first one carried. */
  lemma SecondSummaryForgets(rest: seq<Turn>, ref: string)
    requires |rest| == 3 && ref != "" && forall t :: t in rest ==> t.Ordinary? && t.mentions == []
    ensures var turns, split := [Summary([], [ref])] + rest, (n: nat) => n * 7 / 10;
            Splits(split) && Knows(turns, ref) && !Knows(SummarizeOldest(turns, split, Some([])).value, ref)
  {
    var turns, split := [Summary([], [ref])] + rest, (n: nat) => n * 7 / 10;
    assert turns[0] in turns;
    RefKeptIff(turns, split, [], ref);
    assert split(|turns|) == 2 && turns[2..] == rest[1..];
  }

  // ----- trimming -----

  function Summaries(turns: seq<Turn>): seq<Turn> {
    if turns == [] then []
    else Summaries(turns[..|turns| - 1]) + if turns[|turns| - 1].Summary? then [turns[|turns| - 1]] else []
  }

  function Ordinaries(turns: seq<Turn>): seq<Turn> {
    if turns == [] then []
    else Ordinaries(turns[..|turns| - 1]) + if turns[|turns| - 1].Summary? then [] else [turns[|turns| - 1]]
  }

  function LastOf(turns: seq<Turn>, n: nat): seq<Turn> {
    if n >= |turns| then turns else turns[|turns| - n..]
  }

  function Trimmed(turns: seq<Turn>, maxTurns: nat): seq<Turn> {
    if |turns| <= maxTurns then turns
    else
      var summaries := Summaries(turns);
      var keep := if maxTurns > |summaries| then maxTurns - |summaries| else 0;
      summaries + LastOf(Ordinaries(turns), keep)
  }

  lemma {:induction false} SizesAdd(turns: seq<Turn>)
    ensures |Summaries(turns)| + |Ordinaries(turns)| == |turns|
  {
    if turns != [] {
      SizesAdd(turns[..|turns| - 1]);
    }
  }

  /** For any transcript: no summary is dropped, and the length is the limit unless summaries alone exceed it. */
  lemma TrimmedSize(turns: seq<Turn>, maxTurns: nat)
    requires |turns| > maxTurns
    ensures |Trimmed(turns, maxTurns)| == if |Summaries(turns)| > maxTurns then |Summaries(turns)| else maxTurns
  {
    SizesAdd(turns);
  }

  // ----- the invariant -----

  /** At most one summary, and only in front. */
  ghost predicate SummaryFirst(turns: seq<Turn>) {
    forall i :: 0 < i < |turns| ==> !turns[i].Summary?
  }

  function OrdinaryPart(turns: seq<Turn>): seq<Turn> {
    if turns != [] && turns[0].Summary? then turns[1..] else turns
  }

  ghost predicate SuffixOf(part: seq<Turn>, whole: seq<Turn>) {
    |part| <= |whole| && forall i :: 0 <= i < |part| ==> part[i] == whole[|whole| - |part| + i]
  }

  /** `talk` is the conversation: every turn added and not taken back. */
  ghost predicate Remembers(turns: seq<Turn>, talk: seq<Turn>) {
    SummaryFirst(turns) && SuffixOf(OrdinaryPart(turns), talk)
  }

  lemma {:induction false} SplitParts(turns: seq<Turn>)
    requires SummaryFirst(turns)
    ensures Ordinaries(turns) == OrdinaryPart(turns)
    ensures Summaries(turns) == turns[..|turns| - |OrdinaryPart(turns)|]
  {
    if |turns| > 1 {
      var front := turns[..|turns| - 1];
      SplitParts(front);
      assert OrdinaryPart(turns) == OrdinaryPart(front) + [turns[|turns| - 1]];
    } else if |turns| == 1 {
      assert turns[..0] == [];
    }
  }

  lemma SuffixSnoc(part: seq<Turn>, whole: seq<Turn>, t: Turn)
    ensures SuffixOf(part, whole) ==> SuffixOf(part + [t], whole + [t])
  {
  }

  lemma SuffixFront(part: seq<Turn>, whole: seq<Turn>)
    requires part != [] && SuffixOf(part, whole)
    ensures whole != [] && whole[|whole| - 1] == part[|part| - 1]
    ensures SuffixOf(part[..|part| - 1], whole[..|whole| - 1])
  {
    assert part[|part| - 1] == whole[|whole| - |part| + (|part| - 1)];
  }

  lemma SuffixShorter(part: seq<Turn>, whole: seq<Turn>, n: nat)
    requires SuffixOf(part, whole) && n <= |part|
    ensures SuffixOf(part[|part| - n..], whole)
  {
  }

  /** The conversation is remembered, and its newest turn is the last one. */
  ghost predicate EndsWith(turns: seq<Turn>, talk: seq<Turn>, newest: Turn) {
    Remembers(turns, talk) && turns != [] && turns[|turns| - 1] == newest
  }

  lemma FoldedRemembers(turns: seq<Turn>, talk: seq<Turn>, k: nat, summary: Turn)
    requires Remembers(turns, talk) && 2 <= k < |turns| && summary.Summary?
    ensures EndsWith([summary] + turns[k..], talk, turns[|turns| - 1])
  {
    var part, next := OrdinaryPart(turns), [summary] + turns[k..];
    assert turns[k..] == part[|part| - (|turns| - k)..];
    SuffixShorter(part, talk, |turns| - k);
    assert OrdinaryPart(next) == turns[k..];
  }

  lemma SummarizeRemembers(turns: seq<Turn>, talk: seq<Turn>, newest: Turn, split: nat -> nat, answer: Option<seq<string>>)
    requires Splits(split)
    ensures var next := SummarizeOldest(turns, split, answer);
            EndsWith(turns, talk, newest) && next.Some? ==> EndsWith(next.value, talk, newest)
  {
    if EndsWith(turns, talk, newest) && |turns| >= MIN_TURNS && answer.Some? {
      assert 2 <= split(|turns|) < |turns|;
      FoldedRemembers(turns, talk, split(|turns|), SummarizeOldest(turns, split, answer).value[0]);
    }
  }

  /** A property of transcripts that folding the oldest turns keeps. */
  ghost predicate KeptByFolding(p: seq<Turn> -> bool, split: nat -> nat)
    requires Splits(split)
  {
    forall ts, a :: p(ts) && SummarizeOldest(ts, split, a).Some? ==> p(SummarizeOldest(ts, split, a).value)
  }

  lemma {:induction false} SummarizedKeeps(p: seq<Turn> -> bool, turns: seq<Turn>, m: Model, round: nat, reported: bool)
    requires Splits(m.split) && round <= ROUNDS && p(turns) && KeptByFolding(p, m.split)
    ensures p(Summarized(turns, m, round, reported).0)
    decreases ROUNDS - round
  {
    if round < ROUNDS && m.tokens(turns) > m.threshold && |turns| >= MIN_TURNS {
      var next := SummarizeOldest(turns, m.split, m.answers(round));
      if next.Some? {
        SummarizedKeeps(p, next.value, m, round + 1, true);
      }
    }
  }

  lemma SummarizedRemembers(turns: seq<Turn>, talk: seq<Turn>, newest: Turn, m: Model)
    requires Splits(m.split) && EndsWith(turns, talk, newest)
    ensures EndsWith(Summarized(turns, m, 0, false).0, talk, newest)
  {
    var p := ts => EndsWith(ts, talk, newest);
    forall ts, a | p(ts) && SummarizeOldest(ts, m.split, a).Some?
      ensures p(SummarizeOldest(ts, m.split, a).value)
    {
      SummarizeRemembers(ts, talk, newest, m.split, a);
    }
    SummarizedKeeps(p, turns, m, 0, false);
  }

  lemma FrontAndTail(front: seq<Turn>, tail: seq<Turn>, talk: seq<Turn>)
    requires |front| <= 1 && (front != [] ==> front[0].Summary?)
    requires SuffixOf(tail, talk) && forall i :: 0 <= i < |tail| ==> tail[i].Ordinary?
    ensures Remembers(front + tail, talk)
  {
    assert OrdinaryPart(front + tail) == tail;
  }

  lemma LastOfRemembered(part: seq<Turn>, talk: seq<Turn>, n: nat)
    requires SuffixOf(part, talk) && forall i :: 0 <= i < |part| ==> part[i].Ordinary?
    ensures SuffixOf(LastOf(part, n), talk) && forall i :: 0 <= i < |LastOf(part, n)| ==> LastOf(part, n)[i].Ordinary?
  {
    if n < |part| {
      SuffixShorter(part, talk, n);
    }
  }

  /** The summary, if there is one. */
  lemma FrontParts(turns: seq<Turn>)
    requires SummaryFirst(turns)
    ensures var front := Summaries(turns);
            && |front| == (if turns != [] && turns[0].Summary? then 1 else 0)
            && forall i :: 0 <= i < |front| ==> front[i].Summary?
  {
    SplitParts(turns);
  }

  lemma TrimmedParts(turns: seq<Turn>, maxTurns: nat) returns (front: seq<Turn>, keep: nat)
    requires SummaryFirst(turns) && |turns| > maxTurns
    ensures |front| == (if turns[0].Summary? then 1 else 0) && forall i :: 0 <= i < |front| ==> front[i].Summary?
    ensures keep == if maxTurns > |front| then maxTurns - |front| else 0
    ensures Trimmed(turns, maxTurns) == front + LastOf(OrdinaryPart(turns), keep)
  {
    FrontParts(turns);
    front := Summaries(turns);
    keep := if maxTurns > |front| then maxTurns - |front| else 0;
    assert Ordinaries(turns) == OrdinaryPart(turns) by {
      SplitParts(turns);
    }
  }

  lemma TrimmedRemembers(turns: seq<Turn>, talk: seq<Turn>, maxTurns: nat)
    requires Remembers(turns, talk)
    ensures Remembers(Trimmed(turns, maxTurns), talk)
  {
    if |turns| > maxTurns {
      var front, keep := TrimmedParts(turns, maxTurns);
      OrdinaryOnly(turns);
      LastOfRemembered(OrdinaryPart(turns), talk, keep);
      FrontAndTail(front, LastOf(OrdinaryPart(turns), keep), talk);
    }
  }

  lemma OrdinaryOnly(turns: seq<Turn>)
    requires SummaryFirst(turns)
    ensures forall i :: 0 <= i < |OrdinaryPart(turns)| ==> OrdinaryPart(turns)[i].Ordinary?
  {
  }

  /** Trimming keeps the newest turn exactly when there is room for a turn beside the summary. */
  lemma NewestKeptIff(turns: seq<Turn>, talk: seq<Turn>, maxTurns: nat)
    requires Remembers(turns, talk) && turns != [] && !turns[|turns| - 1].Summary?
    ensures var r := Trimmed(turns, maxTurns);
            (r != [] && r[|r| - 1] == turns[|turns| - 1])
            <==> |turns| <= maxTurns || maxTurns > (if turns[0].Summary? then 1 else 0)
  {
    if |turns| > maxTurns {
      var front, keep := TrimmedParts(turns, maxTurns);
      PartEnds(turns);
      NewestOfParts(front, OrdinaryPart(turns), keep);
    }
  }

  lemma PartEnds(turns: seq<Turn>)
    requires turns != [] && !turns[|turns| - 1].Summary?
    ensures var part := OrdinaryPart(turns); part != [] && part[|part| - 1] == turns[|turns| - 1]
  {
  }

  lemma NewestOfParts(front: seq<Turn>, part: seq<Turn>, keep: nat)
    requires part != [] && !part[|part| - 1].Summary? && forall i :: 0 <= i < |front| ==> front[i].Summary?
    ensures var r := front + LastOf(part, keep);
            (r != [] && r[|r| - 1] == part[|part| - 1]) <==> keep > 0
  {
  }

  // ----- the memory of a thread -----

  /** The transcript with one more turn, summarised, and whether a summary was handed on. */
  function Compressed(turns: seq<Turn>, turn: Turn, model: Option<Model>): (seq<Turn>, bool)
    requires model.Some? ==> Splits(model.value.split)
  {
    if model.Some? then Summarized(turns + [turn], model.value, 0, false) else (turns + [turn], false)
  }

  /** What is stored then. */
  function Added(turns: seq<Turn>, turn: Turn, maxTurns: nat, model: Option<Model>): (seq<Turn>, bool)
    requires model.Some? ==> Splits(model.value.split)
  {
    var compressed := Compressed(turns, turn, model);
    (Trimmed(compressed.0, maxTurns), compressed.1)
  }

  predicate HasSummary(turns: seq<Turn>) { turns != [] && turns[0].Summary? }

  /**
    Adding to any stored transcript, also one written under another limit, leaves a summary at
    most in front of the end of the conversation. The new turn is last exactly when the limit is
    two or more, or is one and there is no summary.
   */
  lemma AddedRemembers(turns: seq<Turn>, talk: seq<Turn>, turn: Turn, maxTurns: nat, model: Option<Model>)
    requires Remembers(turns, talk) && turn.Ordinary?
    requires model.Some? ==> Splits(model.value.split)
    ensures var after := Added(turns, turn, maxTurns, model).0;
            && Remembers(after, talk + [turn])
            && (|after| <= maxTurns || (maxTurns == 0 && |after| == 1 && HasSummary(after)))
            && (after != [] && after[|after| - 1] == turn
                <==> maxTurns >= 2 || (maxTurns == 1 && !HasSummary(Compressed(turns, turn, model).0)))
  {
    CompressedEnds(turns, talk, turn, model);
    TrimmedEnds(Compressed(turns, turn, model).0, talk + [turn], turn, maxTurns);
  }

  lemma CompressedEnds(turns: seq<Turn>, talk: seq<Turn>, turn: Turn, model: Option<Model>)
    requires Remembers(turns, talk) && turn.Ordinary?
    requires model.Some? ==> Splits(model.value.split)
    ensures EndsWith(Compressed(turns, turn, model).0, talk + [turn], turn)
  {
    GrownRemembers(turns, talk, turn);
    if model.Some? {
      SummarizedRemembers(turns + [turn], talk + [turn], turn, model.value);
    }
  }

  lemma TrimmedEnds(now: seq<Turn>, talk: seq<Turn>, turn: Turn, maxTurns: nat)
    requires EndsWith(now, talk, turn) && turn.Ordinary?
    ensures var after := Trimmed(now, maxTurns);
            && Remembers(after, talk)
            && (|after| <= maxTurns || (maxTurns == 0 && |after| == 1 && HasSummary(after)))
            && (after != [] && after[|after| - 1] == turn <==> maxTurns >= 2 || (maxTurns == 1 && !HasSummary(now)))
  {
    TrimmedRemembers(now, talk, maxTurns);
    NewestKeptIff(now, talk, maxTurns);
    TrimmedWithin(now, talk, maxTurns);
  }

  /** A limit of one or two leaves too few turns for a summary ever to be made. */
  lemma SmallLimitNoSummary(turns: seq<Turn>, talk: seq<Turn>, turn: Turn, maxTurns: nat, model: Option<Model>)
    requires Remembers(turns, talk) && turn.Ordinary? && |turns| <= maxTurns <= 2 && !HasSummary(turns)
    requires model.Some? ==> Splits(model.value.split)
    ensures Compressed(turns, turn, model).0 == turns + [turn] && !HasSummary(Added(turns, turn, maxTurns, model).0)
  {
    GrownRemembers(turns, talk, turn);
    SplitParts(turns + [turn]);
    assert OrdinaryPart(turns + [turn]) == turns + [turn];
  }

  /** A transcript summarised under a larger limit, reopened under a limit of one, loses the new turn. */
  lemma SmallerLimitDropsNewest(o: seq<Turn>)
    requires |o| == 5 && forall i :: 0 <= i < 5 ==> o[i] == Ordinary(i, [])
    ensures var m := Model((ts: seq<Turn>) => |ts|, 3, (n: nat) => n * 7 / 10, (i: nat) => Some([]));
            && Splits(m.split)
            && var stored := Added(o[..3], o[3], 50, Some(m)).0;
               stored == [Summary([], []), o[2], o[3]] && Added(stored, o[4], 1, None).0 == [Summary([], [])]
  {
    var m := Model((ts: seq<Turn>) => |ts|, 3, (n: nat) => n * 7 / 10, (i: nat) => Some([]));
    var grown := o[..3] + [o[3]];
    NothingMentioned(grown[..2]);
    var folded := SummarizeOldest(grown, m.split, Some([])).value;
    assert folded == [Summary([], [])] + grown[2..] == [Summary([], []), o[2], o[3]];
    assert Summarized(folded, m, 1, true) == (folded, true);
    LimitOneDrops(folded, o[4]);
  }

  lemma {:induction false} NothingMentioned(turns: seq<Turn>)
    requires forall t :: t in turns ==> t.mentions == []
    ensures Mentioned(turns) == [] && MergedRefs(Mentioned(turns)) == []
  {
    if turns != [] {
      NothingMentioned(turns[..|turns| - 1]);
    }
  }

  lemma LimitOneDrops(stored: seq<Turn>, turn: Turn)
    requires SummaryFirst(stored) && HasSummary(stored) && turn.Ordinary?
    ensures Added(stored, turn, 1, None).0 == [stored[0]]
  {
    var more := stored + [turn];
    SplitParts(more);
    assert more[..1] == [stored[0]];
  }

  method Append(turns: seq<Turn>, turn: Turn, maxTurns: nat, model: Option<Model>) returns (now: seq<Turn>, persisted: bool)
    requires model.Some? ==> Splits(model.value.split)
    ensures (now, persisted) == Added(turns, turn, maxTurns, model)
  {
    now, persisted := turns + [turn], false;
    if model.Some? {
      now, persisted := MaybeSummarize(now, model.value);
    }
    if |now| > maxTurns {
      now := Trimmed(now, maxTurns);
    }
  }

  class ThreadMemory {
    const maxTurns: nat
    const model: Option<Model>
    var turns: seq<Turn>
    ghost var talk: seq<Turn>

    ghost predicate Valid()
      reads this
    {
      && Remembers(turns, talk) && |turns| <= maxTurns && (maxTurns <= 2 ==> !HasSummary(turns))
      && (model.Some? ==> Splits(model.value.split))
    }

    constructor (maxTurns: nat, model: Option<Model>)
      requires model.Some? ==> Splits(model.value.split)
      ensures Valid() && turns == [] && talk == [] && this.maxTurns == maxTurns && this.model == model
    {
      this.maxTurns, this.model := maxTurns, model;
      turns, talk := [], [];
    }

    method AddTurn(turn: Turn) returns (persisted: bool)
      requires Valid() && turn.Ordinary?
      modifies this
      ensures Valid() && talk == old(talk) + [turn]
      ensures (turns, persisted) == Added(old(turns), turn, maxTurns, model)
      ensures maxTurns >= 1 ==> turns != [] && turns[|turns| - 1] == turn
    {
      AddedRemembers(turns, talk, turn, maxTurns, model);
      if maxTurns <= 2 {
        SmallLimitNoSummary(turns, talk, turn, maxTurns, model);
      }
      var now;
      now, persisted := Append(turns, turn, maxTurns, model);
      turns, talk := now, talk + [turn];
    }

    /** The new number of turns, or None if there was nothing to take back. */
    method PopLastTurn() returns (count: Option<nat>)
      requires Valid()
      modifies this
      ensures Valid()
      ensures turns == Popped(old(turns))
      ensures count == if old(turns) == [] then None else Some(|turns|)
      ensures talk == TalkAfterPop(old(turns), old(talk))
    {
      PoppedRemembers(turns, talk);
      talk := TalkAfterPop(turns, talk);
      if turns == [] {
        count := None;
      } else {
        turns := turns[..|turns| - 1];
        count := Some(|turns|);
      }
    }
  }

  function Popped(turns: seq<Turn>): seq<Turn> {
    if turns == [] then [] else turns[..|turns| - 1]
  }

  /** Popping takes back the newest turn of the conversation, unless only a summary is left. */
  ghost function TalkAfterPop(turns: seq<Turn>, talk: seq<Turn>): seq<Turn> {
    if turns == [] || turns[|turns| - 1].Summary? || talk == [] then talk else talk[..|talk| - 1]
  }

  lemma GrownRemembers(turns: seq<Turn>, talk: seq<Turn>, turn: Turn)
    requires Remembers(turns, talk) && turn.Ordinary?
    ensures Remembers(turns + [turn], talk + [turn])
  {
    var grown := turns + [turn];
    SuffixSnoc(OrdinaryPart(turns), talk, turn);
    assert OrdinaryPart(grown) == OrdinaryPart(turns) + [turn];
  }

  lemma TrimmedWithin(turns: seq<Turn>, talk: seq<Turn>, maxTurns: nat)
    requires Remembers(turns, talk)
    ensures var r := Trimmed(turns, maxTurns);
            |r| <= maxTurns || (maxTurns == 0 && |r| == 1 && HasSummary(r))
  {
    if |turns| > maxTurns {
      SplitParts(turns);
      TrimmedSize(turns, maxTurns);
    }
  }

  /** What is popped is the newest turn of the conversation, or the summary when nothing else is left. */
  lemma PoppedRemembers(turns: seq<Turn>, talk: seq<Turn>)
    requires Remembers(turns, talk)
    ensures Remembers(Popped(turns), TalkAfterPop(turns, talk)) && |Popped(turns)| <= |turns|
    ensures HasSummary(Popped(turns)) ==> HasSummary(turns)
    ensures turns == [] || if turns[|turns| - 1].Summary? then |turns| == 1 else talk != [] && talk[|talk| - 1] == turns[|turns| - 1]
  {
    if turns != [] && turns[|turns| - 1].Ordinary? {
      var front, part := turns[..|turns| - 1], OrdinaryPart(turns);
      assert part != [] && part[|part| - 1] == turns[|turns| - 1];
      SuffixFront(part, talk);
      assert OrdinaryPart(front) == part[..|part| - 1];
    }
  }
}
