/**
  Repair of message lists for chat templates that insist on one leading system message and a
  user turn with text in it.
 */
module ChatTemplate {
  import opened Wrappers

  /** Plain text; content blocks, by the text they flatten to; or nothing. */
  datatype Content = Plain(text: string) | Blocks(text: string) | NoContent

  datatype Msg =
    | System(content: Content)
    | Human(content: Content, id: string)
    | Other(payload: string)

  const DEFAULT_USER_TURN := "Use the available tools to " + "complete the requested task."

  predicate IsSpace(c: char) { c == ' ' || c == '\t' || c == '\n' || c == '\r' }

  function Strip(s: string): (r: string)
    ensures r != "" ==> !IsSpace(r[0]) && !IsSpace(r[|r| - 1])
    ensures s != "" && !IsSpace(s[0]) && !IsSpace(s[|s| - 1]) ==> r == s
    decreases |s|
  {
    if s == "" then ""
    else if IsSpace(s[0]) then Strip(s[1..])
    else if IsSpace(s[|s| - 1]) then Strip(s[..|s| - 1])
    else s
  }

  /** The text of a content, if there is any. */
  function TextOf(c: Content): (r: Option<string>)
    ensures r.Some? ==> r.value != "" && Strip(r.value) == r.value
  {
    if c.NoContent? || Strip(c.text) == "" then None else Some(Strip(c.text))
  }

  predicate HasText(m: Msg) { m.Human? && TextOf(m.content).Some? }

  predicate HasUserText(ms: seq<Msg>) {
    exists i :: 0 <= i < |ms| && HasText(ms[i])
  }

  function LatestUserText(ms: seq<Msg>): (r: Option<string>)
    ensures r.Some? <==> HasUserText(ms)
    ensures r.Some? ==> r.value != "" && Strip(r.value) == r.value
  {
    if ms == [] then None
    else if HasText(ms[|ms| - 1]) then TextOf(ms[|ms| - 1].content)
    else LatestUserText(ms[..|ms| - 1])
  }

  // ----- flattening user turns -----

  function NormalizedMsg(m: Msg): Msg {
    if HasText(m) && m.content.Blocks? then m.(content := Plain(TextOf(m.content).value)) else m
  }

  function Normalized(ms: seq<Msg>): (r: seq<Msg>)
    ensures |r| == |ms| && forall i :: 0 <= i < |r| ==> r[i] == NormalizedMsg(ms[i])
  {
    seq(|ms|, i requires 0 <= i < |ms| => NormalizedMsg(ms[i]))
  }

  method NormalizeMessages(ms: seq<Msg>) returns (r: seq<Msg>)
    ensures r == Normalized(ms)
  {
    var out: seq<Msg> := [];
    var changed := false;
    for i := 0 to |ms|
      invariant |out| == i && forall j :: 0 <= j < i ==> out[j] == NormalizedMsg(ms[j])
      invariant !changed ==> out == ms[..i]
    {
      if !ms[i].Human? || (ms[i].content.Plain? && Strip(ms[i].content.text) != "") || TextOf(ms[i].content).None? {
        out := out + [ms[i]];
        continue;
      }
      out := out + [ms[i].(content := Plain(TextOf(ms[i].content).value))];
      changed := true;
    }
    r := if changed then out else ms;
  }

  // ----- one system message, first -----

  function Systems(ms: seq<Msg>): seq<Msg> {
    if ms == [] then []
    else Systems(ms[..|ms| - 1]) + if ms[|ms| - 1].System? then [ms[|ms| - 1]] else []
  }

  function NonSystem(ms: seq<Msg>): seq<Msg> {
    if ms == [] then []
    else NonSystem(ms[..|ms| - 1]) + if ms[|ms| - 1].System? then [] else [ms[|ms| - 1]]
  }

  /** The texts of the messages that have one, two line breaks apart. */
  function Merged(systems: seq<Msg>): string
    requires forall m :: m in systems ==> m.System?
  {
    if systems == [] then ""
    else
      var before, last := Merged(systems[..|systems| - 1]), TextOf(systems[|systems| - 1].content);
      if last.None? then before
      else if before == "" then last.value
      else before + "\n\n" + last.value
  }

  lemma {:induction false} SystemsAreSystems(ms: seq<Msg>)
    ensures (forall m :: m in Systems(ms) <==> m in ms && m.System?)
    ensures forall m :: m in NonSystem(ms) <==> m in ms && !m.System?
  {
    if ms != [] {
      SystemsAreSystems(ms[..|ms| - 1]);
      assert ms == ms[..|ms| - 1] + [ms[|ms| - 1]];
    }
  }

  function Coalesced(ms: seq<Msg>): seq<Msg> {
    SystemsAreSystems(ms);
    var systems := Systems(ms);
    if systems == [] || (|systems| == 1 && ms[0].System?) then ms
    else [System(Plain(Merged(systems)))] + NonSystem(ms)
  }

  predicate SystemFirst(ms: seq<Msg>) {
    forall i :: 0 < i < |ms| ==> !ms[i].System?
  }

  lemma SplitSnoc(a: seq<Msg>, m: Msg)
    ensures NonSystem(a + [m]) == NonSystem(a) + if m.System? then [] else [m]
    ensures Systems(a + [m]) == Systems(a) + if m.System? then [m] else []
  {
    assert (a + [m])[..|a|] == a;
  }

  lemma {:induction false} SplitAppend(a: seq<Msg>, b: seq<Msg>)
    ensures NonSystem(a + b) == NonSystem(a) + NonSystem(b)
    ensures Systems(a + b) == Systems(a) + Systems(b)
  {
    if b == [] {
      assert a + b == a;
    } else {
      var front, last := b[..|b| - 1], b[|b| - 1];
      SplitAppend(a, front);
      SplitSnoc(a + front, last);
      assert a + b == (a + front) + [last];
    }
  }

  lemma {:induction false} NoSystems(ms: seq<Msg>)
    requires forall i :: 0 <= i < |ms| ==> !ms[i].System?
    ensures Systems(ms) == [] && NonSystem(ms) == ms
  {
    if ms != [] {
      NoSystems(ms[..|ms| - 1]);
    }
  }

  lemma SplitFirst(ms: seq<Msg>)
    requires ms != []
    ensures Systems(ms) == (if ms[0].System? then [ms[0]] else []) + Systems(ms[1..])
    ensures NonSystem(ms) == (if ms[0].System? then [] else [ms[0]]) + NonSystem(ms[1..])
  {
    assert ms == [ms[0]] + ms[1..];
    SplitAppend([ms[0]], ms[1..]);
    assert [ms[0]][..0] == [];
  }

  lemma FirstOnly(ms: seq<Msg>)
    requires SystemFirst(ms) && ms != []
    ensures Systems(ms) == if ms[0].System? then [ms[0]] else []
    ensures NonSystem(ms) == if ms[0].System? then ms[1..] else ms
  {
    SplitFirst(ms);
    var rest := ms[1..];
    forall i | 0 <= i < |rest|
      ensures !rest[i].System?
    {
      assert rest[i] == ms[i + 1];
    }
    NoSystems(rest);
  }

  lemma LaterSystem(ms: seq<Msg>, i: nat)
    requires 0 < i < |ms| && ms[i].System?
    ensures Systems(ms) != [] && (ms[0].System? ==> |Systems(ms)| > 1)
  {
    SplitFirst(ms);
    SystemsAreSystems(ms[1..]);
    assert ms[1..][i - 1] in Systems(ms[1..]);
  }

  lemma SystemCount(ms: seq<Msg>)
    ensures SystemFirst(ms) <==> Systems(ms) == [] || (|Systems(ms)| == 1 && ms[0].System?)
    ensures SystemFirst(ms) && ms != [] && ms[0].System? ==> NonSystem(ms) == ms[1..]
    ensures SystemFirst(ms) && (ms == [] || !ms[0].System?) ==> NonSystem(ms) == ms && Systems(ms) == []
  {
    if ms != [] {
      if SystemFirst(ms) {
        FirstOnly(ms);
      } else {
        var i: nat :| 0 < i < |ms| && ms[i].System?;
        LaterSystem(ms, i);
      }
    }
  }

  lemma NonSystemHasNone(ms: seq<Msg>)
    ensures NonSystem(NonSystem(ms)) == NonSystem(ms) && Systems(NonSystem(ms)) == []
  {
    SystemsAreSystems(ms);
    var rest := NonSystem(ms);
    assert SystemFirst(rest) && (rest == [] || !rest[0].System?) by {
      forall i | 0 <= i < |rest|
        ensures !rest[i].System?
      {
        assert rest[i] in rest;
      }
    }
    SystemCount(rest);
  }

  /** Merging gives at most one system message, at index 0, and keeps the others in order. */
  lemma CoalescedShape(ms: seq<Msg>)
    ensures var r := Coalesced(ms);
            && SystemFirst(r) && NonSystem(r) == NonSystem(ms)
            && (Systems(ms) != [] <==> r != [] && r[0].System?)
            && (HasUserText(r) <==> HasUserText(ms))
            && Coalesced(r) == r
  {
    var r := Coalesced(ms);
    SystemCount(ms);
    SystemsAreSystems(ms);
    NonSystemHasNone(ms);
    if r != ms {
      assert SystemFirst(r) by {
        forall i | 0 < i < |r|
          ensures !r[i].System?
        {
          assert r[i] in NonSystem(ms);
        }
      }
      SystemCount(r);
      assert r[1..] == NonSystem(ms);
    }
    SystemCount(r);
    SystemsAreSystems(r);
    if HasUserText(ms) {
      UserTextCarries(ms, r);
    }
    if HasUserText(r) {
      UserTextCarries(r, ms);
    }
  }

  lemma UserTextCarries(a: seq<Msg>, b: seq<Msg>)
    requires NonSystem(a) == NonSystem(b) && HasUserText(a)
    ensures HasUserText(b)
  {
    var i :| 0 <= i < |a| && HasText(a[i]);
    SystemsAreSystems(a);
    assert a[i] in NonSystem(b);
    SystemsAreSystems(b);
    var j :| 0 <= j < |b| && b[j] == a[i];
  }

  /** The merged message holds the text of every system message, in order. */
  lemma MergedAppends(systems: seq<Msg>, m: Msg)
    requires (forall s :: s in systems ==> s.System?) && m.System?
    ensures TextOf(m.content).None? ==> Merged(systems + [m]) == Merged(systems)
    ensures TextOf(m.content).Some? ==>
              Merged(systems + [m]) == (if Merged(systems) == "" then "" else Merged(systems) + "\n\n") + TextOf(m.content).value
  {
    assert (systems + [m])[..|systems|] == systems;
  }

  // ----- repair -----

  function Fallback(state: seq<Msg>): (r: string)
    ensures r != "" && Strip(r) == r
  {
    if LatestUserText(state).Some? then LatestUserText(state).value else DEFAULT_USER_TURN
  }

  function FillLast(flat: seq<Msg>, text: string): seq<Msg>
    requires flat != [] && flat[|flat| - 1].Human?
  {
    flat[..|flat| - 1] + [flat[|flat| - 1].(content := Plain(text))]
  }

  /** A flattened list in which some user turn has text: the last message is filled, or a turn put in front. */
  function Filled(flat: seq<Msg>, text: string): seq<Msg> {
    if HasUserText(flat) then flat
    else if flat != [] && flat[|flat| - 1].Human? then FillLast(flat, text)
    else [Human(Plain(text), "")] + flat
  }

  /** Flatten, make sure that some user turn has text, and put the system message first. */
  function Repaired(ms: seq<Msg>, state: seq<Msg>): seq<Msg> {
    Coalesced(Filled(Normalized(ms), Fallback(state)))
  }

  /** What is tried if the repaired list should still have no user turn with text. */
  method LastResort(repaired: seq<Msg>) returns (r: seq<Msg>)
    requires !HasUserText(repaired)
    ensures SystemFirst(r) && HasUserText(r)
  {
    for idx := 0 to |repaired|
      invariant forall j :: 0 <= j < idx ==> !repaired[j].Human?
    {
      if repaired[idx].Human? {
        var filled := repaired[idx := repaired[idx].(content := Plain(DEFAULT_USER_TURN))];
        assert HasText(filled[idx]);
        CoalescedShape(filled);
        return Coalesced(filled);
      }
    }
    var at := 0;
    while at < |repaired| && repaired[at].System?
      invariant at <= |repaired|
    {
      at := at + 1;
    }
    var inserted := repaired[..at] + [Human(Plain(DEFAULT_USER_TURN), "")] + repaired[at..];
    assert HasText(inserted[at]);
    CoalescedShape(inserted);
    r := Coalesced(inserted);
  }

  /** `last` says that the code of last resort was needed; RepairedShape shows that it never is. */
  method EnsureMessages(ms: seq<Msg>, state: seq<Msg>) returns (r: seq<Msg>, last: bool)
    ensures last <==> !HasUserText(Repaired(ms, state))
    ensures !last ==> r == Repaired(ms, state)
    ensures last ==> SystemFirst(r) && HasUserText(r)
  {
    var repaired := RepairMessages(ms, state);
    if HasUserText(repaired) {
      return repaired, false;
    }
    r := LastResort(repaired);
    last := true;
  }

  method RepairMessages(ms: seq<Msg>, state: seq<Msg>) returns (r: seq<Msg>)
    ensures r == Repaired(ms, state)
  {
    var flat := NormalizeMessages(ms);
    if !HasUserText(flat) {
      flat := FillTurn(flat, state);
    }
    r := Coalesced(flat);
  }

  method FillTurn(flat: seq<Msg>, state: seq<Msg>) returns (filled: seq<Msg>)
    requires !HasUserText(flat)
    ensures filled == Filled(flat, Fallback(state))
  {
    var latest := LatestUserText(state);
    var text := if latest.Some? then latest.value else DEFAULT_USER_TURN;
    if flat != [] && flat[|flat| - 1].Human? {
      filled := FillLast(flat, text);
    } else {
      filled := [Human(Plain(text), "")] + flat;
    }
  }

  lemma NormalizedKeeps(ms: seq<Msg>)
    ensures HasUserText(Normalized(ms)) <==> HasUserText(ms)
    ensures Normalized(Normalized(ms)) == Normalized(ms)
  {
    forall i | 0 <= i < |ms|
      ensures HasText(Normalized(ms)[i]) <==> HasText(ms[i])
    {
    }
  }

  lemma NormalizedAppend(a: seq<Msg>, b: seq<Msg>)
    ensures Normalized(a + b) == Normalized(a) + Normalized(b)
  {
  }

  lemma NormalizedSnoc(front: seq<Msg>, last: Msg)
    ensures Normalized(front + [last]) == Normalized(front) + [NormalizedMsg(last)]
  {
  }

  lemma {:induction false} NonSystemNormalized(ms: seq<Msg>)
    ensures NonSystem(Normalized(ms)) == Normalized(NonSystem(ms)) && Systems(Normalized(ms)) == Systems(ms)
  {
    if ms != [] {
      var front, last := ms[..|ms| - 1], ms[|ms| - 1];
      NonSystemNormalized(front);
      assert ms == front + [last];
      NormalizedSnoc(front, last);
      SplitSnoc(Normalized(front), NormalizedMsg(last));
      SplitSnoc(front, last);
      NormalizedSnoc(NonSystem(front), last);
    }
  }

  predicate EndsWithUser(ms: seq<Msg>) { ms != [] && ms[|ms| - 1].Human? }

  /**
    What becomes of the other messages of ms: they are flattened and, when no user turn has text,
    the last one is filled if ms ends with a user turn, and a turn is put in front if not.
   */
  ghost predicate TurnsKept(ms: seq<Msg>, after: seq<Msg>, text: string) {
    var flat := Normalized(NonSystem(ms));
    if HasUserText(ms) then after == flat
    else if EndsWithUser(ms) then EndsWithUser(flat) && after == FillLast(flat, text)
    else after == [Human(Plain(text), "")] + flat
  }

  /** The form a repaired list has: one system message at most, in front, and a user turn with text. */
  ghost predicate WellFormed(r: seq<Msg>, systems: bool) {
    SystemFirst(r) && HasUserText(r) && (systems <==> r != [] && r[0].System?)
  }

  lemma FilledParts(flat: seq<Msg>, text: string)
    requires flat != [] && flat[|flat| - 1].Human?
    ensures Systems(FillLast(flat, text)) == Systems(flat)
    ensures NonSystem(flat) != [] && NonSystem(flat)[|NonSystem(flat)| - 1] == flat[|flat| - 1]
    ensures NonSystem(FillLast(flat, text)) == FillLast(NonSystem(flat), text)
  {
    var filled := FillLast(flat, text);
    assert filled[..|filled| - 1] == flat[..|flat| - 1];
  }

  lemma PrependedParts(flat: seq<Msg>, m: Msg)
    requires m.Human?
    ensures Systems([m] + flat) == Systems(flat) && NonSystem([m] + flat) == [m] + NonSystem(flat)
  {
    SplitAppend([m], flat);
    assert [m][..0] == [];
  }

  lemma FilledHasText(flat: seq<Msg>, text: string)
    requires Strip(text) == text != ""
    ensures HasUserText(Filled(flat, text))
  {
    if !HasUserText(flat) {
      var at := if flat != [] && flat[|flat| - 1].Human? then |flat| - 1 else 0;
      assert HasText(Filled(flat, text)[at]);
    }
  }

  lemma FilledKeeps(ms: seq<Msg>, text: string)
    ensures Systems(Filled(Normalized(ms), text)) == Systems(ms)
    ensures TurnsKept(ms, NonSystem(Filled(Normalized(ms), text)), text)
  {
    var flat := Normalized(ms);
    NormalizedKeeps(ms);
    NonSystemNormalized(ms);
    if !HasUserText(flat) {
      if flat != [] && flat[|flat| - 1].Human? {
        FilledParts(flat, text);
      } else {
        PrependedParts(flat, Human(Plain(text), ""));
      }
    }
  }

  /**
    Every list comes out with at most one system message, at index 0, and a user turn with text.
    The other messages keep their order, with user turns flattened; if none had text, the last
    one is filled or a new one is put in front.
   */
  lemma RepairedShape(ms: seq<Msg>, state: seq<Msg>)
    ensures WellFormed(Repaired(ms, state), Systems(ms) != [])
    ensures TurnsKept(ms, NonSystem(Repaired(ms, state)), Fallback(state))
  {
    FilledHasText(Normalized(ms), Fallback(state));
    FilledKeeps(ms, Fallback(state));
    CoalescedShape(Filled(Normalized(ms), Fallback(state)));
  }

  lemma RepairedSound(ms: seq<Msg>, state: seq<Msg>)
    ensures SystemFirst(Repaired(ms, state)) && HasUserText(Repaired(ms, state))
  {
    RepairedShape(ms, state);
  }

  /** A list in repaired form is left as it is. */
  lemma RepairedFixes(r: seq<Msg>, state: seq<Msg>)
    requires SystemFirst(r) && HasUserText(r) && Normalized(r) == r
    ensures Repaired(r, state) == r
  {
    SystemCount(r);
  }

  lemma NormalizedCoalesced(ms: seq<Msg>)
    requires Normalized(ms) == ms
    ensures Normalized(Coalesced(ms)) == Coalesced(ms)
  {
    SystemsAreSystems(ms);
    forall i | 0 <= i < |Coalesced(ms)|
      ensures NormalizedMsg(Coalesced(ms)[i]) == Coalesced(ms)[i]
    {
      var m := Coalesced(ms)[i];
      if !m.System? {
        assert m in ms;
        var j :| 0 <= j < |ms| && ms[j] == m;
        assert Normalized(ms)[j] == NormalizedMsg(m);
      }
    }
  }

  lemma FilledNormal(flat: seq<Msg>, text: string)
    requires Normalized(flat) == flat && Strip(text) == text != ""
    ensures flat != [] && flat[|flat| - 1].Human? ==> Normalized(FillLast(flat, text)) == FillLast(flat, text)
    ensures Normalized([Human(Plain(text), "")] + flat) == [Human(Plain(text), "")] + flat
  {
    NormalizedAppend([Human(Plain(text), "")], flat);
    if flat != [] && flat[|flat| - 1].Human? {
      var filled := FillLast(flat, text);
      forall i | 0 <= i < |filled|
        ensures NormalizedMsg(filled[i]) == filled[i]
      {
        if i < |flat| - 1 {
          assert filled[i] == flat[i] == Normalized(flat)[i];
        }
      }
    }
  }

  lemma NormalizedRepaired(ms: seq<Msg>, state: seq<Msg>)
    ensures Normalized(Repaired(ms, state)) == Repaired(ms, state)
  {
    var flat, text := Normalized(ms), Fallback(state);
    NormalizedKeeps(ms);
    FilledNormal(flat, text);
    NormalizedCoalesced(Filled(flat, text));
  }

  /** Repairing twice, whatever state the second repair sees, is repairing once. */
  lemma RepairedIdempotent(ms: seq<Msg>, state: seq<Msg>, state': seq<Msg>)
    ensures Repaired(Repaired(ms, state), state') == Repaired(ms, state)
  {
    RepairedSound(ms, state);
    NormalizedRepaired(ms, state);
    RepairedFixes(Repaired(ms, state), state');
  }

  // ----- repair of an agent's whole state -----

  function WithoutHumans(ms: seq<Msg>): seq<Msg> {
    if ms == [] then []
    else WithoutHumans(ms[..|ms| - 1]) + if ms[|ms| - 1].Human? then [] else [ms[|ms| - 1]]
  }

  function QueryTurn(query: string): (r: string)
    ensures r != "" && Strip(r) == r
  {
    if Strip(query) == "" then DEFAULT_USER_TURN else Strip(query)
  }

  function GraphState(ms: seq<Msg>, query: string, state: seq<Msg>): seq<Msg> {
    if ms == [] then Repaired(Opening(query), [])
    else
      var flat := Normalized(ms);
      if HasUserText(flat) then Coalesced(flat)
      else if LatestUserText(state).Some? then Coalesced(Repaired(flat, state))
      else Coalesced(Repaired(Opening(query), []) + WithoutHumans(flat))
  }

  function Opening(query: string): seq<Msg> {
    [Human(Plain(QueryTurn(query)), "")]
  }

  /** `last` says that code of last resort was needed inside; it never is. */
  method RepairReactGraphState(ms: seq<Msg>, query: string, state: seq<Msg>) returns (r: seq<Msg>, last: bool)
    ensures !last && r == GraphState(ms, query, state)
  {
    RepairedSound(Opening(query), []);
    if ms == [] {
      r, last := EnsureMessages(Opening(query), []);
      return;
    }
    var flat := NormalizeMessages(ms);
    last := false;
    if HasUserText(flat) {
      return Coalesced(flat), false;
    }
    if LatestUserText(state).Some? {
      RepairedSound(flat, state);
      r, last := EnsureMessages(flat, state);
      return Coalesced(r), last;
    }
    r, last := EnsureMessages(Opening(query), []);
    r := Coalesced(r + WithoutHumans(flat));
  }

  /** The state of an agent gets the same form, for every state and query. */
  lemma GraphStateShape(ms: seq<Msg>, query: string, state: seq<Msg>)
    ensures SystemFirst(GraphState(ms, query, state)) && HasUserText(GraphState(ms, query, state))
  {
    var flat, opening := Normalized(ms), Repaired(Opening(query), []);
    RepairedSound(Opening(query), []);
    RepairedSound(flat, state);
    CoalescedSound(flat);
    CoalescedSound(Repaired(flat, state));
    TextInFront(opening, WithoutHumans(flat));
    CoalescedSound(opening + WithoutHumans(flat));
  }

  lemma CoalescedSound(ms: seq<Msg>)
    ensures SystemFirst(Coalesced(ms)) && (HasUserText(ms) ==> HasUserText(Coalesced(ms)))
  {
    CoalescedShape(ms);
  }

  lemma TextInFront(a: seq<Msg>, b: seq<Msg>)
    requires HasUserText(a)
    ensures HasUserText(a + b)
  {
    var i :| 0 <= i < |a| && HasText(a[i]);
    assert (a + b)[i] == a[i];
  }
}
