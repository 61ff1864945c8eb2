/**
  Compaction of a message transcript under context pressure: tool outputs are replaced by
  stubs or digests whose full text stays in the scratchpad. What a message carried before can
  be read back through the reference it carries afterwards.
 */
module Compaction {
  import opened Wrappers
  import opened Scratchpad

  /** Tool message content as it is recognised on the wire. */
  datatype Content = Raw(text: string) | Digest(ref: string, text: string) | Stub(ref: string, text: string)

  datatype Message =
    | Tool(content: Content, name: Option<string>, callId: Option<string>, id: Option<string>)
    | Other(role: string, text: string)

  /** How stubs and digests are rendered and how a transcript is priced. */
  datatype Wire = Wire(digest: (string, string, string, nat) -> string, stub: Artifact -> string, tokens: seq<Message> -> nat)

  type Refs = map<string, Artifact>

  function ToolName(m: Message): string
    requires m.Tool?
  {
    if m.name.Some? && m.name.value != "" then m.name.value else "tool"
  }

  // ----- what it means that nothing is lost -----

  /** Where the pad stands: its map, and how many references it has drawn. */
  datatype Snap = Snap(refs: Refs, drawn: nat)

  ghost function SnapOf(pad: ToolScratchpad): Snap
    reads pad
  {
    Snap(pad.View(), pad.drawn)
  }

  /** Later maps keep every entry and add only freshly drawn references. */
  ghost predicate Grows(supply: Supply, a: Snap, b: Snap) {
    && a.drawn <= b.drawn
    && (forall r :: r in a.refs ==> r in b.refs && b.refs[r] == a.refs[r])
    && (forall r :: r in b.refs && r !in a.refs ==> exists i: nat :: a.drawn <= i < b.drawn && supply.uuid(i) == r)
  }

  /** The references in the transcript are not ones the supply has yet to draw. */
  ghost predicate NotYetToCome(supply: Supply, drawn: nat, c: Content) {
    c.Raw? || forall i: nat :: i >= drawn ==> supply.uuid(i) != c.ref
  }

  /** ref leads back to what c carried: its text, or what its own reference resolved to. */
  ghost predicate LeadsBack(start: Snap, now: Snap, c: Content, ref: string) {
    && ref in now.refs
    && match c
       case Raw(t) => now.refs[ref].content == t
       case _ => if c.ref in start.refs then ref == c.ref else now.refs[ref].content == c.text
  }

  /** Whatever becomes of the content, tool messages keep their ids and names, and others stay. */
  ghost predicate Rewrites(m0: Message, m: Message) {
    if m0.Other? then m == m0
    else
      && m.Tool? && m.name == m0.name && m.callId == m0.callId && m.id == m0.id
      && (m == m0 || !m.content.Raw?)
  }

  ghost predicate AllRewrite(messages: seq<Message>, out: seq<Message>) {
    |out| == |messages| && forall i :: 0 <= i < |messages| ==> Rewrites(messages[i], out[i])
  }

  ghost predicate Recovers(start: Snap, now: Snap, m0: Message, m: Message) {
    Rewrites(m0, m) && (m == m0 || LeadsBack(start, now, m0.content, m.content.ref))
  }

  ghost predicate AllRecover(start: Snap, now: Snap, messages: seq<Message>, out: seq<Message>) {
    |out| == |messages| && forall i :: 0 <= i < |messages| ==> Recovers(start, now, messages[i], out[i])
  }

  lemma GrowsTransitive(supply: Supply, a: Snap, b: Snap, c: Snap)
    requires Grows(supply, a, b) && Grows(supply, b, c)
    ensures Grows(supply, a, c)
  {
  }

  lemma RecoversLater(supply: Supply, start: Snap, now: Snap, later: Snap, m0: Message, m: Message)
    requires Recovers(start, now, m0, m) && Grows(supply, now, later)
    ensures Recovers(start, later, m0, m)
  {
  }

  /** Replacing a message by a stub or digest of what it leads to still leads back. */
  lemma RewriteRecovers(supply: Supply, start: Snap, now: Snap, later: Snap, m0: Message, m: Message, ref: string, c: Content)
    requires Grows(supply, start, now) && Grows(supply, now, later)
    requires m0.Tool? && Recovers(start, now, m0, m) && NotYetToCome(supply, start.drawn, m0.content)
    requires LeadsBack(now, later, m.content, ref)
    requires !c.Raw? && c.ref == ref
    ensures Recovers(start, later, m0, m.(content := c))
  {
  }

  // ----- storing -----

  /** A reference for what the message carries, stored now unless it already resolves. */
  method EnsureStored(pad: ToolScratchpad, m: Message) returns (ref: string)
    requires m.Tool? && pad.Valid()
    modifies pad
    ensures pad.Valid() && ref in pad.View()
    ensures pad.durable ==> Grows(pad.supply, old(SnapOf(pad)), SnapOf(pad))
    ensures pad.durable ==> LeadsBack(old(SnapOf(pad)), SnapOf(pad), m.content, ref)
  {
    if !m.content.Raw? {
      var found := pad.Get(m.content.ref);
      if found.Some? {
        return m.content.ref;
      }
    }
    var art := pad.Store(ToolName(m), m.content.text);
    ref := art.ref;
  }

  method MakeStub(pad: ToolScratchpad, ref: string, wire: Wire) returns (c: Content)
    requires pad.Valid() && ref in pad.View()
    modifies pad`cache
    ensures pad.Valid() && pad.View() == old(pad.View())
    ensures c == Stub(ref, wire.stub(pad.View()[ref]))
  {
    var art := pad.Get(ref);
    c := Stub(ref, wire.stub(art.value));
  }

  // ----- the three passes -----

  /** The positions of the tool messages, in order. */
  function ToolIndices(messages: seq<Message>): (r: seq<nat>)
    ensures forall t :: 0 <= t < |r| ==> r[t] < |messages| && messages[r[t]].Tool?
    ensures forall t, u :: 0 <= t < u < |r| ==> r[t] < r[u]
  {
    if messages == [] then []
    else
      var n := |messages| - 1;
      ToolIndices(messages[..n]) + if messages[n].Tool? then [n] else []
  }

  lemma {:induction false} ToolIndicesComplete(messages: seq<Message>, i: nat)
    requires i < |messages| && messages[i].Tool?
    ensures i in ToolIndices(messages)
  {
    var n := |messages| - 1;
    if i < n {
      ToolIndicesComplete(messages[..n], i);
    }
  }

  /**
    What every pass keeps: a sound pad and a rewritten transcript; and with a durable store, a pad
    that has only grown, and a transcript that loses nothing.
   */
  ghost predicate Intact(pad: ToolScratchpad, start: Snap, messages: seq<Message>, out: seq<Message>)
    reads pad
  {
    && pad.Valid() && AllRewrite(messages, out)
    && (pad.durable ==> Grows(pad.supply, start, SnapOf(pad)) && AllRecover(start, SnapOf(pad), messages, out))
  }

  ghost predicate NoneYetToCome(supply: Supply, drawn: nat, messages: seq<Message>) {
    forall m :: m in messages && m.Tool? ==> NotYetToCome(supply, drawn, m.content)
  }

  /** No reference of the transcript is one that a pad with a store has yet to draw. */
  ghost predicate Unguessed(pad: ToolScratchpad, drawn: nat, messages: seq<Message>) {
    pad.durable ==> NoneYetToCome(pad.supply, drawn, messages)
  }

  lemma ReplaceOne(supply: Supply, start: Snap, now: Snap, later: Snap, messages: seq<Message>, out: seq<Message>, i: nat, m: Message)
    requires AllRecover(start, now, messages, out) && Grows(supply, now, later) && i < |messages|
    requires Recovers(start, later, messages[i], m)
    ensures AllRecover(start, later, messages, out[i := m])
  {
    forall j | 0 <= j < |messages|
      ensures Recovers(start, later, messages[j], out[i := m][j])
    {
      if j != i {
        RecoversLater(supply, start, now, later, messages[j], out[j]);
      }
    }
  }

  /** Raw content over the limit becomes a digest, a reference over it becomes a stub or a digest. */
  ghost predicate BoundedFrom(a: Message, b: Message, maxWire: nat)
    requires a.Tool?
  {
    if |a.content.text| > maxWire then b.Tool? && !b.content.Raw? && (a.content.Raw? ==> b.content.Digest?) else b == a
  }

  predicate Digestible(c: Content, digestMin: nat, maxWire: nat) {
    c.Raw? && (|c.text| >= digestMin || |c.text| > maxWire)
  }

  ghost predicate DigestedFrom(a: Message, b: Message, digestMin: nat, maxWire: nat)
    requires a.Tool?
  {
    if Digestible(a.content, digestMin, maxWire) then b.Tool? && b.content.Digest? else b == a
  }

  /** Put content that carries ref in place i, where EnsureStored has just returned ref for out[i]. */
  lemma PutContent(supply: Supply, start: Snap, now: Snap, later: Snap, messages: seq<Message>, out: seq<Message>,
                   i: nat, ref: string, c: Content)
    requires Grows(supply, start, now) && Grows(supply, now, later)
    requires AllRecover(start, now, messages, out) && NoneYetToCome(supply, start.drawn, messages)
    requires i < |messages| && messages[i].Tool? && LeadsBack(now, later, out[i].content, ref)
    requires !c.Raw? && c.ref == ref
    ensures Grows(supply, start, later) && AllRecover(start, later, messages, out[i := out[i].(content := c)])
  {
    assert messages[i] in messages && Recovers(start, now, messages[i], out[i]);
    RewriteRecovers(supply, start, now, later, messages[i], out[i], ref, c);
    ReplaceOne(supply, start, now, later, messages, out, i, out[i].(content := c));
    GrowsTransitive(supply, start, now, later);
  }

  /** The same in a pad that need not have a store. */
  lemma PutIntact(pad: ToolScratchpad, start: Snap, now: Snap, messages: seq<Message>, out: seq<Message>, i: nat, ref: string, c: Content)
    requires pad.Valid() && AllRewrite(messages, out) && i < |messages| && messages[i].Tool? && !c.Raw? && c.ref == ref
    requires Unguessed(pad, start.drawn, messages)
    requires pad.durable ==>
               && Grows(pad.supply, start, now) && Grows(pad.supply, now, SnapOf(pad)) && AllRecover(start, now, messages, out)
               && LeadsBack(now, SnapOf(pad), out[i].content, ref)
    ensures Intact(pad, start, messages, out[i := out[i].(content := c)])
  {
    if pad.durable {
      PutContent(pad.supply, start, now, SnapOf(pad), messages, out, i, ref, c);
    }
  }

  ghost predicate OnlyAt(a: seq<Message>, b: seq<Message>, i: nat) {
    i < |a| == |b| && forall j {:trigger b[j]} :: 0 <= j < |a| && j != i ==> b[j] == a[j]
  }

  method StubAt(pad: ToolScratchpad, messages: seq<Message>, out: seq<Message>, i: nat, wire: Wire, ghost start: Snap)
    returns (out': seq<Message>)
    requires Intact(pad, start, messages, out) && Unguessed(pad, start.drawn, messages)
    requires i < |messages| && messages[i].Tool?
    modifies pad
    ensures Intact(pad, start, messages, out')
    ensures OnlyAt(out, out', i) && out'[i].Tool? && out'[i].content.Stub?
  {
    ghost var now := SnapOf(pad);
    assert Rewrites(messages[i], out[i]);
    var ref := EnsureStored(pad, out[i]);
    var c := MakeStub(pad, ref, wire);
    PutIntact(pad, start, now, messages, out, i, ref, c);
    out' := out[i := out[i].(content := c)];
  }

  method DigestAt(pad: ToolScratchpad, messages: seq<Message>, out: seq<Message>, i: nat, wire: Wire, maxWire: nat, ghost start: Snap)
    returns (out': seq<Message>)
    requires Intact(pad, start, messages, out) && Unguessed(pad, start.drawn, messages)
    requires i < |messages| && messages[i].Tool? && out[i].Tool?
    modifies pad
    ensures Intact(pad, start, messages, out')
    ensures OnlyAt(out, out', i) && out'[i].Tool? && out'[i].content.Digest?
  {
    ghost var now := SnapOf(pad);
    var ref := EnsureStored(pad, out[i]);
    var c := Digest(ref, wire.digest(ref, ToolName(out[i]), out[i].content.text, maxWire));
    PutIntact(pad, start, now, messages, out, i, ref, c);
    out' := out[i := out[i].(content := c)];
  }

  /** Bound an oversized tool message: a stub of what is already a reference if that fits, else a digest. */
  method BoundAt(pad: ToolScratchpad, messages: seq<Message>, out: seq<Message>, i: nat, wire: Wire, maxWire: nat, ghost start: Snap)
    returns (out': seq<Message>)
    requires Intact(pad, start, messages, out) && Unguessed(pad, start.drawn, messages)
    requires i < |messages| && messages[i].Tool? && out[i].Tool?
    modifies pad
    ensures Intact(pad, start, messages, out')
    ensures OnlyAt(out, out', i) && BoundedFrom(out[i], out'[i], maxWire)
  {
    var text := out[i].content.text;
    if |text| <= maxWire {
      return out;
    }
    if out[i].content.Raw? {
      out' := DigestAt(pad, messages, out, i, wire, maxWire, start);
    } else {
      out' := RestubAt(pad, messages, out, i, wire, maxWire, start);
    }
  }

  /** A stub of what is already a reference, or its digest if the stub itself is over the limit. */
  method RestubAt(pad: ToolScratchpad, messages: seq<Message>, out: seq<Message>, i: nat, wire: Wire, maxWire: nat, ghost start: Snap)
    returns (out': seq<Message>)
    requires Intact(pad, start, messages, out) && Unguessed(pad, start.drawn, messages)
    requires i < |messages| && messages[i].Tool? && out[i].Tool?
    modifies pad
    ensures Intact(pad, start, messages, out')
    ensures OnlyAt(out, out', i) && out'[i].Tool? && !out'[i].content.Raw?
  {
    ghost var now := SnapOf(pad);
    var ref := EnsureStored(pad, out[i]);
    var c := MakeStub(pad, ref, wire);
    if |c.text| > maxWire {
      c := Digest(ref, wire.digest(ref, ToolName(out[i]), out[i].content.text, maxWire));
    }
    PutIntact(pad, start, now, messages, out, i, ref, c);
    out' := out[i := out[i].(content := c)];
  }

  /** Oversized tool messages are bounded wherever they stand. */
  method SizePass(pad: ToolScratchpad, messages: seq<Message>, tools: seq<nat>, wire: Wire, maxWire: nat, ghost start: Snap)
    returns (out: seq<Message>)
    requires Intact(pad, start, messages, messages) && Unguessed(pad, start.drawn, messages)
    requires tools == ToolIndices(messages)
    modifies pad
    ensures Intact(pad, start, messages, out)
    ensures forall t :: 0 <= t < |tools| ==> BoundedFrom(messages[tools[t]], out[tools[t]], maxWire)
  {
    out := messages;
    for t := 0 to |tools|
      invariant Intact(pad, start, messages, out)
      invariant forall u :: t <= u < |tools| ==> out[tools[u]] == messages[tools[u]]
      invariant forall u :: 0 <= u < t ==> BoundedFrom(messages[tools[u]], out[tools[u]], maxWire)
    {
      out := BoundAt(pad, messages, out, tools[t], wire, maxWire, start);
    }
  }

  /** The tool messages at positions tools[..count] become stubs. */
  method StubPass(pad: ToolScratchpad, messages: seq<Message>, before: seq<Message>, tools: seq<nat>, count: nat, wire: Wire, ghost start: Snap)
    returns (out: seq<Message>)
    requires Intact(pad, start, messages, before) && Unguessed(pad, start.drawn, messages)
    requires tools == ToolIndices(messages) && count <= |tools|
    modifies pad
    ensures Intact(pad, start, messages, out)
    ensures forall t :: 0 <= t < |tools| ==>
              if t < count then out[tools[t]].Tool? && out[tools[t]].content.Stub? else out[tools[t]] == before[tools[t]]
  {
    out := before;
    for t := 0 to count
      invariant Intact(pad, start, messages, out)
      invariant forall u :: t <= u < |tools| ==> out[tools[u]] == before[tools[u]]
      invariant forall u :: 0 <= u < t ==> out[tools[u]].Tool? && out[tools[u]].content.Stub?
    {
      out := StubAt(pad, messages, out, tools[t], wire, start);
    }
  }

  method DigestIfLarge(pad: ToolScratchpad, messages: seq<Message>, out: seq<Message>, i: nat, wire: Wire,
                       digestMin: nat, maxWire: nat, ghost start: Snap)
    returns (out': seq<Message>)
    requires Intact(pad, start, messages, out) && Unguessed(pad, start.drawn, messages)
    requires i < |messages| && messages[i].Tool? && out[i].Tool?
    modifies pad
    ensures Intact(pad, start, messages, out')
    ensures OnlyAt(out, out', i) && DigestedFrom(out[i], out'[i], digestMin, maxWire)
  {
    out' := out;
    if Digestible(out[i].content, digestMin, maxWire) {
      out' := DigestAt(pad, messages, out, i, wire, maxWire, start);
    }
  }

  /** What is still raw and large enough is digested. */
  method DigestPass(pad: ToolScratchpad, messages: seq<Message>, before: seq<Message>, tools: seq<nat>, wire: Wire,
                    digestMin: nat, maxWire: nat, ghost start: Snap)
    returns (out: seq<Message>)
    requires Intact(pad, start, messages, before) && Unguessed(pad, start.drawn, messages)
    requires tools == ToolIndices(messages) && forall t :: 0 <= t < |tools| ==> before[tools[t]].Tool?
    modifies pad
    ensures Intact(pad, start, messages, out)
    ensures forall t :: 0 <= t < |tools| ==> DigestedFrom(before[tools[t]], out[tools[t]], digestMin, maxWire)
  {
    out := before;
    for t := 0 to |tools|
      invariant Intact(pad, start, messages, out)
      invariant forall u :: t <= u < |tools| ==> out[tools[u]] == before[tools[u]]
      invariant forall u :: 0 <= u < t ==> DigestedFrom(before[tools[u]], out[tools[u]], digestMin, maxWire)
    {
      out := DigestIfLarge(pad, messages, out, tools[t], wire, digestMin, maxWire, start);
    }
  }

  // ----- the whole compaction -----

  /** How many of the oldest tool messages the stub pass takes; none at all when keep is 0. */
  function CompactableCount(tools: nat, keep: nat): nat {
    if keep == 0 || tools <= keep then 0 else tools - keep
  }

  /**
    The form a tool message ends in, given which passes ran: `stubbed` messages are among the
    oldest, `digesting` says the last pass ran.
   */
  ghost predicate FinalForm(a: Message, b: Message, stubbed: bool, digesting: bool, digestMin: nat, maxWire: nat)
    requires a.Tool?
  {
    && b.Tool?
    && (stubbed ==> b.content.Stub?)
    && (!stubbed && a.content.Raw? ==>
          if |a.content.text| > maxWire || (digesting && |a.content.text| >= digestMin) then b.content.Digest? else b == a)
    && (!stubbed && !a.content.Raw? ==> if |a.content.text| <= maxWire then b == a else !b.content.Raw?)
  }

  method CompactMessages(pad: ToolScratchpad, messages: seq<Message>, target: nat, keep: nat, wire: Wire, maxWire: nat)
    returns (out: seq<Message>, ghost pressed: bool, ghost digesting: bool)
    requires pad.Valid() && Unguessed(pad, pad.drawn, messages)
    modifies pad
    ensures Intact(pad, old(SnapOf(pad)), messages, out)
    ensures var tools, digestMin := ToolIndices(messages), if target / 32 < 500 then 500 else target / 32;
            forall t :: 0 <= t < |tools| ==>
              FinalForm(messages[tools[t]], out[tools[t]],
                        pressed && t < CompactableCount(|tools|, keep), pressed && digesting, digestMin, maxWire)
    ensures var tools := ToolIndices(messages);
            forall t :: 0 <= t < |tools| && messages[tools[t]].content.Raw? ==>
              (out[tools[t]].content.Stub? <==> pressed && t < CompactableCount(|tools|, keep))
    ensures |ToolIndices(messages)| <= keep ==> !pressed
    ensures !pressed && |ToolIndices(messages)| > keep ==> wire.tokens(out) <= target
    ensures pressed && !digesting ==> wire.tokens(out) <= target
  {
    ghost var start := SnapOf(pad);
    pressed, digesting := false, false;
    if messages == [] {
      return [], false, false;
    }
    var tools := ToolIndices(messages);
    var sized := SizePass(pad, messages, tools, wire, maxWire, start);
    out := sized;
    if wire.tokens(sized) <= target || |tools| <= keep {
      return;
    }
    pressed := true;
    var stubbed := StubPass(pad, messages, sized, tools, CompactableCount(|tools|, keep), wire, start);
    out := stubbed;
    var digestMin := if target / 32 < 500 then 500 else target / 32;
    if wire.tokens(stubbed) > target {
      digesting := true;
      out := DigestPass(pad, messages, stubbed, tools, wire, digestMin, maxWire, start);
    }
  }
}
