/**
  The token budget of a model call: how the context window is divided into reserved output and
  input, and the gate that compacts a transcript until it fits or refuses to send it.
 */
module ContextBudget {
  import opened Wrappers
  import opened Scratchpad
  import opened Compaction

  const OUTPUT_CAP: nat := 8192

  function Max(a: nat, b: nat): nat { if a > b then a else b }

  function Min(a: nat, b: nat): nat { if a < b then a else b }

  /** What is left of `a` when `b` is taken away, but at least `floor`. */
  function Rest(floor: nat, a: nat, b: nat): nat {
    if a >= b + floor then a - b else floor
  }

  function Percent(window: nat, p: nat): nat { window * p / 100 }

  function Largest(xs: seq<nat>): (m: nat)
    requires xs != []
    ensures m in xs && forall x :: x in xs ==> x <= m
  {
    if |xs| == 1 then xs[0]
    else
      assert xs == xs[..|xs| - 1] + [xs[|xs| - 1]];
      Max(Largest(xs[..|xs| - 1]), xs[|xs| - 1])
  }

  /** `limits` are the positive output limits found in the configuration and on the model. */
  function Reserved(window: nat, limits: seq<nat>, thinking: bool): nat {
    var cap := Max(1024, Percent(window, 12));
    var plain := if limits == [] then Min(OUTPUT_CAP, Max(1024, Percent(window, 6)))
                 else Min(Min(Largest(limits), cap), OUTPUT_CAP);
    if thinking then Min(plain + Max(4096, Percent(window, 5)), cap) else plain
  }

  method Candidates(found: seq<int>) returns (candidates: seq<nat>)
    ensures candidates == Positive(found)
  {
    candidates := [];
    for i := 0 to |found|
      invariant candidates == Positive(found[..i])
    {
      assert found[..i + 1][..i] == found[..i];
      if found[i] > 0 {
        candidates := candidates + [found[i]];
      }
    }
    assert found[..|found|] == found;
  }

  method ReservedOutputTokens(window: nat, configured: Option<int>, onModel: seq<int>, thinking: bool) returns (reserved: nat)
    ensures var limits := Positive((if configured.Some? then [configured.value] else []) + onModel);
            reserved == Reserved(window, limits, thinking)
  {
    var candidates := Candidates((if configured.Some? then [configured.value] else []) + onModel);
    if candidates == [] {
      reserved := Min(OUTPUT_CAP, Max(1024, Percent(window, 6)));
    } else {
      var requested := Largest(candidates);
      var cap := Max(1024, Percent(window, 12));
      reserved := Min(Min(requested, cap), OUTPUT_CAP);
    }
    if thinking {
      var extra := Max(4096, Percent(window, 5));
      var cap := Max(1024, Percent(window, 12));
      reserved := Min(reserved + extra, cap);
    }
  }

  function Positive(xs: seq<int>): seq<nat> {
    if xs == [] then []
    else Positive(xs[..|xs| - 1]) + if xs[|xs| - 1] > 0 then [xs[|xs| - 1]] else []
  }

  /** The input budget of the context plane, given the input's share of the window in tokens. */
  function InputBudget(share: nat, reserved: nat): nat {
    Rest(1024, share, reserved)
  }

  /** Output and input together fit the window exactly when the window holds the output and 1024 tokens. */
  lemma FitsIff(window: nat, reserved: nat, share: nat)
    requires share <= window
    ensures reserved + InputBudget(share, reserved) <= window <==> reserved + 1024 <= window
  {
  }

  lemma ReservedBelow(window: nat, limits: seq<nat>, thinking: bool)
    ensures Reserved(window, limits, thinking) <= Max(1024, Percent(window, 12))
  {
  }

  /** At the default ratio every window of 2048 tokens or more is large enough, whatever limits are configured. */
  lemma FitsFrom2048(window: nat, limits: seq<nat>, thinking: bool)
    requires window >= 2048
    ensures Reserved(window, limits, thinking) + InputBudget(Percent(window, 82), Reserved(window, limits, thinking)) <= window
  {
    ReservedBelow(window, limits, thinking);
    FitsIff(window, Reserved(window, limits, thinking), Percent(window, 82));
  }

  /** And when no output limit is configured, no smaller one is. */
  lemma FitsDefaultIff(window: nat)
    ensures Reserved(window, [], false) + InputBudget(Percent(window, 82), Reserved(window, [], false)) <= window
            <==> window >= 2048
  {
    if window >= 2048 {
      FitsFrom2048(window, [], false);
    }
  }

  // ----- the middleware's own budget -----

  /** The middleware's budget; it takes every window for one of at least 4096 tokens. */
  function GateBudget(share: nat, reserved: nat, adaptive: Option<int>): nat {
    var budget := Rest(2048, share, Max(512, reserved));
    if adaptive.Some? then Min(budget, if adaptive.value > 2048 then adaptive.value else 2048) else budget
  }

  /**
    For any window, share, reservation and adaptive budget: reservation and budget fit the window
    exactly when it holds the reservation and 2048 tokens, and either the share or the reservation
    with the adaptive budget.
   */
  lemma GateFitsIff(window: nat, share: nat, reserved: nat, adaptive: Option<int>)
    ensures Max(512, reserved) + GateBudget(share, reserved, adaptive) <= window
            <==> && Max(512, reserved) + 2048 <= window
                 && (share <= window || (adaptive.Some? && Max(512, reserved) + adaptive.value <= window))
  {
  }

  /** So with the reservation above, at any ratio, the budget fits every window of at least 4096 tokens. */
  lemma GateFits(window: nat, limits: seq<nat>, thinking: bool, share: nat, adaptive: Option<int>)
    requires window >= 4096 && share <= window
    ensures Max(512, Reserved(window, limits, thinking)) + GateBudget(share, Reserved(window, limits, thinking), adaptive) <= window
  {
    ReservedBelow(window, limits, thinking);
    GateFitsIff(window, share, Reserved(window, limits, thinking), adaptive);
  }

  /** A smaller window that it does not fit: 3000 tokens, at the default ratio and with no limit configured. */
  lemma SmallWindowOverrun()
    ensures var reserved := Reserved(3000, [], false);
            Max(512, reserved) + GateBudget(Percent(Max(4096, 3000), 82), reserved, None) == 3358
  {
  }

  // ----- the gate -----

  lemma ComposeOne(supply: Supply, start: Snap, mid: Snap, end: Snap, m0: Message, m1: Message, m2: Message)
    requires Grows(supply, start, mid) && Grows(supply, mid, end)
    requires Recovers(start, mid, m0, m1) && Recovers(mid, end, m1, m2)
    requires m0.Tool? ==> NotYetToCome(supply, start.drawn, m0.content)
    ensures Recovers(start, end, m0, m2)
  {
    if m2 == m1 {
      RecoversLater(supply, start, mid, end, m0, m1);
    } else {
      RewriteRecovers(supply, start, mid, end, m0, m1, m2.content.ref, m2.content);
    }
  }

  /** Two compactions, one after the other, lose no more than one. */
  lemma ComposeAll(supply: Supply, start: Snap, mid: Snap, end: Snap, a: seq<Message>, b: seq<Message>, c: seq<Message>)
    requires Grows(supply, start, mid) && Grows(supply, mid, end) && NoneYetToCome(supply, start.drawn, a)
    requires AllRecover(start, mid, a, b) && AllRecover(mid, end, b, c)
    ensures AllRecover(start, end, a, c)
  {
    forall i | 0 <= i < |a|
      ensures Recovers(start, end, a[i], c[i])
    {
      assert a[i] in a;
      ComposeOne(supply, start, mid, end, a[i], b[i], c[i]);
    }
  }

  /** The refs a compaction leaves are known or were given, so none is yet to be drawn. */
  lemma StillNoneToCome(pad: ToolScratchpad, start: Snap, messages: seq<Message>, out: seq<Message>)
    requires Intact(pad, start, messages, out) && Unguessed(pad, start.drawn, messages)
    ensures Unguessed(pad, pad.drawn, out)
  {
    forall m | pad.durable && m in out && m.Tool?
      ensures NotYetToCome(pad.supply, pad.drawn, m.content)
    {
      var i :| 0 <= i < |out| && out[i] == m;
      assert Recovers(start, SnapOf(pad), messages[i], m) && messages[i] in messages;
    }
  }

  /** One pass: what it comes to is used only if it is estimated smaller. */
  method PassIfSmaller(pad: ToolScratchpad, messages: seq<Message>, budget: nat, keep: nat, wire: Wire, maxWire: nat)
    returns (out: seq<Message>)
    requires pad.Valid() && Unguessed(pad, pad.drawn, messages)
    modifies pad
    ensures Intact(pad, old(SnapOf(pad)), messages, out)
    ensures out == messages || wire.tokens(out) < wire.tokens(messages)
  {
    ghost var start := SnapOf(pad);
    var compacted, _, _ := CompactMessages(pad, messages, budget, keep, wire, maxWire);
    out := if wire.tokens(compacted) < wire.tokens(messages) then compacted else messages;
  }

  /** The transcript handed to the model, or None when the call is refused. */
  method WrapModelCall(pad: ToolScratchpad, messages: seq<Message>, budget: nat, wire: Wire, maxWire: nat)
    returns (sent: Option<seq<Message>>, est: nat)
    requires pad.Valid() && Unguessed(pad, pad.drawn, messages)
    modifies pad
    ensures pad.Valid() && (pad.durable ==> Grows(pad.supply, old(SnapOf(pad)), SnapOf(pad)))
    ensures est <= wire.tokens(messages)
    ensures sent.Some? <==> est <= budget
    ensures sent.Some? ==> wire.tokens(sent.value) == est
    ensures sent.Some? ==> AllRewrite(messages, sent.value)
    ensures sent.Some? && pad.durable ==> AllRecover(old(SnapOf(pad)), SnapOf(pad), messages, sent.value)
    ensures wire.tokens(messages) <= budget ==> sent == Some(messages)
  {
    ghost var start := SnapOf(pad);
    var now := messages;
    if wire.tokens(now) > budget && |now| > 3 {
      now := PassIfSmaller(pad, messages, budget, 2, wire, maxWire);
    }
    if wire.tokens(now) > budget && |now| > 1 {
      ghost var mid := SnapOf(pad);
      ghost var before := now;
      StillNoneToCome(pad, start, messages, now);
      now := PassIfSmaller(pad, now, budget, 0, wire, maxWire);
      if pad.durable {
        GrowsTransitive(pad.supply, start, mid, SnapOf(pad));
        ComposeAll(pad.supply, start, mid, SnapOf(pad), messages, before, now);
      }
    }
    est := wire.tokens(now);
    sent := if est > budget then None else Some(now);
  }
}
