/**
  The retry loops around the ReAct agent. Each attempt is one invocation of the model; what it
  comes to is arbitrary, and decides with several separate budgets whether there is another.
 */
module ReactRetry {
  const TOOL_RETRIES: nat := 5
  const TRANSPORT_RETRIES: nat := 3
  const STRAY_RETRIES: nat := 3
  const CEILING: nat := 24

  /** What an exception indicates; several may hold at once, and `compactable` says that compaction helps. */
  datatype Failure = Failure(overBudget: bool, toolUse: bool, missingQuery: bool, context: bool, compactable: bool,
                             transport: bool, timeout: bool, userAbort: bool)

  /** `stray`: the answer is tool intent written as plain JSON. */
  datatype Reply = Answered(stray: bool) | RecursionLimit | Raised(why: Failure)

  /** The reply to each attempt, and whether the user answers the k-th prompt with "retry". */
  datatype World = World(reply: nat -> Reply, hasCallback: bool, retry: nat -> bool)

  datatype Outcome =
    | Succeeded | Aborted | TimedOut | StoppedByLimit | OverBudget | Failed | Exhausted
    | AbsoluteCap  // the branch for an attempt beyond the ceiling
    | CapOnRetry   // the branch for a retry the ceiling does not allow

  /** The loop without approvals, or the one with, which makes `auto` silent recoveries a batch. */
  datatype Kind = Shared | Hitl(auto: nat)

  function Batch(kind: Kind): (k: nat)
    ensures k >= 1
  {
    if kind.Shared? then TOOL_RETRIES else kind.auto + 1
  }

  datatype Loop = Loop(attempt: nat, max: nat, stray: nat, transport: nat, budget: int, silent: nat, prompts: nat)

  datatype Verdict = GoOn(next: Loop) | Stop(outcome: Outcome, last: Loop)

  function Min(a: nat, b: nat): nat { if a < b then a else b }

  function Pos(b: int): nat { if b > 0 then b else 0 }

  function Start(kind: Kind, offset: nat, budget: int): Loop {
    Loop(offset, Batch(kind), STRAY_RETRIES, 0, budget, 0, 0)
  }

  /** Another batch, if the user wants it and the ceiling leaves room. */
  function AskUser(s: Loop, kind: Kind, w: World): Verdict {
    var asked := s.(budget := s.budget - 1, prompts := s.prompts + 1);
    if !w.retry(s.prompts) then Stop(Failed, asked)
    else
      var more := asked.(max := Min(s.max + Batch(kind), CEILING), silent := if kind.Hitl? then 0 else s.silent);
      if more.max <= s.attempt then Stop(CapOnRetry, more) else GoOn(more)
  }

  /** What an exception leads to in the loop without approvals; s.attempt is the attempt that raised it. */
  function AfterFailure(s: Loop, f: Failure, w: World): Verdict {
    if f.overBudget then Stop(OverBudget, s)
    else if f.toolUse || f.missingQuery then
      if s.attempt < s.max then GoOn(s) else Stop(if f.timeout then TimedOut else Failed, s)
    else if f.context && s.attempt < s.max then
      if f.compactable then GoOn(s)
      else if w.hasCallback && s.budget > 0 then
        var v := AskUser(s, Shared, w);
        if v.Stop? && v.outcome == Failed && f.timeout then Stop(TimedOut, v.last) else v
      else Stop(if f.timeout then TimedOut else Failed, s)
    else if f.transport && s.transport < TRANSPORT_RETRIES && s.attempt < s.max then
      GoOn(s.(transport := s.transport + 1))
    else Stop(if f.timeout then TimedOut else Failed, s)
  }

  function SharedTurn(s0: Loop, w: World): Verdict {
    var s := s0.(attempt := s0.attempt + 1);
    if s.attempt > CEILING then Stop(AbsoluteCap, s)
    else
      match w.reply(s.attempt)
      case Answered(stray) => if stray && s.stray > 0 then GoOn(s.(stray := s.stray - 1)) else Stop(Succeeded, s)
      case RecursionLimit => Stop(StoppedByLimit, s)
      case Raised(f) => AfterFailure(s, f, w)
  }

  function HitlTurn(s0: Loop, auto: nat, w: World): Verdict {
    var s := s0.(attempt := s0.attempt + 1, silent := s0.silent + 1);
    match w.reply(s.attempt)
    case Answered(stray) => if stray && s.stray > 0 then GoOn(s.(stray := s.stray - 1)) else Stop(Succeeded, s)
    case RecursionLimit => Stop(StoppedByLimit, s)
    case Raised(f) =>
      if f.userAbort then Stop(Aborted, s)
      else if f.timeout then Stop(TimedOut, s)
      else if !f.toolUse then Stop(Failed, s)
      else if s.silent <= auto then GoOn(s)
      else if w.hasCallback && s.budget > 0 then AskUser(s, Hitl(auto), w)
      else Stop(Failed, s)
  }

  function Turn(s: Loop, kind: Kind, w: World): (v: Verdict)
    ensures v.GoOn? ==> v.next.attempt == s.attempt + 1
    ensures s.max <= CEILING && v.GoOn? ==> v.next.max <= CEILING
  {
    match kind
    case Shared => SharedTurn(s, w)
    case Hitl(auto) => HitlTurn(s, auto, w)
  }

  /** The loop from a state on: its outcome and last state. */
  function Play(s: Loop, kind: Kind, w: World): (Outcome, Loop)
    requires s.max <= CEILING
    decreases CEILING - s.attempt
  {
    if s.attempt >= s.max then (Exhausted, s)
    else
      match Turn(s, kind, w)
      case GoOn(next) => Play(next, kind, w)
      case Stop(outcome, last) => (outcome, last)
  }

  // ----- the loops -----

  method TakeSharedTurn(s: Loop, w: World) returns (verdict: Verdict)
    ensures verdict == SharedTurn(s, w)
  {
    var now := s.(attempt := s.attempt + 1);
    if now.attempt > CEILING {
      return Stop(AbsoluteCap, now);
    }
    match w.reply(now.attempt) {
      case Answered(stray) =>
        if stray && now.stray > 0 {
          verdict := GoOn(now.(stray := now.stray - 1));
        } else {
          verdict := Stop(Succeeded, now);
        }
      case RecursionLimit => verdict := Stop(StoppedByLimit, now);
      case Raised(f) => verdict := AfterFailure(now, f, w);
    }
  }

  method RunReactWithRetries(offset: nat, budget: int, w: World) returns (outcome: Outcome, last: Loop)
    ensures (outcome, last) == Play(Start(Shared, offset, budget), Shared, w)
    ensures last.attempt <= (if offset > CEILING then offset else CEILING)
    ensures last.attempt - offset <= TOOL_RETRIES * (1 + Pos(budget)) && last.prompts <= Pos(budget)
    ensures outcome != AbsoluteCap && outcome != CapOnRetry
  {
    InvocationsBounded(Shared, offset, budget, w);
    SharedNeverCapped(Start(Shared, offset, budget), w);
    var s := Start(Shared, offset, budget);
    ghost var played := Play(s, Shared, w);
    while s.attempt < s.max
      invariant s.max <= CEILING && Play(s, Shared, w) == played
      decreases CEILING - s.attempt
    {
      var verdict := TakeSharedTurn(s, w);
      assert verdict == Turn(s, Shared, w);
      if verdict.Stop? {
        return verdict.outcome, verdict.last;
      }
      s := verdict.next;
    }
    return Exhausted, s;
  }

  method TakeHitlTurn(s: Loop, auto: nat, w: World) returns (verdict: Verdict)
    ensures verdict == HitlTurn(s, auto, w)
  {
    var now := s.(attempt := s.attempt + 1, silent := s.silent + 1);
    match w.reply(now.attempt) {
      case Answered(stray) =>
        if stray && now.stray > 0 {
          verdict := GoOn(now.(stray := now.stray - 1));
        } else {
          verdict := Stop(Succeeded, now);
        }
      case RecursionLimit => verdict := Stop(StoppedByLimit, now);
      case Raised(f) =>
        if f.userAbort {
          verdict := Stop(Aborted, now);
        } else if f.timeout {
          verdict := Stop(TimedOut, now);
        } else if f.toolUse && now.silent <= auto {
          verdict := GoOn(now);
        } else if f.toolUse && w.hasCallback && now.budget > 0 {
          verdict := AskUser(now, Hitl(auto), w);
        } else {
          verdict := Stop(Failed, now);
        }
    }
  }

  method RunReactHitl(auto: nat, budget: int, w: World) returns (outcome: Outcome, last: Loop)
    requires auto <= TOOL_RETRIES
    ensures (outcome, last) == Play(Start(Hitl(auto), 0, budget), Hitl(auto), w)
    ensures last.attempt <= CEILING && last.attempt <= (auto + 1) * (1 + Pos(budget)) && last.prompts <= Pos(budget)
  {
    InvocationsBounded(Hitl(auto), 0, budget, w);
    var s := Start(Hitl(auto), 0, budget);
    ghost var played := Play(s, Hitl(auto), w);
    while s.attempt < s.max
      invariant s.max <= CEILING && Play(s, Hitl(auto), w) == played
      decreases CEILING - s.attempt
    {
      var verdict := TakeHitlTurn(s, auto, w);
      assert verdict == Turn(s, Hitl(auto), w);
      if verdict.Stop? {
        return verdict.outcome, verdict.last;
      }
      s := verdict.next;
    }
    return Exhausted, s;
  }

  // ----- bounds -----

  function After(v: Verdict): Loop { if v.GoOn? then v.next else v.last }

  /** The attempts stay below the maximum, which only prompts raise, and never beyond the ceiling. */
  ghost predicate Bounded(s: Loop, kind: Kind, budget: int) {
    && s.attempt <= s.max <= CEILING
    && s.max <= Batch(kind) * (1 + s.prompts)
    && s.prompts + Pos(s.budget) == Pos(budget)
    && s.stray <= STRAY_RETRIES && s.transport <= TRANSPORT_RETRIES
  }

  lemma AskBounded(s: Loop, kind: Kind, w: World, budget: int)
    requires Bounded(s, kind, budget) && s.budget > 0
    ensures Bounded(After(AskUser(s, kind, w)), kind, budget)
  {
    assert Batch(kind) * (1 + s.prompts) + Batch(kind) == Batch(kind) * (2 + s.prompts);
  }

  lemma SharedTurnBounded(s: Loop, w: World, budget: int)
    requires Bounded(s, Shared, budget) && s.attempt < s.max
    ensures Bounded(After(SharedTurn(s, w)), Shared, budget)
  {
    var now := s.(attempt := s.attempt + 1);
    if s.budget > 0 {
      AskBounded(now, Shared, w, budget);
    }
  }

  lemma HitlTurnBounded(s: Loop, auto: nat, w: World, budget: int)
    requires Bounded(s, Hitl(auto), budget) && s.attempt < s.max
    ensures Bounded(After(HitlTurn(s, auto, w)), Hitl(auto), budget)
  {
    var now := s.(attempt := s.attempt + 1, silent := s.silent + 1);
    if s.budget > 0 {
      AskBounded(now, Hitl(auto), w, budget);
    }
  }

  lemma TurnBounded(s: Loop, kind: Kind, w: World, budget: int)
    requires Bounded(s, kind, budget) && s.attempt < s.max
    ensures Bounded(After(Turn(s, kind, w)), kind, budget)
  {
    match kind
    case Shared => SharedTurnBounded(s, w, budget);
    case Hitl(auto) => HitlTurnBounded(s, auto, w, budget);
  }

  lemma {:induction false} PlayBounded(s: Loop, kind: Kind, w: World, budget: int)
    requires Bounded(s, kind, budget)
    ensures Bounded(Play(s, kind, w).1, kind, budget)
    decreases CEILING - s.attempt
  {
    if s.attempt < s.max {
      TurnBounded(s, kind, w, budget);
      if Turn(s, kind, w).GoOn? {
        PlayBounded(Turn(s, kind, w).next, kind, w, budget);
      }
    }
  }

  lemma TimesMonotone(k: nat, a: nat, b: nat)
    requires a <= b
    ensures k * a <= k * b
  {
  }

  /**
    Whatever the model and the user do: at most 24 invocations, at most one batch more than the
    configured number of prompts, at most that many prompts, at most three transport retries.
   */
  lemma InvocationsBounded(kind: Kind, offset: nat, budget: int, w: World)
    requires kind.Hitl? ==> kind.auto <= TOOL_RETRIES && offset == 0
    ensures var last := Play(Start(kind, offset, budget), kind, w).1;
            && last.attempt <= (if offset > CEILING then offset else CEILING)
            && last.attempt - offset <= Batch(kind) * (1 + Pos(budget))
            && last.prompts <= Pos(budget) && last.transport <= TRANSPORT_RETRIES
  {
    if offset <= Batch(kind) {
      PlayBounded(Start(kind, offset, budget), kind, w, budget);
      TimesMonotone(Batch(kind), 1 + Play(Start(kind, offset, budget), kind, w).1.prompts, 1 + Pos(budget));
    }
  }

  /** In the loop without approvals neither branch for the ceiling is ever taken. */
  lemma {:induction false} SharedNeverCapped(s: Loop, w: World)
    requires s.max <= CEILING
    ensures Play(s, Shared, w).0 != AbsoluteCap && Play(s, Shared, w).0 != CapOnRetry
    decreases CEILING - s.attempt
  {
    if s.attempt < s.max && Turn(s, Shared, w).GoOn? {
      SharedNeverCapped(Turn(s, Shared, w).next, w);
    }
  }

  /** The failures about which the loop without approvals may ask the user. */
  predicate MayAsk(r: Reply) {
    r.Raised? && r.why.context && !r.why.compactable && !r.why.toolUse && !r.why.missingQuery && !r.why.overBudget
  }

  /**
    So without a context overflow that compaction cannot help, it prompts no one: the user rounds
    configured for rejected tool calls do nothing for rejected tool calls.
   */
  lemma {:induction false} SharedAsksOnlyForContext(s: Loop, w: World)
    requires s.max <= CEILING && forall a :: s.attempt < a <= CEILING ==> !MayAsk(w.reply(a))
    ensures Play(s, Shared, w).1.prompts == s.prompts && Play(s, Shared, w).1.max == s.max
    decreases CEILING - s.attempt
  {
    if s.attempt < s.max {
      assert !MayAsk(w.reply(s.attempt + 1));
      if Turn(s, Shared, w).GoOn? {
        SharedAsksOnlyForContext(Turn(s, Shared, w).next, w);
      }
    }
  }

  ghost predicate AlwaysRejected(w: World) {
    forall a :: w.reply(a) == Raised(Failure(false, true, false, false, false, false, false, false))
  }

  /** A model whose tool calls are always rejected is invoked exactly five times by that loop. */
  lemma {:induction false} SharedRejected(s: Loop, w: World)
    requires AlwaysRejected(w) && s.attempt < s.max <= CEILING
    ensures Play(s, Shared, w).0 == Failed && Play(s, Shared, w).1 == s.(attempt := s.max)
    decreases CEILING - s.attempt
  {
    if s.attempt + 1 < s.max {
      SharedRejected(Turn(s, Shared, w).next, w);
    }
  }

  // ----- batches of the loop with approvals -----

  /**
    Given `granted`, the attempts in the batches granted so far: either the maximum is just that
    and the current batch is whole, or the ceiling has cut it short.
   */
  ghost predicate AlignedAt(s: Loop, k: nat, granted: nat) {
    || (s.max == granted && s.silent + s.max == s.attempt + k)
    || (granted < s.max + k && s.max == CEILING < granted && s.silent + s.max < s.attempt + k)
  }

  ghost predicate Aligned(s: Loop, k: nat) {
    AlignedAt(s, k, k * (1 + s.prompts))
  }

  /** The user is asked only at the end of a whole batch, and a retry the ceiling stops ends at the ceiling. */
  lemma BatchTurn(s: Loop, auto: nat, w: World, granted: nat)
    requires AlignedAt(s, auto + 1, granted) && s.attempt < s.max <= CEILING
    ensures var v := HitlTurn(s, auto, w);
            && (v.GoOn? ==> AlignedAt(v.next, auto + 1, if v.next.prompts > s.prompts then granted + auto + 1 else granted))
            && s.prompts <= After(v).prompts <= s.prompts + 1
            && (After(v).prompts > s.prompts ==> s.silent >= auto)
            && (s.silent >= auto ==> s.attempt + 1 == s.max == granted)
            && (v.Stop? && v.outcome == CapOnRetry ==> granted == CEILING == v.last.attempt && v.last.prompts == s.prompts + 1)
  {
  }

  lemma AskedAtBatchEnd(s: Loop, auto: nat, w: World, budget: int)
    requires Bounded(s, Hitl(auto), budget) && Aligned(s, auto + 1) && s.attempt < s.max
    ensures var v := Turn(s, Hitl(auto), w);
            && (v.GoOn? ==> Aligned(v.next, auto + 1))
            && (After(v).prompts > s.prompts ==> s.silent >= auto)
            && (s.silent >= auto ==> s.attempt + 1 == s.max == (auto + 1) * (1 + s.prompts))
            && (v.Stop? && v.outcome == CapOnRetry ==> (auto + 1) * v.last.prompts == CEILING == v.last.attempt)
  {
    var k, granted := auto + 1, (auto + 1) * (1 + s.prompts);
    BatchTurn(s, auto, w, granted);
    OneBatchMore(k, s.prompts);
  }

  lemma OneBatchMore(k: nat, p: nat)
    ensures k * (1 + (p + 1)) == k * (1 + p) + k && k * (1 + p) == k * p + k
  {
  }

  /**
    The branch for a retry that the ceiling does not allow is reached only when whole batches
    make up the ceiling exactly, and the user was willing to pay for all of them.
   */
  lemma {:induction false} CapOnRetryMeans(s: Loop, auto: nat, w: World, budget: int)
    requires Bounded(s, Hitl(auto), budget) && Aligned(s, auto + 1)
    ensures var r := Play(s, Hitl(auto), w);
            r.0 == CapOnRetry ==> (auto + 1) * r.1.prompts == CEILING == r.1.attempt && r.1.prompts <= Pos(budget)
    decreases CEILING - s.attempt
  {
    PlayBounded(s, Hitl(auto), w, budget);
    if s.attempt < s.max {
      AskedAtBatchEnd(s, auto, w, budget);
      TurnBounded(s, Hitl(auto), w, budget);
      if Turn(s, Hitl(auto), w).GoOn? {
        CapOnRetryMeans(Turn(s, Hitl(auto), w).next, auto, w, budget);
      }
    }
  }

  /** What the run of a model whose tool calls are always rejected comes to. */
  ghost predicate WorstCase(outcome: Outcome, last: Loop, k: nat, b: nat)
    requires k >= 1
  {
    && last.attempt == Min(CEILING, k * (1 + b))
    && (outcome == CapOnRetry <==> CEILING % k == 0 && k * b >= CEILING)
  }

  /** Where the loop stands between two rejected attempts. */
  ghost predicate Retrying(s: Loop, auto: nat, budget: int) {
    && Bounded(s, Hitl(auto), budget) && Aligned(s, auto + 1)
    && (s.attempt < s.max || s.max == CEILING < (auto + 1) * (1 + s.prompts))
  }

  /** The last batch the user pays for ends in failure, at its last attempt. */
  lemma LastBatch(k: nat, b: nat, outcome: Outcome, last: Loop)
    requires k >= 1 && k * (1 + b) <= CEILING && last.attempt == k * (1 + b) && outcome != CapOnRetry
    ensures WorstCase(outcome, last, k, b)
  {
    assert k * (1 + b) == k * b + k;
  }

  /** One more rejection: another attempt, or the end. */
  lemma RejectedTurn(s: Loop, auto: nat, w: World, budget: int)
    requires AlwaysRejected(w) && w.hasCallback && forall p :: w.retry(p)
    requires Retrying(s, auto, budget) && s.attempt < s.max
    ensures var v := Turn(s, Hitl(auto), w);
            if v.GoOn? then Retrying(v.next, auto, budget) else WorstCase(v.outcome, v.last, auto + 1, Pos(budget))
  {
    var v := Turn(s, Hitl(auto), w);
    AskedAtBatchEnd(s, auto, w, budget);
    TurnBounded(s, Hitl(auto), w, budget);
    if v.Stop? {
      if v.outcome == CapOnRetry {
        AllWhole(auto + 1, v.last.prompts, Pos(budget));
      } else {
        LastBatch(auto + 1, Pos(budget), v.outcome, v.last);
      }
    }
  }

  /**
    The bound is tight: when every tool call is rejected and the user always asks for a retry, the
    model is invoked exactly as often as the batches and the ceiling allow.
   */
  lemma {:induction false} HitlRejected(s: Loop, auto: nat, w: World, budget: int)
    requires AlwaysRejected(w) && w.hasCallback && forall p :: w.retry(p)
    requires Retrying(s, auto, budget)
    ensures WorstCase(Play(s, Hitl(auto), w).0, Play(s, Hitl(auto), w).1, auto + 1, Pos(budget))
    decreases CEILING - s.attempt
  {
    if s.attempt >= s.max {
      OneBatchMore(auto + 1, s.prompts);
      CutShort(auto + 1, s.prompts, Pos(budget));
    } else {
      RejectedTurn(s, auto, w, budget);
      var v := Turn(s, Hitl(auto), w);
      if v.GoOn? {
        HitlRejected(v.next, auto, w, budget);
      }
    }
  }

  lemma CutShort(k: nat, p: nat, b: nat)
    requires k >= 1 && k * p < CEILING < k * (1 + p) && p <= b
    ensures CEILING % k != 0 && Min(CEILING, k * (1 + b)) == CEILING
  {
    TimesMonotone(k, 1 + p, 1 + b);
    if CEILING % k == 0 {
      var q := CEILING / k;
      assert CEILING == k * q;
      if q <= p {
        TimesMonotone(k, q, p);
      } else {
        TimesMonotone(k, 1 + p, q);
      }
    }
  }

  lemma AllWhole(k: nat, p: nat, b: nat)
    requires k >= 1 && k * p == CEILING && p <= b
    ensures CEILING % k == 0 && k * b >= CEILING && Min(CEILING, k * (1 + b)) == CEILING
  {
    TimesMonotone(k, p, b);
    TimesMonotone(k, p, 1 + b);
    var q, rest := CEILING / k, CEILING % k;
    assert CEILING == k * q + rest;
    if q < p {
      TimesMonotone(k, q + 1, p);
    } else if q > p {
      TimesMonotone(k, p + 1, q);
    }
  }

  // ----- the streaming path -----

  /** How a streamed attempt ends: in an answer, in a final failure, or in one that may be retried. */
  datatype StreamEnd =
    | Streamed
    | Final
    | Disconnected(oversized: bool, shrinks: bool)
    | OtherFailure

  /** For each streamed attempt its end and the number of stray answers it is nudged about. */
  datatype StreamWorld = StreamWorld(end: nat -> StreamEnd, strays: nat -> nat, strict: bool, fallback: World, budget: int)

  datatype StreamRun = StreamRun(streams: nat, nudges: nat, fallback: nat)

  /** A lost connection is retried, by the same handler, as long as retries remain. */
  method HandleReactStreaming(remaining: nat, round: nat, w: StreamWorld) returns (run: StreamRun)
    decreases remaining
    ensures 1 <= run.streams <= 1 + remaining
    ensures run.nudges <= STRAY_RETRIES * run.streams
    ensures run.fallback <= CEILING && (w.strict ==> run.fallback == 0)
    ensures run.streams > 1 ==> w.end(round).Disconnected?
    ensures run.fallback > 0 ==> w.end(round + run.streams - 1).Disconnected? || w.end(round + run.streams - 1).OtherFailure?
    ensures run.streams == 1 + remaining || !Resends(w.end(round + run.streams - 1))
  {
    var nudges := Min(STRAY_RETRIES, w.strays(round));
    match w.end(round)
    case Streamed => run := StreamRun(1, nudges, 0);
    case Final => run := StreamRun(1, nudges, 0);
    case Disconnected(oversized, shrinks) =>
      if remaining > 0 && (!oversized || shrinks) {
        var rest := HandleReactStreaming(remaining - 1, round + 1, w);
        run := StreamRun(1 + rest.streams, nudges + rest.nudges, rest.fallback);
      } else {
        run := FallBack(nudges, w);
      }
    case OtherFailure => run := FallBack(nudges, w);
  }

  predicate Resends(end: StreamEnd) {
    end.Disconnected? && (!end.oversized || end.shrinks)
  }

  method FallBack(nudges: nat, w: StreamWorld) returns (run: StreamRun)
    ensures run.streams == 1 && run.nudges == nudges && run.fallback <= CEILING && (w.strict ==> run.fallback == 0)
  {
    if w.strict {
      return StreamRun(1, nudges, 0);
    }
    var outcome, last := RunReactWithRetries(0, w.budget, w.fallback);
    run := StreamRun(1, nudges, last.attempt);
  }
}
