/**
  What becomes of the signals drained in one go: a HALT_ALL anywhere among them ends the matter
  before anyone is asked anything; otherwise each clarification request that can be answered
  puts one answer into the queue of the worker that asked.
 */
module SignalBatch {
  import opened Wrappers

  datatype Item =
    | HaltAll(worker: string)
    | Clarification(worker: string, question: string)
    | OtherSignal
    | NotASignal

  /** `ask(i)` is what the user says to the request at position i; None if the callback raises. */
  datatype User = User(hasCallback: bool, ask: nat -> Option<string>, fallback: string)

  predicate HaltIn(batch: seq<Item>) {
    exists i :: 0 <= i < |batch| && batch[i].HaltAll?
  }

  function Reply(i: nat, user: User): string {
    if user.ask(i).Some? then user.ask(i).value else user.fallback
  }

  function AnswerAt(batch: seq<Item>, i: nat, user: User, worker: string): seq<string>
    requires i < |batch|
  {
    if user.hasCallback && batch[i].Clarification? && batch[i].worker == worker then [Reply(i, user)] else []
  }

  /** The answers that a batch leaves for a worker, in the order of its requests. */
  function Answers(batch: seq<Item>, user: User, worker: string): seq<string> {
    if batch == [] then []
    else Answers(batch[..|batch| - 1], user, worker) + AnswerAt(batch, |batch| - 1, user, worker)
  }

  lemma AnswersOneMore(batch: seq<Item>, i: nat, user: User, worker: string)
    requires i < |batch|
    ensures Answers(batch[..i + 1], user, worker) == Answers(batch[..i], user, worker) + AnswerAt(batch, i, user, worker)
  {
    assert batch[..i + 1][..i] == batch[..i];
  }

  /** The queues after the item at position i. */
  function HandledAt(queues: map<string, seq<string>>, batch: seq<Item>, i: nat, user: User): map<string, seq<string>>
    requires i < |batch|
  {
    if batch[i].Clarification? && user.hasCallback && batch[i].worker in queues
    then queues[batch[i].worker := queues[batch[i].worker] + [Reply(i, user)]]
    else queues
  }

  function Handled(queues: map<string, seq<string>>, batch: seq<Item>, i: nat, user: User): map<string, seq<string>>
    requires i <= |batch|
  {
    if i == 0 then queues else HandledAt(Handled(queues, batch, i - 1, user), batch, i - 1, user)
  }

  lemma {:induction false} HandledKeys(queues: map<string, seq<string>>, batch: seq<Item>, i: nat, user: User)
    requires i <= |batch|
    ensures Handled(queues, batch, i, user).Keys == queues.Keys
  {
    if i > 0 {
      HandledKeys(queues, batch, i - 1, user);
    }
  }

  /** Each queue gains the answers to its worker's requests. */
  lemma {:induction false} HandledAnswers(queues: map<string, seq<string>>, batch: seq<Item>, i: nat, user: User, w: string)
    requires i <= |batch| && w in Handled(queues, batch, i, user)
    ensures w in queues && Handled(queues, batch, i, user)[w] == queues[w] + Answers(batch[..i], user, w)
  {
    if i > 0 {
      HandledKeys(queues, batch, i - 1, user);
      HandledKeys(queues, batch, i, user);
      HandledAnswers(queues, batch, i - 1, user, w);
      AnswersOneMore(batch, i - 1, user, w);
    }
  }

  class ClarificationQueues {
    var queues: map<string, seq<string>>

    constructor (workers: set<string>)
      ensures queues.Keys == workers && forall w :: w in queues ==> queues[w] == []
    {
      queues := map w | w in workers :: [];
    }

    method Put(worker: string, answer: string)
      requires worker in queues
      modifies this
      ensures queues == old(queues)[worker := old(queues)[worker] + [answer]]
    {
      queues := queues[worker := queues[worker] + [answer]];
    }

    /** Both the drain between sequential steps and the listener of a parallel run do this. */
    method ApplyBatch(batch: seq<Item>, user: User) returns (halted: bool)
      modifies this
      ensures halted <==> HaltIn(batch)
      ensures queues.Keys == old(queues).Keys
      ensures forall w :: w in queues ==>
                queues[w] == old(queues)[w] + if halted then [] else Answers(batch, user, w)
    {
      halted := FindHalt(batch);
      if halted {
        return;
      }
      for i := 0 to |batch|
        invariant queues == Handled(old(queues), batch, i, user)
      {
        HandleItem(batch, i, user);
      }
      HandledKeys(old(queues), batch, |batch|, user);
      assert batch[..|batch|] == batch;
      forall w | w in queues
        ensures queues[w] == old(queues)[w] + Answers(batch, user, w)
      {
        HandledAnswers(old(queues), batch, |batch|, user, w);
      }
    }

    method HandleItem(batch: seq<Item>, i: nat, user: User)
      requires i < |batch|
      modifies this
      ensures queues == HandledAt(old(queues), batch, i, user)
    {
      if !batch[i].Clarification? || !user.hasCallback || batch[i].worker !in queues {
        return;
      }
      Put(batch[i].worker, Reply(i, user));
    }

    method FindHalt(batch: seq<Item>) returns (found: bool)
      ensures found <==> HaltIn(batch)
    {
      for i := 0 to |batch|
        invariant forall j :: 0 <= j < i ==> !batch[j].HaltAll?
      {
        if batch[i].HaltAll? {
          return true;
        }
      }
      return false;
    }
  }

  function Requests(batch: seq<Item>, worker: string): nat {
    if batch == [] then 0
    else
      var n := |batch| - 1;
      Requests(batch[..n], worker) + if batch[n].Clarification? && batch[n].worker == worker then 1 else 0
  }

  /** With a callback, each request of a worker gets one answer: its reply, in place. */
  lemma {:induction false} EachRequestAnswered(batch: seq<Item>, user: User, i: nat)
    requires user.hasCallback && i < |batch| && batch[i].Clarification?
    ensures var w := batch[i].worker;
            && |Answers(batch, user, w)| == Requests(batch, w)
            && Requests(batch[..i], w) < |Answers(batch, user, w)|
            && Answers(batch, user, w)[Requests(batch[..i], w)] == Reply(i, user)
  {
    var n := |batch| - 1;
    AnswerCount(batch[..n], user, batch[i].worker);
    if i < n {
      EachRequestAnswered(batch[..n], user, i);
      assert batch[..n][..i] == batch[..i];
    }
  }

  lemma {:induction false} AnswerCount(batch: seq<Item>, user: User, worker: string)
    requires user.hasCallback
    ensures |Answers(batch, user, worker)| == Requests(batch, worker)
  {
    if batch != [] {
      AnswerCount(batch[..|batch| - 1], user, worker);
    }
  }
}
