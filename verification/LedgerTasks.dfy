/**
  The progress ledger's tasks: adding, updating and claiming them, choosing the next one, and
  appending planned ones. The tracker's methods are proved against functions on the task
  list; the invariants are proved about runs of those functions.
 */
module LedgerTasks {
  import opened Wrappers

  datatype Status = PENDING | IN_PROGRESS | PASSING | FAILING | SKIPPED

  datatype Priority = CRITICAL | HIGH | MEDIUM | LOW

  datatype Step = Step(description: string, passes: bool)

  datatype Task = Task(id: string, priority: Priority, created: nat, status: Status, owner: Option<string>,
                       steps: seq<Step>, attempts: nat, error: string)

  // ----- one task -----

  function MarkInProgress(t: Task, session: string): Task {
    t.(status := IN_PROGRESS, owner := Some(session), attempts := t.attempts + 1)
  }

  predicate AllPass(steps: seq<Step>) {
    forall s :: s in steps ==> s.passes
  }

  const STEPS_FAILING := "steps failing"

  /** Passing needs at least one verification step and every step passed. */
  function MarkPassing(t: Task): Task {
    if t.steps == [] then t
    else if !AllPass(t.steps) then t.(status := FAILING, error := STEPS_FAILING)
    else t.(status := PASSING, owner := None)
  }

  /** Overwrite the outcome of every step that an update describes; later updates win. */
  function ApplyUpdates(steps: seq<Step>, updates: seq<Step>): (r: seq<Step>)
    ensures |r| == |steps|
  {
    if updates == [] then steps
    else
      var u := updates[|updates| - 1];
      var base := ApplyUpdates(steps, updates[..|updates| - 1]);
      seq(|steps|, i requires 0 <= i < |steps| =>
        if base[i].description == u.description then base[i].(passes := u.passes) else base[i])
  }

  function UpdateStatus(t: Task, status: Status, updates: seq<Step>, error: string, session: string): Task {
    match status
    case PASSING => MarkPassing(t.(steps := ApplyUpdates(t.steps, updates)))
    case FAILING => t.(status := FAILING, error := error)
    case IN_PROGRESS => MarkInProgress(t, session)
    case SKIPPED => t.(status := SKIPPED, owner := None)
    case PENDING => t.(status := PENDING)
  }

  // ----- the list -----

  function Find(tasks: seq<Task>, id: string): (r: Option<nat>)
    ensures r.Some? ==> r.value < |tasks| && tasks[r.value].id == id
    ensures r.None? ==> forall t :: t in tasks ==> t.id != id
  {
    if tasks == [] then None
    else if tasks[0].id == id then Some(0)
    else
      assert tasks == [tasks[0]] + tasks[1..];
      match Find(tasks[1..], id)
      case None => None
      case Some(i) => Some(i + 1)
  }

  function Added(tasks: seq<Task>, id: string, priority: Priority, steps: seq<Step>, now: nat): seq<Task> {
    if Find(tasks, id).Some? then tasks
    else tasks + [Task(id, priority, now, PENDING, None, steps, 0, "")]
  }

  function Updated(tasks: seq<Task>, id: string, status: Option<Status>, updates: seq<Step>, error: string, session: string): seq<Task> {
    match Find(tasks, id)
    case None => tasks
    case Some(i) =>
      if status.None? then tasks
      else tasks[i := UpdateStatus(tasks[i], status.value, updates, error, session)]
  }

  /** Another session's in-progress task, if its owner is named at all. */
  predicate Orphan(t: Task, session: string) {
    t.status == IN_PROGRESS && t.owner.Some? && t.owner.value != "" && t.owner.value != session
  }

  function Reclaimed(tasks: seq<Task>, session: string): (r: seq<Task>)
    ensures |r| == |tasks|
    ensures forall i :: 0 <= i < |tasks| ==> r[i] == if Orphan(tasks[i], session) then tasks[i].(owner := Some(session)) else tasks[i]
  {
    seq(|tasks|, i requires 0 <= i < |tasks| =>
      if Orphan(tasks[i], session) then tasks[i].(owner := Some(session)) else tasks[i])
  }

  predicate Candidate(t: Task, session: string) {
    t.status == PENDING || (t.status == IN_PROGRESS && t.owner == Some(session))
  }

  function Rank(p: Priority): nat {
    match p case CRITICAL => 0 case HIGH => 1 case MEDIUM => 2 case LOW => 3
  }

  /** Strictly before in the sort key (priority, creation time). */
  predicate Before(a: Task, b: Task) {
    Rank(a.priority) < Rank(b.priority) || (a.priority == b.priority && a.created < b.created)
  }

  predicate SameKey(a: Task, b: Task) {
    a.priority == b.priority && a.created == b.created
  }

  /** The list to be sorted: pending tasks first, then the session's own in-progress ones. */
  function Indices(tasks: seq<Task>, status: Status, session: string, n: nat): (r: seq<nat>)
    requires n <= |tasks|
    ensures forall k :: 0 <= k < |r| ==> r[k] < n
  {
    if n == 0 then []
    else Indices(tasks, status, session, n - 1)
         + if tasks[n - 1].status == status && Candidate(tasks[n - 1], session) then [n - 1] else []
  }

  function Candidates(tasks: seq<Task>, session: string): seq<nat> {
    Indices(tasks, PENDING, session, |tasks|) + Indices(tasks, IN_PROGRESS, session, |tasks|)
  }

  /** i wins: it is the first in candidate order among those with the least key. */
  ghost predicate Wins(tasks: seq<Task>, session: string, i: nat) {
    && i < |tasks| && Candidate(tasks[i], session)
    && forall j :: 0 <= j < |tasks| && Candidate(tasks[j], session) && j != i ==>
         Before(tasks[i], tasks[j]) || (SameKey(tasks[i], tasks[j]) && EarlierInList(tasks, i, j))
  }

  ghost predicate EarlierInList(tasks: seq<Task>, i: nat, j: nat)
    requires i < |tasks| && j < |tasks|
  {
    if tasks[i].status == tasks[j].status then i < j else tasks[i].status == PENDING
  }

  lemma {:induction false} IndicesMember(tasks: seq<Task>, status: Status, session: string, n: nat, i: nat)
    requires n <= |tasks|
    ensures i in Indices(tasks, status, session, n) <==>
            i < n && tasks[i].status == status && Candidate(tasks[i], session)
  {
    if n > 0 {
      IndicesMember(tasks, status, session, n - 1, i);
    }
  }

  lemma {:induction false} IndicesRise(tasks: seq<Task>, status: Status, session: string, n: nat)
    requires n <= |tasks|
    ensures forall k, l :: 0 <= k < l < |Indices(tasks, status, session, n)| ==>
              Indices(tasks, status, session, n)[k] < Indices(tasks, status, session, n)[l]
  {
    if n > 0 {
      IndicesRise(tasks, status, session, n - 1);
    }
  }

  lemma IndicesAre(tasks: seq<Task>, status: Status, session: string, n: nat)
    requires n <= |tasks|
    ensures forall i: nat :: i in Indices(tasks, status, session, n) <==>
                             i < n && tasks[i].status == status && Candidate(tasks[i], session)
    ensures forall k, l :: 0 <= k < l < |Indices(tasks, status, session, n)| ==>
              Indices(tasks, status, session, n)[k] < Indices(tasks, status, session, n)[l]
  {
    IndicesRise(tasks, status, session, n);
    forall i: nat
      ensures i in Indices(tasks, status, session, n) <==>
              i < n && tasks[i].status == status && Candidate(tasks[i], session)
    {
      IndicesMember(tasks, status, session, n, i);
    }
  }

  /** A stable sort by key followed by taking the head: the first of the least. */
  method FirstLeast(tasks: seq<Task>, order: seq<nat>) returns (k: nat)
    requires order != [] && forall l :: 0 <= l < |order| ==> order[l] < |tasks|
    ensures k < |order|
    ensures forall l :: 0 <= l < k ==> Before(tasks[order[k]], tasks[order[l]])
    ensures forall l :: k < l < |order| ==> !Before(tasks[order[l]], tasks[order[k]])
  {
    k := 0;
    for m := 1 to |order|
      invariant k < m
      invariant forall l :: 0 <= l < k ==> Before(tasks[order[k]], tasks[order[l]])
      invariant forall l :: k < l < m ==> !Before(tasks[order[l]], tasks[order[k]])
    {
      if Before(tasks[order[m]], tasks[order[k]]) {
        k := m;
      }
    }
  }

  /** The winner's place in candidate order makes it the winner among the tasks. */
  lemma FirstLeastWins(tasks: seq<Task>, session: string, order: seq<nat>, k: nat)
    requires order == Candidates(tasks, session) && k < |order|
    requires forall l :: 0 <= l < k ==> Before(tasks[order[k]], tasks[order[l]])
    requires forall l :: k < l < |order| ==> !Before(tasks[order[l]], tasks[order[k]])
    ensures Wins(tasks, session, order[k])
  {
    var pending, own := Indices(tasks, PENDING, session, |tasks|), Indices(tasks, IN_PROGRESS, session, |tasks|);
    IndicesAre(tasks, PENDING, session, |tasks|);
    IndicesAre(tasks, IN_PROGRESS, session, |tasks|);
    var i := order[k];
    assert order[k] in order;
    forall j | 0 <= j < |tasks| && Candidate(tasks[j], session) && j != i
      ensures Before(tasks[i], tasks[j]) || (SameKey(tasks[i], tasks[j]) && EarlierInList(tasks, i, j))
    {
      assert j in order;
      var l :| 0 <= l < |order| && order[l] == j;
      CandidateOrder(tasks, session, k, l);
    }
  }

  lemma CandidateOrder(tasks: seq<Task>, session: string, k: nat, l: nat)
    requires var order := Candidates(tasks, session);
             k < |order| && l < |order| && order[k] < |tasks| && order[l] < |tasks|
    ensures var order := Candidates(tasks, session); k < l ==> EarlierInList(tasks, order[k], order[l])
  {
    var pending, own := Indices(tasks, PENDING, session, |tasks|), Indices(tasks, IN_PROGRESS, session, |tasks|);
    IndicesAre(tasks, PENDING, session, |tasks|);
    IndicesAre(tasks, IN_PROGRESS, session, |tasks|);
    assert k < |pending| ==> (pending + own)[k] in pending;
    assert l < |pending| ==> (pending + own)[l] in pending;
    assert k >= |pending| ==> (pending + own)[k] in own;
    assert l >= |pending| ==> (pending + own)[l] in own;
  }

  /** What claiming the next task does; None when nothing can be claimed. */
  ghost predicate Claims(before: seq<Task>, session: string, after: seq<Task>, winner: Option<nat>) {
    var open := Reclaimed(before, session);
    match winner
    case None => after == open && forall t :: t in open ==> !Candidate(t, session)
    case Some(i) => Wins(open, session, i) && after == open[i := MarkInProgress(open[i], session)]
  }

  /** A planned task: its id, priority and verification steps. */
  datatype Planned = Planned(id: string, priority: Priority, steps: seq<Step>)

  function AddedAll(tasks: seq<Task>, plan: seq<Planned>, now: nat): seq<Task> {
    if plan == [] then tasks
    else
      var p := plan[|plan| - 1];
      Added(AddedAll(tasks, plan[..|plan| - 1], now), p.id, p.priority, p.steps, now)
  }

  // ----- the tracker -----

  class ProgressTracker {
    var tasks: seq<Task>
    var session: string

    constructor (session: string)
      ensures tasks == [] && this.session == session
    {
      this.session := session;
      tasks := [];
    }

    /** Add a task; adding an id that is already there returns the task it names. */
    method AddTask(id: string, priority: Priority, steps: seq<Step>, now: nat) returns (t: Task)
      modifies `tasks
      ensures tasks == Added(old(tasks), id, priority, steps, now)
      ensures t in tasks && t.id == id
    {
      var existing := Find(tasks, id);
      if existing.Some? {
        return tasks[existing.value];
      }
      t := Task(id, priority, now, PENDING, None, steps, 0, "");
      tasks := tasks + [t];
    }

    method UpdateTask(id: string, status: Option<Status>, updates: seq<Step>, error: string) returns (t: Option<Task>)
      modifies `tasks
      ensures tasks == Updated(old(tasks), id, status, updates, error, session)
      ensures t.Some? <==> exists u :: u in old(tasks) && u.id == id
      ensures t.Some? ==> t.value in tasks
    {
      var found := Find(tasks, id);
      if found.None? {
        return None;
      }
      var i := found.value;
      var task := tasks[i];
      if status.Some? {
        match status.value
        case PASSING =>
          var steps := OverwriteSteps(task.steps, updates);
          task := MarkPassing(task.(steps := steps));
        case FAILING => task := task.(status := FAILING, error := error);
        case IN_PROGRESS => task := MarkInProgress(task, session);
        case SKIPPED => task := task.(status := SKIPPED, owner := None);
        case PENDING => task := task.(status := PENDING);
      }
      assert tasks[i] in tasks;
      tasks := tasks[i := task];
      assert tasks[i] == task;
      return Some(task);
    }

    /** Hand other sessions' orphaned tasks to this one, then choose the next task. */
    method GetNextTask(session: string) returns (winner: Option<nat>)
      modifies `tasks
      ensures tasks == Reclaimed(old(tasks), session)
      ensures winner.None? ==> forall t :: t in tasks ==> !Candidate(t, session)
      ensures winner.Some? ==> Wins(tasks, session, winner.value)
    {
      ghost var before := tasks;
      for i := 0 to |tasks|
        invariant |tasks| == |before|
        invariant forall j :: 0 <= j < |before| ==>
                    tasks[j] == if j < i && Orphan(before[j], session) then before[j].(owner := Some(session)) else before[j]
      {
        if Orphan(tasks[i], session) {
          tasks := tasks[i := tasks[i].(owner := Some(session))];
        }
      }
      assert tasks == Reclaimed(before, session);
      var order := Candidates(tasks, session);
      IndicesAre(tasks, PENDING, session, |tasks|);
      IndicesAre(tasks, IN_PROGRESS, session, |tasks|);
      if order == [] {
        NoCandidates(tasks, session);
        return None;
      }
      var k := FirstLeast(tasks, order);
      FirstLeastWins(tasks, session, order, k);
      return Some(order[k]);
    }

    method ClaimNextTask(session: string) returns (claimed: Option<Task>, ghost winner: Option<nat>)
      modifies `tasks
      ensures Claims(old(tasks), session, tasks, winner)
      ensures claimed == if winner.Some? && winner.value < |tasks| then Some(tasks[winner.value]) else None
    {
      var next := GetNextTask(session);
      if next.Some? {
        tasks := tasks[next.value := MarkInProgress(tasks[next.value], session)];
        return Some(tasks[next.value]), next;
      }
      return None, None;
    }

    /** Append the planned tasks whose ids are new; the count returned is how many that was. */
    method AppendHarnessPlan(plan: seq<Planned>, now: nat) returns (added: nat)
      modifies `tasks
      ensures tasks == AddedAll(old(tasks), plan, now)
      ensures |tasks| == |old(tasks)| + added
    {
      added := 0;
      for i := 0 to |plan|
        invariant tasks == AddedAll(old(tasks), plan[..i], now)
        invariant |tasks| == |old(tasks)| + added
      {
        assert plan[..i + 1][..i] == plan[..i];
        if Find(tasks, plan[i].id).None? {
          var t := AddTask(plan[i].id, plan[i].priority, plan[i].steps, now);
          added := added + 1;
        }
      }
      assert plan[..|plan|] == plan;
    }

    /** Seed an empty ledger from the plan; extend a non-empty one only when replanning is allowed. */
    method SyncHarness(plan: seq<Planned>, allowReplan: bool, now: nat) returns (count: nat)
      modifies `tasks
      ensures tasks == if old(tasks) == [] || allowReplan then AddedAll(old(tasks), plan, now) else old(tasks)
      ensures old(tasks) != [] ==> count == |tasks| - |old(tasks)|
      ensures old(tasks) == [] ==> count == |plan|
    {
      if tasks != [] {
        if allowReplan {
          count := AppendHarnessPlan(plan, now);
          return;
        }
        return 0;
      }
      for i := 0 to |plan|
        invariant tasks == AddedAll(old(tasks), plan[..i], now)
      {
        assert plan[..i + 1][..i] == plan[..i];
        var t := AddTask(plan[i].id, plan[i].priority, plan[i].steps, now);
      }
      assert plan[..|plan|] == plan;
      count := |plan|;
    }
  }

  /** For each update, for each step it describes: overwrite the outcome. */
  method OverwriteSteps(steps: seq<Step>, updates: seq<Step>) returns (r: seq<Step>)
    ensures r == ApplyUpdates(steps, updates)
  {
    r := steps;
    for k := 0 to |updates|
      invariant r == ApplyUpdates(steps, updates[..k])
    {
      assert updates[..k + 1][..k] == updates[..k];
      var base := r;
      for i := 0 to |r|
        invariant |r| == |base|
        invariant forall j :: 0 <= j < |base| ==>
                    r[j] == if j < i && base[j].description == updates[k].description
                            then base[j].(passes := updates[k].passes) else base[j]
      {
        if r[i].description == updates[k].description {
          r := r[i := r[i].(passes := updates[k].passes)];
        }
      }
    }
    assert updates[..|updates|] == updates;
  }

  lemma NoCandidates(tasks: seq<Task>, session: string)
    requires Candidates(tasks, session) == []
    ensures forall t :: t in tasks ==> !Candidate(t, session)
  {
    IndicesAre(tasks, PENDING, session, |tasks|);
    IndicesAre(tasks, IN_PROGRESS, session, |tasks|);
    forall i | 0 <= i < |tasks|
      ensures !Candidate(tasks[i], session)
    {
      assert i !in Indices(tasks, PENDING, session, |tasks|) && i !in Indices(tasks, IN_PROGRESS, session, |tasks|);
    }
  }

  // ----- invariants of the ledger -----

  datatype Op =
    | Add(id: string, priority: Priority, steps: seq<Step>, now: nat)
    | Update(id: string, status: Option<Status>, updates: seq<Step>, error: string, session: string)
    | Claim(session: string)
    | Peek(session: string)
    | Append(plan: seq<Planned>, now: nat)

  ghost predicate Does(op: Op, before: seq<Task>, after: seq<Task>) {
    match op
    case Add(id, priority, steps, now) => after == Added(before, id, priority, steps, now)
    case Update(id, status, updates, error, session) => after == Updated(before, id, status, updates, error, session)
    case Claim(session) => exists w: Option<nat> :: Claims(before, session, after, w)
    case Peek(session) => after == Reclaimed(before, session)
    case Append(plan, now) => after == AddedAll(before, plan, now)
  }

  ghost predicate UniqueTasks(tasks: seq<Task>) {
    forall i, j :: 0 <= i < j < |tasks| ==> tasks[i].id != tasks[j].id
  }

  ghost predicate PassedProperly(t: Task) {
    t.status == PASSING ==> t.steps != [] && AllPass(t.steps) && t.owner == None
  }

  ghost predicate Sound(tasks: seq<Task>) {
    UniqueTasks(tasks) && forall t :: t in tasks ==> PassedProperly(t)
  }

  function TaskIds(tasks: seq<Task>): (r: seq<string>)
    ensures |r| == |tasks| && forall i :: 0 <= i < |r| ==> r[i] == tasks[i].id
  {
    seq(|tasks|, i requires 0 <= i < |tasks| => tasks[i].id)
  }

  lemma AddSound(tasks: seq<Task>, id: string, priority: Priority, steps: seq<Step>, now: nat)
    requires Sound(tasks)
    ensures Sound(Added(tasks, id, priority, steps, now))
    ensures TaskIds(tasks) <= TaskIds(Added(tasks, id, priority, steps, now))
  {
  }

  lemma {:induction false} AddAllSound(tasks: seq<Task>, plan: seq<Planned>, now: nat)
    requires Sound(tasks)
    ensures Sound(AddedAll(tasks, plan, now)) && TaskIds(tasks) <= TaskIds(AddedAll(tasks, plan, now))
  {
    if plan != [] {
      var front, p := plan[..|plan| - 1], plan[|plan| - 1];
      AddAllSound(tasks, front, now);
      AddSound(AddedAll(tasks, front, now), p.id, p.priority, p.steps, now);
    }
  }

  lemma ReplaceSound(tasks: seq<Task>, i: nat, t: Task)
    requires Sound(tasks) && i < |tasks| && t.id == tasks[i].id && PassedProperly(t)
    ensures Sound(tasks[i := t]) && TaskIds(tasks[i := t]) == TaskIds(tasks)
  {
  }

  lemma UpdateStatusProper(t: Task, status: Status, updates: seq<Step>, error: string, session: string)
    ensures PassedProperly(UpdateStatus(t, status, updates, error, session)) || status == PASSING
    ensures PassedProperly(t) || t.status != PASSING ==> PassedProperly(UpdateStatus(t, status, updates, error, session))
    ensures UpdateStatus(t, status, updates, error, session).id == t.id
  {
  }

  lemma ReclaimSound(tasks: seq<Task>, session: string)
    requires Sound(tasks)
    ensures Sound(Reclaimed(tasks, session)) && TaskIds(Reclaimed(tasks, session)) == TaskIds(tasks)
  {
    forall t | t in Reclaimed(tasks, session)
      ensures PassedProperly(t)
    {
      var i :| 0 <= i < |tasks| && Reclaimed(tasks, session)[i] == t;
      assert tasks[i] in tasks;
    }
  }

  /**
    Every operation keeps ids unique, only ever extends the list of ids, and lets a task be
    PASSING only with verification steps that all pass and no owner.
   */
  lemma OpKeepsSound(op: Op, before: seq<Task>, after: seq<Task>)
    requires Sound(before) && Does(op, before, after)
    ensures Sound(after) && TaskIds(before) <= TaskIds(after)
  {
    match op
    case Add(id, priority, steps, now) => AddSound(before, id, priority, steps, now);
    case Append(plan, now) => AddAllSound(before, plan, now);
    case Peek(session) => ReclaimSound(before, session);
    case Update(id, status, updates, error, session) =>
      var found := Find(before, id);
      if found.Some? && status.Some? {
        var i := found.value;
        assert before[i] in before;
        UpdateStatusProper(before[i], status.value, updates, error, session);
        ReplaceSound(before, i, UpdateStatus(before[i], status.value, updates, error, session));
      }
    case Claim(session) =>
      ReclaimSound(before, session);
      var w: Option<nat> :| Claims(before, session, after, w);
      if w.Some? {
        var open := Reclaimed(before, session);
        ReplaceSound(open, w.value, MarkInProgress(open[w.value], session));
      }
  }

  ghost predicate Run(ops: seq<Op>, states: seq<seq<Task>>) {
    && |states| == |ops| + 1 && states[0] == []
    && forall i :: 0 <= i < |ops| ==> Does(ops[i], states[i], states[i + 1])
  }

  lemma {:induction false} RunKeepsSound(ops: seq<Op>, states: seq<seq<Task>>, i: nat, j: nat)
    requires Run(ops, states) && i <= j < |states|
    ensures Sound(states[j]) && TaskIds(states[i]) <= TaskIds(states[j])
    decreases j
  {
    if j > 0 {
      RunKeepsSound(ops, states, if i < j then i else i - 1, j - 1);
      OpKeepsSound(ops[j - 1], states[j - 1], states[j]);
    }
  }

  // ----- claiming -----

  /** After a claim or a look, every in-progress task with a named owner belongs to the caller. */
  lemma OwnedByCaller(before: seq<Task>, session: string, after: seq<Task>, w: Option<nat>, i: nat)
    requires Claims(before, session, after, w) && i < |after|
    ensures |after| == |before|
    ensures after[i].status == IN_PROGRESS && after[i].owner.Some? && after[i].owner.value != "" ==>
              after[i].owner == Some(session)
  {
  }

  /** A task in progress under an empty owner name is never chosen for a named session. */
  lemma NamelessNeverClaimed(before: seq<Task>, session: string, after: seq<Task>, w: Option<nat>, i: nat)
    requires Claims(before, session, after, w) && session != "" && i < |before|
    requires before[i].status == IN_PROGRESS && before[i].owner == Some("")
    ensures w != Some(i) && |after| == |before| && after[i] == before[i]
  {
  }

  /** The winner is determined. */
  lemma WinnerUnique(tasks: seq<Task>, session: string, i: nat, j: nat)
    requires Wins(tasks, session, i) && Wins(tasks, session, j)
    ensures i == j
  {
  }

  /** Another candidate ties with i and would come before it once i is in progress. */
  ghost predicate Overtakes(open: seq<Task>, session: string, i: nat, j: nat)
    requires i < |open|
  {
    && j < |open| && j != i && Candidate(open[j], session) && SameKey(open[i], open[j])
    && (open[j].status == PENDING || j < i)
  }

  /**
    Claiming twice returns the same task exactly when that task was already in progress or no
    other candidate with the same priority and creation time overtakes it.
   */
  lemma ClaimTwice(before: seq<Task>, session: string, mid: seq<Task>, after: seq<Task>, i: nat, w: Option<nat>)
    requires Claims(before, session, mid, Some(i)) && Claims(mid, session, after, w)
    ensures var open := Reclaimed(before, session);
            w == Some(i) <==> open[i].status == IN_PROGRESS || forall j: nat :: !Overtakes(open, session, i, j)
  {
    var open := Reclaimed(before, session);
    ReclaimedTwice(before, session, mid, i);
    assert Candidate(mid[i], session) && mid[i] in mid;
    var k := w.value;
    if open[i].status == IN_PROGRESS || forall j: nat :: !Overtakes(open, session, i, j) {
      forall j | 0 <= j < |mid| && Candidate(mid[j], session) && j != i
        ensures Before(mid[i], mid[j]) || (SameKey(mid[i], mid[j]) && EarlierInList(mid, i, j))
      {
        assert mid[j] == open[j];
        assert open[i].status == IN_PROGRESS || !Overtakes(open, session, i, j);
      }
      WinnerUnique(mid, session, i, k);
    } else {
      var j: nat :| Overtakes(open, session, i, j);
      assert mid[j] == open[j];
    }
  }

  lemma ReclaimedTwice(before: seq<Task>, session: string, mid: seq<Task>, i: nat)
    requires Claims(before, session, mid, Some(i))
    ensures Reclaimed(mid, session) == mid
  {
  }

  /** It may not: of two entries added at one reading of the clock, the second claim takes the other one. */
  lemma TiedEntriesBothClaimed(now: nat, session: string) returns (mid: seq<Task>, after: seq<Task>)
    ensures var before := Added(Added([], "a", MEDIUM, [], now), "b", MEDIUM, [], now);
            Claims(before, session, mid, Some(0)) && Claims(mid, session, after, Some(1))
  {
    var a, b := Task("a", MEDIUM, now, PENDING, None, [], 0, ""), Task("b", MEDIUM, now, PENDING, None, [], 0, "");
    var before := Added(Added([], "a", MEDIUM, [], now), "b", MEDIUM, [], now);
    assert "a" != "b" by {
      assert "a"[0] != "b"[0];
    }
    assert Added([], "a", MEDIUM, [], now) == [a];
    assert before == [a, b] && Reclaimed(before, session) == [a, b];
    mid := [MarkInProgress(a, session), b];
    assert mid == [a, b][0 := MarkInProgress(a, session)] && Reclaimed(mid, session) == mid;
    after := mid[1 := MarkInProgress(b, session)];
  }

  /** With distinct keys it always does. */
  lemma ClaimTwiceDistinct(before: seq<Task>, session: string, mid: seq<Task>, after: seq<Task>, i: nat, w: Option<nat>)
    requires Claims(before, session, mid, Some(i)) && Claims(mid, session, after, w)
    requires forall j, k :: 0 <= j < k < |before| ==> !SameKey(before[j], before[k])
    ensures w == Some(i)
  {
    ClaimTwice(before, session, mid, after, i, w);
    var open := Reclaimed(before, session);
    forall j: nat
      ensures !Overtakes(open, session, i, j)
    {
      if j < |open| && j != i {
        assert !SameKey(before[if i < j then i else j], before[if i < j then j else i]);
      }
    }
  }

  // ----- seeding -----

  ghost predicate DistinctPlan(plan: seq<Planned>) {
    forall i, j :: 0 <= i < j < |plan| ==> plan[i].id != plan[j].id
  }

  lemma {:induction false} AddedAllIds(tasks: seq<Task>, plan: seq<Planned>, now: nat, id: string)
    ensures Find(AddedAll(tasks, plan, now), id).Some? <==> Find(tasks, id).Some? || exists p :: p in plan && p.id == id
    ensures |AddedAll(tasks, plan, now)| <= |tasks| + |plan|
  {
    if plan != [] {
      var front, p := plan[..|plan| - 1], plan[|plan| - 1];
      assert plan == front + [p];
      AddedAllIds(tasks, front, now, id);
      var base, all := AddedAll(tasks, front, now), AddedAll(tasks, plan, now);
      assert forall t :: t in base ==> t in all;
      assert Find(all, id).Some? <==> exists t :: t in all && t.id == id;
      assert Find(base, id).Some? <==> exists t :: t in base && t.id == id;
      assert Find(base, p.id).None? ==> all[|base|].id == p.id && all[|base|] in all;
    }
  }

  lemma DistinctSnoc(front: seq<Planned>, p: Planned)
    ensures DistinctPlan(front + [p]) <==> DistinctPlan(front) && forall q :: q in front ==> q.id != p.id
  {
    var plan := front + [p];
    if DistinctPlan(plan) {
      forall i, j | 0 <= i < j < |front|
        ensures front[i].id != front[j].id
      {
        assert plan[i].id != plan[j].id;
      }
      forall i | 0 <= i < |front|
        ensures front[i].id != p.id
      {
        assert plan[i].id != plan[|front|].id;
      }
    }
  }

  /** Seeding an empty ledger reports the size of the plan; that many tasks are added exactly when its ids are distinct. */
  lemma {:induction false} SeedCountExact(plan: seq<Planned>, now: nat)
    ensures |AddedAll([], plan, now)| == |plan| <==> DistinctPlan(plan)
  {
    if plan != [] {
      var front, p := plan[..|plan| - 1], plan[|plan| - 1];
      assert plan == front + [p];
      SeedCountExact(front, now);
      AddedAllIds([], front, now, p.id);
      DistinctSnoc(front, p);
    }
  }

  /** The same entry planned twice is counted twice and added once. */
  lemma SeedCountOverstates(p: Planned, now: nat)
    ensures |AddedAll([], [p, p], now)| == 1
  {
    assert [p, p][..1] == [p] && [p][..0] == [];
    assert AddedAll([], [p], now) == Added([], p.id, p.priority, p.steps, now);
  }
}
