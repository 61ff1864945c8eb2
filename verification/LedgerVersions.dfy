/**
  Optimistic concurrency on the progress ledger: any number of trackers, each with its own
  copy, save to one store slot behind a version check. Trackers interleave freely; the
  contents of an artifact are kept as a log, so that a lost update shows as a stored log that
  is not carried on.
 */
module LedgerVersions {
  import opened Wrappers

  /** One change made by a tracker, or the trace every write leaves (its time stamp). */
  datatype Item = Change(tracker: nat, n: nat) | Mark(write: nat)

  datatype Stored = Stored(version: nat, log: seq<Item>)

  /**
    A tracker's copy; `synced` is the number of writes there had been when it last loaded or
    wrote, `checked` that its version check has passed and its write is still to come.
   */
  datatype Local = Local(version: nat, log: seq<Item>, synced: nat, checked: bool)

  datatype System = System(store: Option<Stored>, writes: nat, trackers: map<nat, Local>)

  datatype Event =
    | Load(t: nat)                                   // read the slot, or start afresh
    | LoadDisk(t: nat, version: nat, log: seq<Item>) // the slot being empty, read a file instead
    | Edit(t: nat, n: nat)                           // change the copy
    | Check(t: nat)                                  // first half of a save: compare versions
    | Write(t: nat)                                  // second half of a save: write
    | Save(t: nat)                                   // both halves with nothing in between
    | DiskBootstrap(t: nat, version: nat, log: seq<Item>, n: nat) // a whole bootstrap with nothing in between

  const FRESH_VERSION := 1

  ghost const Start := System(None, 0, map[])

  /** A copy that was never loaded from the slot counts as synced before the first write. */
  ghost const FreshCopy := Local(FRESH_VERSION, [], 0, false)

  ghost function CopyOf(s: System, t: nat): Local {
    if t in s.trackers then s.trackers[t] else FreshCopy
  }

  ghost predicate CheckPasses(s: System, t: nat) {
    s.store.None? || s.store.value.version <= CopyOf(s, t).version
  }

  ghost function DoLoad(s: System, t: nat): System {
    var l := if s.store.Some? then Local(s.store.value.version, s.store.value.log, s.writes, false) else FreshCopy;
    s.(trackers := s.trackers[t := l])
  }

  ghost function DoWrite(s: System, t: nat): System {
    var l := CopyOf(s, t);
    var n := s.writes + 1;
    var log := l.log + [Mark(n)];
    System(Some(Stored(l.version + 1, log)), n, s.trackers[t := Local(l.version + 1, log, n, false)])
  }

  ghost function DoSave(s: System, t: nat): System {
    if t in s.trackers && CheckPasses(s, t) then DoWrite(s, t) else s
  }

  ghost function DoEdit(s: System, t: nat, n: nat): System {
    var l := CopyOf(s, t);
    s.(trackers := s.trackers[t := l.(log := l.log + [Change(t, n)])])
  }

  ghost function DoLoadDisk(s: System, t: nat, version: nat, log: seq<Item>): System {
    s.(trackers := s.trackers[t := Local(version, log, 0, false)])
  }

  /** A save that fails its check raises and changes nothing; so does saving before there is a copy. */
  ghost function Step(s: System, e: Event): System {
    match e
    case Load(t) => DoLoad(s, t)
    case LoadDisk(t, version, log) => if s.store.None? then DoLoadDisk(s, t, version, log) else DoLoad(s, t)
    case Edit(t, n) => DoEdit(s, t, n)
    case Check(t) =>
      if t in s.trackers && CheckPasses(s, t) then s.(trackers := s.trackers[t := s.trackers[t].(checked := true)]) else s
    case Write(t) => if t in s.trackers && s.trackers[t].checked then DoWrite(s, t) else s
    case Save(t) => DoSave(s, t)
    case DiskBootstrap(t, version, log, n) =>
      var s1 := if s.store.None? then DoSave(DoLoadDisk(s, t, version, log), t) else DoLoad(s, t);
      DoSave(DoEdit(s1, t, n), t)
  }

  ghost function Exec(s: System, events: seq<Event>): System {
    if events == [] then s else Step(Exec(s, events[..|events| - 1]), events[|events| - 1])
  }

  // ----- any interleaving at all -----

  /** Logs carry no mark of a write still to come, and the stored log ends with the last mark. */
  ghost predicate MarksUpTo(log: seq<Item>, n: nat) {
    forall i :: 0 <= i < |log| && log[i].Mark? ==> log[i].write <= n
  }

  ghost predicate Carries(s: System, l: Local) {
    s.store.Some? ==> s.store.value.log <= l.log
  }

  ghost predicate MarkedCopy(s: System, l: Local) {
    && l.synced <= s.writes && MarksUpTo(l.log, l.synced)
    && (l.synced == s.writes ==> Carries(s, l))
  }

  ghost predicate Marked(s: System) {
    && (s.writes == 0 <==> s.store.None?)
    && (s.store.Some? ==>
          && MarksUpTo(s.store.value.log, s.writes)
          && s.store.value.log != [] && s.store.value.log[|s.store.value.log| - 1] == Mark(s.writes))
    && forall t :: t in s.trackers ==> MarkedCopy(s, s.trackers[t])
  }

  /** Files on disk carry no mark of this store's writes. */
  ghost predicate Unmarked(e: Event) {
    (e.LoadDisk? || e.DiskBootstrap?) ==> MarksUpTo(e.log, 0)
  }

  lemma CopyMarked(s: System, t: nat)
    requires Marked(s) && t in s.trackers
    ensures MarkedCopy(s, CopyOf(s, t))
  {
  }

  lemma WriteMarked(s: System, t: nat)
    requires Marked(s) && t in s.trackers
    ensures Marked(DoWrite(s, t))
  {
    CopyMarked(s, t);
  }

  lemma EditMarked(s: System, t: nat, n: nat)
    requires Marked(s)
    ensures Marked(DoEdit(s, t, n))
  {
    var l := CopyOf(s, t);
    assert s.store.Some? && s.store.value.log <= l.log ==> s.store.value.log <= l.log + [Change(t, n)];
  }

  lemma SaveMarked(s: System, t: nat)
    requires Marked(s)
    ensures Marked(DoSave(s, t))
  {
    if t in s.trackers {
      WriteMarked(s, t);
    }
  }

  lemma LoadMarked(s: System, t: nat)
    requires Marked(s)
    ensures Marked(DoLoad(s, t))
  {
  }

  lemma LoadDiskMarked(s: System, t: nat, version: nat, log: seq<Item>)
    requires Marked(s) && s.store.None? && MarksUpTo(log, 0)
    ensures Marked(DoLoadDisk(s, t, version, log))
  {
  }

  lemma CheckMarked(s: System, t: nat)
    requires Marked(s)
    ensures Marked(Step(s, Check(t)))
  {
  }

  lemma StepMarked(s: System, e: Event)
    requires Marked(s) && Unmarked(e)
    ensures Marked(Step(s, e))
  {
    match e
    case Load(t) => LoadMarked(s, t);
    case LoadDisk(t, version, log) =>
      if s.store.None? { LoadDiskMarked(s, t, version, log); } else { LoadMarked(s, t); }
    case Edit(t, n) => EditMarked(s, t, n);
    case Check(t) => CheckMarked(s, t);
    case Write(t) => if t in s.trackers { WriteMarked(s, t); }
    case Save(t) => SaveMarked(s, t);
    case DiskBootstrap(t, version, log, n) => DiskBootstrapMarked(s, t, version, log, n);
  }

  lemma DiskBootstrapMarked(s: System, t: nat, version: nat, log: seq<Item>, n: nat)
    requires Marked(s) && MarksUpTo(log, 0)
    ensures Marked(Step(s, DiskBootstrap(t, version, log, n)))
  {
    var s1;
    if s.store.None? {
      LoadDiskMarked(s, t, version, log);
      s1 := DoLoadDisk(s, t, version, log);
      SaveMarked(s1, t);
      s1 := DoSave(s1, t);
    } else {
      LoadMarked(s, t);
      s1 := DoLoad(s, t);
    }
    EditMarked(s1, t, n);
    SaveMarked(DoEdit(s1, t, n), t);
  }

  lemma {:induction false} RunMarked(events: seq<Event>)
    requires forall e :: e in events ==> Unmarked(e)
    ensures Marked(Exec(Start, events))
  {
    if events != [] {
      RunMarked(events[..|events| - 1]);
      StepMarked(Exec(Start, events[..|events| - 1]), events[|events| - 1]);
    }
  }

  /**
    In every run, however saves are split and interleaved: a write carries on everything the
    slot holds if and only if nobody has written since this tracker last loaded or wrote.
   */
  lemma WriteLosesNothingIff(events: seq<Event>, t: nat)
    requires forall e :: e in events ==> Unmarked(e)
    requires t in Exec(Start, events).trackers
    ensures var s := Exec(Start, events);
            Carries(s, s.trackers[t]) <==> s.store.None? || s.trackers[t].synced == s.writes
  {
    RunMarked(events);
    var s := Exec(Start, events);
    CopyMarked(s, t);
    if s.store.Some? && Carries(s, s.trackers[t]) {
      var last := |s.store.value.log| - 1;
      assert s.trackers[t].log[last] == s.store.value.log[last];
    }
  }

  // ----- saves that are not split -----

  /** Runs in which a save, and a bootstrap from disk, happen without another tracker in between. */
  ghost predicate Whole(e: Event) {
    && !e.Check? && !e.Write? && !e.LoadDisk?
    && (e.DiskBootstrap? ==> e.version >= 1 && MarksUpTo(e.log, 0))
  }

  /** No copy is ahead of the slot, and one at its version is in step with it. */
  ghost predicate Behind(s: System, l: Local) {
    && !l.checked && l.version >= 1
    && if s.store.None? then l.version == FRESH_VERSION
       else l.version <= s.store.value.version && (l.version == s.store.value.version ==> l.synced == s.writes)
  }

  ghost predicate InStep(s: System) {
    && Marked(s)
    && (s.store.Some? ==> s.store.value.version > FRESH_VERSION)
    && forall t :: t in s.trackers ==> Behind(s, s.trackers[t])
  }

  lemma SaveInStep(s: System, t: nat)
    requires InStep(s)
    ensures InStep(DoSave(s, t))
  {
    if t in s.trackers && CheckPasses(s, t) {
      WriteMarked(s, t);
      assert Behind(s, s.trackers[t]);
      forall u | u in DoWrite(s, t).trackers
        ensures Behind(DoWrite(s, t), DoWrite(s, t).trackers[u])
      {
        if u != t {
          assert Behind(s, s.trackers[u]);
        }
      }
    }
  }

  lemma EditInStep(s: System, t: nat, n: nat)
    requires InStep(s)
    ensures InStep(DoEdit(s, t, n))
  {
    EditMarked(s, t, n);
  }

  /** Reading a file into an empty slot and saving at once puts everybody else behind. */
  lemma DiskInStep(s: System, t: nat, version: nat, log: seq<Item>)
    requires InStep(s) && s.store.None? && version >= 1 && MarksUpTo(log, 0)
    ensures InStep(DoSave(DoLoadDisk(s, t, version, log), t))
  {
    WriteMarked(DoLoadDisk(s, t, version, log), t);
  }

  lemma StepInStep(s: System, e: Event)
    requires InStep(s) && Whole(e)
    ensures InStep(Step(s, e))
  {
    match e
    case Load(t) => StepMarked(s, e);
    case Edit(t, n) => EditInStep(s, t, n);
    case Save(t) => SaveInStep(s, t);
    case DiskBootstrap(t, version, log, n) =>
      var s1 := if s.store.None? then DoSave(DoLoadDisk(s, t, version, log), t) else DoLoad(s, t);
      assert InStep(s1) by {
        if s.store.None? {
          DiskInStep(s, t, version, log);
        } else {
          StepMarked(s, Load(t));
        }
      }
      EditInStep(s1, t, n);
      SaveInStep(DoEdit(s1, t, n), t);
  }

  lemma {:induction false} RunInStep(events: seq<Event>)
    requires forall e :: e in events ==> Whole(e)
    ensures InStep(Exec(Start, events))
  {
    if events != [] {
      RunInStep(events[..|events| - 1]);
      StepInStep(Exec(Start, events[..|events| - 1]), events[|events| - 1]);
    }
  }

  ghost function StoredLog(s: System): seq<Item> {
    if s.store.Some? then s.store.value.log else []
  }

  ghost function StoredVersion(s: System): nat {
    if s.store.Some? then s.store.value.version else 0
  }

  /**
    No lost update, over every interleaving of whole saves: the stored log is only ever carried
    on, the stored version rises with every write and no tracker is ever ahead of it.
   */
  lemma NoLostUpdate(events: seq<Event>, e: Event)
    requires (forall e' :: e' in events ==> Whole(e')) && Whole(e)
    ensures var s, s' := Exec(Start, events), Step(Exec(Start, events), e);
            && StoredLog(s) <= StoredLog(s')
            && (s'.store != s.store ==> StoredVersion(s') > StoredVersion(s))
            && (s'.store.Some? ==> forall t :: t in s'.trackers ==> s'.trackers[t].version <= StoredVersion(s'))
  {
    RunInStep(events);
    var s := Exec(Start, events);
    StepInStep(s, e);
    if e.Save? {
      SaveCarries(s, e.t);
    } else if e.DiskBootstrap? && s.store.Some? {
      StepMarked(s, Load(e.t));
      var s1 := DoLoad(s, e.t);
      StepInStep(s, Load(e.t));
      EditInStep(s1, e.t, e.n);
      SaveCarries(DoEdit(s1, e.t, e.n), e.t);
    }
    forall t | t in Step(s, e).trackers && Step(s, e).store.Some?
      ensures Step(s, e).trackers[t].version <= StoredVersion(Step(s, e))
    {
      assert Behind(Step(s, e), Step(s, e).trackers[t]);
    }
  }

  lemma SaveCarries(s: System, t: nat)
    requires InStep(s)
    ensures StoredLog(s) <= StoredLog(DoSave(s, t))
    ensures DoSave(s, t).store != s.store ==> StoredVersion(DoSave(s, t)) > StoredVersion(s)
  {
    if t in s.trackers && CheckPasses(s, t) {
      assert Behind(s, s.trackers[t]);
      CopyMarked(s, t);
    }
  }

  ghost predicate Stale(s: System, t: nat) {
    t in s.trackers && s.store.Some? && s.trackers[t].version < s.store.value.version
  }

  /** Does the event load for t? */
  ghost predicate Reloads(e: Event, t: nat) {
    (e.Load? || e.DiskBootstrap?) && e.t == t
  }

  lemma StaleStep(s: System, e: Event, t: nat)
    requires InStep(s) && Whole(e) && Stale(s, t) && !Reloads(e, t)
    ensures Stale(Step(s, e), t)
  {
    if e.Save? {
      SaveCarries(s, e.t);
    } else if e.DiskBootstrap? {
      StepInStep(s, Load(e.t));
      var s1 := DoLoad(s, e.t);
      EditInStep(s1, e.t, e.n);
      SaveCarries(DoEdit(s1, e.t, e.n), e.t);
    }
  }

  /** A stale tracker stays stale, and all its saves fail, until it bootstraps again. */
  lemma {:induction false} StaleUntilReload(before: seq<Event>, after: seq<Event>, t: nat)
    requires forall e :: e in before + after ==> Whole(e)
    requires Stale(Exec(Start, before), t) && forall e :: e in after ==> !Reloads(e, t)
    ensures Stale(Exec(Start, before + after), t)
    ensures Step(Exec(Start, before + after), Save(t)) == Exec(Start, before + after)
    decreases |after|
  {
    if after == [] {
      assert before + after == before;
    } else {
      var front, e := after[..|after| - 1], after[|after| - 1];
      assert before + after == before + front + [e] && (before + after)[..|before + after| - 1] == before + front;
      StaleUntilReload(before, front, t);
      RunInStep(before + front);
      StaleStep(Exec(Start, before + front), e, t);
    }
  }

  // ----- what the check does not cover -----

  /**
    The check and the write are two store calls. With another tracker's save between them, an
    update that was saved is lost: both trackers pass the check, and the later write drops
    what the earlier one stored.
   */
  lemma SplitSaveLosesUpdate()
    ensures var s := Exec(Start, [Load(0), Load(1), Edit(0, 7), Check(0), Check(1), Write(0)]);
            Change(0, 7) in StoredLog(s) && Change(0, 7) !in StoredLog(Step(s, Write(1)))
  {
    var e2 := [Load(0)] + [Load(1)];
    var e3 := e2 + [Edit(0, 7)];
    var e5 := e3 + [Check(0)] + [Check(1)];
    ExecIs([], Load(0));
    ExecIs([Load(0)], Load(1));
    ExecIs(e2, Edit(0, 7));
    ExecIs(e3, Check(0));
    ExecIs(e3 + [Check(0)], Check(1));
    ExecIs(e5, Write(0));
    assert [] + [Load(0)] == [Load(0)];
    assert Exec(Start, e5).trackers[0] == Local(1, [Change(0, 7)], 0, true);
    assert Exec(Start, e5).trackers[1] == Local(1, [], 0, true);
    assert e5 + [Write(0)] == [Load(0), Load(1), Edit(0, 7), Check(0), Check(1), Write(0)];
    var s := Exec(Start, e5 + [Write(0)]);
    assert StoredLog(s)[0] == Change(0, 7);
    assert StoredLog(Step(s, Write(1))) == [Mark(2)];
  }

  /**
    A file read into a copy while the slot is empty may carry any version; if another tracker
    saves before that copy is first saved, the check lets the copy overwrite it.
   */
  lemma DiskCopyOverwrites(version: nat)
    requires version >= 2
    ensures var s := Exec(Start, [LoadDisk(0, version, []), Edit(1, 7), Save(1)]);
            Change(1, 7) in StoredLog(s) && Change(1, 7) !in StoredLog(Step(s, Save(0)))
  {
    var e2 := [LoadDisk(0, version, [])] + [Edit(1, 7)];
    ExecIs([], LoadDisk(0, version, []));
    ExecIs([LoadDisk(0, version, [])], Edit(1, 7));
    ExecIs(e2, Save(1));
    assert [] + [LoadDisk(0, version, [])] == [LoadDisk(0, version, [])];
    assert Exec(Start, e2).trackers[0] == Local(version, [], 0, false);
    assert Exec(Start, e2).trackers[1] == Local(1, [Change(1, 7)], 0, false);
    assert e2 + [Save(1)] == [LoadDisk(0, version, []), Edit(1, 7), Save(1)];
    var s := Exec(Start, e2 + [Save(1)]);
    assert StoredLog(s)[0] == Change(1, 7);
    assert StoredLog(Step(s, Save(0))) == [Mark(2)];
  }

  lemma ExecIs(events: seq<Event>, e: Event)
    ensures Exec(Start, events + [e]) == Step(Exec(Start, events), e)
  {
    assert (events + [e])[..|events|] == events;
  }
}
