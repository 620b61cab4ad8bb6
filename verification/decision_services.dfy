/**
 * The approval and verification services (backend/internal/service/approval.go,
 * backend/internal/service/verification.go), one call at a time.
 */
module DecisionServices {
  import opened Basics
  import opened Decisions
  import Locks
  import SagaEffects
  import Sagas
  import SagaRuns

  datatype Error = BadRequest | NotFound | Forbidden | Conflict | Storage

  /** An event telling that a decision settled a document, or that a chain of approvers was asked. */
  datatype Announcement =
    | Announcement(kind: Kind, doc: string, decision: Status)
    | ApprovalRequired(doc: string, levels: nat)

  datatype State = State(records: map<string, Record>, docs: map<string, Status>, events: seq<Announcement>)

  /** Which of a decision's database operations succeed. */
  datatype Io = Io(read: bool, save: bool, count: bool, update: bool, announce: bool)

  const ALL_OK := Io(true, true, true, true, true)

  /** A call's new state, and whether it settled the document. */
  datatype Reply = Reply(state: State, result: Result<bool, Error>)

  function Settle(st: State, r: Record, decision: Status, io: Io): Reply {
    if !io.update then Reply(st, Err(Storage))
    else
      var updated := st.(docs := st.docs[r.doc := decision]);
      if !io.announce then Reply(updated, Err(Storage))
      else Reply(updated.(events := st.events + [Announcement(r.kind, r.doc, decision)]), Ok(true))
  }

  function MaybeResolve(st: State, r: Record, decision: Status, io: Io): Reply {
    if !io.count then Reply(st, Err(Storage))
    else if PendingOn(st.records, r.doc) != {} then Reply(st, Ok(false))
    else Settle(st, r, decision, io)
  }

  /** What one decision does, alone. */
  function Decide(st: State, key: string, actor: string, decision: Status, io: Io): Reply {
    if !io.read || key !in st.records then Reply(st, Err(NotFound))
    else
      var r := st.records[key];
      if r.kind == Approval && r.approver != actor then Reply(st, Err(Forbidden))
      else if r.status != Pending then Reply(st, Err(Conflict))
      else if !io.save then Reply(st, Err(Storage))
      else
        var saved := st.(records := st.records[key := r.(status := decision)]);
        if r.kind == Approval then MaybeResolve(saved, r, decision, io) else Settle(saved, r, decision, io)
  }

  /** One record per approver, at levels 1, 2, ... */
  function Levels(doc: string, approvers: seq<string>, keys: seq<string>, n: nat): map<string, Record>
    requires n <= |approvers| <= |keys|
  {
    if n == 0 then map[]
    else Levels(doc, approvers, keys, n - 1)[keys[n - 1] := Record(Approval, doc, approvers[n - 1], n, Pending)]
  }

  /** The new chain is one the concurrent model opens. */
  lemma {:induction false} LevelsAreFresh(doc: string, approvers: seq<string>, keys: seq<string>, n: nat)
    requires n <= |approvers| <= |keys|
    requires forall i, j :: 0 <= i < j < |keys| ==> keys[i] != keys[j]
    ensures var m := Levels(doc, approvers, keys, n);
      && m.Keys == (set i | 0 <= i < n :: keys[i])
      && forall i :: 0 <= i < n ==> m[keys[i]] == Record(Approval, doc, approvers[i], i + 1, Pending)
  {
    if n > 0 {
      LevelsAreFresh(doc, approvers, keys, n - 1);
      KeySetGrows(keys, n);
    }
  }

  lemma KeySetGrows(keys: seq<string>, n: nat)
    requires 0 < n <= |keys|
    ensures (set i | 0 <= i < n :: keys[i]) == (set i | 0 <= i < n - 1 :: keys[i]) + {keys[n - 1]}
  {
  }

  /** Completions of the listed steps, stopping at the first that cannot be written. */
  function CompleteAll(c: Sagas.Coord, id: string, names: seq<string>, ios: seq<Sagas.Io>): Sagas.Coord
    requires |names| <= |ios|
    decreases |names|
  {
    if names == [] then c
    else
      var next := Sagas.CompleteStep(c, id, names[0], ios[0]);
      if Sagas.Refused(c, id, names[0], ios[0]) then next else CompleteAll(next, id, names[1..], ios[1..])
  }

  /** A started chain's saga, with its routing step completed. */
  function Routed(c: Sagas.Coord, doc: string, id: string, start: Sagas.Io, routing: Sagas.Io): Sagas.Coord {
    var chain := Sagas.NewSaga(id, "approval_chain", "approval", doc, Sagas.APPROVAL_CHAIN_STEPS);
    var started := Sagas.Start(c, chain, start);
    if start.sagaWrite && start.indexWrite then Sagas.CompleteStep(started, id, "routing", routing) else started
  }

  /** The saga found for a closed chain, with its decision step completed. */
  function ChainDecided(c: Sagas.Coord, doc: string, io: Sagas.Io): Sagas.Coord {
    var found := Sagas.FindByAggregate(c, "approval", doc);
    if found.Some? then Sagas.CompleteStep(c, found.value.id, "decision", io) else c
  }

  /** The saga found for a decided verification, with its steps completed. */
  function VerificationDecided(c: Sagas.Coord, key: string, ios: seq<Sagas.Io>): Sagas.Coord
    requires |ios| == 2
  {
    var found := Sagas.FindByAggregate(c, "verification", key);
    if found.Some? then CompleteAll(c, found.value.id, Sagas.VERIFICATION_PROCESS_STEPS, ios) else c
  }

  /** Stored sagas carry their own id. */
  ghost predicate WellStored(c: Sagas.Coord) {
    forall id, s :: Sagas.Get(c, id) == Some(s) ==> s.id == id
  }

  lemma StartedIsStored(c: Sagas.Coord, s: Sagas.Saga, io: Sagas.Io)
    requires io.sagaWrite && io.indexWrite && s.id != "" && ':' !in s.id
    ensures Sagas.Get(Sagas.Start(c, s, io), s.id) == Some(s)
  {
    Sagas.KeysDistinct(s.id, s.id, s.aggType, s.aggId);
  }

  lemma CompleteKeepsStored(c: Sagas.Coord, id: string, name: string, io: Sagas.Io)
    requires WellStored(c)
    ensures WellStored(Sagas.CompleteStep(c, id, name, io))
  {
    var next := Sagas.CompleteStep(c, id, name, io);
    if next != c {
      var s := Sagas.Get(c, id).value;
      hide Sagas.DoneSet, Sagas.Mark;
      forall other, t | Sagas.Get(next, other) == Some(t) ensures t.id == other {
        assert Sagas.Key(other)[5..] == other && Sagas.Key(id)[5..] == id;
        if other != id {
          assert Sagas.Get(c, other) == Some(t);
        }
      }
    }
  }

  class DecisionService {
    var records: map<string, Record>
    var docs: map<string, Status>
    var events: seq<Announcement>
    const sagas: Sagas.Coordinator

    constructor (sagas: Sagas.Coordinator, docs: map<string, Status>)
      ensures this.sagas == sagas && View() == State(map[], docs, [])
    {
      this.sagas := sagas;
      this.docs := docs;
      records, events := map[], [];
    }

    function View(): State
      reads this
    {
      State(records, docs, events)
    }

    /**
     * Open a chain: every approver's record is created and the request announced, or neither. The
     * saga that follows is best-effort: its routing step is completed only when it could be started.
     */
    method CreateChain(doc: string, approvers: seq<string>, keys: seq<string>, txOk: bool, sagaId: string,
      start: Sagas.Io, routing: Sagas.Io) returns (r: Result<seq<string>, Error>)
      requires |keys| == |approvers| && forall i, j :: 0 <= i < j < |keys| ==> keys[i] != keys[j]
      requires forall k :: k in keys ==> k !in records
      requires sagaId != "" && ':' !in sagaId
      modifies this, sagas
      ensures r.Ok? <==> doc in old(docs) && approvers != [] && txOk
      ensures r.Err? ==> View() == old(View()) && sagas.View() == old(sagas.View())
      ensures r == Err(NotFound) <==> doc !in old(docs)
      ensures r == Err(BadRequest) <==> doc in old(docs) && approvers == []
      ensures r.Ok? ==> r.value == keys
      ensures r.Ok? ==>
        View() == old(View()).(records := old(records) + Levels(doc, approvers, keys, |approvers|),
          events := old(events) + [ApprovalRequired(doc, |approvers|)])
      ensures r.Ok? ==> sagas.View() == Routed(old(sagas.View()), doc, sagaId, start, routing)
    {
      if doc !in docs { return Err(NotFound); }
      if |approvers| == 0 { return Err(BadRequest); }
      var chain: map<string, Record> := map[];
      for i := 0 to |approvers|
        invariant chain == Levels(doc, approvers, keys, i)
      {
        chain := chain[keys[i] := Record(Approval, doc, approvers[i], i + 1, Pending)];
      }
      if !txOk { return Err(Storage); }
      records := records + chain;
      events := events + [ApprovalRequired(doc, |approvers|)];
      var sts := sagas.StartSaga(sagaId, "approval_chain", "approval", doc, Sagas.APPROVAL_CHAIN_STEPS, start);
      if sts.Ok? {
        StartedIsStored(old(sagas.View()), sts.value, start);
        var _ := sagas.CompleteSagaStep(sagaId, "routing", routing);
      }
      return Ok(keys);
    }

    method MaybeResolveDocument(r: Record, decision: Status, io: Io) returns (resolved: Result<bool, Error>)
      modifies this
      ensures Reply(View(), resolved) == MaybeResolve(old(View()), r, decision, io)
    {
      if !io.count { return Err(Storage); }
      var open := |PendingOn(records, r.doc)|;
      if open > 0 { return Ok(false); }
      if !io.update { return Err(Storage); }
      docs := docs[r.doc := decision];
      if !io.announce { return Err(Storage); }
      events := events + [Announcement(r.kind, r.doc, decision)];
      return Ok(true);
    }

    /** One approver's decision, inside the lock; afterwards a closed chain's saga is completed. */
    method DecideApproval(key: string, actor: string, decision: Status, io: Io, sagaIo: Sagas.Io)
      returns (r: Result<bool, Error>)
      requires key in records ==> records[key].kind == Approval
      requires WellStored(sagas.View())
      modifies this, sagas
      ensures decision == Pending ==> r == Err(BadRequest) && View() == old(View()) && sagas.View() == old(sagas.View())
      ensures decision != Pending ==> Reply(View(), r) == Decide(old(View()), key, actor, decision, io)
      ensures decision != Pending ==> (
        var found := io.read && key in old(records);
        var allowed := found && old(records)[key].approver == actor;
        var undecided := allowed && old(records)[key].status == Pending;
        && (r == Err(NotFound) <==> !found) && (r == Err(Forbidden) <==> found && !allowed)
        && (r == Err(Conflict) <==> allowed && !undecided)
        && records == (if undecided && io.save then old(records)[key := old(records)[key].(status := decision)]
             else old(records))
        && (r == Ok(false) <==> undecided && io.save && io.count && PendingOn(records, old(records)[key].doc) != {})
        && (r == Ok(true) <==>
              && undecided && io.save && io.count && PendingOn(records, old(records)[key].doc) == {}
              && io.update && io.announce)
        && (r == Ok(true) ==>
              && docs == old(docs)[old(records)[key].doc := decision]
              && events == old(events) + [Announcement(Approval, old(records)[key].doc, decision)]))
      ensures decision != Pending && r == Ok(true) ==>
        sagas.View() == ChainDecided(old(sagas.View()), old(records)[key].doc, sagaIo)
      ensures r != Ok(true) ==> sagas.View() == old(sagas.View())
    {
      if decision == Pending { return Err(BadRequest); }
      if !io.read || key !in records { return Err(NotFound); }
      var a := records[key];
      if a.approver != actor { return Err(Forbidden); }
      if a.status != Pending { return Err(Conflict); }
      if !io.save { return Err(Storage); }
      records := records[key := a.(status := decision)];
      r := MaybeResolveDocument(a, decision, io);
      if r == Ok(true) {
        var sts := Sagas.FindByAggregate(sagas.View(), "approval", a.doc);
        if sts.Some? {
          var _ := sagas.CompleteSagaStep(sts.value.id, "decision", sagaIo);
        }
      }
    }

    method DecideVerification(key: string, actor: string, decision: Status, io: Io, ios: seq<Sagas.Io>)
      returns (r: Result<bool, Error>)
      requires key in records ==> records[key].kind == Verification
      requires WellStored(sagas.View()) && |ios| == 2
      modifies this, sagas
      ensures decision == Pending ==> r == Err(BadRequest) && View() == old(View()) && sagas.View() == old(sagas.View())
      ensures decision != Pending ==> Reply(View(), r) == Decide(old(View()), key, actor, decision, io)
      ensures decision != Pending ==> (
        var found := io.read && key in old(records);
        var undecided := found && old(records)[key].status == Pending;
        && (r == Err(NotFound) <==> !found) && (r == Err(Conflict) <==> found && !undecided)
        && records == (if undecided && io.save then old(records)[key := old(records)[key].(status := decision)]
             else old(records))
        && (r == Ok(true) <==> undecided && io.save && io.update && io.announce) && r != Ok(false)
        && (r == Ok(true) ==>
              && docs == old(docs)[old(records)[key].doc := decision]
              && events == old(events) + [Announcement(Verification, old(records)[key].doc, decision)]))
      ensures decision != Pending ==>
        sagas.View() == if r.Ok? then VerificationDecided(old(sagas.View()), key, ios) else old(sagas.View())
    {
      if decision == Pending { return Err(BadRequest); }
      if !io.read || key !in records { return Err(NotFound); }
      var ver := records[key];
      if ver.status != Pending { return Err(Conflict); }
      if !io.save { return Err(Storage); }
      records := records[key := ver.(status := decision)];
      if !io.update { return Err(Storage); }
      docs := docs[ver.doc := decision];
      if !io.announce { return Err(Storage); }
      events := events + [Announcement(ver.kind, ver.doc, decision)];
      CompleteVerificationSaga(key, ios);
      return Ok(true);
    }

    method CompleteVerificationSaga(key: string, ios: seq<Sagas.Io>)
      requires WellStored(sagas.View()) && |ios| == 2
      modifies sagas
      ensures sagas.View() == VerificationDecided(old(sagas.View()), key, ios)
    {
      var found := Sagas.FindByAggregate(sagas.View(), "verification", key);
      if found.None? { return; }
      hide Sagas.Get, Sagas.CompleteStep, Sagas.Refused, Sagas.AlreadyDone, Sagas.Distinct;
      var id, names, i := found.value.id, Sagas.VERIFICATION_PROCESS_STEPS, 0;
      while i < |names|
        invariant 0 <= i <= |names|
        invariant WellStored(sagas.View())
        invariant CompleteAll(sagas.View(), id, names[i..], ios[i..]) == CompleteAll(old(sagas.View()), id, names, ios)
      {
        ghost var c := sagas.View();
        var done := sagas.CompleteSagaStep(id, names[i], ios[i]);
        assert names[i..][0] == names[i] && names[i..][1..] == names[i + 1..];
        assert ios[i..][0] == ios[i] && ios[i..][1..] == ios[i + 1..];
        CompleteKeepsStored(c, id, names[i], ios[i]);
        if done.Err? { return; }
        i := i + 1;
      }
    }
  }

  // ---- A call alone is an undisturbed run of one decider ------------------

  function Flag(pc: Pc, io: Io): bool {
    match pc
    case Entered => io.read
    case Loaded => io.save
    case Saved => io.count
    case Closing => io.update
    case Announcing => io.announce
    case _ => true
  }

  /** The next n steps of one decider, nobody else moving. */
  function Drive(sys: Sys, d: nat, io: Io, n: nat): Sys
    requires d in sys.deciders
    decreases n
  {
    if n == 0 then sys
    else
      var next := StepDecider(sys, d, Flag(sys.deciders[d].pc, io));
      if d in next.deciders then Drive(next, d, io, n - 1) else next
  }

  /** The run ends with the lock given back and this outcome. */
  ghost predicate Ends(sys: Sys, d: nat, io: Io, n: nat, st: State, closed: bool)
    requires d in sys.deciders
  {
    var last := Drive(sys, d, io, n);
    && last.records == st.records && last.docs == st.docs
    && last.closers == (if closed then sys.closers + {d} else sys.closers)
    && last.locks == Locks.Apply(sys.locks, Locks.Release(sys.deciders[d].key, d))
    && d in last.deciders && last.deciders[d].pc == Finished
  }

  predicate Here(sys: Sys, d: nat, pc: Pc) {
    d in sys.deciders && sys.deciders[d].pc == pc
  }

  lemma {:induction false} DriveFinished(sys: Sys, d: nat, io: Io, n: nat)
    requires Here(sys, d, Finished)
    ensures Drive(sys, d, io, n) == sys
  {
    if n > 0 {
      assert StepDecider(sys, d, Flag(Finished, io)) == sys;
      DriveFinished(sys, d, io, n - 1);
    }
  }

  lemma FromLeaving(sys: Sys, d: nat, io: Io, n: nat)
    requires Here(sys, d, Leaving) && n >= 1
    ensures Ends(sys, d, io, n, State(sys.records, sys.docs, []), false)
  {
    var next := StepLeaving(sys, d, true);
    assert StepDecider(sys, d, Flag(Leaving, io)) == next;
    DriveFinished(next, d, io, n - 1);
  }

  lemma FromAnnouncing(sys: Sys, d: nat, io: Io, n: nat)
    requires Here(sys, d, Announcing) && sys.deciders[d].key in sys.records && n >= 2
    ensures Ends(sys, d, io, n, State(sys.records, sys.docs, []), io.announce)
  {
    hide PendingOn, Locks.Apply;
    var next := StepAnnouncing(sys, d, io.announce);
    assert StepDecider(sys, d, Flag(Announcing, io)) == next;
    FromLeaving(next, d, io, n - 1);
  }

  /** The outcome of closing, whichever kind of record is decided. */
  lemma FromClosing(sys: Sys, d: nat, io: Io, n: nat)
    requires Here(sys, d, Closing) && sys.deciders[d].key in sys.records && n >= 3
    ensures var me := sys.deciders[d];
      var reply := Settle(State(sys.records, sys.docs, []), sys.records[me.key], me.decision, io);
      Ends(sys, d, io, n, reply.state, reply.result == Ok(true))
  {
    hide PendingOn, Locks.Apply;
    var next := StepClosing(sys, d, io.update);
    assert StepDecider(sys, d, Flag(Closing, io)) == next;
    if !io.update {
      FromLeaving(next, d, io, n - 1);
    } else {
      FromAnnouncing(next, d, io, n - 1);
    }
  }

  lemma FromSaved(sys: Sys, d: nat, io: Io, n: nat)
    requires Here(sys, d, Saved) && sys.deciders[d].key in sys.records && n >= 4
    ensures var me := sys.deciders[d];
      var reply := MaybeResolve(State(sys.records, sys.docs, []), sys.records[me.key], me.decision, io);
      Ends(sys, d, io, n, reply.state, reply.result == Ok(true))
  {
    hide PendingOn, Locks.Apply, Settle;
    var next := StepSaved(sys, d, io.count);
    assert StepDecider(sys, d, Flag(Saved, io)) == next;
    if next.deciders[d].pc == Leaving {
      FromLeaving(next, d, io, n - 1);
    } else {
      FromClosing(next, d, io, n - 1);
    }
  }

  lemma FromLoaded(sys: Sys, d: nat, io: Io, n: nat)
    requires Here(sys, d, Loaded) && sys.deciders[d].key in sys.records && n >= 5
    requires MayDecide(sys.records[sys.deciders[d].key], sys.deciders[d].actor) && io.read
    ensures var me := sys.deciders[d];
      var reply := Decide(State(sys.records, sys.docs, []), me.key, me.actor, me.decision, io);
      Ends(sys, d, io, n, reply.state, reply.result == Ok(true))
  {
    hide PendingOn, Locks.Apply, MaybeResolve, Settle;
    var me := sys.deciders[d];
    var r := sys.records[me.key];
    var next := StepLoaded(sys, d, io.save);
    assert StepDecider(sys, d, Flag(Loaded, io)) == next;
    if !io.save {
      FromLeaving(next, d, io, n - 1);
    } else {
      assert next.records[me.key] == r.(status := me.decision);
      SettleByKey(State(next.records, next.docs, []), r, me.decision, io);
      if r.kind == Approval {
        FromSaved(next, d, io, n - 1);
      } else {
        FromClosing(next, d, io, n - 1);
      }
    }
  }

  /** Settling reads only the record's kind and document, which a save leaves alone. */
  lemma SettleByKey(st: State, r: Record, decision: Status, io: Io)
    ensures Settle(st, r.(status := decision), decision, io) == Settle(st, r, decision, io)
    ensures MaybeResolve(st, r.(status := decision), decision, io) == MaybeResolve(st, r, decision, io)
  {
  }

  lemma FromEntered(sys: Sys, d: nat, io: Io, n: nat)
    requires Here(sys, d, Entered) && n >= 6
    ensures var me := sys.deciders[d];
      var reply := Decide(State(sys.records, sys.docs, []), me.key, me.actor, me.decision, io);
      Ends(sys, d, io, n, reply.state, reply.result == Ok(true))
  {
    hide PendingOn, Locks.Apply, MaybeResolve, Settle;
    var next := StepEntered(sys, d, io.read);
    assert StepDecider(sys, d, Flag(Entered, io)) == next;
    if next.deciders[d].pc == Leaving {
      FromLeaving(next, d, io, n - 1);
    } else {
      FromLoaded(next, d, io, n - 1);
    }
  }

  /**
   * The services' calls refine the concurrent model: with the record's lock free and nobody else
   * moving, a decider's seven steps have the outcome of one call and give the lock back.
   */
  lemma {:induction false} CallIsSoloRun(sys: Sys, d: nat, key: string, actor: string, decision: Status, io: Io)
    requires d !in sys.deciders && d !in sys.closers && d !in sys.locks.grants
    requires !Locks.Live(sys.locks.store, key, sys.locks.now)
    ensures var reply := Decide(State(sys.records, sys.docs, []), key, actor, decision, io);
      var last := Drive(Decisions.Apply(sys, Arrive(d, key, actor, decision)), d, io, 7);
      && last.records == reply.state.records && last.docs == reply.state.docs
      && (d in last.closers <==> reply.result == Ok(true))
      && d in last.deciders && last.deciders[d].pc == Finished
      && !Locks.Live(last.locks.store, key, last.locks.now)
  {
    var arrived := Decisions.Apply(sys, Arrive(d, key, actor, decision));
    var entered := StepWaiting(arrived, d, true);
    hide Decide, PendingOn, StepEntered, StepLoaded, StepSaved, StepClosing, StepAnnouncing, StepLeaving, MayDecide;
    assert StepDecider(arrived, d, Flag(Waiting, io)) == entered;
    FromEntered(entered, d, io, 6);
    assert Drive(arrived, d, io, 7) == Drive(entered, d, io, 6);
  }

  /** A chain the service creates is one the concurrent model opens. */
  lemma ServiceOpensChain(sys: Sys, doc: string, approvers: seq<string>, keys: seq<string>)
    requires |keys| == |approvers| > 0 && forall i, j :: 0 <= i < j < |keys| ==> keys[i] != keys[j]
    requires forall k :: k in keys ==> k !in sys.records
    ensures var levels := Levels(doc, approvers, keys, |approvers|);
      Decisions.Enabled(sys, OpenChain(doc, levels)) && |levels| == |approvers|
  {
    var n := |approvers|;
    var levels := Levels(doc, approvers, keys, n);
    LevelsAreFresh(doc, approvers, keys, n);
    assert keys[0] in levels.Keys;
    assert forall key :: key in levels ==> exists i :: 0 <= i < n && keys[i] == key;
    LevelsCount(doc, approvers, keys, n);
  }

  lemma {:induction false} LevelsCount(doc: string, approvers: seq<string>, keys: seq<string>, n: nat)
    requires n <= |approvers| <= |keys| && forall i, j :: 0 <= i < j < |keys| ==> keys[i] != keys[j]
    ensures |Levels(doc, approvers, keys, n)| == n
  {
    if n > 0 {
      LevelsCount(doc, approvers, keys, n - 1);
      KeyIsNew(doc, approvers, keys, n);
      hide Levels;
      OneMore(Levels(doc, approvers, keys, n - 1), keys[n - 1], Record(Approval, doc, approvers[n - 1], n, Pending));
    }
  }

  lemma KeyIsNew(doc: string, approvers: seq<string>, keys: seq<string>, n: nat)
    requires 0 < n <= |approvers| <= |keys| && forall i, j :: 0 <= i < j < |keys| ==> keys[i] != keys[j]
    ensures var before := Levels(doc, approvers, keys, n - 1);
      && keys[n - 1] !in before.Keys
      && Levels(doc, approvers, keys, n) == before[keys[n - 1] := Record(Approval, doc, approvers[n - 1], n, Pending)]
  {
    LevelsAreFresh(doc, approvers, keys, n - 1);
  }

  lemma OneMore(m: map<string, Record>, key: string, r: Record)
    requires key !in m.Keys
    ensures |m[key := r]| == |m| + 1
  {
    assert m[key := r].Keys == m.Keys + {key};
  }

  // ---- Calls one after another --------------------------------------------

  datatype Call = Call(key: string, actor: string, decision: Status)

  function DecideAll(st: State, calls: seq<Call>): State {
    if calls == [] then st
    else
      var c := calls[|calls| - 1];
      Decide(DecideAll(st, calls[..|calls| - 1]), c.key, c.actor, c.decision, ALL_OK).state
  }

  function Closures(events: seq<Announcement>, doc: string): nat {
    if events == [] then 0
    else
      var e := events[|events| - 1];
      Closures(events[..|events| - 1], doc) + if e.Announcement? && e.kind == Approval && e.doc == doc then 1 else 0
  }

  lemma DecideCloses(st: State, c: Call, doc: string)
    requires c.decision != Pending
    ensures var next := Decide(st, c.key, c.actor, c.decision, ALL_OK).state;
      var closes := PendingOn(st.records, doc) != {} && PendingOn(next.records, doc) == {};
      && PendingOn(next.records, doc) <= PendingOn(st.records, doc)
      && Closures(next.events, doc) == Closures(st.events, doc) + (if closes then 1 else 0)
      && (closes ==> doc in next.docs && next.docs[doc] == c.decision)
  {
    var next := Decide(st, c.key, c.actor, c.decision, ALL_OK).state;
    if next != st {
      var r := st.records[c.key];
      PendingAfterSave(st.records, c.key, c.decision, doc);
      assert r.kind == Approval && r.doc == doc ==> c.key in PendingOn(st.records, doc);
      assert next.events == st.events || next.events[..|next.events| - 1] == st.events;
    }
  }

  /** One after another, the decisions on a chain close it exactly once: when none is pending any more. */
  lemma {:induction false} ChainClosesOnce(st: State, calls: seq<Call>, doc: string)
    requires forall k :: 0 <= k < |calls| ==> calls[k].decision != Pending
    requires PendingOn(st.records, doc) != {}
    ensures var last := DecideAll(st, calls);
      Closures(last.events, doc) == Closures(st.events, doc) + if PendingOn(last.records, doc) == {} then 1 else 0
  {
    if calls != [] {
      hide PendingOn, Decide;
      ChainClosesOnce(st, calls[..|calls| - 1], doc);
      DecideCloses(DecideAll(st, calls[..|calls| - 1]), calls[|calls| - 1], doc);
    }
  }

  /** The document takes the closing decision, whatever the others were. */
  lemma {:induction false} CloserDecides(st: State, calls: seq<Call>, c: Call, doc: string)
    requires c.decision != Pending
    requires PendingOn(DecideAll(st, calls).records, doc) != {}
    requires PendingOn(DecideAll(st, calls + [c]).records, doc) == {}
    ensures doc in DecideAll(st, calls + [c]).docs && DecideAll(st, calls + [c]).docs[doc] == c.decision
  {
    assert (calls + [c])[..|calls|] == calls;
    DecideCloses(DecideAll(st, calls), c, doc);
  }

  /** So a rejection followed by a closing approval leaves the document approved. */
  lemma RejectionOverridden(st: State, first: string, second: string, doc: string)
    requires first != second && PendingOn(st.records, doc) == {first, second}
    ensures first in st.records && second in st.records
    ensures var last := DecideAll(st, [] + [Call(first, st.records[first].approver, Rejected)]
                                     + [Call(second, st.records[second].approver, Granted)]);
      && first in last.records && last.records[first].status == Rejected
      && doc in last.docs && last.docs[doc] == Granted
  {
    assert first in PendingOn(st.records, doc) && second in PendingOn(st.records, doc);
    var c1, c2 := Call(first, st.records[first].approver, Rejected), Call(second, st.records[second].approver, Granted);
    var one, two := [] + [c1], [] + [c1] + [c2];
    assert one[..0] == [] && two[..1] == one;
    PendingAfterSave(st.records, first, Rejected, doc);
    var mid := DecideAll(st, one);
    assert DecideAll(st, []) == st;
    assert mid == Decide(st, first, c1.actor, Rejected, ALL_OK).state;
    var saved := st.records[first := st.records[first].(status := Rejected)];
    assert PendingOn(saved, doc) == {second};
    assert second in PendingOn(saved, doc) && mid == st.(records := saved);
    assert PendingOn(mid.records, doc) == {second} && mid.records[second] == st.records[second];
    PendingAfterSave(mid.records, second, Granted, doc);
    CloserDecides(st, one, c2, doc);
  }

  // ---- The chain's saga -----------------------------------------------------

  /** The saga found for the document has exactly these steps, in this status. */
  ghost predicate ChainStands(c: Sagas.Coord, doc: string, id: string, status: Sagas.Status,
    routing: Sagas.StepStatus, decision: Sagas.StepStatus)
  {
    var found := Sagas.FindByAggregate(c, "approval", doc);
    && Sagas.Ref(c, "approval", doc) == Some(id)
    && found.Some? && found.value.id == id && found.value.status == status && found.value.current <= 1
    && found.value.steps == [Sagas.Step("routing", routing), Sagas.Step("decision", decision)]
  }

  /** A chain opened with the store up has a running saga with exactly its routing step completed. */
  lemma ChainIsRouted(c: Sagas.Coord, doc: string, id: string, start: Sagas.Io, routing: Sagas.Io)
    requires id != "" && ':' !in id && start.sagaWrite && start.indexWrite
    ensures var next := Routed(c, doc, id, start, routing);
      if routing.sagaWrite
      then ChainStands(next, doc, id, Sagas.StatusRunning, Sagas.StepCompleted, Sagas.StepRunning)
      else ChainStands(next, doc, id, Sagas.StatusRunning, Sagas.StepRunning, Sagas.StepPending)
  {
    var chain := Sagas.NewSaga(id, "approval_chain", "approval", doc, Sagas.APPROVAL_CHAIN_STEPS);
    var started := Sagas.Start(c, chain, start);
    assert chain.steps == [Sagas.Step("routing", Sagas.StepRunning), Sagas.Step("decision", Sagas.StepPending)];
    SagaEffects.StartEffect(c, chain, start);
    SagaEffects.CompleteEffect(started, id, "routing", routing);
    hide Sagas.Get, Sagas.Ref, Sagas.Start, Sagas.CompleteStep, Sagas.NewSaga;
    assert Sagas.Get(started, id) == Some(chain) && Sagas.Ref(started, "approval", doc) == Some(id);
    AdvanceTwo(chain, "routing");
  }

  /** The two steps of a chain's saga, one of them completing. */
  lemma AdvanceTwo(s: Sagas.Saga, name: string)
    requires |s.steps| == 2 && s.steps[0].name == "routing" && s.steps[1].name == "decision"
    requires name in {"routing", "decision"} && !Sagas.AlreadyDone(s.steps, name) && s.current <= 1
    ensures var s' := Sagas.Advance(s, name);
      && s'.id == s.id && s'.aggType == s.aggType && s'.aggId == s.aggId && |s'.steps| == 2
      && (name == "routing" && s.current == 0 && s.steps[1].status == Sagas.StepPending ==>
            && s'.status == s.status && s'.current == 1
            && s'.steps == [Sagas.Step("routing", Sagas.StepCompleted), Sagas.Step("decision", Sagas.StepRunning)])
      && (name == "decision" ==>
            && s'.steps[1] == Sagas.Step("decision", Sagas.StepCompleted) && s'.current <= 1
            && (s.steps[0].status == Sagas.StepCompleted ==> s'.steps[0] == s.steps[0])
            && (s'.status == Sagas.StatusCompleted <==>
                  s.status == Sagas.StatusCompleted || s.steps[0].status == Sagas.StepCompleted))
  {
    var marked := Sagas.Mark(s.steps, name, Sagas.StepCompleted);
    SagaRuns.DoneSetBound(marked);
    assert s.steps == [s.steps[0], s.steps[1]];
    hide Sagas.DoneSet;
  }

  /** A chain's saga that is running, with its decision still open. */
  ghost predicate Undecided(s: Sagas.Saga) {
    && s.status == Sagas.StatusRunning && s.current <= 1 && Sagas.Names(s) == Sagas.APPROVAL_CHAIN_STEPS
    && s.id != "" && ':' !in s.id && s.steps[1].status != Sagas.StepCompleted
  }

  /**
   * With the store up, a closing decision completes the decision step of the chain's saga, and the
   * saga exactly when its routing step had been completed.
   */
  lemma ClosingCompletesChain(c: Sagas.Coord, doc: string, io: Sagas.Io)
    requires WellStored(c) && io.sagaWrite
    requires var found := Sagas.FindByAggregate(c, "approval", doc); found.Some? && Undecided(found.value)
    ensures var before := Sagas.FindByAggregate(c, "approval", doc).value;
      var after := Sagas.FindByAggregate(ChainDecided(c, doc, io), "approval", doc);
      && after.Some? && after.value.id == before.id && |after.value.steps| == 2
      && after.value.steps[1] == Sagas.Step("decision", Sagas.StepCompleted)
      && (after.value.status == Sagas.StatusCompleted <==> before.steps[0].status == Sagas.StepCompleted)
  {
    var s := Sagas.FindByAggregate(c, "approval", doc).value;
    assert Sagas.Get(c, Sagas.Ref(c, "approval", doc).value) == Some(s);
    hide WellStored;
    ClosingAdvances(c, doc, s, io);
    AdvanceTwo(s, "decision");
  }

  lemma ClosingAdvances(c: Sagas.Coord, doc: string, s: Sagas.Saga, io: Sagas.Io)
    requires io.sagaWrite && Undecided(s)
    requires Sagas.Ref(c, "approval", doc) == Some(s.id) && Sagas.Get(c, s.id) == Some(s)
    ensures |s.steps| == 2 && s.steps[0].name == "routing" && s.steps[1].name == "decision"
    ensures !Sagas.AlreadyDone(s.steps, "decision")
    ensures var after := ChainDecided(c, doc, io);
      && Sagas.FindByAggregate(after, "approval", doc) == Some(Sagas.Advance(s, "decision"))
      && Sagas.Ref(after, "approval", doc) == Some(s.id)
  {
    hide Sagas.Get, Sagas.Ref, Sagas.CompleteStep, Sagas.Advance;
    assert |Sagas.Names(s)| == 2 && Sagas.Names(s)[0] == s.steps[0].name && Sagas.Names(s)[1] == s.steps[1].name;
    SagaEffects.CompleteEffect(c, s.id, "decision", io);
  }

  /** So the saga of a chain opened and closed with the store up is running until it closes, then completed. */
  lemma ChainSagaEnds(c: Sagas.Coord, doc: string, id: string, start: Sagas.Io, routing: Sagas.Io, io: Sagas.Io)
    requires id != "" && ':' !in id && start.sagaWrite && start.indexWrite && routing.sagaWrite && io.sagaWrite
    ensures var routed := Routed(c, doc, id, start, routing);
      && ChainStands(routed, doc, id, Sagas.StatusRunning, Sagas.StepCompleted, Sagas.StepRunning)
      && ChainStands(ChainDecided(routed, doc, io), doc, id, Sagas.StatusCompleted, Sagas.StepCompleted,
           Sagas.StepCompleted)
  {
    hide Routed, ChainDecided, Sagas.Get, Sagas.Ref, Sagas.Advance;
    var routed := Routed(c, doc, id, start, routing);
    ChainIsRouted(c, doc, id, start, routing);
    var s := Sagas.FindByAggregate(routed, "approval", doc).value;
    ClosingAdvances(routed, doc, s, io);
    AdvanceTwo(s, "decision");
    assert Sagas.Advance(s, "decision").steps == [Sagas.Step("routing", Sagas.StepCompleted),
      Sagas.Step("decision", Sagas.StepCompleted)];
  }

  // ---- The verification's saga --------------------------------------------

  lemma {:induction false} CompleteAllIsInOrder(ops: seq<SagaRuns.Op>, id: string, names: seq<string>, k: nat,
    ios: seq<Sagas.Io>)
    requires SagaRuns.Legal(ops) && ':' !in id && k <= |names| && |ios| == |names|
    requires forall i :: 0 <= i < |ios| ==> ios[i] == Sagas.Io(true, true, true)
    requires SagaRuns.DonePrefix(SagaRuns.Run(ops), id, names, k)
    ensures CompleteAll(SagaRuns.Run(ops), id, names[k..], ios[k..])
         == SagaRuns.Run(ops + SagaRuns.InOrder(id, names, k))
    decreases |names| - k
  {
    hide SagaRuns.Legal;
    if k == |names| {
      assert ops + [] == ops;
    } else {
      var op := SagaRuns.OpComplete(id, names[k], Sagas.Io(true, true, true));
      SagaRuns.CompleteOne(ops, id, names, k);
      SagaRuns.Extend(ops, op);
      SagaRuns.Assoc(ops, op, SagaRuns.InOrder(id, names, k + 1));
      assert names[k..][1..] == names[k + 1..] && ios[k..][1..] == ios[k + 1..];
      CompleteAllIsInOrder(ops + [op], id, names, k + 1, ios);
    }
  }

  /** With the store up, a decision completes its verification's saga unless it had failed. */
  lemma {:induction false} DecisionCompletesSaga(ops: seq<SagaRuns.Op>, key: string, ios: seq<Sagas.Io>)
    requires SagaRuns.Legal(ops) && |ios| == 2
    requires forall i :: 0 <= i < |ios| ==> ios[i] == Sagas.Io(true, true, true)
    requires var found := Sagas.FindByAggregate(SagaRuns.Run(ops), "verification", key);
      && found.Some? && ':' !in found.value.id && found.value.status != Sagas.StatusFailed
      && Sagas.Get(SagaRuns.Run(ops), found.value.id) == found
      && Sagas.Names(found.value) == Sagas.VERIFICATION_PROCESS_STEPS
    ensures var id := Sagas.FindByAggregate(SagaRuns.Run(ops), "verification", key).value.id;
      var last := VerificationDecided(SagaRuns.Run(ops), key, ios);
      Sagas.Get(last, id).Some? && Sagas.Get(last, id).value.status == Sagas.StatusCompleted
  {
    hide SagaRuns.Legal, SagaRuns.Run;
    var id := Sagas.FindByAggregate(SagaRuns.Run(ops), "verification", key).value.id;
    var names := Sagas.VERIFICATION_PROCESS_STEPS;
    assert names[0..] == names && ios[0..] == ios;
    CompleteAllIsInOrder(ops, id, names, 0, ios);
    SagaRuns.InOrderCompletes(ops, id, names);
  }
}
