/** The saga coordinator (backend/internal/saga/saga.go): a step machine stored in one Redis keyspace. */
module Sagas {
  import opened Basics

  datatype StepStatus = StepPending | StepRunning | StepCompleted | StepFailed

  datatype Step = Step(name: string, status: StepStatus)

  datatype Status = StatusRunning | StatusCompleted | StatusFailed

  datatype Saga = Saga(
    id: string, name: string, aggType: string, aggId: string, status: Status, current: nat, steps: seq<Step>)

  const DOCUMENT_UPLOAD_STEPS := ["upload", "virus_scan", "metadata_extraction", "storage", "indexing"]
  const VERIFICATION_PROCESS_STEPS := ["authenticity_check", "document_update"]
  const APPROVAL_CHAIN_STEPS := ["routing", "decision"]

  ghost predicate Distinct(names: seq<string>) {
    forall i, j :: 0 <= i < j < |names| ==> names[i] != names[j]
  }

  // ---- One saga -----------------------------------------------------------

  function NewSaga(id: string, name: string, aggType: string, aggId: string, names: seq<string>): Saga {
    Saga(id, name, aggType, aggId, StatusRunning, 0,
      seq(|names|, i requires 0 <= i < |names| => Step(names[i], if i == 0 then StepRunning else StepPending)))
  }

  function Names(s: Saga): seq<string> {
    seq(|s.steps|, i requires 0 <= i < |s.steps| => s.steps[i].name)
  }

  /** Positions of the completed steps. */
  function DoneSet(steps: seq<Step>): set<nat> {
    set i: nat | i < |steps| && steps[i].status == StepCompleted
  }

  lemma OneMore(steps: seq<Step>, i: nat)
    requires i < |steps|
    ensures |DoneSet(steps[..i + 1])| == |DoneSet(steps[..i])| + if steps[i].status == StepCompleted then 1 else 0
  {
    assert DoneSet(steps[..i + 1]) == DoneSet(steps[..i]) + if steps[i].status == StepCompleted then {i} else {};
  }

  predicate AlreadyDone(steps: seq<Step>, name: string) {
    exists i :: 0 <= i < |steps| && steps[i].name == name && steps[i].status == StepCompleted
  }

  function Mark(steps: seq<Step>, name: string, status: StepStatus): (r: seq<Step>)
    ensures |r| == |steps|
    ensures forall i :: 0 <= i < |r| ==> r[i] == if steps[i].name == name then Step(name, status) else steps[i]
  {
    seq(|steps|, i requires 0 <= i < |steps| => if steps[i].name == name then Step(name, status) else steps[i])
  }

  /** The saga after a step that was not already done completes. */
  function Advance(s: Saga, name: string): Saga {
    var steps := Mark(s.steps, name, StepCompleted);
    if |DoneSet(steps)| == |steps| then s.(steps := steps, status := StatusCompleted)
    else if s.current < |steps| - 1 then
      var next := s.current + 1;
      var running := if steps[next].status != StepCompleted then steps[next].(status := StepRunning) else steps[next];
      s.(steps := steps[next := running], current := next)
    else s.(steps := steps)
  }

  function MarkFailed(s: Saga, name: string): Saga {
    s.(status := StatusFailed, steps := Mark(s.steps, name, StepFailed))
  }

  // ---- The store ----------------------------------------------------------

  /** Both kinds of value live in one keyspace: saga JSON and saga ids. */
  datatype Entry = SagaEntry(saga: Saga) | IdEntry(id: string)

  /** Domain marks the events that do not come from the coordinator. */
  datatype Payload = Started | Done(step: string) | Failure(step: string) | Domain

  datatype Event = Event(aggType: string, aggId: string, eventType: string, sagaId: string, payload: Payload)

  datatype Coord = Coord(redis: map<string, Entry>, outbox: seq<Event>)

  datatype SagaError = NotFound | WriteFailed | EnqueueFailed

  function Key(id: string): string { "saga:" + id }

  function AggKey(aggType: string, aggId: string): string { "saga:agg:" + aggType + ":" + aggId }

  function Get(c: Coord, id: string): Option<Saga> {
    if Key(id) in c.redis && c.redis[Key(id)].SagaEntry? && c.redis[Key(id)].saga.id != ""
    then Some(c.redis[Key(id)].saga) else None
  }

  /** The saga id stored under an aggregate's index key. */
  function Ref(c: Coord, aggType: string, aggId: string): Option<string> {
    var k := AggKey(aggType, aggId);
    if k in c.redis && c.redis[k].IdEntry? && c.redis[k].id != "" then Some(c.redis[k].id) else None
  }

  function FindByAggregate(c: Coord, aggType: string, aggId: string): Option<Saga> {
    var id := Ref(c, aggType, aggId);
    if id.Some? then Get(c, id.value) else None
  }

  function Put(c: Coord, s: Saga): Coord {
    c.(redis := c.redis[Key(s.id) := SagaEntry(s)])
  }

  /** An enqueue that fails leaves the outbox as it was. */
  function Emit(c: Coord, s: Saga, eventType: string, payload: Payload, ok: bool): Coord {
    if ok then c.(outbox := c.outbox + [Event(s.aggType, s.aggId, eventType, s.id, payload)]) else c
  }

  /** Which of a call's cache writes and enqueues succeed. */
  datatype Io = Io(sagaWrite: bool, indexWrite: bool, enqueue: bool)

  function Start(c: Coord, s: Saga, io: Io): Coord {
    if !io.sagaWrite then c
    else if !io.indexWrite then Put(c, s)
    else
      var indexed := Put(c, s).(redis := Put(c, s).redis[AggKey(s.aggType, s.aggId) := IdEntry(s.id)]);
      Emit(indexed, s, "saga.started", Started, io.enqueue)
  }

  function CompleteStep(c: Coord, id: string, name: string, io: Io): Coord {
    var got := Get(c, id);
    if got.None? || got.value.status == StatusFailed || AlreadyDone(got.value.steps, name) || !io.sagaWrite then c
    else
      var s := Advance(got.value, name);
      Emit(Put(c, s), s, "saga." + name, Done(name), io.enqueue)
  }

  /** A completion that is reported as an error. */
  predicate Refused(c: Coord, id: string, name: string, io: Io) {
    var got := Get(c, id);
    got.None? || (got.value.status != StatusFailed && !AlreadyDone(got.value.steps, name) && !io.sagaWrite)
  }

  function Fail(c: Coord, id: string, name: string, io: Io): Coord {
    var got := Get(c, id);
    if got.None? || !io.sagaWrite then c
    else
      var s := MarkFailed(got.value, name);
      Emit(Put(c, s), s, "saga.failed", Failure(name), io.enqueue)
  }

  class Coordinator {
    var redis: map<string, Entry>
    var outbox: seq<Event>

    constructor ()
      ensures View() == Coord(map[], [])
    {
      redis, outbox := map[], [];
    }

    function View(): Coord
      reads this
    {
      Coord(redis, outbox)
    }

    method Enqueue(s: Saga, eventType: string, payload: Payload, ok: bool)
      modifies this`outbox
      ensures View() == Emit(old(View()), s, eventType, payload, ok)
    {
      if ok {
        outbox := outbox + [Event(s.aggType, s.aggId, eventType, s.id, payload)];
      }
    }

    method StartSaga(id: string, name: string, aggType: string, aggId: string, stepNames: seq<string>, io: Io)
      returns (r: Result<Saga, SagaError>)
      modifies this
      ensures View() == Start(old(View()), NewSaga(id, name, aggType, aggId, stepNames), io)
      ensures r.Ok? <==> io.sagaWrite && io.indexWrite
      ensures r.Ok? ==> r.value == NewSaga(id, name, aggType, aggId, stepNames)
    {
      var steps: seq<Step> := [];
      for i := 0 to |stepNames|
        invariant |steps| == i
        invariant forall k :: 0 <= k < i ==> steps[k] == Step(stepNames[k], StepPending)
      {
        steps := steps + [Step(stepNames[i], StepPending)];
      }
      var s := Saga(id, name, aggType, aggId, StatusRunning, 0, steps);
      if |steps| > 0 {
        s := s.(steps := steps[0 := steps[0].(status := StepRunning)]);
      }
      assert s == NewSaga(id, name, aggType, aggId, stepNames);
      if !io.sagaWrite {
        return Err(WriteFailed);
      }
      redis := redis[Key(s.id) := SagaEntry(s)];
      if !io.indexWrite {
        return Err(WriteFailed);
      }
      redis := redis[AggKey(aggType, aggId) := IdEntry(s.id)];
      Enqueue(s, "saga.started", Started, io.enqueue);
      r := Ok(s);
    }

    /**
     * Complete a step. When the step was done already nothing is stored, and what is returned is
     * the stored saga if its step names are distinct.
     */
    method CompleteSagaStep(sagaId: string, stepName: string, io: Io) returns (r: Result<Saga, SagaError>)
      requires forall s :: Get(View(), sagaId) == Some(s) ==> s.id == sagaId
      modifies this
      ensures View() == CompleteStep(old(View()), sagaId, stepName, io)
      ensures r.Err? <==> Refused(old(View()), sagaId, stepName, io)
      ensures r.Err? && r.error == NotFound <==> old(Get(View(), sagaId)).None?
      ensures r.Ok? ==> Get(View(), sagaId).Some? && var s := Get(View(), sagaId).value;
        r.value == s || (!Distinct(Names(s)) && AlreadyDone(s.steps, stepName) && View() == old(View()))
      ensures r.Err? ==> View() == old(View())
    {
      var got := Get(View(), sagaId);
      if got.None? {
        return Err(NotFound);
      }
      var s := got.value;
      if s.status == StatusFailed {
        return Ok(s);
      }
      var already, steps, completed := MarkCompleted(s.steps, stepName);
      assert Distinct(Names(s)) ==> forall i, j :: 0 <= i < j < |s.steps| ==> s.steps[i].name != s.steps[j].name by {
        assert forall i :: 0 <= i < |s.steps| ==> Names(s)[i] == s.steps[i].name;
      }
      if already {
        return Ok(s.(steps := steps));
      }
      s := s.(steps := steps);
      if completed == |s.steps| {
        s := s.(status := StatusCompleted);
      } else if s.current < |s.steps| - 1 {
        s := s.(current := s.current + 1);
        if s.steps[s.current].status != StepCompleted {
          s := s.(steps := s.steps[s.current := s.steps[s.current].(status := StepRunning)]);
        }
      }
      assert s == Advance(got.value, stepName);
      if !io.sagaWrite {
        return Err(WriteFailed);
      }
      redis := redis[Key(s.id) := SagaEntry(s)];
      Enqueue(s, "saga." + stepName, Done(stepName), io.enqueue);
      r := Ok(s);
    }

    /** The counting loop of CompleteStep: stops early when the step is already done. */
    static method MarkCompleted(before: seq<Step>, stepName: string)
      returns (already: bool, steps: seq<Step>, completed: nat)
      ensures already <==> AlreadyDone(before, stepName)
      ensures !already ==> steps == Mark(before, stepName, StepCompleted) && completed == |DoneSet(steps)|
      ensures already && (forall i, j :: 0 <= i < j < |before| ==> before[i].name != before[j].name) ==> steps == before
    {
      steps, completed, already := before, 0, false;
      ghost var marked := Mark(before, stepName, StepCompleted);
      for i := 0 to |before|
        invariant |steps| == |before|
        invariant forall k :: 0 <= k < i ==> steps[k] == marked[k]
        invariant forall k :: i <= k < |steps| ==> steps[k] == before[k]
        invariant forall k :: 0 <= k < i ==> !(before[k].name == stepName && before[k].status == StepCompleted)
        invariant completed == |DoneSet(marked[..i])|
      {
        if steps[i].name == stepName {
          if steps[i].status == StepCompleted {
            return true, steps, completed;
          }
          steps := steps[i := steps[i].(status := StepCompleted)];
        }
        OneMore(marked, i);
        if steps[i].status == StepCompleted {
          completed := completed + 1;
        }
      }
      assert steps == marked == marked[..|steps|];
    }

    method FailSaga(sagaId: string, stepName: string, io: Io) returns (r: Result<(), SagaError>)
      requires forall s :: Get(View(), sagaId) == Some(s) ==> s.id == sagaId
      modifies this
      ensures View() == Fail(old(View()), sagaId, stepName, io)
      ensures r.Ok? <==> old(Get(View(), sagaId)).Some? && io.sagaWrite && io.enqueue
      ensures r == Err(EnqueueFailed) ==> Get(View(), sagaId).Some? && Get(View(), sagaId).value.status == StatusFailed
    {
      var got := Get(View(), sagaId);
      if got.None? {
        return Err(NotFound);
      }
      var s := got.value.(status := StatusFailed);
      for i := 0 to |s.steps|
        invariant |s.steps| == |got.value.steps|
        invariant s == got.value.(status := StatusFailed, steps := s.steps)
        invariant forall k :: 0 <= k < i ==> s.steps[k] == Mark(got.value.steps, stepName, StepFailed)[k]
        invariant forall k :: i <= k < |s.steps| ==> s.steps[k] == got.value.steps[k]
      {
        if s.steps[i].name == stepName {
          s := s.(steps := s.steps[i := s.steps[i].(status := StepFailed)]);
        }
      }
      assert s.steps == Mark(got.value.steps, stepName, StepFailed);
      if !io.sagaWrite {
        return Err(WriteFailed);
      }
      redis := redis[Key(s.id) := SagaEntry(s)];
      Enqueue(s, "saga.failed", Failure(stepName), io.enqueue);
      r := if io.enqueue then Ok(()) else Err(EnqueueFailed);
    }
  }

  // ---- Keys ---------------------------------------------------------------

  lemma KeysDistinct(id: string, id2: string, aggType: string, aggId: string)
    requires ':' !in id
    ensures Key(id) != AggKey(aggType, aggId)
    ensures Key(id) == Key(id2) ==> id == id2
  {
    assert Key(id)[5..] == id && Key(id2)[5..] == id2;
    assert AggKey(aggType, aggId)[8] == ':';
    assert |id| > 3 ==> Key(id)[8] == id[3];
  }

  /** An index key without its fixed beginning. */
  lemma AggKeyParts(t1: string, a1: string, t2: string, a2: string)
    ensures AggKey(t1, a1) == AggKey(t2, a2) <==> t1 + ":" + a1 == t2 + ":" + a2
  {
    assert AggKey(t1, a1) == "saga:agg:" + (t1 + ":" + a1) && AggKey(t2, a2) == "saga:agg:" + (t2 + ":" + a2);
    assert AggKey(t1, a1)[9..] == t1 + ":" + a1 && AggKey(t2, a2)[9..] == t2 + ":" + a2;
  }

  /** Two types share an index key when one of them, followed by ':', starts the other. */
  predicate Overlap(t1: string, t2: string) {
    t1 + ":" <= t2 || t2 + ":" <= t1
  }

  /** Colliding keys of different types: the longer type continues the shorter one past a ':'. */
  lemma CollisionOverlaps(t1: string, a1: string, t2: string, a2: string)
    requires t1 != t2 && AggKey(t1, a1) == AggKey(t2, a2)
    ensures Overlap(t1, t2)
  {
    AggKeyParts(t1, a1, t2, a2);
    var x, y := t1 + ":" + a1, t2 + ":" + a2;
    assert x[..|t1|] == t1 && y[..|t2|] == t2 && x[|t1|] == ':' && y[|t2|] == ':';
    if |t1| < |t2| {
      assert t2[..|t1| + 1] == y[..|t1| + 1] == x[..|t1| + 1] == t1 + ":";
    } else if |t2| < |t1| {
      assert t1[..|t2| + 1] == x[..|t2| + 1] == y[..|t2| + 1] == t2 + ":";
    }
  }

  lemma OverlapCollides(t1: string, t2: string) returns (a1: string, a2: string)
    requires t1 + ":" <= t2
    ensures AggKey(t1, a1) == AggKey(t2, a2)
  {
    var rest := t2[|t1| + 1..];
    a1, a2 := rest + ":", "";
    assert t2 == t1 + ":" + rest;
    assert t1 + ":" + a1 == t2 + ":" + a2;
    AggKeyParts(t1, a1, t2, a2);
  }

  /**
   * Main result: two different types have aggregates with one index key exactly when one type,
   * followed by ':', is the start of the other.
   */
  lemma AggKeysCollideExactly(t1: string, t2: string)
    requires t1 != t2
    ensures (exists a1, a2 :: AggKey(t1, a1) == AggKey(t2, a2)) <==> Overlap(t1, t2)
  {
    hide AggKey;
    if a1, a2 :| AggKey(t1, a1) == AggKey(t2, a2) {
      CollisionOverlaps(t1, a1, t2, a2);
    }
    if t1 + ":" <= t2 {
      var a1, a2 := OverlapCollides(t1, t2);
    } else if t2 + ":" <= t1 {
      var a2, a1 := OverlapCollides(t2, t1);
    }
  }

  lemma OverlapHasColon(t1: string, t2: string)
    ensures Overlap(t1, t2) ==> ':' in t1 || ':' in t2
  {
    if t1 + ":" <= t2 {
      assert t2[|t1|] == ':';
    } else if t2 + ":" <= t1 {
      assert t1[|t2|] == ':';
    }
  }

  /** Types without ':' never overlap, so their index keys determine the type and the aggregate. */
  lemma AggKeyInjective(t1: string, a1: string, t2: string, a2: string)
    requires ':' !in t1 && ':' !in t2 && AggKey(t1, a1) == AggKey(t2, a2)
    ensures t1 == t2 && a1 == a2
  {
    OverlapHasColon(t1, t2);
    if t1 != t2 {
      AggKeysCollideExactly(t1, t2);
    }
    AggKeyParts(t1, a1, t2, a2);
    assert (t1 + ":" + a1)[|t1| + 1..] == a1 && (t2 + ":" + a2)[|t2| + 1..] == a2;
  }

  /** For example, with a ':' in a type two different aggregates share an index key. */
  lemma AggKeyCollides()
    ensures Overlap("a:b", "a")
    ensures ("a:b", "c") != ("a", "b:c") && AggKey("a:b", "c") == AggKey("a", "b:c")
  {
    assert "a" + ":" <= "a:b";
    assert "a:b" + ":" + "c" == "a" + ":" + "b:c";
    AggKeyParts("a:b", "c", "a", "b:c");
  }
}
