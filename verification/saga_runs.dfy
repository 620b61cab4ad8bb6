/** What every run of the saga coordinator keeps. */
module SagaRuns {
  import opened Basics
  import opened Sagas

  datatype Op =
    | OpStart(id: string, name: string, aggType: string, aggId: string, names: seq<string>, io: Io)
    | OpComplete(id: string, step: string, io: Io)
    | OpFail(id: string, step: string, io: Io)
    | OpExpire(key: string)

  function Apply(c: Coord, op: Op): Coord {
    match op
    case OpStart(id, name, t, a, names, io) => Start(c, NewSaga(id, name, t, a, names), io)
    case OpComplete(id, step, io) => CompleteStep(c, id, step, io)
    case OpFail(id, step, io) => Fail(c, id, step, io)
    case OpExpire(key) => c.(redis := c.redis - {key})
  }

  function Run(ops: seq<Op>): Coord {
    if ops == [] then Coord(map[], []) else Apply(Run(ops[..|ops| - 1]), ops[|ops| - 1])
  }

  function StartedIds(ops: seq<Op>): set<string> {
    set i | 0 <= i < |ops| && ops[i].OpStart? :: ops[i].id
  }

  /** The last saga whose start for exactly this aggregate went through. */
  function Latest(ops: seq<Op>, t: string, a: string): Option<string> {
    if ops == [] then None else
      var op := ops[|ops| - 1];
      if op.OpStart? && op.aggType == t && op.aggId == a && op.io.sagaWrite && op.io.indexWrite then Some(op.id)
      else Latest(ops[..|ops| - 1], t, a)
  }

  /**
   * Starts use fresh ids without ':' (UUIDs), types without ':' and distinct step names;
   * completions name a step of the saga they address.
   */
  ghost predicate LegalOp(ops: seq<Op>, op: Op) {
    match op
    case OpStart(id, name, t, a, names, io) =>
      id != "" && ':' !in id && id !in StartedIds(ops) && ':' !in t && names != [] && Distinct(names)
    case OpComplete(id, step, io) =>
      ':' !in id && (Get(Run(ops), id).Some? ==> step in Names(Get(Run(ops), id).value))
    case OpFail(id, step, io) => ':' !in id
    case OpExpire(key) => true
  }

  ghost predicate Legal(ops: seq<Op>) {
    ops != [] ==> Legal(ops[..|ops| - 1]) && LegalOp(ops[..|ops| - 1], ops[|ops| - 1])
  }

  ghost predicate NoExpiry(ops: seq<Op>) {
    forall i :: 0 <= i < |ops| ==> !ops[i].OpExpire?
  }

  ghost predicate AllEnqueued(ops: seq<Op>) {
    forall i :: 0 <= i < |ops| ==> (ops[i].OpComplete? ==> ops[i].io.enqueue)
  }

  /** How many saga.<step> events the outbox holds for one saga. */
  function StepEvents(outbox: seq<Event>, id: string, step: string): nat {
    if outbox == [] then 0 else
      var e := outbox[|outbox| - 1];
      StepEvents(outbox[..|outbox| - 1], id, step) + if e.sagaId == id && e.payload == Done(step) then 1 else 0
  }

  /** CurrentStep and Status agree with the number of completed steps. */
  ghost predicate Progress(s: Saga) {
    && s.steps != [] && Distinct(Names(s))
    && (s.status != StatusFailed ==>
          && s.current == Min(|DoneSet(s.steps)|, |s.steps| - 1)
          && (s.status == StatusCompleted <==> |DoneSet(s.steps)| == |s.steps|))
  }

  // ---- One saga -----------------------------------------------------------

  lemma {:induction false} DoneSetBound(steps: seq<Step>)
    ensures |DoneSet(steps)| <= |steps|
    ensures |DoneSet(steps)| == |steps| <==> forall i :: 0 <= i < |steps| ==> steps[i].status == StepCompleted
    decreases |steps|
  {
    if steps == [] {
      assert DoneSet(steps) == {};
    } else {
      var n := |steps| - 1;
      OneMore(steps, n);
      assert steps[..n + 1] == steps;
      DoneSetBound(steps[..n]);
      assert forall i :: 0 <= i < n ==> steps[..n][i] == steps[i];
    }
  }

  lemma NewSagaProgress(id: string, name: string, t: string, a: string, names: seq<string>)
    requires names != [] && Distinct(names)
    ensures var s := NewSaga(id, name, t, a, names); Progress(s) && Names(s) == names && DoneSet(s.steps) == {}
  {
    var s := NewSaga(id, name, t, a, names);
    assert Names(s) == names;
    assert DoneSet(s.steps) == {};
  }

  /** Advancing completes exactly the steps of that name and renames nothing. */
  lemma AdvanceShape(s: Saga, name: string)
    ensures var s' := Advance(s, name);
      && |s'.steps| == |s.steps| && Names(s') == Names(s)
      && (forall i :: 0 <= i < |s.steps| ==> (s'.steps[i].name == s.steps[i].name
           && (s'.steps[i].status == StepCompleted <==> s.steps[i].status == StepCompleted || s.steps[i].name == name)))
      && DoneSet(s'.steps) == DoneSet(Mark(s.steps, name, StepCompleted))
  {
  }

  lemma AdvanceKeeps(s: Saga, name: string)
    requires Progress(s) && s.status != StatusFailed && name in Names(s) && !AlreadyDone(s.steps, name)
    ensures var s' := Advance(s, name);
      && Progress(s') && s'.status != StatusFailed && Names(s') == Names(s)
      && |DoneSet(s'.steps)| == |DoneSet(s.steps)| + 1
  {
    var k :| 0 <= k < |s.steps| && Names(s)[k] == name;
    AdvanceShape(s, name);
    forall i | 0 <= i < |s.steps| ensures s.steps[i].name == name <==> i == k {
      assert Names(s)[i] == s.steps[i].name;
    }
    assert DoneSet(Advance(s, name).steps) == DoneSet(s.steps) + {k};
    DoneSetBound(s.steps);
    DoneSetBound(Advance(s, name).steps);
  }

  lemma AdvanceCompletes(s: Saga, name: string, x: string)
    requires name in Names(s)
    ensures AlreadyDone(Advance(s, name).steps, x) <==> AlreadyDone(s.steps, x) || x == name
  {
    AdvanceShape(s, name);
    var s' := Advance(s, name);
    var k :| 0 <= k < |s.steps| && Names(s)[k] == name;
    assert s'.steps[k].name == name && s'.steps[k].status == StepCompleted;
    if AlreadyDone(s.steps, x) {
      var i :| 0 <= i < |s.steps| && s.steps[i].name == x && s.steps[i].status == StepCompleted;
      assert s'.steps[i].name == x && s'.steps[i].status == StepCompleted;
    }
  }

  /** A step name the saga does not have still moves CurrentStep, harmlessly only at the last step. */
  lemma UnknownStepBreaksProgress(s: Saga, name: string)
    requires Progress(s) && s.status != StatusFailed && name !in Names(s)
    ensures Progress(Advance(s, name)) <==> s.current == |s.steps| - 1
  {
    var marked := Mark(s.steps, name, StepCompleted);
    forall i | 0 <= i < |s.steps| ensures s.steps[i].name != name {
      assert Names(s)[i] in Names(s);
    }
    assert marked == s.steps;
    DoneSetBound(s.steps);
    var s' := Advance(s, name);
    assert DoneSet(s'.steps) == DoneSet(s.steps);
    assert Names(s') == Names(s);
  }

  // ---- The invariant ------------------------------------------------------

  ghost predicate StoredSagas(c: Coord, ops: seq<Op>) {
    forall id :: ':' !in id && Key(id) in c.redis ==>
      && c.redis[Key(id)].SagaEntry? && c.redis[Key(id)].saga.id == id
      && id in StartedIds(ops) && Progress(c.redis[Key(id)].saga)
  }

  ghost predicate IndexIsLatest(c: Coord, ops: seq<Op>) {
    && (forall t, a :: ':' !in t && AggKey(t, a) in c.redis ==>
         c.redis[AggKey(t, a)].IdEntry? && Latest(ops, t, a) == Some(c.redis[AggKey(t, a)].id))
    && (forall t, a :: ':' !in t && Latest(ops, t, a).Some? ==>
         var id := Latest(ops, t, a).value;
         && id != "" && ':' !in id && id in StartedIds(ops)
         && (NoExpiry(ops) ==> AggKey(t, a) in c.redis && Key(id) in c.redis)
         && (Key(id) in c.redis && c.redis[Key(id)].SagaEntry? ==>
              c.redis[Key(id)].saga.aggType == t && c.redis[Key(id)].saga.aggId == a))
  }

  ghost predicate EventsMatchSteps(c: Coord, ops: seq<Op>) {
    forall id, step :: ':' !in id ==>
      var n := StepEvents(c.outbox, id, step);
      && n <= 1
      && (id !in StartedIds(ops) ==> n == 0)
      && (Get(c, id).Some? && Get(c, id).value.status != StatusFailed ==>
            var done := AlreadyDone(Get(c, id).value.steps, step);
            && (n == 1 ==> done)
            && (AllEnqueued(ops) && done ==> n == 1))
  }

  ghost predicate Inv(c: Coord, ops: seq<Op>) {
    StoredSagas(c, ops) && IndexIsLatest(c, ops) && EventsMatchSteps(c, ops)
  }

  lemma StartedGrows(ops: seq<Op>, op: Op)
    ensures StartedIds(ops + [op]) == StartedIds(ops) + if op.OpStart? then {op.id} else {}
  {
    var all := ops + [op];
    forall id ensures id in StartedIds(all) <==> id in StartedIds(ops) || (op.OpStart? && id == op.id) {
      if id in StartedIds(ops) {
        var i :| 0 <= i < |ops| && ops[i].OpStart? && ops[i].id == id;
        assert all[i] == ops[i];
      }
      assert all[|ops|] == op;
    }
  }

  /** Starting, completing and failing put at most the saga's own key and its index key. */
  lemma PutKeeps(c: Coord, s: Saga, ops: seq<Op>, op: Op)
    requires StoredSagas(c, ops) && ':' !in s.id && Progress(s)
    requires s.id in StartedIds(ops + [op])
    ensures StoredSagas(Put(c, s), ops + [op])
  {
    StartedGrows(ops, op);
    forall id | ':' !in id && Key(id) in Put(c, s).redis
      ensures Put(c, s).redis[Key(id)].SagaEntry? && Put(c, s).redis[Key(id)].saga.id == id
           && id in StartedIds(ops + [op]) && Progress(Put(c, s).redis[Key(id)].saga)
    {
      KeysDistinct(id, s.id, "", "");
    }
  }

  lemma IndexKeyKeeps(c: Coord, t: string, a: string, id: string, ops: seq<Op>)
    requires StoredSagas(c, ops)
    ensures StoredSagas(c.(redis := c.redis[AggKey(t, a) := IdEntry(id)]), ops)
  {
    forall x | ':' !in x ensures Key(x) != AggKey(t, a) {
      KeysDistinct(x, x, t, a);
    }
  }

  /** Appending a non-start op leaves the index facts alone when only a saga's own key changes. */
  lemma IndexSurvivesPut(c: Coord, s: Saga, ops: seq<Op>, op: Op)
    requires IndexIsLatest(c, ops) && !op.OpStart? && ':' !in s.id
    requires Get(c, s.id).Some? && Get(c, s.id).value.(steps := s.steps, status := s.status, current := s.current) == s
    ensures IndexIsLatest(Put(c, s), ops + [op])
  {
    var c', all := Put(c, s), ops + [op];
    assert all[..|all| - 1] == ops;
    StartedGrows(ops, op);
    forall t, a | ':' !in t ensures AggKey(t, a) != Key(s.id) && Latest(all, t, a) == Latest(ops, t, a) {
      KeysDistinct(s.id, s.id, t, a);
    }
    assert NoExpiry(all) ==> NoExpiry(ops) by {
      if NoExpiry(all) {
        forall i | 0 <= i < |ops| ensures !ops[i].OpExpire? { assert all[i] == ops[i]; }
      }
    }
    forall t, a | ':' !in t && Latest(all, t, a).Some?
      ensures var id := Latest(all, t, a).value; Key(id) in c'.redis && c'.redis[Key(id)].SagaEntry? ==>
        c'.redis[Key(id)].saga.aggType == t && c'.redis[Key(id)].saga.aggId == a
    {
      KeysDistinct(s.id, Latest(all, t, a).value, t, a);
    }
  }

  lemma EmitCounts(c: Coord, s: Saga, eventType: string, payload: Payload, ok: bool, id: string, step: string)
    ensures StepEvents(Emit(c, s, eventType, payload, ok).outbox, id, step)
         == StepEvents(c.outbox, id, step) + if ok && s.id == id && payload == Done(step) then 1 else 0
  {
    if ok {
      var e := Event(s.aggType, s.aggId, eventType, s.id, payload);
      assert (c.outbox + [e])[..|c.outbox|] == c.outbox;
    }
  }

  lemma Extend(ops: seq<Op>, op: Op)
    ensures (ops + [op])[..|ops + [op]| - 1] == ops
    ensures Run(ops + [op]) == Apply(Run(ops), op)
    ensures Legal(ops + [op]) <==> Legal(ops) && LegalOp(ops, op)
    ensures NoExpiry(ops + [op]) <==> NoExpiry(ops) && !op.OpExpire?
    ensures AllEnqueued(ops + [op]) <==> AllEnqueued(ops) && (op.OpComplete? ==> op.io.enqueue)
  {
    var all := ops + [op];
    assert all[..|all| - 1] == ops;
    assert forall i :: 0 <= i < |ops| ==> all[i] == ops[i];
    assert all[|ops|] == op;
    assert AllEnqueued(all) ==> AllEnqueued(ops) by {
      if AllEnqueued(all) {
        forall i | 0 <= i < |ops| ensures ops[i].OpComplete? ==> ops[i].io.enqueue { assert all[i] == ops[i]; }
      }
    }
    assert NoExpiry(all) ==> NoExpiry(ops) by {
      if NoExpiry(all) {
        forall i | 0 <= i < |ops| ensures !ops[i].OpExpire? { assert all[i] == ops[i]; }
      }
    }
  }

  lemma StartKeeps(ops: seq<Op>, op: Op)
    requires Inv(Run(ops), ops) && op.OpStart? && LegalOp(ops, op)
    ensures Inv(Apply(Run(ops), op), ops + [op])
  {
    var c, all := Run(ops), ops + [op];
    var s := NewSaga(op.id, op.name, op.aggType, op.aggId, op.names);
    var c' := Apply(c, op);
    Extend(ops, op);
    StartedGrows(ops, op);
    NewSagaProgress(op.id, op.name, op.aggType, op.aggId, op.names);
    PutKeeps(c, s, ops, op);
    IndexKeyKeeps(Put(c, s), op.aggType, op.aggId, op.id, all);
    assert StoredSagas(c', all);
    StartIndex(ops, op);
    StartEvents(ops, op);
  }

  lemma StartEvents(ops: seq<Op>, op: Op)
    requires Inv(Run(ops), ops) && op.OpStart? && LegalOp(ops, op)
    ensures EventsMatchSteps(Apply(Run(ops), op), ops + [op])
  {
    hide Run, Legal, Latest, AggKey;
    var c, all := Run(ops), ops + [op];
    var s := NewSaga(op.id, op.name, op.aggType, op.aggId, op.names);
    var c' := Apply(c, op);
    Extend(ops, op);
    StartedGrows(ops, op);
    NewSagaProgress(op.id, op.name, op.aggType, op.aggId, op.names);
    assert EventsMatchSteps(c', all) by {
      forall id, step | ':' !in id
        ensures StepEvents(c'.outbox, id, step) == StepEvents(c.outbox, id, step)
        ensures id != op.id ==> Get(c', id) == Get(c, id)
      {
        EmitCounts(Put(c, s), s, "saga.started", Started, op.io.enqueue, id, step);
        KeysDistinct(id, op.id, op.aggType, op.aggId);
      }
      KeysDistinct(op.id, op.id, op.aggType, op.aggId);
      assert forall step :: !AlreadyDone(s.steps, step);
    }
  }

  lemma StartIndex(ops: seq<Op>, op: Op)
    requires Inv(Run(ops), ops) && op.OpStart? && LegalOp(ops, op)
    ensures IndexIsLatest(Apply(Run(ops), op), ops + [op])
  {
    hide Run, Latest, AggKey, Key, EventsMatchSteps, Progress, NewSaga, StartedIds, Apply, LegalOp, NoExpiry,
      StoredSagas;
    var c, c', all := Run(ops), Apply(Run(ops), op), ops + [op];
    forall t, a | ':' !in t
      ensures AggKey(t, a) in c'.redis ==>
        c'.redis[AggKey(t, a)].IdEntry? && Latest(all, t, a) == Some(c'.redis[AggKey(t, a)].id)
    {
      LatestStarted(ops, op, t, a);
    }
    forall t, a | ':' !in t && Latest(all, t, a).Some?
      ensures var id := Latest(all, t, a).value;
        && id != "" && ':' !in id && id in StartedIds(all)
        && (NoExpiry(all) ==> AggKey(t, a) in c'.redis && Key(id) in c'.redis)
        && (Key(id) in c'.redis && c'.redis[Key(id)].SagaEntry? ==>
              c'.redis[Key(id)].saga.aggType == t && c'.redis[Key(id)].saga.aggId == a)
    {
      LatestStarted(ops, op, t, a);
      LatestStored(ops, op, t, a);
    }
  }

  /** A start that goes through is the latest one of its aggregate, and its index entry follows. */
  lemma LatestStarted(ops: seq<Op>, op: Op, t: string, a: string)
    requires op.OpStart? && LegalOp(ops, op) && ':' !in t
    ensures var c, c', linked := Run(ops), Apply(Run(ops), op), op.io.sagaWrite && op.io.indexWrite;
      var own := linked && t == op.aggType && a == op.aggId;
      && AggKey(t, a) != Key(op.id)
      && Latest(ops + [op], t, a) == (if own then Some(op.id) else Latest(ops, t, a))
      && (AggKey(t, a) in c'.redis <==> own || AggKey(t, a) in c.redis)
      && (AggKey(t, a) in c'.redis ==>
            c'.redis[AggKey(t, a)] == if own then IdEntry(op.id) else c.redis[AggKey(t, a)])
  {
    hide Run, AggKey, Key, NewSaga, StartedIds;
    assert (ops + [op])[..|ops|] == ops;
    KeysDistinct(op.id, op.id, t, a);
    if AggKey(t, a) == AggKey(op.aggType, op.aggId) {
      AggKeyInjective(t, a, op.aggType, op.aggId);
    }
    assert NewSaga(op.id, op.name, op.aggType, op.aggId, op.names).id == op.id by { NewIds(op); }
    assert NewSaga(op.id, op.name, op.aggType, op.aggId, op.names).aggType == op.aggType by { NewIds(op); }
    assert NewSaga(op.id, op.name, op.aggType, op.aggId, op.names).aggId == op.aggId by { NewIds(op); }
  }

  lemma NewIds(op: Op)
    requires op.OpStart?
    ensures var s := NewSaga(op.id, op.name, op.aggType, op.aggId, op.names);
      s.id == op.id && s.aggType == op.aggType && s.aggId == op.aggId
  {
  }

  /** The saga it leads to is stored unless something expired, and is the aggregate's own. */
  lemma LatestStored(ops: seq<Op>, op: Op, t: string, a: string)
    requires Inv(Run(ops), ops) && op.OpStart? && LegalOp(ops, op) && ':' !in t && Latest(ops + [op], t, a).Some?
    ensures var c', all := Apply(Run(ops), op), ops + [op]; var id := Latest(all, t, a).value;
      && id != "" && ':' !in id && id in StartedIds(all)
      && (NoExpiry(all) ==> AggKey(t, a) in c'.redis && Key(id) in c'.redis)
      && (Key(id) in c'.redis && c'.redis[Key(id)].SagaEntry? ==>
            c'.redis[Key(id)].saga.aggType == t && c'.redis[Key(id)].saga.aggId == a)
  {
    hide Run, Legal, AggKey, Key, EventsMatchSteps, Progress, NewSaga, StoredSagas, Latest, StartedIds;
    Extend(ops, op);
    StartedGrows(ops, op);
    LatestStarted(ops, op, t, a);
    NewIds(op);
    var id := Latest(ops + [op], t, a).value;
    KeysDistinct(id, op.id, op.aggType, op.aggId);
    if id != op.id { assert Latest(ops, t, a) == Some(id); }
    StartedAnew(ops, op, t, a);
  }

  /** A fresh id is not the latest of any aggregate yet. */
  lemma StartedAnew(ops: seq<Op>, op: Op, t: string, a: string)
    requires Inv(Run(ops), ops) && op.OpStart? && LegalOp(ops, op) && ':' !in t
    ensures Latest(ops, t, a) != Some(op.id)
  {
    hide Run, Latest, StartedIds, StoredSagas, EventsMatchSteps;
  }

  lemma CompleteKeeps(ops: seq<Op>, op: Op)
    requires Inv(Run(ops), ops) && op.OpComplete? && LegalOp(ops, op)
    ensures Inv(Apply(Run(ops), op), ops + [op])
  {
    var c, c', all := Run(ops), Apply(Run(ops), op), ops + [op];
    Extend(ops, op);
    StartedGrows(ops, op);
    if c' != c {
      var s := Get(c, op.id).value;
      var s' := Advance(s, op.step);
      AdvanceKeeps(s, op.step);
      AdvanceShape(s, op.step);
      PutKeeps(c, s', ops, op);
      IndexSurvivesPut(c, s', ops, op);
      CompleteEvents(ops, op);
    } else {
      SameStoreKeeps(c, ops, op);
    }
  }

  lemma CompleteEvents(ops: seq<Op>, op: Op)
    requires Inv(Run(ops), ops) && op.OpComplete? && LegalOp(ops, op) && Apply(Run(ops), op) != Run(ops)
    ensures EventsMatchSteps(Apply(Run(ops), op), ops + [op])
  {
    var c, all := Run(ops), ops + [op];
    Extend(ops, op);
    StartedGrows(ops, op);
    var s := Get(c, op.id).value;
    AdvanceKeeps(s, op.step);
    forall id, step | ':' !in id
      ensures var c' := Apply(c, op);
        && StepEvents(c'.outbox, id, step)
             == StepEvents(c.outbox, id, step) + (if op.io.enqueue && id == op.id && step == op.step then 1 else 0)
        && (id != op.id ==> Get(c', id) == Get(c, id))
        && (id == op.id ==> Get(c', id) == Some(Advance(s, op.step)))
        && (AlreadyDone(Advance(s, op.step).steps, step) <==> AlreadyDone(s.steps, step) || step == op.step)
    {
      CompleteEffect(c, op, s, id, step);
    }
  }

  lemma CompleteEffect(c: Coord, op: Op, s: Saga, id: string, step: string)
    requires op.OpComplete? && ':' !in op.id && ':' !in id && Get(c, op.id) == Some(s) && s.id == op.id
    requires Apply(c, op) != c && op.step in Names(s)
    ensures var c' := Apply(c, op);
      && StepEvents(c'.outbox, id, step)
           == StepEvents(c.outbox, id, step) + (if op.io.enqueue && id == op.id && step == op.step then 1 else 0)
      && (id != op.id ==> Get(c', id) == Get(c, id))
      && (id == op.id ==> Get(c', id) == Some(Advance(s, op.step)))
      && (AlreadyDone(Advance(s, op.step).steps, step) <==> AlreadyDone(s.steps, step) || step == op.step)
  {
    var s' := Advance(s, op.step);
    assert s'.id == op.id;
    assert Apply(c, op) == Emit(Put(c, s'), s', "saga." + op.step, Done(op.step), op.io.enqueue);
    EmitCounts(Put(c, s'), s', "saga." + op.step, Done(op.step), op.io.enqueue, id, step);
    KeysDistinct(id, op.id, "", "");
    AdvanceCompletes(s, op.step, step);
  }

  lemma SameStoreKeeps(c: Coord, ops: seq<Op>, op: Op)
    requires Inv(c, ops) && !op.OpStart?
    ensures Inv(c, ops + [op])
  {
    Extend(ops, op);
    StartedGrows(ops, op);
    assert forall t, a :: Latest(ops + [op], t, a) == Latest(ops, t, a);
  }

  lemma FailKeeps(ops: seq<Op>, op: Op)
    requires Inv(Run(ops), ops) && op.OpFail? && LegalOp(ops, op)
    ensures Inv(Apply(Run(ops), op), ops + [op])
  {
    var c, c', all := Run(ops), Apply(Run(ops), op), ops + [op];
    Extend(ops, op);
    StartedGrows(ops, op);
    if c' != c {
      var s := Get(c, op.id).value;
      var s' := MarkFailed(s, op.step);
      assert Names(s') == Names(s);
      PutKeeps(c, s', ops, op);
      IndexSurvivesPut(c, s', ops, op);
      FailEvents(ops, op);
    } else {
      SameStoreKeeps(c, ops, op);
    }
  }

  lemma FailEvents(ops: seq<Op>, op: Op)
    requires Inv(Run(ops), ops) && op.OpFail? && LegalOp(ops, op) && Apply(Run(ops), op) != Run(ops)
    ensures EventsMatchSteps(Apply(Run(ops), op), ops + [op])
  {
    var c := Run(ops);
    Extend(ops, op);
    StartedGrows(ops, op);
    forall id, step | ':' !in id
      ensures StepEvents(Apply(c, op).outbox, id, step) == StepEvents(c.outbox, id, step)
      ensures id != op.id ==> Get(Apply(c, op), id) == Get(c, id)
      ensures id == op.id ==> Get(Apply(c, op), id).value.status == StatusFailed
    {
      FailEffect(c, op, Get(c, op.id).value, id, step);
    }
  }

  lemma FailEffect(c: Coord, op: Op, s: Saga, id: string, step: string)
    requires op.OpFail? && ':' !in op.id && ':' !in id && Get(c, op.id) == Some(s) && s.id == op.id
    requires Apply(c, op) != c
    ensures StepEvents(Apply(c, op).outbox, id, step) == StepEvents(c.outbox, id, step)
    ensures Get(Apply(c, op), id) == if id == op.id then Some(MarkFailed(s, op.step)) else Get(c, id)
  {
    FailStored(c, op, s, id);
    hide Get, StepEvents, Emit, Mark;
    var s' := MarkFailed(s, op.step);
    EmitCounts(Put(c, s'), s', "saga.failed", Failure(op.step), op.io.enqueue, id, step);
  }

  lemma FailStored(c: Coord, op: Op, s: Saga, id: string)
    requires op.OpFail? && ':' !in op.id && ':' !in id && Get(c, op.id) == Some(s) && s.id == op.id && op.io.sagaWrite
    ensures Get(Apply(c, op), id) == if id == op.id then Some(MarkFailed(s, op.step)) else Get(c, id)
  {
    hide Mark;
    KeysDistinct(id, op.id, "", "");
  }

  lemma ExpireKeeps(ops: seq<Op>, op: Op)
    requires Inv(Run(ops), ops) && op.OpExpire?
    ensures Inv(Apply(Run(ops), op), ops + [op])
  {
    var c := Run(ops);
    Extend(ops, op);
    SameStoreKeeps(c, ops, op);
    forall id | Get(Apply(c, op), id).Some? ensures Get(Apply(c, op), id) == Get(c, id) {
    }
  }

  lemma {:induction false} RunKeepsInv(ops: seq<Op>)
    requires Legal(ops)
    ensures Inv(Run(ops), ops)
    decreases |ops|
  {
    if ops != [] {
      var front, op := ops[..|ops| - 1], ops[|ops| - 1];
      RunKeepsInv(front);
      assert front + [op] == ops;
      match op {
        case OpStart(_, _, _, _, _, _) => StartKeeps(front, op);
        case OpComplete(_, _, _) => CompleteKeeps(front, op);
        case OpFail(_, _, _) => FailKeeps(front, op);
        case OpExpire(_) => ExpireKeeps(front, op);
      }
    }
  }

  // ---- Main results -------------------------------------------------------

  /**
   * Main result: however steps complete, repeat or fail, a stored saga that has not failed
   * keeps CurrentStep = min(completed, n - 1), is completed exactly when all its steps are,
   * and has exactly one step event per completed step (at most one when enqueues may fail).
   */
  lemma StoredSagaProgress(ops: seq<Op>, id: string, step: string)
    requires Legal(ops) && ':' !in id && Get(Run(ops), id).Some?
    ensures var s := Get(Run(ops), id).value; var n := StepEvents(Run(ops).outbox, id, step);
      && s.id == id && n <= 1
      && (s.status != StatusFailed ==>
            && s.current == Min(|DoneSet(s.steps)|, |s.steps| - 1)
            && (s.status == StatusCompleted <==> forall i :: 0 <= i < |s.steps| ==> s.steps[i].status == StepCompleted)
            && (n == 1 ==> AlreadyDone(s.steps, step))
            && (AllEnqueued(ops) && AlreadyDone(s.steps, step) ==> n == 1))
  {
    RunKeepsInv(ops);
    DoneSetBound(Get(Run(ops), id).value.steps);
  }

  /** The steps whose failure was stored while the saga was. */
  function Failures(ops: seq<Op>, id: string): set<string> {
    if ops == [] then {}
    else
      var front, op := ops[..|ops| - 1], ops[|ops| - 1];
      Failures(front, id)
      + if op.OpFail? && op.id == id && op.io.sagaWrite && Get(Run(front), id).Some? then {op.step} else {}
  }

  /** Exactly the failed steps are marked so; of the open ones, those up to the current one are running. */
  ghost predicate Marked(s: Saga, failures: set<string>) {
    && (s.status == StatusFailed <==> failures != {})
    && (forall i :: 0 <= i < |s.steps| ==> (s.steps[i].status == StepFailed <==> s.steps[i].name in failures))
    && (forall i :: 0 <= i < |s.steps| && s.steps[i].status == StepRunning ==> i <= s.current)
    && (forall i :: 0 <= i < |s.steps| && s.steps[i].status == StepPending ==> i > s.current)
  }

  lemma AdvanceMarks(s: Saga, name: string)
    requires Marked(s, {}) && (s.status == StatusCompleted ==> s.steps != [])
    ensures Marked(Advance(s, name), {})
  {
    hide DoneSet;
  }

  lemma FailMarks(s: Saga, name: string, failures: set<string>)
    requires Marked(s, failures)
    ensures Marked(MarkFailed(s, name), failures + {name})
  {
  }

  lemma FailuresNext(ops: seq<Op>, op: Op, id: string)
    ensures Failures(ops + [op], id) == Failures(ops, id)
      + if op.OpFail? && op.id == id && op.io.sagaWrite && Get(Run(ops), id).Some? then {op.step} else {}
  {
    assert (ops + [op])[..|ops|] == ops;
  }

  ghost predicate MarkedIn(ops: seq<Op>, id: string) {
    && (Get(Run(ops), id).Some? ==> Marked(Get(Run(ops), id).value, Failures(ops, id)))
    && (id !in StartedIds(ops) ==> Failures(ops, id) == {})
  }

  lemma {:induction false} StepsMarked(ops: seq<Op>, id: string)
    requires Legal(ops) && ':' !in id
    ensures MarkedIn(ops, id)
    decreases |ops|
  {
    if ops != [] {
      hide MarkedIn, Legal, LegalOp, Inv;
      var front, op := ops[..|ops| - 1], ops[|ops| - 1];
      assert front + [op] == ops;
      LegalFront(ops);
      StepsMarked(front, id);
      RunKeepsInv(front);
      NextMarked(front, op, id);
    }
  }

  lemma NextMarked(ops: seq<Op>, op: Op, id: string)
    requires Inv(Run(ops), ops) && LegalOp(ops, op) && ':' !in id && MarkedIn(ops, id)
    ensures MarkedIn(ops + [op], id)
  {
    hide Run, Inv, LegalOp, Marked, Failures, StartedIds, Apply, Legal;
    Extend(ops, op);
    StartedGrows(ops, op);
    FailuresNext(ops, op, id);
    ApplyMarks(ops, op, id);
  }

  lemma LegalFront(ops: seq<Op>)
    requires ops != [] && Legal(ops)
    ensures Legal(ops[..|ops| - 1]) && LegalOp(ops[..|ops| - 1], ops[|ops| - 1])
  {
  }

  lemma NewMarked(id: string, name: string, t: string, a: string, names: seq<string>)
    ensures Marked(NewSaga(id, name, t, a, names), {})
  {
  }

  lemma ApplyMarks(ops: seq<Op>, op: Op, id: string)
    requires Inv(Run(ops), ops) && LegalOp(ops, op) && ':' !in id
    requires Get(Run(ops), id).Some? ==> Marked(Get(Run(ops), id).value, Failures(ops, id))
    requires id !in StartedIds(ops) ==> Failures(ops, id) == {}
    ensures var c, c' := Run(ops), Apply(Run(ops), op);
      && (Get(c', id).Some? ==> Marked(Get(c', id).value, Failures(ops, id)
            + if op.OpFail? && op.id == id && op.io.sagaWrite && Get(c, id).Some? then {op.step} else {}))
      && (id !in StartedIds(ops) ==> Get(c, id).None?)
  {
    hide Run, Legal, Latest, AggKey, Marked, Failures, IndexIsLatest, EventsMatchSteps, Advance, MarkFailed;
    var c := Run(ops);
    assert Failures(ops, id) + {} == Failures(ops, id);
    match op {
      case OpStart(x, name, t, a, names, _) =>
        KeysDistinct(id, x, t, a);
        NewMarked(x, name, t, a, names);
        hide NewSaga;
        StartStored(c, op, id);
      case OpComplete(x, step, _) =>
        KeysDistinct(id, x, "", "");
        if Apply(c, op) != c {
          var s := Get(c, x).value;
          CompleteEffect(c, op, s, id, step);
          NotFailedMarks(s, Failures(ops, x));
          if id == x { AdvanceMarks(s, step); }
        }
      case OpFail(x, step, _) =>
        KeysDistinct(id, x, "", "");
        if Get(c, x).Some? && op.io.sagaWrite {
          var s := Get(c, x).value;
          FailStored(c, op, s, id);
          if id == x { FailMarks(s, step, Failures(ops, x)); }
        }
      case OpExpire(_) =>
    }
  }

  lemma StartStored(c: Coord, op: Op, id: string)
    requires op.OpStart? && ':' !in id && op.id != "" && Key(id) != AggKey(op.aggType, op.aggId)
    ensures Get(Apply(c, op), id) == if op.io.sagaWrite && id == op.id
      then Some(NewSaga(op.id, op.name, op.aggType, op.aggId, op.names)) else Get(c, id)
  {
    hide AggKey;
    KeysDistinct(id, op.id, "", "");
    assert NewSaga(op.id, op.name, op.aggType, op.aggId, op.names).id == op.id;
    hide NewSaga;
  }

  lemma NotFailedMarks(s: Saga, failures: set<string>)
    ensures Marked(s, failures) && s.status != StatusFailed ==> failures == {}
  {
  }

  /**
   * Main result: in every run a stored saga's step is marked failed exactly when a failure of it
   * was stored, and the saga is failed exactly when there was one; a step neither completed nor
   * failed is running up to the current one and pending after it.
   */
  lemma {:induction false} StepStatuses(ops: seq<Op>, id: string, i: nat)
    requires Legal(ops) && ':' !in id && Get(Run(ops), id).Some? && i < |Get(Run(ops), id).value.steps|
    ensures var s := Get(Run(ops), id).value; var step := s.steps[i];
      && (s.status == StatusFailed <==> Failures(ops, id) != {})
      && (step.status == StepFailed <==> step.name in Failures(ops, id))
      && (step.status !in {StepCompleted, StepFailed} ==>
            step.status == if i <= s.current then StepRunning else StepPending)
  {
    hide Run, Legal, Failures;
    StepsMarked(ops, id);
  }

  /** So as long as steps complete in list order: completed, then one running, then pending. */
  lemma {:induction false} InOrderStatuses(ops: seq<Op>, id: string, i: nat)
    requires Legal(ops) && ':' !in id && Get(Run(ops), id).Some? && i < |Get(Run(ops), id).value.steps|
    requires var s := Get(Run(ops), id).value;
      && s.status != StatusFailed
      && forall j, k :: 0 <= j < k < |s.steps| && s.steps[k].status == StepCompleted ==>
           s.steps[j].status == StepCompleted
    ensures var s := Get(Run(ops), id).value;
      s.steps[i].status == (
        if i < s.current || s.status == StatusCompleted then StepCompleted
        else if i == s.current then StepRunning else StepPending)
  {
    hide Run, Legal, Failures;
    StoredSagaProgress(ops, id, "");
    StepStatuses(ops, id, i);
    LeadingDone(Get(Run(ops), id).value.steps);
  }

  lemma {:induction false} LeadingDone(steps: seq<Step>)
    requires forall j, k :: 0 <= j < k < |steps| && steps[k].status == StepCompleted ==>
      steps[j].status == StepCompleted
    ensures forall i :: 0 <= i < |steps| ==> (steps[i].status == StepCompleted <==> i < |DoneSet(steps)|)
    decreases |steps|
  {
    if steps == [] {
      assert DoneSet(steps) == {};
    } else {
      var n := |steps| - 1;
      OneMore(steps, n);
      assert steps[..n + 1] == steps;
      LeadingDone(steps[..n]);
      DoneSetBound(steps[..n]);
      if n > 0 { assert steps[..n][n - 1] == steps[n - 1]; }
      assert forall i :: 0 <= i < n ==> steps[..n][i] == steps[i];
    }
  }

  /** The operation that started the saga. */
  function Starter(ops: seq<Op>, id: string): (r: Option<Op>)
    ensures r.Some? ==> r.value.OpStart? && r.value.id == id
  {
    if ops == [] then None
    else if ops[|ops| - 1].OpStart? && ops[|ops| - 1].id == id then Some(ops[|ops| - 1])
    else Starter(ops[..|ops| - 1], id)
  }

  /** What is stored is still the saga that was started: its name, aggregate and step names never change. */
  ghost predicate AsStarted(s: Saga, start: Option<Op>) {
    && start.Some? && start.value.OpStart?
    && s.id == start.value.id && s.name == start.value.name && s.aggType == start.value.aggType
    && s.aggId == start.value.aggId && Names(s) == start.value.names
  }

  lemma StarterNext(ops: seq<Op>, op: Op, id: string)
    ensures Starter(ops + [op], id) == if op.OpStart? && op.id == id then Some(op) else Starter(ops, id)
  {
    assert (ops + [op])[..|ops|] == ops;
  }

  lemma {:induction false} StoredAsStarted(ops: seq<Op>, id: string)
    requires Legal(ops) && ':' !in id
    ensures Get(Run(ops), id).Some? ==> AsStarted(Get(Run(ops), id).value, Starter(ops, id))
    decreases |ops|
  {
    if ops != [] {
      hide AsStarted, Legal, LegalOp, Inv, Starter;
      var front, op := ops[..|ops| - 1], ops[|ops| - 1];
      assert front + [op] == ops;
      LegalFront(ops);
      StoredAsStarted(front, id);
      RunKeepsInv(front);
      ApplyAsStarted(front, op, id);
    }
  }

  lemma ApplyAsStarted(ops: seq<Op>, op: Op, id: string)
    requires Inv(Run(ops), ops) && LegalOp(ops, op) && ':' !in id
    requires Get(Run(ops), id).Some? ==> AsStarted(Get(Run(ops), id).value, Starter(ops, id))
    ensures Get(Apply(Run(ops), op), id).Some? ==>
      AsStarted(Get(Apply(Run(ops), op), id).value, Starter(ops + [op], id))
  {
    hide Run, Legal, Latest, AggKey, Starter, IndexIsLatest, EventsMatchSteps, Advance, MarkFailed, Names, Progress;
    var c := Run(ops);
    StarterNext(ops, op, id);
    match op {
      case OpStart(x, name, t, a, names, _) =>
        KeysDistinct(id, x, t, a);
        StartStored(c, op, id);
        NewNames(op);
        hide NewSaga, Apply;
        NotStoredBefore(ops, op);
      case OpComplete(x, step, _) =>
        KeysDistinct(id, x, "", "");
        if Apply(c, op) != c {
          CompleteEffect(c, op, Get(c, x).value, id, step);
          AdvanceShape(Get(c, x).value, step);
          SameIdentity(Get(c, x).value, step);
        }
      case OpFail(x, step, _) =>
        KeysDistinct(id, x, "", "");
        if Get(c, x).Some? && op.io.sagaWrite {
          FailStored(c, op, Get(c, x).value, id);
          SameIdentity(Get(c, x).value, step);
        }
      case OpExpire(_) =>
    }
  }

  lemma NotStoredBefore(ops: seq<Op>, op: Op)
    requires Inv(Run(ops), ops) && op.OpStart? && LegalOp(ops, op)
    ensures Get(Run(ops), op.id).None?
  {
    hide Run, IndexIsLatest, EventsMatchSteps;
  }

  lemma NewNames(op: Op)
    requires op.OpStart?
    ensures var s := NewSaga(op.id, op.name, op.aggType, op.aggId, op.names);
      && s.id == op.id && s.name == op.name && s.aggType == op.aggType && s.aggId == op.aggId && Names(s) == op.names
  {
  }

  lemma SameIdentity(s: Saga, step: string)
    ensures var a, f := Advance(s, step), MarkFailed(s, step);
      && a.id == s.id && a.name == s.name && a.aggType == s.aggType && a.aggId == s.aggId
      && f.id == s.id && f.name == s.name && f.aggType == s.aggType && f.aggId == s.aggId && Names(f) == Names(s)
  {
  }

  /** The event an operation enqueues at this point of a run, if it enqueues one. */
  ghost function Enqueued(ops: seq<Op>, op: Op): Option<Event> {
    match op
    case OpStart(id, _, t, a, _, io) =>
      if io.sagaWrite && io.indexWrite && io.enqueue then Some(Event(t, a, "saga.started", id, Started)) else None
    case OpComplete(id, step, io) =>
      var got, start := Get(Run(ops), id), Starter(ops, id);
      if start.Some? && got.Some? && got.value.status != StatusFailed
        && Step(step, StepCompleted) !in got.value.steps && io.sagaWrite && io.enqueue
      then Some(Event(start.value.aggType, start.value.aggId, "saga." + step, id, Done(step))) else None
    case OpFail(id, step, io) =>
      var got, start := Get(Run(ops), id), Starter(ops, id);
      if start.Some? && got.Some? && io.sagaWrite && io.enqueue
      then Some(Event(start.value.aggType, start.value.aggId, "saga.failed", id, Failure(step))) else None
    case OpExpire(_) => None
  }

  /**
   * Main result: in every run the outbox grows by exactly these events: one for a start that went
   * through, one for a step that completes and was not completed before in a saga that has not
   * failed, one for a failure; each carries the aggregate its saga was started for.
   */
  lemma {:induction false} EnqueuesExactly(ops: seq<Op>, op: Op)
    requires Legal(ops + [op])
    ensures Run(ops + [op]).outbox
         == Run(ops).outbox + (if Enqueued(ops, op).Some? then [Enqueued(ops, op).value] else [])
  {
    Extend(ops, op);
    RunKeepsInv(ops);
    if op.OpComplete? || op.OpFail? { StoredAsStarted(ops, op.id); }
    ApplyEnqueues(ops, op);
  }

  lemma ApplyEnqueues(ops: seq<Op>, op: Op)
    requires LegalOp(ops, op)
    requires op.OpComplete? || op.OpFail? ==>
      var got := Get(Run(ops), op.id); got.Some? ==> AsStarted(got.value, Starter(ops, op.id))
    ensures Apply(Run(ops), op).outbox
         == Run(ops).outbox + (if Enqueued(ops, op).Some? then [Enqueued(ops, op).value] else [])
  {
    hide Run, Legal, Starter, Names, Get;
    if op.OpComplete? && Get(Run(ops), op.id).Some? {
      DoneAmong(Get(Run(ops), op.id).value.steps, op.step);
      SameIdentity(Get(Run(ops), op.id).value, op.step);
      hide Advance, AlreadyDone;
    }
  }

  lemma DoneAmong(steps: seq<Step>, name: string)
    ensures AlreadyDone(steps, name) <==> Step(name, StepCompleted) in steps
  {
    if AlreadyDone(steps, name) {
      var i :| 0 <= i < |steps| && steps[i].name == name && steps[i].status == StepCompleted;
      assert steps[i] == Step(name, StepCompleted);
    }
  }

  /** Main result: the aggregate index finds the latest saga started for exactly that aggregate. */
  lemma FindsLatest(ops: seq<Op>, t: string, a: string)
    requires Legal(ops) && ':' !in t
    ensures var found := FindByAggregate(Run(ops), t, a);
      && (found.Some? ==>
            Latest(ops, t, a) == Some(found.value.id) && found.value.aggType == t && found.value.aggId == a)
      && (NoExpiry(ops) ==> (found.Some? <==> Latest(ops, t, a).Some?))
  {
    RunKeepsInv(ops);
  }

  /** Main result: a failed saga stays failed and completes no further step, in every continuation. */
  lemma {:induction false} FailedIsAbsorbing(ops: seq<Op>, more: seq<Op>, id: string)
    requires Legal(ops + more) && ':' !in id && id in StartedIds(ops)
    requires Get(Run(ops), id).Some? ==> Get(Run(ops), id).value.status == StatusFailed
    ensures var before, after := Get(Run(ops), id), Get(Run(ops + more), id);
      after.Some? ==>
        && before.Some? && after.value.status == StatusFailed && after.value.current == before.value.current
        && DoneSet(after.value.steps) <= DoneSet(before.value.steps)
    decreases |more|
  {
    if more == [] {
      assert ops + more == ops;
    } else {
      var front, op := more[..|more| - 1], more[|more| - 1];
      var mid := ops + front;
      assert ops + more == mid + [op];
      Extend(mid, op);
      FailedIsAbsorbing(ops, front, id);
      assert id in StartedIds(mid) by {
        var i :| 0 <= i < |ops| && ops[i].OpStart? && ops[i].id == id;
        assert mid[i] == ops[i];
      }
      RunKeepsInv(mid);
      FailedStep(mid, op, id);
    }
  }

  lemma FailedStep(ops: seq<Op>, op: Op, id: string)
    requires Inv(Run(ops), ops) && LegalOp(ops, op) && ':' !in id && id in StartedIds(ops)
    requires Get(Run(ops), id).Some? ==> Get(Run(ops), id).value.status == StatusFailed
    ensures var before, after := Get(Run(ops), id), Get(Apply(Run(ops), op), id);
      after.Some? ==>
        && before.Some? && after.value.status == StatusFailed && after.value.current == before.value.current
        && DoneSet(after.value.steps) <= DoneSet(before.value.steps)
  {
    hide Run, Legal, Latest, StepEvents, AggKey, Progress, EventsMatchSteps, IndexIsLatest;
    var c := Run(ops);
    match op {
      case OpStart(x, _, t, a, _, _) =>
        KeysDistinct(id, x, t, a);
        assert Get(Apply(c, op), id) == Get(c, id);
      case OpComplete(x, _, _) =>
        KeysDistinct(id, x, "", "");
        assert Get(Apply(c, op), id) == Get(c, id);
      case OpFail(x, step, _) =>
        KeysDistinct(id, x, "", "");
        if Apply(c, op) != c {
          FailEffect(c, op, Get(c, x).value, id, step);
        }
      case OpExpire(_) =>
    }
  }

  /** Completions of the steps from k on in list order, with the store and the outbox up. */
  function InOrder(id: string, names: seq<string>, k: nat): seq<Op>
    requires k <= |names|
    decreases |names| - k
  {
    if k == |names| then [] else [OpComplete(id, names[k], Io(true, true, true))] + InOrder(id, names, k + 1)
  }

  /** The saga is stored, has not failed, and its first k steps are completed. */
  ghost predicate DonePrefix(c: Coord, id: string, names: seq<string>, k: nat)
    requires k <= |names|
  {
    && Get(c, id).Some? && Get(c, id).value.status != StatusFailed && Names(Get(c, id).value) == names
    && forall i :: 0 <= i < k ==> AlreadyDone(Get(c, id).value.steps, names[i])
  }

  /** Main result: completing every step in list order completes a saga that has not failed. */
  lemma InOrderCompletes(ops: seq<Op>, id: string, names: seq<string>)
    requires Legal(ops) && ':' !in id && DonePrefix(Run(ops), id, names, 0)
    ensures var all := ops + InOrder(id, names, 0);
      Legal(all) && Get(Run(all), id).Some? && Get(Run(all), id).value.status == StatusCompleted
  {
    var all := InOrderDone(ops, id, names, 0);
    RunKeepsInv(all);
    var s := Get(Run(all), id).value;
    DoneSetBound(s.steps);
    AllDone(s, names);
  }

  lemma {:induction false} InOrderDone(ops: seq<Op>, id: string, names: seq<string>, k: nat) returns (all: seq<Op>)
    requires Legal(ops) && ':' !in id && k <= |names| && DonePrefix(Run(ops), id, names, k)
    ensures all == ops + InOrder(id, names, k)
    ensures Legal(all) && DonePrefix(Run(all), id, names, |names|)
    decreases |names| - k
  {
    hide Run, Legal, DonePrefix;
    if k == |names| {
      all := ops;
    } else {
      var next := ops + [OpComplete(id, names[k], Io(true, true, true))];
      CompleteOne(ops, id, names, k);
      all := InOrderDone(next, id, names, k + 1);
      Assoc(ops, OpComplete(id, names[k], Io(true, true, true)), InOrder(id, names, k + 1));
    }
  }

  lemma Assoc(a: seq<Op>, x: Op, rest: seq<Op>)
    ensures a + ([x] + rest) == a + [x] + rest
  {
  }

  lemma CompleteOne(ops: seq<Op>, id: string, names: seq<string>, k: nat)
    requires Legal(ops) && ':' !in id && k < |names| && DonePrefix(Run(ops), id, names, k)
    ensures var all := ops + [OpComplete(id, names[k], Io(true, true, true))];
      Legal(all) && DonePrefix(Run(all), id, names, k + 1)
  {
    Extend(ops, OpComplete(id, names[k], Io(true, true, true)));
    RunKeepsInv(ops);
    CompleteOneInStore(Run(ops), id, names, k);
  }

  lemma CompleteOneInStore(c: Coord, id: string, names: seq<string>, k: nat)
    requires ':' !in id && k < |names| && DonePrefix(c, id, names, k)
    requires Get(c, id).value.id == id
    ensures DonePrefix(Apply(c, OpComplete(id, names[k], Io(true, true, true))), id, names, k + 1)
  {
    var op, s := OpComplete(id, names[k], Io(true, true, true)), Get(c, id).value;
    if !AlreadyDone(s.steps, names[k]) {
      assert |Apply(c, op).outbox| == |c.outbox| + 1;
      AdvanceShape(s, names[k]);
      CompleteEffect(c, op, s, id, names[k]);
      forall i | 0 <= i <= k ensures AlreadyDone(Advance(s, names[k]).steps, names[i]) {
        AdvanceCompletes(s, names[k], names[i]);
      }
    }
  }

  lemma AllDone(s: Saga, names: seq<string>)
    requires Names(s) == names && Distinct(names) && forall i :: 0 <= i < |names| ==> AlreadyDone(s.steps, names[i])
    ensures forall i :: 0 <= i < |s.steps| ==> s.steps[i].status == StepCompleted
  {
    forall i | 0 <= i < |s.steps| ensures s.steps[i].status == StepCompleted {
      assert AlreadyDone(s.steps, names[i]);
      var j :| 0 <= j < |s.steps| && s.steps[j].name == names[i] && s.steps[j].status == StepCompleted;
      assert names[j] == names[i];
    }
  }
}
