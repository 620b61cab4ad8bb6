/** What every run of the upload pipeline keeps, however often an event is dispatched. */
module EveryRun {
  import opened Basics
  import opened Sagas
  import opened SagaEffects
  import opened Pipeline
  import opened UploadSagas
  import SagaRuns

  // ---- The invariant ------------------------------------------------------

  /** The rows the scan saw all had checksums and, with a real scanner, every stored object scanned clean. */
  ghost predicate Gate(sys: Sys, doc: string, rows: seq<Storage>, n: nat)
    requires n <= |rows|
  {
    && (forall i :: 0 <= i < |rows| ==> rows[i].checksum != "")
    && (!sys.noopScanner ==> forall i :: 0 <= i < n ==> Skipped(rows[i]) || (doc, rows[i]) in sys.h.scans)
  }

  ghost predicate IdsOk(sys: Sys) {
    && (forall id :: id in sys.h.used ==> ':' !in id && id != "")
    && (forall id :: id in sys.h.owner ==> id in sys.h.used)
    && (forall a, b :: a in sys.h.owner && b in sys.h.owner && sys.h.owner[a] == sys.h.owner[b] ==> a == b)
    && sys.h.everDone <= sys.h.owner.Keys && sys.h.everFailed <= sys.h.owner.Keys
  }

  /** The saga is stored and has not failed. */
  predicate Alive(sys: Sys, id: string) {
    Get(sys.coord, id).Some? && Get(sys.coord, id).value.status != StatusFailed
  }

  /** An alive saga is at or past step k. */
  predicate Reached(sys: Sys, id: string, k: nat) {
    Alive(sys, id) ==> k <= Front(Get(sys.coord, id).value)
  }

  ghost predicate SagaOk(sys: Sys, id: string) {
    Get(sys.coord, id).Some? ==>
      var s := Get(sys.coord, id).value;
      && s.id == id && id in sys.h.used
      && (id !in sys.h.owner ==> s.aggType != "document")
      && (id in sys.h.owner ==>
           && s.aggId == sys.h.owner[id] && (s.status == StatusFailed <==> id in sys.h.everFailed)
           && (s.status != StatusFailed ==> UploadShape(s) && (Front(s) == 5 <==> id in sys.h.everDone))
           && (s.status == StatusFailed ==> FailedShape(s))
           && (DoneAt(s, 1) ==> (s.aggId, 1) in sys.h.ran))
  }

  ghost predicate SagasOk(sys: Sys) {
    forall id :: ':' !in id ==> SagaOk(sys, id)
  }

  ghost predicate IndexOk(sys: Sys) {
    forall d :: Ref(sys.coord, "document", d).Some? ==>
      var id := Ref(sys.coord, "document", d).value; id in sys.h.owner && sys.h.owner[id] == d
  }

  /** A step event belongs to the upload saga that emitted it, and that saga did not fall back behind it. */
  ghost predicate EventOk(sys: Sys, evt: Event) {
    && (RouteOf(evt.eventType).OnStep? ==> evt.sagaId in sys.h.owner && Pos(evt) == RouteOf(evt.eventType).k)
    && (evt.sagaId != "" ==> evt.sagaId in sys.h.used)
    && (evt.sagaId in sys.h.owner && Pos(evt) > 0 ==>
          && evt.aggType == "document" && evt.aggId == sys.h.owner[evt.sagaId]
          && RouteOf(evt.eventType) == (if Pos(evt) < 5 then OnStep(Pos(evt)) else Ignore)
          && Reached(sys, evt.sagaId, Pos(evt)))
  }

  ghost predicate EventsOk(sys: Sys) {
    forall e: nat :: e < |sys.coord.outbox| ==> EventOk(sys, sys.coord.outbox[e])
  }

  /** The event is the k-th of the document's saga. */
  ghost predicate AtStep(sys: Sys, evt: Event, doc: string, k: nat) {
    && 1 <= k <= 4 && evt.sagaId in sys.h.owner && Pos(evt) == k && RouteOf(evt.eventType) == OnStep(k)
    && evt.aggId == doc == sys.h.owner[evt.sagaId]
  }

  /** The saga of the event completed, and is the document's. */
  ghost predicate DoneFor(sys: Sys, evt: Event, doc: string) {
    evt.sagaId in sys.h.everDone && evt.sagaId in sys.h.owner && sys.h.owner[evt.sagaId] == doc
  }

  /** What is about to complete was the saga's current step when it was read. */
  ghost predicate Was(sys: Sys, id: string, name: string, k: nat, j: nat) {
    k <= j <= 4 && name == DOCUMENT_UPLOAD_STEPS[j] && Reached(sys, id, j)
  }

  ghost predicate PcOk(sys: Sys, evt: Event, pc: Pc) {
    match pc
    case Kicking(id, _) => id in sys.h.owner
    case Acting(doc, k, _) => AtStep(sys, evt, doc, k)
    case Scanning(doc, rows, i, clean, _) =>
      && AtStep(sys, evt, doc, 1) && i <= |rows|
      && if clean then Gate(sys, doc, rows, i) else evt.sagaId in sys.h.everFailed
    case Convicting(doc, rows, i, _) => AtStep(sys, evt, doc, 1) && i <= |rows|
    case Failing(id, doc, rows, i, _) => AtStep(sys, evt, doc, 1) && i <= |rows| && id == evt.sagaId
    case Reloading(doc, k, clean, _) =>
      AtStep(sys, evt, doc, k) && if clean then (doc, k) in sys.h.ran else evt.sagaId in sys.h.everFailed
    case Completing(id, doc, name, k, _) =>
      && AtStep(sys, evt, doc, k) && id == evt.sagaId && (doc, k) in sys.h.ran
      && exists j: nat :: Was(sys, id, name, k, j)
    case Finalizing(doc, _) => DoneFor(sys, evt, doc)
    case Promoting(doc, _) => DoneFor(sys, evt, doc)
    case _ => true
  }

  ghost predicate PcsOk(sys: Sys) {
    forall e: nat :: e in sys.pcs ==> e < |sys.coord.outbox| && PcOk(sys, sys.coord.outbox[e], sys.pcs[e])
  }

  ghost predicate HistoryOk(sys: Sys) {
    && (forall id :: id in sys.h.everDone && id in sys.h.owner ==> (sys.h.owner[id], 1) in sys.h.ran)
    && (forall d :: (d, 1) in sys.h.ran ==> d in sys.h.cleared)
    && (forall d :: d in sys.h.cleared ==> Gate(sys, d, sys.h.cleared[d], |sys.h.cleared[d]|))
    && (forall d :: d in sys.h.promoted ==>
          var id := sys.h.promoted[d]; id in sys.h.everDone && id in sys.h.owner && sys.h.owner[id] == d)
  }

  /** The part that does not look at the deliveries. */
  ghost predicate Core(sys: Sys) {
    IdsOk(sys) && SagasOk(sys) && IndexOk(sys) && EventsOk(sys) && HistoryOk(sys)
  }

  ghost predicate Always(sys: Sys) {
    Core(sys) && PcsOk(sys)
  }

  lemma InitAlways(noop: bool)
    ensures Always(Init(noop))
  {
  }

  // ---- How states evolve ---------------------------------------------------

  /** Histories and the outbox grow, and no saga that is still alive fell back. */
  ghost predicate Evolves(sys: Sys, sys': Sys) {
    && sys'.noopScanner == sys.noopScanner && sys.coord.outbox <= sys'.coord.outbox
    && (forall id :: id in sys.h.owner ==> id in sys'.h.owner && sys'.h.owner[id] == sys.h.owner[id])
    && (forall id :: id in sys.h.used && id !in sys.h.owner ==> id !in sys'.h.owner)
    && sys.h.used <= sys'.h.used && sys.h.everDone <= sys'.h.everDone && sys.h.everFailed <= sys'.h.everFailed
    && sys.h.ran <= sys'.h.ran && sys.h.scans <= sys'.h.scans
    && forall id :: id in sys.h.owner ==> Rises(sys, sys', id)
  }

  ghost predicate Rises(sys: Sys, sys': Sys, id: string) {
    Alive(sys', id) ==> Alive(sys, id) && Front(Get(sys.coord, id).value) <= Front(Get(sys'.coord, id).value)
  }

  lemma EventEvolves(sys: Sys, sys': Sys, evt: Event)
    requires EventOk(sys, evt) && Evolves(sys, sys') && IdsOk(sys')
    ensures EventOk(sys', evt)
  {
    hide Get, Front, RouteOf, Pos, Alive;
    assert evt.sagaId in sys.h.owner ==> Rises(sys, sys', evt.sagaId);
  }

  lemma PcEvolves(sys: Sys, sys': Sys, evt: Event, pc: Pc)
    requires PcOk(sys, evt, pc) && Evolves(sys, sys')
    ensures PcOk(sys', evt, pc)
  {
    hide Get, Front, RouteOf, Pos, Alive, Gate;
    match pc {
      case Scanning(doc, rows, i, clean, _) => if clean { GateEvolves(sys, sys', doc, rows, i); }
      case Completing(id, doc, name, k, _) =>
        var j: nat :| Was(sys, id, name, k, j);
        assert Rises(sys, sys', id);
        assert Was(sys', id, name, k, j);
      case _ =>
    }
  }

  lemma GateEvolves(sys: Sys, sys': Sys, doc: string, rows: seq<Storage>, n: nat)
    requires n <= |rows| && Gate(sys, doc, rows, n)
    requires sys'.noopScanner == sys.noopScanner && sys.h.scans <= sys'.h.scans
    ensures Gate(sys', doc, rows, n)
  {
  }

  /** The deliveries stay where they were. */
  lemma Stays(sys: Sys, sys': Sys)
    requires Always(sys) && Core(sys') && Evolves(sys, sys') && sys'.pcs == sys.pcs
    ensures Always(sys')
  {
    hide Core, Evolves, PcOk;
    assert sys.coord.outbox <= sys'.coord.outbox by { Prefix(sys, sys'); }
    forall e: nat | e in sys'.pcs ensures e < |sys'.coord.outbox| && PcOk(sys', sys'.coord.outbox[e], sys'.pcs[e]) {
      PcEvolves(sys, sys', sys.coord.outbox[e], sys.pcs[e]);
    }
  }

  lemma Prefix(sys: Sys, sys': Sys)
    requires Evolves(sys, sys')
    ensures sys.coord.outbox <= sys'.coord.outbox
  {
  }

  /** One delivery moves on. */
  lemma StepsTo(sys: Sys, mid: Sys, e: nat, pc: Pc)
    requires Always(sys) && Core(mid) && Evolves(sys, mid) && mid.pcs == sys.pcs
    requires e < |sys.coord.outbox| && PcOk(mid, sys.coord.outbox[e], pc)
    ensures Always(At(mid, e, pc))
  {
    hide Core, Evolves, PcOk;
    var next := At(mid, e, pc);
    Prefix(sys, mid);
    SameStore(mid, next);
    forall f: nat | f in next.pcs ensures f < |next.coord.outbox| && PcOk(next, next.coord.outbox[f], next.pcs[f]) {
      assert next.coord.outbox[f] == sys.coord.outbox[f];
      if f != e {
        PcEvolves(sys, mid, sys.coord.outbox[f], sys.pcs[f]);
      }
      PcEvolves(mid, next, sys.coord.outbox[f], next.pcs[f]);
    }
  }

  /** Only deliveries, dedupe keys, documents or storage rows changed. */
  lemma SameStore(sys: Sys, sys': Sys)
    requires Core(sys) && sys'.coord == sys.coord && sys'.h == sys.h && sys'.noopScanner == sys.noopScanner
    ensures Core(sys') && Evolves(sys, sys')
  {
    hide Get, Ref, UploadShape, FailedShape, Front, RouteOf, Pos;
    forall d | d in sys.h.cleared ensures Gate(sys', d, sys'.h.cleared[d], |sys'.h.cleared[d]|) {
      GateEvolves(sys, sys', d, sys.h.cleared[d], |sys.h.cleared[d]|);
    }
    SameCoord(sys, sys');
  }

  /** The saga store stays, and histories of actions, scans and promotions may grow. */
  lemma SameCoord(sys: Sys, sys': Sys)
    requires Core(sys) && sys'.coord == sys.coord && sys'.noopScanner == sys.noopScanner
    requires sys'.h == sys.h.(ran := sys'.h.ran, cleared := sys'.h.cleared, scans := sys'.h.scans,
      promoted := sys'.h.promoted)
    requires sys.h.ran <= sys'.h.ran && sys.h.scans <= sys'.h.scans && HistoryOk(sys')
    ensures Core(sys') && Evolves(sys, sys')
  {
    hide Get, Ref, UploadShape, FailedShape, Front, RouteOf, Pos, HistoryOk;
    forall id | ':' !in id ensures SagaOk(sys', id) {
      assert SagaOk(sys, id);
    }
    forall id ensures Rises(sys, sys', id) {
    }
    forall e: nat | e < |sys.coord.outbox| ensures EventOk(sys', sys.coord.outbox[e]) {
      EventEvolves(sys, sys', sys.coord.outbox[e]);
    }
  }

  /** The saga store moved on, with at most one event more. */
  lemma NewStore(sys: Sys, sys': Sys)
    requires Core(sys) && Evolves(sys, sys') && IdsOk(sys') && SagasOk(sys') && IndexOk(sys') && HistoryOk(sys')
    requires |sys'.coord.outbox| <= |sys.coord.outbox| + 1
    requires sys'.coord.outbox != sys.coord.outbox ==> EventOk(sys', sys'.coord.outbox[|sys.coord.outbox|])
    ensures Core(sys')
  {
    hide Evolves, EventOk, IdsOk, HistoryOk, SagasOk, IndexOk;
    Prefix(sys, sys');
    forall e: nat | e < |sys'.coord.outbox| ensures EventOk(sys', sys'.coord.outbox[e]) {
      if e < |sys.coord.outbox| {
        EventEvolves(sys, sys', sys.coord.outbox[e]);
      }
    }
  }

  /** The histories the gate and the promotions are about did not change. */
  lemma SameHistory(sys: Sys, sys': Sys)
    requires HistoryOk(sys) && sys'.noopScanner == sys.noopScanner
    requires sys'.h == sys.h.(owner := sys'.h.owner, used := sys'.h.used, everFailed := sys'.h.everFailed)
    requires sys.h.everDone <= sys.h.owner.Keys
    requires forall id :: id in sys.h.owner ==> id in sys'.h.owner && sys'.h.owner[id] == sys.h.owner[id]
    ensures HistoryOk(sys')
  {
    hide Gate;
    forall d | d in sys.h.cleared ensures Gate(sys', d, sys'.h.cleared[d], |sys'.h.cleared[d]|) {
      GateEvolves(sys, sys', d, sys.h.cleared[d], |sys.h.cleared[d]|);
    }
  }

  /** An event that is no step event of an upload saga. */
  ghost predicate Plain(sys: Sys, evt: Event) {
    && !RouteOf(evt.eventType).OnStep? && (evt.sagaId != "" ==> evt.sagaId in sys.h.used)
    && (evt.sagaId in sys.h.owner ==> Pos(evt) == 0)
  }

  lemma PlainOk(sys: Sys, evt: Event)
    requires Plain(sys, evt)
    ensures EventOk(sys, evt)
  {
    hide RouteOf, Pos;
  }

  // ---- Moves of the rest of the system -------------------------------------

  /** At most one event appears, and it is no step event of an upload saga. */
  ghost predicate PlainAppend(sys: Sys, sys': Sys) {
    || sys'.coord.outbox == sys.coord.outbox
    || exists evt :: sys'.coord.outbox == sys.coord.outbox + [evt] && Plain(sys', evt)
  }

  /** Upload sagas stay as they are, expire, or start. */
  ghost predicate Untouched(sys: Sys, sys': Sys) {
    forall id :: id in sys'.h.owner && Get(sys'.coord, id).Some? ==>
      if id in sys.h.owner then Get(sys'.coord, id) == Get(sys.coord, id) else Front(Get(sys'.coord, id).value) == 0
  }

  /** And so do the histories of what happened to them. */
  ghost predicate Beside(sys: Sys, sys': Sys) {
    PlainAppend(sys, sys') && Untouched(sys, sys') && sys'.h == sys.h.(owner := sys'.h.owner, used := sys'.h.used)
  }

  lemma OwnSaga(sys: Sys, id: string)
    requires Core(sys) && id in sys.h.owner
    ensures ':' !in id && id != "" && SagaOk(sys, id) && IdsOk(sys) && HistoryOk(sys)
  {
    hide Get, Front, SagaOk, HistoryOk;
  }

  /** An event of the document domain is enqueued; documents may change with it. */
  lemma AppendKeeps(sys: Sys, sys': Sys, evt: Event)
    requires Core(sys) && sys'.coord == Append(sys.coord, evt) && sys'.h == sys.h && sys'.noopScanner == sys.noopScanner
    requires evt.payload == Domain && evt.sagaId == "" && !RouteOf(evt.eventType).OnStep?
    ensures Core(sys') && Evolves(sys, sys') && Beside(sys, sys')
  {
    hide Get, Ref, UploadShape, FailedShape, Front, RouteOf, EventsOk, HistoryOk;
    assert forall id :: Get(sys'.coord, id) == Get(sys.coord, id) by { SameLookups(sys.coord, evt); }
    assert forall d :: Ref(sys'.coord, "document", d) == Ref(sys.coord, "document", d) by {
      SameLookups(sys.coord, evt);
    }
    forall id | ':' !in id ensures SagaOk(sys', id) {
      assert SagaOk(sys, id);
    }
    SameHistory(sys, sys');
    assert sys'.coord.outbox == sys.coord.outbox + [evt];
    PlainOk(sys', evt);
    NewStore(sys, sys');
  }

  lemma SameLookups(c: Coord, evt: Event)
    ensures forall id :: Get(Append(c, evt), id) == Get(c, id)
    ensures forall t, a :: Ref(Append(c, evt), t, a) == Ref(c, t, a)
  {
  }

  /** The part of StartEffect the pipeline needs. */
  lemma StartInStore(c: Coord, s: Saga, io: Io)
    requires ':' !in s.id && s.id != "" && ':' !in s.aggType
    ensures forall id :: ':' !in id ==>
      Get(Start(c, s, io), id) == if io.sagaWrite && id == s.id then Some(s) else Get(c, id)
    ensures var linked := io.sagaWrite && io.indexWrite && s.aggType == "document";
      forall d :: Ref(Start(c, s, io), "document", d)
               == if linked && d == s.aggId then Some(s.id) else Ref(c, "document", d)
    ensures var out := Start(c, s, io).outbox;
      out == c.outbox || out == c.outbox + [Event(s.aggType, s.aggId, "saga.started", s.id, Started)]
  {
    hide Get, Ref, Start;
    StartEffect(c, s, io);
  }

  lemma StartUploadKeeps(sys: Sys, id: string, doc: string, io: Io)
    requires Core(sys) && Enabled(sys, StartUpload(id, doc, io))
    ensures var sys' := Apply(sys, StartUpload(id, doc, io)); Core(sys') && Evolves(sys, sys') && Beside(sys, sys')
  {
    hide Get, Ref, UploadShape, FailedShape, Front, RouteOf, Start, UploadSaga, SagaOk, IdsOk, EventsOk, HistoryOk,
      Core, Untouched;
    var s, sys' := UploadSaga(id, doc), Apply(sys, StartUpload(id, doc, io));
    FreshUpload(id, doc);
    StartInStore(sys.coord, s, io);
    StartUploadIds(sys, id, doc, io);
    StartUploadSagas(sys, id, doc, io);
    PlainRoutes();
    var evt := Event(s.aggType, s.aggId, "saga.started", s.id, Started);
    assert Pos(evt) == 0;
    PlainOk(sys', evt);
    NewStore(sys, sys');
  }

  lemma StartUploadIds(sys: Sys, id: string, doc: string, io: Io)
    requires Core(sys) && Enabled(sys, StartUpload(id, doc, io))
    ensures var sys' := Apply(sys, StartUpload(id, doc, io)); IdsOk(sys') && HistoryOk(sys')
    ensures id !in sys.h.owner && id !in sys.h.everDone && id !in sys.h.everFailed
  {
    hide Get, Ref, UploadShape, FailedShape, Front, RouteOf, Start, UploadSaga, EventsOk, SagasOk, IndexOk, HistoryOk;
    SameHistory(sys, Apply(sys, StartUpload(id, doc, io)));
  }

  lemma StartUploadSagas(sys: Sys, id: string, doc: string, io: Io)
    requires Core(sys) && Enabled(sys, StartUpload(id, doc, io))
    ensures var sys' := Apply(sys, StartUpload(id, doc, io));
      SagasOk(sys') && IndexOk(sys') && Evolves(sys, sys') && Untouched(sys, sys')
  {
    hide Get, Ref, Front, Start, UploadSaga, EventsOk, HistoryOk, SagaOk, Core;
    var sys' := Apply(sys, StartUpload(id, doc, io));
    FreshUpload(id, doc);
    StartInStore(sys.coord, UploadSaga(id, doc), io);
    StartUploadIds(sys, id, doc, io);
    forall x | ':' !in x ensures SagaOk(sys', x) {
      StartUploadSaga(sys, id, doc, io, x);
    }
    StartUploadIndex(sys, id, doc, io);
    forall x | x in sys.h.owner ensures Rises(sys, sys', x) {
      OwnSaga(sys, x);
      assert Get(sys'.coord, x) == Get(sys.coord, x);
    }
  }

  lemma StartUploadSaga(sys: Sys, id: string, doc: string, io: Io, x: string)
    requires Core(sys) && Enabled(sys, StartUpload(id, doc, io)) && ':' !in x
    ensures SagaOk(Apply(sys, StartUpload(id, doc, io)), x)
  {
    hide Get, Ref, UploadShape, FailedShape, Front, Start, UploadSaga, EventsOk, HistoryOk, IndexOk;
    FreshUpload(id, doc);
    StartInStore(sys.coord, UploadSaga(id, doc), io);
    StartUploadIds(sys, id, doc, io);
    assert SagaOk(sys, x) && SagaOk(sys, id);
  }

  lemma StartUploadIndex(sys: Sys, id: string, doc: string, io: Io)
    requires Core(sys) && Enabled(sys, StartUpload(id, doc, io))
    ensures IndexOk(Apply(sys, StartUpload(id, doc, io)))
  {
    hide Get, Ref, Start, UploadSaga, EventsOk, HistoryOk, SagasOk, IdsOk;
    FreshUpload(id, doc);
    StartInStore(sys.coord, UploadSaga(id, doc), io);
    StartUploadIds(sys, id, doc, io);
  }

  lemma OtherStartKeeps(sys: Sys, s: Saga, io: Io)
    requires Core(sys) && Enabled(sys, OtherStart(s, io))
    ensures var sys' := Apply(sys, OtherStart(s, io)); Core(sys') && Evolves(sys, sys') && Beside(sys, sys')
  {
    hide Get, Ref, Front, RouteOf, Start, EventsOk, HistoryOk, SagasOk, Evolves, Core, IdsOk, Untouched;
    var sys' := Apply(sys, OtherStart(s, io));
    StartInStore(sys.coord, s, io);
    OtherStartSagas(sys, s, io);
    PlainRoutes();
    PlainOk(sys', Event(s.aggType, s.aggId, "saga.started", s.id, Started));
    NewStore(sys, sys');
  }

  lemma OtherStartSagas(sys: Sys, s: Saga, io: Io)
    requires Core(sys) && Enabled(sys, OtherStart(s, io))
    ensures var sys' := Apply(sys, OtherStart(s, io));
      && IdsOk(sys') && SagasOk(sys') && IndexOk(sys') && HistoryOk(sys') && Evolves(sys, sys')
      && s.id !in sys.h.owner && Untouched(sys, sys')
  {
    hide Get, Ref, UploadShape, FailedShape, Front, RouteOf, Start, EventsOk, HistoryOk, DoneAt;
    var sys' := Apply(sys, OtherStart(s, io));
    StartInStore(sys.coord, s, io);
    forall x | ':' !in x ensures SagaOk(sys', x) {
      assert SagaOk(sys, x);
    }
    SameHistory(sys, sys');
  }

  /** A call on another saga: it is stored anew, and an event of it may appear. */
  lemma OtherKeeps(sys: Sys, sys': Sys, id: string, evt: Event)
    requires Core(sys) && sys' == sys.(coord := sys'.coord) && ':' !in id && id !in sys.h.owner && evt.sagaId == id
    requires Get(sys.coord, id).Some? && Get(sys'.coord, id).Some?
    requires Get(sys'.coord, id).value.id == id && Get(sys'.coord, id).value.aggType == Get(sys.coord, id).value.aggType
    requires forall x :: ':' !in x && x != id ==> Get(sys'.coord, x) == Get(sys.coord, x)
    requires forall d :: Ref(sys'.coord, "document", d) == Ref(sys.coord, "document", d)
    requires sys'.coord.outbox == sys.coord.outbox || sys'.coord.outbox == sys.coord.outbox + [evt]
    requires !RouteOf(evt.eventType).OnStep?
    ensures Core(sys') && Evolves(sys, sys') && Beside(sys, sys')
  {
    hide Get, Ref, UploadShape, FailedShape, Front, RouteOf, EventsOk, HistoryOk, Pos;
    assert SagaOk(sys, id);
    forall x | ':' !in x ensures SagaOk(sys', x) {
      assert SagaOk(sys, x);
    }
    SameHistory(sys, sys');
    PlainOk(sys', evt);
    NewStore(sys, sys');
  }

  lemma OtherCompleteKeeps(sys: Sys, id: string, step: string, io: Io)
    requires Core(sys) && Enabled(sys, OtherComplete(id, step, io))
    ensures var sys' := Apply(sys, OtherComplete(id, step, io)); Core(sys') && Evolves(sys, sys') && Beside(sys, sys')
  {
    hide Get, Ref, UploadShape, FailedShape, Front, RouteOf, Pos, EventsOk, HistoryOk, Core, Evolves, CompleteStep;
    var sys' := Apply(sys, OtherComplete(id, step, io));
    SameStore(sys, sys);
    OtherSaga(sys, id);
    if Get(sys.coord, id).None? {
      assert sys'.coord == sys.coord by { NothingStored(sys.coord, id, step, io); }
    } else {
      CompleteEffect(sys.coord, id, step, io);
      if sys'.coord != sys.coord {
        SagaRuns.AdvanceShape(Get(sys.coord, id).value, step);
        var s := Get(sys.coord, id).value;
        OtherKeeps(sys, sys', id, Event(s.aggType, s.aggId, "saga." + step, id, Done(step)));
      }
    }
  }

  lemma NothingStored(c: Coord, id: string, step: string, io: Io)
    requires Get(c, id).None?
    ensures CompleteStep(c, id, step, io) == c && Fail(c, id, step, io) == c
  {
  }

  lemma OtherSaga(sys: Sys, id: string)
    requires Core(sys) && ':' !in id
    ensures Get(sys.coord, id).Some? ==> id != "" && Get(sys.coord, id).value.id == id
  {
    hide Get, UploadShape, FailedShape, Front, EventsOk, HistoryOk, IndexOk;
    assert SagaOk(sys, id);
  }

  lemma OtherFailKeeps(sys: Sys, id: string, step: string, io: Io)
    requires Core(sys) && Enabled(sys, OtherFail(id, step, io))
    ensures var sys' := Apply(sys, OtherFail(id, step, io)); Core(sys') && Evolves(sys, sys') && Beside(sys, sys')
  {
    hide Get, Ref, UploadShape, FailedShape, Front, RouteOf, Pos, EventsOk, HistoryOk, Core, Evolves, Fail;
    var sys' := Apply(sys, OtherFail(id, step, io));
    SameStore(sys, sys);
    OtherSaga(sys, id);
    if Get(sys.coord, id).None? {
      assert sys'.coord == sys.coord by { NothingStored(sys.coord, id, step, io); }
    } else {
      FailEffect(sys.coord, id, step, io);
      if sys'.coord != sys.coord {
        var s := Get(sys.coord, id).value;
        PlainRoutes();
        OtherKeeps(sys, sys', id, Event(s.aggType, s.aggId, "saga.failed", id, Failure(step)));
      }
    }
  }

  lemma ExpireKeeps(sys: Sys, key: string)
    requires Core(sys)
    ensures var sys' := Apply(sys, Expire(key)); Core(sys') && Evolves(sys, sys') && Beside(sys, sys')
  {
    hide Get, Ref, DoneAt, Front, EventsOk, HistoryOk, SagaOk;
    var sys' := Apply(sys, Expire(key));
    ExpireEffect(sys.coord, key);
    forall x | ':' !in x ensures SagaOk(sys', x) {
      assert SagaOk(sys, x);
      ExpiredOrSame(sys, sys', x);
    }
    SameHistory(sys, sys');
    NewStore(sys, sys');
  }

  lemma ExpiredOrSame(sys: Sys, sys': Sys, id: string)
    requires SagaOk(sys, id) && sys'.h == sys.h
    requires Get(sys'.coord, id).Some? ==> Get(sys'.coord, id) == Get(sys.coord, id)
    ensures SagaOk(sys', id)
  {
    hide Get, DoneAt, Front, UploadShape, FailedShape;
  }

  // ---- The coordinator's calls on an upload saga -----------------------------

  /** The saga store after step k of an upload saga completes, and its finished history. */
  function Completed(sys: Sys, id: string, k: nat, io: Io): Sys
    requires k < 5
  {
    sys.(coord := CompleteStep(sys.coord, id, DOCUMENT_UPLOAD_STEPS[k], io),
         h := sys.h.(everDone := if k == 4 then sys.h.everDone + {id} else sys.h.everDone))
  }

  /** The call completes the next step of a saga that is alive; a scan completes after its action. */
  ghost predicate Completable(sys: Sys, id: string, k: nat, io: Io) {
    && k < 5 && id in sys.h.owner && io.sagaWrite && Alive(sys, id) && Front(Get(sys.coord, id).value) == k
    && (k == 1 ==> (sys.h.owner[id], 1) in sys.h.ran)
  }

  function StepEvent(sys: Sys, id: string, k: nat): Event
    requires k < 5 && id in sys.h.owner
  {
    Event("document", sys.h.owner[id], "saga." + DOCUMENT_UPLOAD_STEPS[k], id, Done(DOCUMENT_UPLOAD_STEPS[k]))
  }

  lemma StepEventOk(sys: Sys, id: string, k: nat)
    requires k < 5 && id in sys.h.owner
    ensures var evt := StepEvent(sys, id, k);
      Pos(evt) == k + 1 && RouteOf(evt.eventType) == if k < 4 then OnStep(k + 1) else Ignore
  {
    UploadRoute(k);
  }

  /** The saga advances, and at most its step event appears. */
  lemma CompletedStore(sys: Sys, id: string, k: nat, io: Io)
    requires Core(sys) && Completable(sys, id, k, io)
    ensures var sys' := Completed(sys, id, k, io);
      && Alive(sys', id) && Get(sys'.coord, id).value == Advance(Get(sys.coord, id).value, DOCUMENT_UPLOAD_STEPS[k])
      && UploadShape(Get(sys'.coord, id).value) && Front(Get(sys'.coord, id).value) == k + 1
      && Get(sys'.coord, id).value.id == id && Get(sys'.coord, id).value.aggId == sys.h.owner[id]
      && (forall x :: ':' !in x && x != id ==> Get(sys'.coord, x) == Get(sys.coord, x))
      && (forall d :: Ref(sys'.coord, "document", d) == Ref(sys.coord, "document", d))
      && sys'.coord.outbox == if io.enqueue then sys.coord.outbox + [StepEvent(sys, id, k)] else sys.coord.outbox
  {
    hide Get, Ref, CompleteStep, Advance, Front, FailedShape, EventsOk, HistoryOk, IndexOk, Core;
    OwnSaga(sys, id);
    var s := Get(sys.coord, id).value;
    AlreadyDoneIffPassed(s, k);
    AdvanceUpload(s, k);
    CompleteEffect(sys.coord, id, DOCUMENT_UPLOAD_STEPS[k], io);
  }

  lemma CompletedKeeps(sys: Sys, id: string, k: nat, io: Io)
    requires Core(sys) && Completable(sys, id, k, io)
    ensures Core(Completed(sys, id, k, io)) && Evolves(sys, Completed(sys, id, k, io))
  {
    hide Get, Ref, UploadShape, FailedShape, Front, CompleteStep, RouteOf, Pos, EventsOk, HistoryOk, Advance, Core,
      SagasOk;
    var sys' := Completed(sys, id, k, io);
    CompletedStore(sys, id, k, io);
    StepEventOk(sys, id, k);
    CompletedSagas(sys, id, k, io);
    OwnSaga(sys, id);
    CompletedHistory(sys, id, k, io);
    IndexSame(sys, sys');
    NewStore(sys, sys');
  }

  lemma IndexSame(sys: Sys, sys': Sys)
    requires Core(sys) && sys'.h.owner == sys.h.owner
    requires forall d :: Ref(sys'.coord, "document", d) == Ref(sys.coord, "document", d)
    ensures IndexOk(sys')
  {
    hide Ref;
  }

  lemma CompletedSagas(sys: Sys, id: string, k: nat, io: Io)
    requires Core(sys) && Completable(sys, id, k, io)
    ensures SagasOk(Completed(sys, id, k, io)) && Evolves(sys, Completed(sys, id, k, io))
  {
    hide Get, Ref, UploadShape, FailedShape, CompleteStep, Front, EventsOk, HistoryOk, Advance, DoneAt;
    var sys' := Completed(sys, id, k, io);
    CompletedStore(sys, id, k, io);
    OwnSaga(sys, id);
    var s, s' := Get(sys.coord, id).value, Get(sys'.coord, id).value;
    assert DoneAt(s', 1) ==> (s'.aggId, 1) in sys.h.ran by { ScanRan(s, s', k); }
    forall x | ':' !in x ensures SagaOk(sys', x) {
      assert SagaOk(sys, x);
    }
    forall x | x in sys.h.owner ensures Rises(sys, sys', x) {
      assert x in sys.h.used && ':' !in x;
    }
  }

  lemma ScanRan(s: Saga, s': Saga, k: nat)
    requires UploadShape(s) && UploadShape(s') && Front(s) == k && Front(s') == k + 1
    ensures DoneAt(s', 1) ==> k == 1 || DoneAt(s, 1)
  {
  }

  lemma CompletedHistory(sys: Sys, id: string, k: nat, io: Io)
    requires Core(sys) && Completable(sys, id, k, io)
    ensures HistoryOk(Completed(sys, id, k, io))
  {
    hide Get, Ref, UploadShape, FailedShape, CompleteStep, Front, EventsOk, IndexOk, Gate, SagasOk, DoneAt;
    var sys' := Completed(sys, id, k, io);
    OwnSaga(sys, id);
    if k == 4 { FourDone(Get(sys.coord, id).value); }
    forall d | d in sys.h.cleared ensures Gate(sys', d, sys'.h.cleared[d], |sys'.h.cleared[d]|) {
      GateEvolves(sys, sys', d, sys.h.cleared[d], |sys.h.cleared[d]|);
    }
  }

  lemma FourDone(s: Saga)
    requires Front(s) == 4
    ensures DoneAt(s, 1)
  {
  }

  lemma FailedStore(sys: Sys, id: string, io: Io)
    requires Core(sys) && id in sys.h.owner && io.sagaWrite && Get(sys.coord, id).Some? && Reached(sys, id, 1)
    ensures var sys' := Failed(sys, id, io);
      && Get(sys'.coord, id).Some? && FailedShape(Get(sys'.coord, id).value)
      && Get(sys'.coord, id).value.id == id && Get(sys'.coord, id).value.aggId == sys.h.owner[id]
      && (forall i: nat :: DoneAt(Get(sys'.coord, id).value, i) ==> DoneAt(Get(sys.coord, id).value, i))
      && (forall x :: ':' !in x && x != id ==> Get(sys'.coord, x) == Get(sys.coord, x))
      && (forall d :: Ref(sys'.coord, "document", d) == Ref(sys.coord, "document", d))
      && (sys'.coord.outbox == sys.coord.outbox
          || exists evt :: sys'.coord.outbox == sys.coord.outbox + [evt] && evt.sagaId == id && Plain(sys', evt))
  {
    hide Get, Ref, Fail, UploadShape, FailedShape, DoneAt, Front, RouteOf, EventsOk, IndexOk, HistoryOk, Core;
    OwnSaga(sys, id);
    var s := Get(sys.coord, id).value;
    FailShape(s);
    FailEffect(sys.coord, id, "virus_scan", io);
    PlainRoutes();
    var evt := Event(s.aggType, s.aggId, "saga.failed", id, Failure("virus_scan"));
    assert Plain(Failed(sys, id, io), evt);
  }

  lemma FailedKeeps(sys: Sys, id: string, io: Io)
    requires Core(sys) && id in sys.h.owner && io.sagaWrite && Get(sys.coord, id).Some? && Reached(sys, id, 1)
    ensures Core(Failed(sys, id, io)) && Evolves(sys, Failed(sys, id, io))
  {
    hide Get, Ref, Fail, UploadShape, FailedShape, Front, RouteOf, Pos, EventsOk, HistoryOk, Plain, Core;
    var sys' := Failed(sys, id, io);
    FailedStore(sys, id, io);
    OwnSaga(sys, id);
    FailedSagas(sys, id, io);
    SameHistory(sys, sys');
    IndexSame(sys, sys');
    if sys'.coord.outbox != sys.coord.outbox {
      var evt :| sys'.coord.outbox == sys.coord.outbox + [evt] && Plain(sys', evt);
      PlainOk(sys', evt);
    }
    NewStore(sys, sys');
  }

  lemma ScanLost(s: Saga)
    requires FailedShape(s)
    ensures !DoneAt(s, 1) && s.status == StatusFailed && s.aggType == "document"
  {
  }

  lemma FailedSagas(sys: Sys, id: string, io: Io)
    requires Core(sys) && id in sys.h.owner && io.sagaWrite && Get(sys.coord, id).Some? && Reached(sys, id, 1)
    ensures SagasOk(Failed(sys, id, io)) && Evolves(sys, Failed(sys, id, io))
  {
    hide Get, Ref, Fail, UploadShape, FailedShape, DoneAt, Front, EventsOk, HistoryOk, IndexOk, Plain;
    var sys' := Failed(sys, id, io);
    FailedStore(sys, id, io);
    ScanLost(Get(sys'.coord, id).value);
    forall x | ':' !in x ensures SagaOk(sys', x) {
      assert SagaOk(sys, x);
    }
    forall x | x in sys.h.owner ensures Rises(sys, sys', x) {
      assert x in sys.h.used && ':' !in x;
    }
  }

  // ---- The handler steps ------------------------------------------------------

  lemma Standing(sys: Sys, e: nat)
    requires Always(sys) && e in sys.pcs
    ensures e < |sys.coord.outbox| && PcOk(sys, sys.coord.outbox[e], sys.pcs[e])
    ensures Core(sys) && HistoryOk(sys) && EventOk(sys, sys.coord.outbox[e])
  {
    hide Get, Front, RouteOf, Pos, PcOk, EventOk;
  }

  /** The delivery moves on and nothing else happens. */
  lemma JustMoves(sys: Sys, e: nat, pc: Pc)
    requires Always(sys) && e in sys.pcs && e < |sys.coord.outbox| && PcOk(sys, sys.coord.outbox[e], pc)
    ensures Always(At(sys, e, pc))
  {
    hide Always, Core, Evolves, PcOk;
    Standing(sys, e);
    SameStore(sys, sys);
    StepsTo(sys, sys, e, pc);
  }

  lemma RetryOk(sys: Sys, evt: Event, tries: nat)
    ensures PcOk(sys, evt, Retry(tries))
  {
  }

  /** The saga found for a step event's aggregate is the one the event belongs to. */
  lemma FoundIsOwn(sys: Sys, evt: Event)
    requires Core(sys) && EventOk(sys, evt) && RouteOf(evt.eventType).OnStep?
    ensures var found := FindByAggregate(sys.coord, evt.aggType, evt.aggId);
      && evt.sagaId in sys.h.owner && evt.aggType == "document" && evt.aggId == sys.h.owner[evt.sagaId]
      && Pos(evt) == RouteOf(evt.eventType).k && Reached(sys, evt.sagaId, Pos(evt))
      && (found.Some? ==>
            found == Get(sys.coord, evt.sagaId) && found.value.id == evt.sagaId && SagaOk(sys, evt.sagaId))
  {
    hide Get, Ref, UploadShape, FailedShape, Front, RouteOf, Pos, Gate, HistoryOk, EventsOk, SagaOk;
    OwnSaga(sys, evt.sagaId);
    FoundForDoc(sys, evt.aggId, evt.sagaId);
  }

  /** failSaga's lookup by document finds the same saga. */
  lemma FoundForDoc(sys: Sys, doc: string, id: string)
    requires Core(sys) && id in sys.h.owner && sys.h.owner[id] == doc
    ensures var found := FindByAggregate(sys.coord, "document", doc);
      found.Some? ==> found == Get(sys.coord, id) && found.value.id == id
  {
    hide Get, Ref, UploadShape, FailedShape, Front, EventsOk, HistoryOk;
    assert SagaOk(sys, id);
  }

  /** What a stored upload saga looks like to its readers. */
  lemma StoredUpload(sys: Sys, id: string)
    requires id in sys.h.owner && SagaOk(sys, id) && Get(sys.coord, id).Some?
    ensures var s := Get(sys.coord, id).value;
      && |s.steps| == 5 && s.current <= 4 && s.id == id && s.aggId == sys.h.owner[id]
      && s.steps[s.current].name == DOCUMENT_UPLOAD_STEPS[s.current]
      && (s.status == StatusFailed <==> id in sys.h.everFailed)
      && (s.status != StatusFailed ==> s.current == Min(Front(s), 4))
      && (s.status == StatusCompleted ==> id in sys.h.everDone)
  {
    hide Get, Front, DoneAt;
    UploadNames(Get(sys.coord, id).value);
  }

  lemma BeginKeeps(sys: Sys, e: nat, tries: nat, r: Reply)
    requires Always(sys) && e in sys.pcs && e < |sys.coord.outbox| && sys.pcs[e] == Begin(tries)
    ensures Always(At(sys, e, BeginPc(sys.coord, sys.coord.outbox[e], tries, r)))
  {
    hide Always, Core, RouteOf, FindByAggregate, Pos, KickPc, OnStepPc, EventOk;
    Standing(sys, e);
    var evt := sys.coord.outbox[e];
    RetryOk(sys, evt, tries);
    if RouteOf(evt.eventType).Kick? {
      KickPcOk(sys, evt, tries, if r.ok then FindByAggregate(sys.coord, "document", evt.aggId) else None);
    } else if RouteOf(evt.eventType).OnStep? {
      OnStepPcOk(sys, evt, tries, if r.ok then FindByAggregate(sys.coord, evt.aggType, evt.aggId) else None);
    }
    JustMoves(sys, e, BeginPc(sys.coord, evt, tries, r));
  }

  lemma KickPcOk(sys: Sys, evt: Event, tries: nat, found: Option<Saga>)
    requires Core(sys) && (found.Some? ==> found == FindByAggregate(sys.coord, "document", evt.aggId))
    ensures PcOk(sys, evt, KickPc(found, tries))
  {
    hide Get, SagasOk, EventsOk, HistoryOk, IdsOk;
    if found.Some? {
      var id := Ref(sys.coord, "document", evt.aggId).value;
      FoundForDoc(sys, evt.aggId, id);
    }
  }

  lemma OnStepPcOk(sys: Sys, evt: Event, tries: nat, found: Option<Saga>)
    requires Core(sys) && EventOk(sys, evt) && RouteOf(evt.eventType).OnStep?
    requires found.Some? ==> found == FindByAggregate(sys.coord, evt.aggType, evt.aggId)
    ensures PcOk(sys, evt, OnStepPc(found, RouteOf(evt.eventType).k, tries))
  {
    hide Get, Ref, Front, Pos, FindByAggregate, Core, SagaOk, EventOk;
    RetryOk(sys, evt, tries);
    FoundIsOwn(sys, evt);
    if found.Some? { StoredUpload(sys, evt.sagaId); }
  }

  lemma KickKeeps(sys: Sys, e: nat, id: string, tries: nat, r: Reply)
    requires Always(sys) && e in sys.pcs && e < |sys.coord.outbox| && sys.pcs[e] == Kicking(id, tries)
    ensures Always(KickStep(sys, e, id, tries, r))
  {
    hide Get, Front, CompleteStep, Always, Core, SagaOk, UploadShape, Evolves, RouteOf, Pos;
    Standing(sys, e);
    OwnSaga(sys, id);
    var evt := sys.coord.outbox[e];
    var pc := if Refused(sys.coord, id, "upload", r.io) then Retry(tries) else Pushing(tries);
    RetryOk(sys, evt, tries);
    assert DOCUMENT_UPLOAD_STEPS[0] == "upload";
    CompleteCall(sys, id, 0, r.io);
    if CompleteStep(sys.coord, id, "upload", r.io) == sys.coord {
      JustMoves(sys, e, pc);
    } else {
      RetryOk(Completed(sys, id, 0, r.io), evt, tries);
      CompletedKeeps(sys, id, 0, r.io);
      StepsTo(sys, Completed(sys, id, 0, r.io), e, pc);
    }
  }

  /** Completing a step at or before the saga's front either changes nothing or completes its next step. */
  lemma CompleteCall(sys: Sys, id: string, j: nat, io: Io)
    requires Core(sys) && id in sys.h.owner && j < 5 && Reached(sys, id, j)
    requires j == 1 ==> (sys.h.owner[id], 1) in sys.h.ran
    ensures var c' := CompleteStep(sys.coord, id, DOCUMENT_UPLOAD_STEPS[j], io);
      c' == sys.coord || Completable(sys, id, j, io)
    ensures (!Refused(sys.coord, id, DOCUMENT_UPLOAD_STEPS[j], io) && Alive(sys, id)
      && Front(Get(sys.coord, id).value) == j) ==> Completable(sys, id, j, io)
  {
    hide Get, UploadShape, FailedShape, Front, CompleteStep, EventsOk, HistoryOk, IndexOk, Core;
    OwnSaga(sys, id);
    CompleteEffect(sys.coord, id, DOCUMENT_UPLOAD_STEPS[j], io);
    if Alive(sys, id) {
      AlreadyDoneIffPassed(Get(sys.coord, id).value, j);
    }
  }

  /** Recording a cleared document. */
  lemma ClearOk(sys: Sys, doc: string, rows: seq<Storage>)
    requires HistoryOk(sys) && Gate(sys, doc, rows, |rows|)
    ensures HistoryOk(Clear(sys, doc, rows))
  {
    var sys' := Clear(sys, doc, rows);
    GateEvolves(sys, sys', doc, rows, |rows|);
    forall d | d in sys.h.cleared ensures Gate(sys', d, sys.h.cleared[d], |sys.h.cleared[d]|) {
      GateEvolves(sys, sys', d, sys.h.cleared[d], |sys.h.cleared[d]|);
    }
    hide Gate;
  }

  /** Only the records of actions and scans grew, and rows may have been added. */
  ghost predicate Logs(sys: Sys, sys': Sys) {
    && sys' == sys.(stores := sys'.stores,
         h := sys.h.(ran := sys'.h.ran, cleared := sys'.h.cleared, scans := sys'.h.scans))
    && sys.h.ran <= sys'.h.ran && sys.h.scans <= sys'.h.scans
  }

  lemma ActLogOk(sys: Sys, doc: string, k: nat, r: Reply)
    requires HistoryOk(sys)
    ensures HistoryOk(ActLog(sys, doc, k, r)) && Logs(sys, ActLog(sys, doc, k, r))
  {
    hide RowsOf, HistoryOk;
    if r.ok {
      if k == 1 {
        if ClearedByChecksum(sys, RowsOf(sys, doc)) {
          ClearOk(sys, doc, RowsOf(sys, doc));
        }
      } else {
        GrownOk(sys, ActLog(sys, doc, k, r));
      }
    }
  }

  /** No scan action and no clearing was added to the history. */
  lemma GrownOk(sys: Sys, sys': Sys)
    requires HistoryOk(sys) && Logs(sys, sys') && sys'.h.cleared == sys.h.cleared
    requires forall d :: (d, 1) in sys'.h.ran ==> (d, 1) in sys.h.ran
    ensures HistoryOk(sys')
  {
    hide Gate;
    forall d | d in sys.h.cleared ensures Gate(sys', d, sys'.h.cleared[d], |sys'.h.cleared[d]|) {
      GateEvolves(sys, sys', d, sys.h.cleared[d], |sys.h.cleared[d]|);
    }
  }

  lemma ActKeeps(sys: Sys, e: nat, doc: string, k: nat, tries: nat, r: Reply)
    requires Always(sys) && e in sys.pcs && e < |sys.coord.outbox| && sys.pcs[e] == Acting(doc, k, tries)
    ensures Always(At(ActLog(sys, doc, k, r), e, ActPc(sys, doc, k, tries, r)))
  {
    hide Always, Core, Evolves, HistoryOk, RouteOf, Pos, RowsOf, ActLog;
    var logged := ActLog(sys, doc, k, r);
    Standing(sys, e);
    ActLogOk(sys, doc, k, r);
    SameCoord(sys, logged);
    ActPcOk(sys, sys.coord.outbox[e], doc, k, tries, r);
    StepsTo(sys, logged, e, ActPc(sys, doc, k, tries, r));
  }

  lemma ActPcOk(sys: Sys, evt: Event, doc: string, k: nat, tries: nat, r: Reply)
    requires AtStep(sys, evt, doc, k)
    ensures PcOk(ActLog(sys, doc, k, r), evt, ActPc(sys, doc, k, tries, r))
  {
    hide RouteOf, Pos, RowsOf;
    RetryOk(ActLog(sys, doc, k, r), evt, tries);
  }

  lemma ScanLogOk(sys: Sys, doc: string, rows: seq<Storage>, i: nat, clean: bool, r: Reply)
    requires HistoryOk(sys) && i <= |rows| && (clean ==> Gate(sys, doc, rows, i))
    ensures HistoryOk(ScanLog(sys, doc, rows, i, clean, r)) && Logs(sys, ScanLog(sys, doc, rows, i, clean, r))
  {
    hide HistoryOk;
    if i >= |rows| {
      if clean { ClearOk(sys, doc, rows); }
    } else if !Skipped(rows[i]) && r.ok && r.clean {
      GrownOk(sys, ScanLog(sys, doc, rows, i, clean, r));
    }
  }

  lemma ScanKeeps(sys: Sys, e: nat, doc: string, rows: seq<Storage>, i: nat, clean: bool, tries: nat, r: Reply)
    requires Always(sys) && e in sys.pcs && e < |sys.coord.outbox| && sys.pcs[e] == Scanning(doc, rows, i, clean, tries)
    ensures Always(At(ScanLog(sys, doc, rows, i, clean, r), e, ScanPc(doc, rows, i, clean, tries, r)))
  {
    hide Always, Core, Evolves, HistoryOk, RouteOf, Pos, ScanLog;
    var logged := ScanLog(sys, doc, rows, i, clean, r);
    Standing(sys, e);
    ScanLogOk(sys, doc, rows, i, clean, r);
    SameCoord(sys, logged);
    ScanPcOk(sys, sys.coord.outbox[e], doc, rows, i, clean, tries, r);
    StepsTo(sys, logged, e, ScanPc(doc, rows, i, clean, tries, r));
  }

  lemma ScanPcOk(sys: Sys, evt: Event, doc: string, rows: seq<Storage>, i: nat, clean: bool, tries: nat, r: Reply)
    requires PcOk(sys, evt, Scanning(doc, rows, i, clean, tries))
    ensures PcOk(ScanLog(sys, doc, rows, i, clean, r), evt, ScanPc(doc, rows, i, clean, tries, r))
  {
    hide RouteOf, Pos, Retry;
    var logged := ScanLog(sys, doc, rows, i, clean, r);
    RetryOk(logged, evt, tries);
    assert AtStep(logged, evt, doc, 1);
    if i < |rows| && (Skipped(rows[i]) || (r.ok && r.clean)) {
      assert clean ==> Gate(logged, doc, rows, i + 1);
    }
  }

  lemma ConvictKeeps(sys: Sys, e: nat, doc: string, rows: seq<Storage>, i: nat, tries: nat, r: Reply)
    requires Always(sys) && e in sys.pcs && e < |sys.coord.outbox| && sys.pcs[e] == Convicting(doc, rows, i, tries)
    ensures Always(At(sys, e, ConvictPc(sys.coord, doc, rows, i, tries, r)))
  {
    hide Always, Core, RouteOf, Pos, FindByAggregate, Get;
    Standing(sys, e);
    var evt := sys.coord.outbox[e];
    RetryOk(sys, evt, tries);
    FoundForDoc(sys, doc, evt.sagaId);
    JustMoves(sys, e, ConvictPc(sys.coord, doc, rows, i, tries, r));
  }

  lemma FailKeeps(sys: Sys, e: nat, id: string, doc: string, rows: seq<Storage>, i: nat, tries: nat, r: Reply)
    requires Always(sys) && e in sys.pcs && e < |sys.coord.outbox| && sys.pcs[e] == Failing(id, doc, rows, i, tries)
    ensures Always(FailStep(sys, e, id, doc, rows, i, tries, r))
  {
    hide Always, Core, Evolves, RouteOf, Pos, Get, Front, Fail, Alive;
    Standing(sys, e);
    var evt := sys.coord.outbox[e];
    RetryOk(sys, evt, tries);
    if Get(sys.coord, id).None? || !r.io.sagaWrite {
      JustMoves(sys, e, Retry(tries));
    } else {
      var failed := Failed(sys, id, r.io);
      FailedKeeps(sys, id, r.io);
      RetryOk(failed, evt, tries);
      StepsTo(sys, failed, e, if r.io.enqueue then Scanning(doc, rows, i, false, tries) else Retry(tries));
    }
  }

  lemma ReloadKeeps(sys: Sys, e: nat, doc: string, k: nat, clean: bool, tries: nat, r: Reply)
    requires Always(sys) && e in sys.pcs && e < |sys.coord.outbox| && sys.pcs[e] == Reloading(doc, k, clean, tries)
    ensures Always(At(sys, e, ReloadPc(sys.coord, sys.coord.outbox[e], doc, k, tries, r)))
  {
    hide Always, Core, RouteOf, Pos, Get, FindByAggregate, Front, SagaOk, EventOk;
    Standing(sys, e);
    var evt := sys.coord.outbox[e];
    RetryOk(sys, evt, tries);
    FoundIsOwn(sys, evt);
    if r.ok && FindByAggregate(sys.coord, evt.aggType, evt.aggId).Some? {
      StoredUpload(sys, evt.sagaId);
      var s := Get(sys.coord, evt.sagaId).value;
      if s.status != StatusFailed {
        assert Was(sys, evt.sagaId, s.steps[s.current].name, k, s.current);
      }
    }
    JustMoves(sys, e, ReloadPc(sys.coord, evt, doc, k, tries, r));
  }

  lemma CompletingKeeps(sys: Sys, e: nat, id: string, doc: string, name: string, k: nat, tries: nat, r: Reply)
    requires Always(sys) && e in sys.pcs && e < |sys.coord.outbox| && sys.pcs[e] == Completing(id, doc, name, k, tries)
    ensures Always(CompletingStep(sys, e, id, name, tries, r))
  {
    hide Always, Core, Evolves, RouteOf, Pos, Get, Front, CompleteStep, SagaOk, Refused, UploadShape, Completable;
    Standing(sys, e);
    OwnSaga(sys, id);
    var evt := sys.coord.outbox[e];
    RetryOk(sys, evt, tries);
    var j: nat :| Was(sys, id, name, k, j);
    CompleteCall(sys, id, j, r.io);
    if Refused(sys.coord, id, name, r.io) {
      JustMoves(sys, e, Retry(tries));
    } else if CompleteStep(sys.coord, id, name, r.io) == sys.coord {
      CompletingStays(sys, e, id, doc, name, tries, r);
    } else {
      CompletingAdvances(sys, e, id, doc, j, tries, r);
    }
  }

  /** The step was done already, or the saga failed meanwhile. */
  lemma CompletingStays(sys: Sys, e: nat, id: string, doc: string, name: string, tries: nat, r: Reply)
    requires Always(sys) && e in sys.pcs && e < |sys.coord.outbox| && !Refused(sys.coord, id, name, r.io)
    requires CompleteStep(sys.coord, id, name, r.io) == sys.coord
    requires id in sys.h.owner && sys.h.owner[id] == doc && id == sys.coord.outbox[e].sagaId
    ensures Always(CompletingStep(sys, e, id, name, tries, r))
  {
    hide Always, Core, Evolves, RouteOf, Pos, Get, CompleteStep, Refused, SagaOk;
    Standing(sys, e);
    OwnSaga(sys, id);
    if Get(sys.coord, id).Some? && Get(sys.coord, id).value.status == StatusCompleted {
      StoredUpload(sys, id);
      assert sys.h.everDone + {id} == sys.h.everDone;
      assert Finished(sys, sys.coord, id) == sys;
      JustMoves(sys, e, Finalizing(doc, tries));
    } else {
      JustMoves(sys, e, Over);
    }
  }

  lemma CompletingAdvances(sys: Sys, e: nat, id: string, doc: string, j: nat, tries: nat, r: Reply)
    requires Always(sys) && e in sys.pcs && e < |sys.coord.outbox| && Completable(sys, id, j, r.io)
    requires id in sys.h.owner && sys.h.owner[id] == doc && id == sys.coord.outbox[e].sagaId
    ensures Always(CompletingStep(sys, e, id, DOCUMENT_UPLOAD_STEPS[j], tries, r))
  {
    hide Always, Core, Evolves, CompletingStep;
    Standing(sys, e);
    CompletedKeeps(sys, id, j, r.io);
    CompletingIs(sys, e, id, doc, j, tries, r);
    StepsTo(sys, Completed(sys, id, j, r.io), e, if j == 4 then Finalizing(doc, tries) else Over);
  }

  /** The call that completes the next step ends the delivery, or goes on to finalize after the last. */
  lemma CompletingIs(sys: Sys, e: nat, id: string, doc: string, j: nat, tries: nat, r: Reply)
    requires Core(sys) && Completable(sys, id, j, r.io) && sys.h.owner[id] == doc
    ensures CompletingStep(sys, e, id, DOCUMENT_UPLOAD_STEPS[j], tries, r)
         == At(Completed(sys, id, j, r.io), e, if j == 4 then Finalizing(doc, tries) else Over)
  {
    hide Core, Get, CompleteStep, Front, Advance;
    CompletedStore(sys, id, j, r.io);
    assert !Refused(sys.coord, id, DOCUMENT_UPLOAD_STEPS[j], r.io);
  }

  lemma FinalKeeps(sys: Sys, e: nat, doc: string, tries: nat, r: Reply)
    requires Always(sys) && e in sys.pcs && e < |sys.coord.outbox| && sys.pcs[e] == Finalizing(doc, tries)
    ensures Always(At(sys, e, FinalizePc(sys, doc, tries, r)))
  {
    hide Always, Core, DoneFor;
    Standing(sys, e);
    RetryOk(sys, sys.coord.outbox[e], tries);
    JustMoves(sys, e, FinalizePc(sys, doc, tries, r));
  }

  lemma PromoteKeeps(sys: Sys, e: nat, doc: string, tries: nat, r: Reply)
    requires Always(sys) && e in sys.pcs && e < |sys.coord.outbox| && sys.pcs[e] == Promoting(doc, tries)
    ensures Always(PromoteStep(sys, e, sys.coord.outbox[e], doc, tries, r))
  {
    hide Always, Core, Evolves, RouteOf, HistoryOk;
    Standing(sys, e);
    var evt := sys.coord.outbox[e];
    RetryOk(sys, evt, tries);
    if !r.ok {
      JustMoves(sys, e, Retry(tries));
    } else {
      var marked := MarkPending(sys, doc, evt.sagaId);
      MarkedOk(sys, doc, evt.sagaId);
      SameCoord(sys.(docs := marked.docs), marked);
      StepsTo(sys, marked, e, Pushing(tries));
      if r.io.enqueue {
        var pushed := At(marked, e, Pushing(tries));
        var event := DomainEvent("document", doc, "verification_needed");
        PlainRoutes();
        AlwaysCore(pushed);
        AppendKeeps(pushed, pushed.(coord := Append(sys.coord, event)), event);
        Stays(pushed, pushed.(coord := Append(sys.coord, event)));
      }
    }
  }

  lemma AlwaysCore(sys: Sys)
    requires Always(sys)
    ensures Core(sys)
  {
  }

  lemma MarkedOk(sys: Sys, doc: string, id: string)
    requires Core(sys) && id in sys.h.everDone && id in sys.h.owner && sys.h.owner[id] == doc
    ensures HistoryOk(MarkPending(sys, doc, id)) && Evolves(sys, MarkPending(sys, doc, id))
    ensures var mid := sys.(docs := MarkPending(sys, doc, id).docs); Core(mid) && Evolves(sys, mid)
  {
    hide Core, HistoryOk, Rises;
    CoreHistory(sys);
    MarkedHistory(sys, doc, id);
    SameStore(sys, sys.(docs := MarkPending(sys, doc, id).docs));
    forall x ensures Rises(sys, MarkPending(sys, doc, id), x) {
      SameRises(sys, MarkPending(sys, doc, id), x);
    }
  }

  lemma CoreHistory(sys: Sys)
    requires Core(sys)
    ensures HistoryOk(sys)
  {
  }

  lemma SameRises(sys: Sys, sys': Sys, id: string)
    requires sys'.coord == sys.coord
    ensures Rises(sys, sys', id)
  {
  }

  lemma MarkedHistory(sys: Sys, doc: string, id: string)
    requires HistoryOk(sys) && id in sys.h.everDone && id in sys.h.owner && sys.h.owner[id] == doc
    ensures HistoryOk(MarkPending(sys, doc, id))
  {
    hide Gate;
    var sys' := MarkPending(sys, doc, id);
    forall d | d in sys.h.cleared ensures Gate(sys', d, sys'.h.cleared[d], |sys'.h.cleared[d]|) {
      GateEvolves(sys, sys', d, sys.h.cleared[d], |sys.h.cleared[d]|);
    }
  }

  lemma PushKeeps(sys: Sys, e: nat, tries: nat, r: Reply)
    requires Always(sys) && e in sys.pcs && e < |sys.coord.outbox| && sys.pcs[e] == Pushing(tries)
    ensures Always(At(sys, e, if r.ok then Over else Retry(tries)))
  {
    hide Always;
    RetryOk(sys, sys.coord.outbox[e], tries);
    JustMoves(sys, e, if r.ok then Over else Retry(tries));
  }

  lemma WorkKeeps(sys: Sys, e: nat, r: Reply)
    requires Always(sys) && e in sys.pcs && e < |sys.coord.outbox|
    ensures Always(WorkStep(sys, e, r))
  {
    hide Always, BeginPc, KickStep, ActLog, ActPc, ScanLog, ScanPc, ConvictPc, FailStep, ReloadPc, CompletingStep,
      FinalizePc, PromoteStep;
    match sys.pcs[e] {
      case Begin(t) => BeginKeeps(sys, e, t, r);
      case Kicking(id, t) => KickKeeps(sys, e, id, t, r);
      case Acting(doc, k, t) => ActKeeps(sys, e, doc, k, t, r);
      case Scanning(doc, rows, i, clean, t) => ScanKeeps(sys, e, doc, rows, i, clean, t, r);
      case Convicting(doc, rows, i, t) => ConvictKeeps(sys, e, doc, rows, i, t, r);
      case Failing(id, doc, rows, i, t) => FailKeeps(sys, e, id, doc, rows, i, t, r);
      case Reloading(doc, k, clean, t) => ReloadKeeps(sys, e, doc, k, clean, t, r);
      case Completing(id, doc, name, k, t) => CompletingKeeps(sys, e, id, doc, name, k, t, r);
      case Finalizing(doc, t) => FinalKeeps(sys, e, doc, t, r);
      case Promoting(doc, t) => PromoteKeeps(sys, e, doc, t, r);
      case Pushing(t) => PushKeeps(sys, e, t, r);
      case Over =>
    }
  }

  /** A move that starts or ends no delivery. */
  predicate Outside(m: Move) {
    !m.Work? && !m.Deliver? && !m.DeliverUnchecked? && !m.Drop?
  }

  lemma OutsideKeeps(sys: Sys, m: Move)
    requires Core(sys) && Enabled(sys, m) && Outside(m)
    ensures var sys' := Apply(sys, m); Core(sys') && Evolves(sys, sys') && Beside(sys, sys') && sys'.pcs == sys.pcs
  {
    hide Core, Evolves, Start, CompleteStep, Fail;
    match m {
      case NewDocument(doc) =>
        PlainRoutes();
        AppendKeeps(sys, Apply(sys, m), DomainEvent("document", doc, "document_uploaded"));
      case StartUpload(id, doc, io) => StartUploadKeeps(sys, id, doc, io);
      case OtherStart(s, io) => OtherStartKeeps(sys, s, io);
      case OtherComplete(id, step, io) => OtherCompleteKeeps(sys, id, step, io);
      case OtherFail(id, step, io) => OtherFailKeeps(sys, id, step, io);
      case Publish(event) => AppendKeeps(sys, Apply(sys, m), event);
      case Expire(key) => ExpireKeeps(sys, key);
      case SetStatus(doc, status) => SameStore(sys, Apply(sys, m));
      case SetRows(doc, rows) => SameStore(sys, Apply(sys, m));
    }
  }

  lemma MoveKeeps(sys: Sys, m: Move)
    requires Always(sys) && Enabled(sys, m)
    ensures Always(Apply(sys, m))
  {
    hide Always, Core, Evolves, WorkStep, Start, CompleteStep, Fail;
    AlwaysCore(sys);
    match m {
      case Deliver(e) => if e !in sys.done { Dispatches(sys, e, sys.done + {e}); }
      case DeliverUnchecked(e) =>
        assert sys.(done := sys.done) == sys;
        Dispatches(sys, e, sys.done);
      case Work(e, r) => WorkKeeps(sys, e, r);
      case Drop(e) => Standing(sys, e); JustMoves(sys, e, Over);
      case _ =>
        OutsideKeeps(sys, m);
        Stays(sys, Apply(sys, m));
    }
  }

  lemma Dispatches(sys: Sys, e: nat, done: set<nat>)
    requires Always(sys) && e < |sys.coord.outbox|
    ensures Always(At(sys.(done := done), e, Begin(MAX_TRIES)))
  {
    hide Always, Core, Evolves;
    AlwaysCore(sys);
    SameStore(sys, sys.(done := done));
    StepsTo(sys, sys.(done := done), e, Begin(MAX_TRIES));
  }

  lemma {:induction false} RunKeeps(noop: bool, moves: seq<Move>)
    requires Legal(Init(noop), moves)
    ensures Always(Run(Init(noop), moves))
    decreases |moves|
  {
    hide Always, Apply, Enabled;
    if moves == [] {
      InitAlways(noop);
    } else {
      RunKeeps(noop, moves[..|moves| - 1]);
      MoveKeeps(Run(Init(noop), moves[..|moves| - 1]), moves[|moves| - 1]);
    }
  }

  // ---- What one handler step may touch ----------------------------------------

  /**
   * Only a promoting delivery writes documents, and it records its own saga; the failed sagas only
   * grow; a saga enters the completed ones when it is stored completed.
   */
  lemma WorkFrame(sys: Sys, e: nat, r: Reply)
    requires e in sys.pcs && e < |sys.coord.outbox|
    ensures var sys', promotes := WorkStep(sys, e, r), sys.pcs[e].Promoting? && r.ok;
      && sys.h.everFailed <= sys'.h.everFailed && Entered(sys, sys') && sys'.h.owner == sys.h.owner
      && sys'.docs == (if promotes then sys.docs[sys.pcs[e].doc := "pending_verification"] else sys.docs)
      && sys'.h.promoted
         == if promotes then sys.h.promoted[sys.pcs[e].doc := sys.coord.outbox[e].sagaId] else sys.h.promoted
  {
    hide BeginPc, KickStep, ActLog, ActPc, ScanLog, ScanPc, ConvictPc, FailStep, ReloadPc, CompletingStep,
      FinalizePc, PromoteStep;
    match sys.pcs[e] {
      case Kicking(id, t) => KickFrame(sys, e, id, t, r);
      case Acting(doc, k, _) => ActFrame(sys, doc, k, r);
      case Scanning(doc, rows, i, clean, _) => ScanFrame(sys, doc, rows, i, clean, r);
      case Failing(id, doc, rows, i, t) => FailFrame(sys, e, id, doc, rows, i, t, r);
      case Completing(id, _, name, _, t) => CompletingFrame(sys, e, id, name, t, r);
      case Promoting(doc, t) => PromoteFrame(sys, e, sys.coord.outbox[e], doc, t, r);
      case _ =>
    }
  }

  ghost predicate Entered(sys: Sys, sys': Sys) {
    forall id :: id in sys'.h.everDone && id !in sys.h.everDone ==>
      Get(sys'.coord, id).Some? && Get(sys'.coord, id).value.status == StatusCompleted
  }

  ghost predicate SameRecords(sys: Sys, sys': Sys) {
    && sys'.docs == sys.docs && sys'.h.promoted == sys.h.promoted && sys.h.everFailed <= sys'.h.everFailed
    && sys'.h.owner == sys.h.owner && Entered(sys, sys')
  }

  lemma KickFrame(sys: Sys, e: nat, id: string, t: nat, r: Reply)
    ensures SameRecords(sys, KickStep(sys, e, id, t, r))
  {
    hide Refused, CompleteStep;
  }

  lemma ActFrame(sys: Sys, doc: string, k: nat, r: Reply)
    ensures SameRecords(sys, ActLog(sys, doc, k, r))
  {
    hide RowsOf, ClearedByChecksum;
  }

  lemma ScanFrame(sys: Sys, doc: string, rows: seq<Storage>, i: nat, clean: bool, r: Reply)
    ensures SameRecords(sys, ScanLog(sys, doc, rows, i, clean, r))
  {
  }

  lemma FailFrame(sys: Sys, e: nat, id: string, doc: string, rows: seq<Storage>, i: nat, t: nat, r: Reply)
    ensures SameRecords(sys, FailStep(sys, e, id, doc, rows, i, t, r))
  {
    hide Get, Fail, Retry;
    if Get(sys.coord, id).Some? && r.io.sagaWrite {
      assert SameRecords(sys, Failed(sys, id, r.io));
    }
  }

  lemma CompletingFrame(sys: Sys, e: nat, id: string, name: string, t: nat, r: Reply)
    ensures SameRecords(sys, CompletingStep(sys, e, id, name, t, r))
  {
    hide Refused, CompleteStep, Get, Retry;
    if !Refused(sys.coord, id, name, r.io) {
      var coord := CompleteStep(sys.coord, id, name, r.io);
      if Get(coord, id).Some? && Get(coord, id).value.status == StatusCompleted {
        assert SameRecords(sys, Finished(sys, coord, id));
      }
    }
  }

  lemma PromoteFrame(sys: Sys, e: nat, evt: Event, doc: string, t: nat, r: Reply)
    ensures var sys' := PromoteStep(sys, e, evt, doc, t, r);
      if r.ok then
        sys'.docs == sys.docs[doc := "pending_verification"] && sys'.h == sys.h.(promoted := sys'.h.promoted)
        && sys'.h.promoted == sys.h.promoted[doc := evt.sagaId]
      else sys'.docs == sys.docs && sys'.h == sys.h
  {
    hide Append, DomainEvent;
    var marked := At(MarkPending(sys, doc, evt.sagaId), e, Pushing(t));
    assert marked.docs == sys.docs[doc := "pending_verification"];
  }

  lemma ApplyFrame(sys: Sys, m: Move)
    ensures sys.h.everFailed <= Apply(sys, m).h.everFailed && Entered(sys, Apply(sys, m))
  {
    hide WorkStep, Start, CompleteStep, Fail;
    match m {
      case Work(e, r) => if e in sys.pcs && e < |sys.coord.outbox| { WorkFrame(sys, e, r); }
      case _ =>
    }
  }

  // ---- Main results ---------------------------------------------------------

  /**
   * Main result: in every run the steps of a stored upload saga complete in list order, except
   * that a failed saga's virus_scan is no longer completed.
   */
  lemma {:induction false} StepsInListOrder(noop: bool, moves: seq<Move>, id: string, i: nat, j: nat)
    requires Legal(Init(noop), moves)
    requires var sys := Run(Init(noop), moves);
      id in sys.h.owner && Get(sys.coord, id).Some? && i < j < 5 && DoneAt(Get(sys.coord, id).value, j)
    ensures var sys := Run(Init(noop), moves); var s := Get(sys.coord, id).value;
      && Names(s) == DOCUMENT_UPLOAD_STEPS && s.aggId == sys.h.owner[id]
      && (DoneAt(s, i) <==> !(i == 1 && s.status == StatusFailed))
  {
    hide Run, Legal, Get, Core, Front, DoneAt;
    RunKeeps(noop, moves);
    var sys := Run(Init(noop), moves);
    OwnSaga(sys, id);
    var s := Get(sys.coord, id).value;
    InListOrder(s);
    if s.status == StatusFailed { ScanLost(s); }
  }

  /**
   * Main result: in every run there is a number of completed steps that gives each step of a stored
   * upload saga its status: completed before it, running at it, pending after it; only a failed
   * saga's virus_scan is failed instead. The cursor is that number, kept on the last step.
   */
  lemma {:induction false} StepStatuses(noop: bool, moves: seq<Move>, id: string) returns (f: nat)
    requires Legal(Init(noop), moves)
    requires var sys := Run(Init(noop), moves); id in sys.h.owner && Get(sys.coord, id).Some?
    ensures var s := Get(Run(Init(noop), moves).coord, id).value;
      && |s.steps| == 5 && f <= 5 && s.current == Min(f, 4)
      && (s.status == StatusCompleted <==> f == 5 && s.status != StatusFailed)
      && forall i: nat :: i < 5 ==>
           && s.steps[i].name == DOCUMENT_UPLOAD_STEPS[i]
           && s.steps[i].status == (
                if i == 1 && s.status == StatusFailed then StepFailed
                else if i < f then StepCompleted else if i == f then StepRunning else StepPending)
  {
    hide Run, Legal, Get, Core, Front, DoneAt;
    RunKeeps(noop, moves);
    var sys := Run(Init(noop), moves);
    OwnSaga(sys, id);
    var s := Get(sys.coord, id).value;
    UploadNames(s);
    if s.status == StatusFailed {
      f :| FailedAt(s, f);
    } else {
      f := Front(s);
      FrontBound(s);
    }
  }

  lemma FrontBound(s: Saga)
    ensures Front(s) <= 5
  {
  }

  /** The saga was stored with all of its five steps completed when n moves of the run were made. */
  ghost predicate AllDoneAfter(init: Sys, moves: seq<Move>, id: string, n: nat) {
    && n <= |moves| && Get(Run(init, moves[..n]).coord, id).Some?
    && var s := Get(Run(init, moves[..n]).coord, id).value;
    && s.status == StatusCompleted && Names(s) == DOCUMENT_UPLOAD_STEPS && forall j: nat :: j < 5 ==> DoneAt(s, j)
  }

  lemma {:induction false} DoneWasStored(noop: bool, moves: seq<Move>, id: string) returns (n: nat)
    requires Legal(Init(noop), moves) && id in Run(Init(noop), moves).h.everDone
    ensures AllDoneAfter(Init(noop), moves, id, n)
    decreases |moves|
  {
    hide Apply, Enabled, Always, Get, DoneAt;
    if moves != [] {
      var front := moves[..|moves| - 1];
      if id in Run(Init(noop), front).h.everDone {
        n := DoneWasStored(noop, front, id);
        assert front[..n] == moves[..n];
      } else {
        n := |moves|;
        assert moves[..n] == moves;
        RunKeeps(noop, moves);
        ApplyFrame(Run(Init(noop), front), moves[|moves| - 1]);
        CompletedIsAllDone(Run(Init(noop), moves), id);
      }
    }
  }

  lemma CompletedIsAllDone(sys: Sys, id: string)
    requires Always(sys) && id in sys.h.everDone && Get(sys.coord, id).Some?
    requires Get(sys.coord, id).value.status == StatusCompleted
    ensures var s := Get(sys.coord, id).value;
      Names(s) == DOCUMENT_UPLOAD_STEPS && forall j: nat :: j < 5 ==> DoneAt(s, j)
  {
    hide Get, EventsOk, HistoryOk, IndexOk, PcsOk;
    assert id in sys.h.owner;
    OwnSaga(sys, id);
  }

  /** The rows the document's last scan saw had checksums and, with a real scanner, scanned clean. */
  ghost predicate PassedGate(sys: Sys, doc: string) {
    && doc in sys.h.cleared
    && (forall row :: row in sys.h.cleared[doc] ==> row.checksum != "")
    && (!sys.noopScanner ==>
          forall row :: row in sys.h.cleared[doc] && row.objectKey != "" && row.provider != "" ==>
            (doc, row) in sys.h.scans)
  }

  lemma RanPassedGate(sys: Sys, doc: string)
    requires HistoryOk(sys) && (doc, 1) in sys.h.ran
    ensures PassedGate(sys, doc)
  {
    assert Gate(sys, doc, sys.h.cleared[doc], |sys.h.cleared[doc]|);
  }

  /**
   * Main result: a handler step changes a document's status only to pending_verification, and
   * only for a document whose upload saga had all five steps completed before and whose rows
   * passed the scan. What status it overwrites is the subject of the module Deliveries.
   */
  lemma {:induction false} FinalizeIsEarned(noop: bool, moves: seq<Move>, e: nat, r: Reply, doc: string)
    returns (n: nat)
    requires Legal(Init(noop), moves + [Work(e, r)])
    requires var sys, sys' := Run(Init(noop), moves), Run(Init(noop), moves + [Work(e, r)]);
      doc in sys'.docs && (doc !in sys.docs || sys'.docs[doc] != sys.docs[doc])
    ensures var sys, sys' := Run(Init(noop), moves), Run(Init(noop), moves + [Work(e, r)]);
      && sys'.docs[doc] == "pending_verification" && e in sys.pcs && sys.pcs[e].Promoting?
      && doc in sys'.h.promoted && var id := sys'.h.promoted[doc];
      && id in sys.h.owner && sys.h.owner[id] == doc && AllDoneAfter(Init(noop), moves, id, n) && PassedGate(sys, doc)
  {
    hide Run, Legal, Always, Core, WorkStep, AllDoneAfter, PassedGate, HistoryOk;
    RunLast(noop, moves, Work(e, r));
    var sys := Run(Init(noop), moves);
    RunKeeps(noop, moves);
    WorkFrame(sys, e, r);
    Standing(sys, e);
    var id := sys.coord.outbox[e].sagaId;
    n := DoneWasStored(noop, moves, id);
    DoneHasScanned(sys, id);
    RanPassedGate(sys, doc);
  }

  lemma DoneHasScanned(sys: Sys, id: string)
    requires HistoryOk(sys) && id in sys.h.everDone && id in sys.h.owner
    ensures (sys.h.owner[id], 1) in sys.h.ran
  {
  }

  lemma RunLast(noop: bool, moves: seq<Move>, m: Move)
    ensures Run(Init(noop), moves + [m]) == Apply(Run(Init(noop), moves), m)
    ensures Legal(Init(noop), moves + [m]) ==> Legal(Init(noop), moves) && Enabled(Run(Init(noop), moves), m)
  {
    hide Apply, Enabled;
    var all := moves + [m];
    assert all[..|all| - 1] == moves;
  }

  /**
   * Main result: an upload saga that ever failed stays failed in every continuation, with its scan
   * not completed.
   */
  lemma {:induction false} FailedStaysFailed(noop: bool, moves: seq<Move>, more: seq<Move>, id: string)
    requires Legal(Init(noop), moves + more) && id in Run(Init(noop), moves).h.everFailed
    ensures var sys := Run(Init(noop), moves + more);
      && id in sys.h.everFailed && id in sys.h.owner
      && (Get(sys.coord, id).Some? ==>
            Get(sys.coord, id).value.status == StatusFailed && Front(Get(sys.coord, id).value) == 1)
  {
    RunKeeps(noop, moves + more);
    FailedGrows(Init(noop), moves, more, id);
    hide Run, Legal;
    var sys := Run(Init(noop), moves + more);
    OwnSaga(sys, id);
  }

  lemma {:induction false} FailedGrows(init: Sys, moves: seq<Move>, more: seq<Move>, id: string)
    requires id in Run(init, moves).h.everFailed
    ensures id in Run(init, moves + more).h.everFailed
    decreases |more|
  {
    hide Apply;
    if more == [] {
      assert moves + more == moves;
    } else {
      var front := more[..|more| - 1];
      assert (moves + more)[..|moves + more| - 1] == moves + front;
      FailedGrows(init, moves, front, id);
      ApplyFrame(Run(init, moves + front), (moves + more)[|moves + more| - 1]);
    }
  }

  /**
   * Main result: a saga that failed before it completed never completes, and is never the reason
   * for promoting a document, in any continuation.
   */
  lemma {:induction false} FailedNeverCompletes(noop: bool, moves: seq<Move>, more: seq<Move>, id: string)
    requires Legal(Init(noop), moves + more)
    requires id in Run(Init(noop), moves).h.everFailed && id !in Run(Init(noop), moves).h.everDone
    ensures var sys := Run(Init(noop), moves + more); id !in sys.h.everDone && id !in sys.h.promoted.Values
    decreases |more|
  {
    hide Always, Apply, Enabled, Get;
    RunKeeps(noop, moves + more);
    if more == [] {
      assert moves + more == moves;
    } else {
      var front := more[..|more| - 1];
      assert (moves + more)[..|moves + more| - 1] == moves + front;
      FailedNeverCompletes(noop, moves, front, id);
      FailedStaysFailed(noop, moves, more, id);
      ApplyFrame(Run(Init(noop), moves + front), (moves + more)[|moves + more| - 1]);
    }
    PromotedHadDone(Run(Init(noop), moves + more), id);
  }

  lemma PromotedHadDone(sys: Sys, id: string)
    requires Always(sys) && id !in sys.h.everDone
    ensures id !in sys.h.promoted.Values
  {
  }

  /** Main result: a completed virus_scan means the rows it saw passed the gate. */
  lemma {:induction false} CompletedScanPassedGate(noop: bool, moves: seq<Move>, id: string)
    requires Legal(Init(noop), moves)
    requires var sys := Run(Init(noop), moves);
      id in sys.h.owner && Get(sys.coord, id).Some? && DoneAt(Get(sys.coord, id).value, 1)
    ensures var sys := Run(Init(noop), moves); PassedGate(sys, sys.h.owner[id])
  {
    hide Run, Legal, Get, Core, DoneAt, HistoryOk, PassedGate;
    RunKeeps(noop, moves);
    var sys := Run(Init(noop), moves);
    OwnSaga(sys, id);
    RanPassedGate(sys, sys.h.owner[id]);
  }

  // ---- Storage rows -----------------------------------------------------------

  /** The move is a storage action of the document that succeeds. */
  predicate Stores(sys: Sys, m: Move, doc: string) {
    && m.Work? && m.reply.ok && m.e in sys.pcs && m.e < |sys.coord.outbox|
    && sys.pcs[m.e].Acting? && sys.pcs[m.e].doc == doc && sys.pcs[m.e].k == 3
  }

  predicate StoredAt(init: Sys, moves: seq<Move>, more: seq<Move>, doc: string, i: nat) {
    i < |more| && Stores(Run(init, moves + more[..i]), more[i], doc)
  }

  /** A storage action of the document succeeds in the continuation. */
  ghost predicate StoredIn(init: Sys, moves: seq<Move>, more: seq<Move>, doc: string) {
    exists i: nat :: StoredAt(init, moves, more, doc, i)
  }

  /**
   * Main result: while nobody else records rows of a document, the handlers keep the rows it has;
   * one without rows gets exactly one, without an object, by its first successful storage action.
   */
  lemma {:induction false} RowsAreKept(noop: bool, moves: seq<Move>, more: seq<Move>, doc: string)
    requires forall m :: m in more && m.SetRows? ==> m.doc != doc
    ensures var was := RowsOf(Run(Init(noop), moves), doc);
      RowsOf(Run(Init(noop), moves + more), doc)
      == if was == [] && StoredIn(Init(noop), moves, more, doc) then [Storage("", "", "", "local")] else was
    decreases |more|
  {
    hide Apply, Stores, RowsOf, Init, Run;
    if more == [] {
      assert moves + more == moves;
    } else {
      var n := |more| - 1;
      RowsAreKept(noop, moves, more[..n], doc);
      RunsOn(Init(noop), moves, more, doc);
      RowsStep(Run(Init(noop), moves + more[..n]), more[n], doc);
    }
  }

  lemma RunsOn(init: Sys, moves: seq<Move>, more: seq<Move>, doc: string)
    requires more != []
    ensures var n := |more| - 1; var front := Run(init, moves + more[..n]);
      && Run(init, moves + more) == Apply(front, more[n])
      && (StoredIn(init, moves, more, doc) <==>
            StoredIn(init, moves, more[..n], doc) || Stores(front, more[n], doc))
  {
    hide Apply, Stores, StoredAt;
    var n := |more| - 1;
    assert (moves + more)[..|moves + more| - 1] == moves + more[..n];
    forall i: nat
      ensures StoredAt(init, moves, more, doc, i) <==>
        if i == n then Stores(Run(init, moves + more[..n]), more[n], doc)
        else StoredAt(init, moves, more[..n], doc, i)
    {
      StoredAtFront(init, moves, more, doc, i);
    }
    assert StoredAt(init, moves, more, doc, n) <==> Stores(Run(init, moves + more[..n]), more[n], doc);
    assert !StoredAt(init, moves, more[..n], doc, n) by { StoredInside(init, moves, more[..n], doc); }
  }

  lemma StoredInside(init: Sys, moves: seq<Move>, more: seq<Move>, doc: string)
    ensures !StoredAt(init, moves, more, doc, |more|)
  {
  }

  lemma StoredAtFront(init: Sys, moves: seq<Move>, more: seq<Move>, doc: string, i: nat)
    requires more != []
    ensures var n := |more| - 1;
      StoredAt(init, moves, more, doc, i) <==>
        if i == n then Stores(Run(init, moves + more[..n]), more[n], doc)
        else StoredAt(init, moves, more[..n], doc, i)
  {
    hide Stores, Run;
    if i < |more| - 1 {
      assert more[..|more| - 1][..i] == more[..i];
    }
  }

  lemma RowsStep(sys: Sys, m: Move, doc: string)
    requires m.SetRows? ==> m.doc != doc
    ensures RowsOf(Apply(sys, m), doc)
      == if RowsOf(sys, doc) == [] && Stores(sys, m, doc) then [PLACEHOLDER] else RowsOf(sys, doc)
  {
    hide WorkStep, Start, CompleteStep, Fail;
    match m {
      case Work(e, r) => if e in sys.pcs && e < |sys.coord.outbox| { RowsWork(sys, e, r, doc); }
      case _ =>
    }
  }

  lemma RowsWork(sys: Sys, e: nat, r: Reply, doc: string)
    requires e in sys.pcs && e < |sys.coord.outbox|
    ensures RowsOf(WorkStep(sys, e, r), doc)
      == if RowsOf(sys, doc) == [] && Stores(sys, Move.Work(e, r), doc) then [PLACEHOLDER] else RowsOf(sys, doc)
  {
    hide BeginPc, ActPc, ScanPc, ConvictPc, ReloadPc, FinalizePc, Start, CompleteStep, Fail, Refused, Get, Retry;
  }
}
