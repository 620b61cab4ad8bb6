/**
 * The worker's handlers (backend/internal/worker/worker.go, actions.go) as they run for one
 * delivery: each method is a run of the pipeline's moves, so what every run keeps holds of it.
 */
module Workers {
  import opened Basics
  import opened Sagas
  import opened SagaEffects
  import opened Pipeline
  import opened UploadSagas
  import opened EveryRun
  import opened Deliveries

  /** The event's saga, if still stored, has failed or has completed the step the handler is for. */
  ghost predicate Settled(sys: Sys, evt: Event, k: nat) {
    var got := Get(sys.coord, evt.sagaId);
    got.Some? ==> got.value.status == StatusFailed || Front(got.value) > k
  }

  /** What becomes of a message: acknowledged, to be redelivered, or copied to the dead letters. */
  datatype Outcome = Acked | Nacked | DeadLettered

  /** One to three attempts, no context done before the last; what each way of giving up needs. */
  ghost predicate Bounded(outcome: Outcome, attempts: nat, ctxDone: nat -> bool, ctxError: bool) {
    && 1 <= attempts <= MAX_TRIES && (forall k :: 1 <= k < attempts ==> !ctxDone(k))
    && (outcome == DeadLettered ==> attempts == MAX_TRIES && !ctxError)
    && (outcome == Nacked ==> if attempts == MAX_TRIES then ctxError else ctxDone(attempts))
  }

  class Worker {
    var sys: Sys
    ghost var start: Sys
    ghost var trace: seq<Move>

    /** The state is reached from a good one by the recorded moves. */
    ghost predicate Valid()
      reads this
    {
      Always(sys) && Always(start) && sys == Run(start, trace) && Legal(start, trace)
    }

    constructor (noopScanner: bool)
      ensures Valid() && sys == Init(noopScanner) && trace == []
    {
      sys := Init(noopScanner);
      start := Init(noopScanner);
      trace := [];
      new;
      InitAlways(noopScanner);
    }

    /** The delivery e of evt stands at pc, in a run that extends the one before. */
    ghost predicate Stands(e: nat, evt: Event, pc: Pc)
      reads this
    {
      Valid() && e < |sys.coord.outbox| && sys.coord.outbox[e] == evt && e in sys.pcs && sys.pcs[e] == pc
    }

    /** The last move is a call of this delivery. */
    ghost predicate LastCalled(e: nat)
      reads this
    {
      trace != [] && trace[|trace| - 1].Work? && trace[|trace| - 1].e == e
    }

    /** The last move is a call of this delivery that ended an attempt with an error. */
    ghost predicate LastFailed(e: nat)
      reads this
    {
      LastCalled(e) && var before := Run(start, trace[..|trace| - 1]);
      e in before.pcs && e < |before.coord.outbox| && Fails(before, e, trace[|trace| - 1].reply)
    }

    method Do(m: Move)
      requires Valid() && Enabled(sys, m)
      modifies this
      ensures Valid() && sys == Apply(old(sys), m) && start == old(start) && trace == old(trace) + [m]
    {
      hide Always, Apply, Enabled, Run, Legal;
      MoveKeeps(sys, m);
      RunExtends(start, trace, m);
      sys := Apply(sys, m);
      trace := trace + [m];
    }

    /** One external call of delivery e, answered by the environment. */
    method Call(e: nat, ghost evt: Event, ghost pc: Pc) returns (r: Reply)
      requires Stands(e, evt, pc)
      modifies this
      ensures Valid() && start == old(start) && sys.done == old(sys.done) && sys == WorkStep(old(sys), e, r)
      ensures e < |sys.coord.outbox| && sys.coord.outbox[e] == evt && old(trace) <= trace
      ensures LastCalled(e) && (LastFailed(e) <==> Fails(old(sys), e, r))
    {
      hide Always, Apply, Enabled, WorkStep, Run, Legal;
      r := *;
      WorkFacts(sys, e, r);
      hide Fails;
      Do(Work(e, r));
      assert trace[..|trace| - 1] == old(trace);
    }

    method Finalize(e: nat, doc: string, tries: nat, ghost evt: Event) returns (err: bool)
      requires Stands(e, evt, Finalizing(doc, tries))
      modifies this
      ensures start == old(start) && sys.done == old(sys.done) && Stands(e, evt, if err then Retry(tries) else Over)
      ensures sys.h.everDone == old(sys.h.everDone) && sys.coord.redis == old(sys.coord.redis)
      ensures LastCalled(e) && (err <==> LastFailed(e))
    {
      hide Always, Run, Legal;
      var r := Call(e, evt, Finalizing(doc, tries));
      if !r.ok || doc !in sys.docs {
        return true;
      }
      if sys.docs[doc] == "draft" {
        r := Call(e, evt, Promoting(doc, tries));
        if !r.ok {
          return true;
        }
      }
      err := BroadcastDocumentEvent(e, tries, evt);
    }

    method BroadcastDocumentEvent(e: nat, tries: nat, ghost evt: Event) returns (err: bool)
      requires Stands(e, evt, Pushing(tries))
      modifies this
      ensures start == old(start) && sys.done == old(sys.done) && Stands(e, evt, if err then Retry(tries) else Over)
      ensures sys.h.everDone == old(sys.h.everDone) && sys.coord == old(sys.coord)
      ensures LastCalled(e) && (err <==> LastFailed(e))
    {
      hide Always, Run, Legal;
      var r := Call(e, evt, Pushing(tries));
      err := !r.ok;
    }

    /** failSaga: look the saga up, then mark it failed; its error makes the action fail. */
    method FailSaga(e: nat, doc: string, rows: seq<Storage>, i: nat, tries: nat, ghost evt: Event) returns (err: bool)
      requires Stands(e, evt, Convicting(doc, rows, i, tries))
      modifies this
      ensures start == old(start) && sys.done == old(sys.done)
      ensures Stands(e, evt, if err then Retry(tries) else Scanning(doc, rows, i, false, tries))
      ensures LastCalled(e) && (err <==> LastFailed(e))
    {
      hide Always, Run, Legal, Get, FindByAggregate, Fail;
      var found := FindByAggregate(sys.coord, "document", doc);
      var r := Call(e, evt, Convicting(doc, rows, i, tries));
      if !r.ok || found.None? {
        return true;
      }
      var got := Get(sys.coord, found.value.id);
      r := Call(e, evt, Failing(found.value.id, doc, rows, i, tries));
      err := got.None? || !r.io.sagaWrite || !r.io.enqueue;
    }

    /** The integrity gate, then the scanner on every stored object. */
    method VirusScan(e: nat, doc: string, tries: nat, ghost evt: Event) returns (err: bool)
      requires Stands(e, evt, Acting(doc, 1, tries))
      modifies this
      ensures start == old(start) && sys.done == old(sys.done)
      ensures if err then Stands(e, evt, Retry(tries))
        else Stands(e, evt, Reloading(doc, 1, true, tries)) || Stands(e, evt, Reloading(doc, 1, false, tries))
      ensures LastCalled(e) && (err <==> LastFailed(e))
    {
      hide Always, Run, Legal;
      var rows, noop := RowsOf(sys, doc), sys.noopScanner;
      var r := Call(e, evt, Acting(doc, 1, tries));
      if !r.ok {
        return true;
      }
      if |rows| == 0 {
        return false;
      }
      for i := 0 to |rows|
        invariant forall j :: 0 <= j < i ==> rows[j].checksum != ""
        invariant start == old(start) && sys.done == old(sys.done) && Stands(e, evt, ActPc(old(sys), doc, 1, tries, r))
        invariant LastCalled(e) && !LastFailed(e)
      {
        if rows[i].checksum == "" {
          err := FailSaga(e, doc, rows, |rows|, tries, evt);
          if !err {
            r := Call(e, evt, Scanning(doc, rows, |rows|, false, tries));
          }
          return;
        }
      }
      if noop {
        return false;
      }
      err := ScanRows(e, doc, rows, tries, evt);
    }

    /** Scans every stored object; an infected one fails the saga and the loop goes on. */
    method ScanRows(e: nat, doc: string, rows: seq<Storage>, tries: nat, ghost evt: Event) returns (err: bool)
      requires Stands(e, evt, Scanning(doc, rows, 0, true, tries))
      modifies this
      ensures start == old(start) && sys.done == old(sys.done)
      ensures if err then Stands(e, evt, Retry(tries))
        else Stands(e, evt, Reloading(doc, 1, true, tries)) || Stands(e, evt, Reloading(doc, 1, false, tries))
      ensures LastCalled(e) && (err <==> LastFailed(e))
    {
      hide Always, Run, Legal, Fails;
      var i, clean := 0, true;
      while i < |rows|
        invariant 0 <= i <= |rows| && start == old(start) && sys.done == old(sys.done)
        invariant Stands(e, evt, Scanning(doc, rows, i, clean, tries))
      {
        var failed, infected := ScanStoredObject(e, doc, rows, i, clean, tries, evt);
        if failed {
          return true;
        }
        i, clean := i + 1, clean && !infected;
      }
      var before := sys;
      var r := Call(e, evt, Scanning(doc, rows, i, clean, tries));
      ScanCallFails(before, e, r);
      err := false;
    }

    /** One row: without an object there is nothing to scan; an infected object fails the saga. */
    method ScanStoredObject(e: nat, doc: string, rows: seq<Storage>, i: nat, clean: bool, tries: nat,
      ghost evt: Event) returns (err: bool, infected: bool)
      requires i < |rows| && Stands(e, evt, Scanning(doc, rows, i, clean, tries))
      modifies this
      ensures start == old(start) && sys.done == old(sys.done)
      ensures Stands(e, evt, if err then Retry(tries) else Scanning(doc, rows, i + 1, clean && !infected, tries))
      ensures LastCalled(e) && (err <==> LastFailed(e))
    {
      hide Always, Run, Legal, Fails;
      var before := sys;
      var r := Call(e, evt, Scanning(doc, rows, i, clean, tries));
      ScanCallFails(before, e, r);
      infected := false;
      if rows[i].objectKey == "" || rows[i].provider == "" {
        return false, false;
      }
      if !r.ok {
        return true, false;
      }
      if !r.clean {
        infected := true;
        err := FailSaga(e, doc, rows, i + 1, tries, evt);
        return;
      }
      err := false;
    }

    /** metadataExtraction, ensureStorage and indexing: one call that succeeds or not. */
    method PlainAction(e: nat, doc: string, k: nat, tries: nat, ghost evt: Event) returns (err: bool)
      requires Stands(e, evt, Acting(doc, k, tries)) && k != 1
      modifies this
      ensures start == old(start) && sys.done == old(sys.done)
      ensures Stands(e, evt, if err then Retry(tries) else Reloading(doc, k, true, tries))
      ensures LastCalled(e) && (err <==> LastFailed(e))
    {
      hide Always, Run, Legal;
      var r := Call(e, evt, Acting(doc, k, tries));
      err := !r.ok;
    }

    /** Runs the next step's action, re-reads the saga, and completes the step or stops at a failed saga. */
    method OnSagaStep(e: nat, evt: Event, k: nat, tries: nat) returns (err: bool)
      requires Stands(e, evt, Begin(tries)) && RouteOf(evt.eventType) == OnStep(k)
      modifies this
      ensures start == old(start) && sys.done == old(sys.done) && Stands(e, evt, if err then Retry(tries) else Over)
      ensures !err ==> Settled(sys, evt, k)
      ensures LastCalled(e) && (err <==> LastFailed(e))
    {
      hide Always, Core, Run, Legal, RouteOf, FindByAggregate, Get, Front, CompleteStep, WorkStep, EventOk, SagaOk;
      var found := FindByAggregate(sys.coord, evt.aggType, evt.aggId);
      Standing(sys, e);
      FoundIsOwn(sys, evt);
      BeginWork(sys, e, evt, k, tries);
      var r := Call(e, evt, Begin(tries));
      if r.open || !r.ok || found.None? {
        return true;
      }
      var s := found.value;
      if s.status == StatusCompleted || s.current >= |s.steps| {
        Standing(sys, e);
        err := FinalizeCompleted(e, s.aggId, tries, evt, k);
        return;
      }
      if k == 1 {
        err := VirusScan(e, s.aggId, tries, evt);
      } else {
        err := PlainAction(e, s.aggId, k, tries, evt);
      }
      if err {
        return;
      }
      err := Complete(e, evt, s.aggId, k, tries);
    }

    method FinalizeCompleted(e: nat, doc: string, tries: nat, ghost evt: Event, ghost k: nat) returns (err: bool)
      requires Stands(e, evt, Finalizing(doc, tries)) && k <= 4
      modifies this
      ensures start == old(start) && sys.done == old(sys.done) && Stands(e, evt, if err then Retry(tries) else Over)
      ensures Settled(sys, evt, k)
      ensures LastCalled(e) && (err <==> LastFailed(e))
    {
      hide Always, Run, Legal, Front;
      Standing(sys, e);
      err := Finalize(e, doc, tries, evt);
      EverDoneSettles(sys, evt, k);
    }

    /** After the action: reload, stop at a failed saga, otherwise complete its current step. */
    method Complete(e: nat, evt: Event, doc: string, k: nat, tries: nat) returns (err: bool)
      requires Stands(e, evt, Reloading(doc, k, true, tries)) || Stands(e, evt, Reloading(doc, k, false, tries))
      modifies this
      ensures start == old(start) && sys.done == old(sys.done) && Stands(e, evt, if err then Retry(tries) else Over)
      ensures !err ==> Settled(sys, evt, k)
      ensures LastCalled(e) && (err <==> LastFailed(e))
    {
      hide Always, Run, Legal, FindByAggregate, Front, CompleteStep, Refused;
      var found := FindByAggregate(sys.coord, evt.aggType, evt.aggId);
      ReloadFacts(sys, e, doc, k);
      var r := Call(e, evt, sys.pcs[e]);
      if !r.ok || found.None? {
        return true;
      }
      var s := found.value;
      if s.status == StatusFailed {
        return false;
      }
      err := CompleteCurrent(e, evt, doc, s.id, s.steps[s.current].name, k, tries);
    }

    method CompleteCurrent(e: nat, evt: Event, doc: string, id: string, stepName: string, k: nat, tries: nat)
      returns (err: bool)
      requires Stands(e, evt, Completing(id, doc, stepName, k, tries))
      modifies this
      ensures start == old(start) && sys.done == old(sys.done) && Stands(e, evt, if err then Retry(tries) else Over)
      ensures !err ==> Settled(sys, evt, k)
      ensures LastCalled(e) && (err <==> LastFailed(e))
    {
      hide Always, Run, Legal, FindByAggregate, Front, CompleteStep, Refused, Fails, Settled, EventOk, WorkStep;
      Standing(sys, e);
      var before := sys;
      var r := Call(e, evt, Completing(id, doc, stepName, k, tries));
      RefusalFails(before, e, r, id, stepName);
      CompletingGoes(before, e, id, doc, stepName, k, tries, r);
      if Refused(before.coord, id, stepName, r.io) {
        return true;
      }
      CompleteSettles(before, e, id, doc, stepName, k, tries, r);
      if Get(sys.coord, id).Some? && Get(sys.coord, id).value.status == StatusCompleted {
        err := FinalizeCompleted(e, Get(sys.coord, id).value.aggId, tries, evt, k);
        return;
      }
      err := false;
    }

    /** document_uploaded completes the upload step of a running saga, then notifies. */
    method OnDocumentUploaded(e: nat, evt: Event, tries: nat) returns (err: bool)
      requires Stands(e, evt, Begin(tries)) && RouteOf(evt.eventType) == Kick
      modifies this
      ensures start == old(start) && sys.done == old(sys.done) && Stands(e, evt, if err then Retry(tries) else Over)
      ensures LastCalled(e) && (err <==> LastFailed(e))
    {
      hide Always, Run, Legal, RouteOf, FindByAggregate, CompleteStep, Refused;
      var found := FindByAggregate(sys.coord, "document", evt.aggId);
      var r := Call(e, evt, Begin(tries));
      if r.open {
        return true;
      }
      if r.ok && found.Some? {
        if found.value.status == StatusFailed {
          return false;
        }
        if found.value.status == StatusRunning {
          var before := sys;
          var id := found.value.id;
          r := Call(e, evt, Kicking(id, tries));
          RefusalFails(before, e, r, id, "upload");
          if Refused(before.coord, id, "upload", r.io) {
            return true;
          }
        }
      }
      err := BroadcastDocumentEvent(e, tries, evt);
    }

    method Dispatch(e: nat, evt: Event, tries: nat) returns (err: bool)
      requires Stands(e, evt, Begin(tries))
      modifies this
      ensures start == old(start) && sys.done == old(sys.done) && Stands(e, evt, if err then Retry(tries) else Over)
      ensures !err && RouteOf(evt.eventType).OnStep? ==> Settled(sys, evt, RouteOf(evt.eventType).k)
      ensures LastCalled(e) && (err <==> LastFailed(e))
    {
      hide Always, Run, Legal, RouteOf;
      match RouteOf(evt.eventType) {
        case Kick => err := OnDocumentUploaded(e, evt, tries);
        case OnStep(k) => err := OnSagaStep(e, evt, k, tries);
        case Broadcast =>
          var r := Call(e, evt, Begin(tries));
          if r.open {
            return true;
          }
          err := BroadcastDocumentEvent(e, tries, evt);
        case Ignore =>
          var r := Call(e, evt, Begin(tries));
          err := r.open;
      }
    }

    /**
     * At most three attempts. ctxDone tells after which failed attempts the context is done before
     * the next one; ctxError whether the error of the last attempt is the context's own.
     */
    method Attempt(e: nat, evt: Event, ctxDone: nat -> bool, ctxError: bool) returns (outcome: Outcome, attempts: nat)
      requires Stands(e, evt, Begin(MAX_TRIES))
      modifies this
      ensures start == old(start) && sys.done == old(sys.done) && Stands(e, evt, Over)
      ensures Bounded(outcome, attempts, ctxDone, ctxError)
      ensures outcome == Acked <==> LastCalled(e) && !LastFailed(e)
      ensures outcome == Acked && RouteOf(evt.eventType).OnStep? ==> Settled(sys, evt, RouteOf(evt.eventType).k)
    {
      hide Always, Run, Legal, RouteOf, Settled, Apply, WorkStep, Stands, Valid;
      attempts := 0;
      while true
        invariant start == old(start) && sys.done == old(sys.done) && 0 <= attempts < MAX_TRIES
        invariant Stands(e, evt, Begin(MAX_TRIES - attempts))
        invariant forall k :: 1 <= k <= attempts ==> !ctxDone(k)
        decreases MAX_TRIES - attempts
      {
        var err := Dispatch(e, evt, MAX_TRIES - attempts);
        attempts := attempts + 1;
        if !err {
          return Acked, attempts;
        }
        if attempts == MAX_TRIES {
          return if ctxError then Nacked else DeadLettered, attempts;
        }
        if ctxDone(attempts) {
          GiveUp(e, evt, Retry(MAX_TRIES - attempts + 1));
          return Nacked, attempts;
        }
      }
    }

    method GiveUp(e: nat, ghost evt: Event, ghost pc: Pc)
      requires Stands(e, evt, pc)
      modifies this
      ensures start == old(start) && sys.done == old(sys.done) && Stands(e, evt, Over) && !LastCalled(e)
    {
      hide Always, Run, Legal;
      Do(Drop(e));
    }

    /** The dedupe key is set, or Redis is down and it is not; either way the message is taken. */
    method Take(e: nat, redisUp: bool)
      requires Valid() && e < |sys.coord.outbox| && (e in sys.pcs ==> sys.pcs[e] == Over)
      requires redisUp ==> e !in sys.done
      modifies this
      ensures start == old(start) && sys.done == if redisUp then old(sys.done) + {e} else old(sys.done)
      ensures Stands(e, old(sys.coord.outbox[e]), Begin(MAX_TRIES))
    {
      hide Always, Run, Legal;
      if redisUp {
        Do(Deliver(e));
      } else {
        Do(DeliverUnchecked(e));
      }
    }

    /**
     * One message: the dedupe key first, then the attempts. With Redis down no key is set and the
     * message is handled all the same, also one that was handled before. What the caller must see to
     * is that no other delivery of it is being handled.
     */
    method Process(e: nat, redisUp: bool, ctxDone: nat -> bool, ctxError: bool)
      returns (outcome: Outcome, attempts: nat)
      requires Valid() && e < |sys.coord.outbox|
      requires (!redisUp || e !in sys.done) && e in sys.pcs ==> sys.pcs[e] == Over
      modifies this
      ensures Valid() && start == old(start)
      ensures sys.done == if redisUp then old(sys.done) + {e} else old(sys.done)
      ensures redisUp && old(e in sys.done) ==> outcome == Acked && attempts == 0 && sys == old(sys)
      ensures !redisUp || old(e !in sys.done) ==>
        && e in sys.pcs && sys.pcs[e] == Over && Bounded(outcome, attempts, ctxDone, ctxError)
        && (outcome == Acked <==> LastCalled(e) && !LastFailed(e))
      ensures !redisUp || old(e !in sys.done) ==> var evt := old(sys.coord.outbox[e]);
        outcome == Acked && RouteOf(evt.eventType).OnStep? ==> Settled(sys, evt, RouteOf(evt.eventType).k)
    {
      hide Always, Run, Legal, RouteOf, Settled, Apply, WorkStep;
      if redisUp && e in sys.done {
        assert sys.done + {e} == sys.done;
        return Acked, 0;
      }
      var evt := sys.coord.outbox[e];
      Take(e, redisUp);
      outcome, attempts := Attempt(e, evt, ctxDone, ctxError);
    }
  }

  lemma RunExtends(start: Sys, trace: seq<Move>, m: Move)
    requires Legal(start, trace) && Enabled(Run(start, trace), m)
    ensures Run(start, trace + [m]) == Apply(Run(start, trace), m) && Legal(start, trace + [m])
  {
    hide Apply, Enabled;
    assert (trace + [m])[..|trace|] == trace;
  }

  /** What one handler step leaves in place, as a move. */
  lemma WorkFacts(sys: Sys, e: nat, r: Reply)
    requires e in sys.pcs && e < |sys.coord.outbox|
    ensures Enabled(sys, Work(e, r)) && Apply(sys, Work(e, r)) == WorkStep(sys, e, r)
    ensures WorkStep(sys, e, r).done == sys.done && sys.coord.outbox <= WorkStep(sys, e, r).coord.outbox
  {
    hide WorkStep;
    OutboxGrows(sys, e, r);
    OwnStep(sys, e, r);
  }

  lemma OutboxGrows(sys: Sys, e: nat, r: Reply)
    requires e in sys.pcs && e < |sys.coord.outbox|
    ensures var sys' := WorkStep(sys, e, r); e in sys'.pcs && sys.coord.outbox <= sys'.coord.outbox
  {
    hide BeginPc, KickStep, ActLog, ActPc, ScanLog, ScanPc, ConvictPc, FailStep, ReloadPc, CompletingStep,
      FinalizePc, PromoteStep;
    match sys.pcs[e] {
      case Kicking(id, t) => KickOutbox(sys, e, id, t, r);
      case Acting(doc, k, _) => ActOutbox(sys, doc, k, r);
      case Scanning(doc, rows, i, clean, _) => ScanOutbox(sys, doc, rows, i, clean, r);
      case Failing(id, doc, rows, i, t) => FailOutbox(sys, e, id, doc, rows, i, t, r);
      case Completing(id, _, name, _, t) => CompletingOutbox(sys, e, id, name, t, r);
      case Promoting(doc, t) => PromoteOutbox(sys, e, sys.coord.outbox[e], doc, t, r);
      case _ =>
    }
  }

  lemma CoordOutbox(c: Coord, id: string, name: string, io: Io)
    ensures c.outbox <= CompleteStep(c, id, name, io).outbox && c.outbox <= Fail(c, id, name, io).outbox
  {
    hide Get, Advance, MarkFailed, AlreadyDone;
  }

  lemma KickOutbox(sys: Sys, e: nat, id: string, t: nat, r: Reply)
    ensures e in KickStep(sys, e, id, t, r).pcs && sys.coord.outbox <= KickStep(sys, e, id, t, r).coord.outbox
  {
    hide Refused, CompleteStep;
    CoordOutbox(sys.coord, id, "upload", r.io);
  }

  lemma ActOutbox(sys: Sys, doc: string, k: nat, r: Reply)
    ensures ActLog(sys, doc, k, r).coord == sys.coord
  {
    hide RowsOf, ClearedByChecksum;
  }

  lemma ScanOutbox(sys: Sys, doc: string, rows: seq<Storage>, i: nat, clean: bool, r: Reply)
    ensures ScanLog(sys, doc, rows, i, clean, r).coord == sys.coord
  {
  }

  lemma FailOutbox(sys: Sys, e: nat, id: string, doc: string, rows: seq<Storage>, i: nat, t: nat, r: Reply)
    ensures var sys' := FailStep(sys, e, id, doc, rows, i, t, r); e in sys'.pcs && sys.coord.outbox <= sys'.coord.outbox
  {
    hide Get, Fail, Retry;
    if Get(sys.coord, id).Some? && r.io.sagaWrite {
      var failed := Failed(sys, id, r.io);
      assert failed.pcs == sys.pcs;
    }
    CoordOutbox(sys.coord, id, "virus_scan", r.io);
  }

  lemma CompletingOutbox(sys: Sys, e: nat, id: string, name: string, t: nat, r: Reply)
    ensures var sys' := CompletingStep(sys, e, id, name, t, r); e in sys'.pcs && sys.coord.outbox <= sys'.coord.outbox
  {
    hide Refused, CompleteStep, Get, Retry;
    if !Refused(sys.coord, id, name, r.io) {
      var coord := CompleteStep(sys.coord, id, name, r.io);
      if Get(coord, id).Some? && Get(coord, id).value.status == StatusCompleted {
        assert Finished(sys, coord, id).coord == coord;
      }
    }
    CoordOutbox(sys.coord, id, name, r.io);
  }

  lemma PromoteOutbox(sys: Sys, e: nat, evt: Event, doc: string, t: nat, r: Reply)
    ensures var sys' := PromoteStep(sys, e, evt, doc, t, r); e in sys'.pcs && sys.coord.outbox <= sys'.coord.outbox
  {
    hide DomainEvent;
    var marked := At(MarkPending(sys, doc, evt.sagaId), e, Pushing(t));
    assert e in marked.pcs;
  }

  /** A completion that is refused is a failed call. */
  lemma RefusalFails(sys: Sys, e: nat, r: Reply, id: string, name: string)
    requires e in sys.pcs && e < |sys.coord.outbox|
    requires var pc := sys.pcs[e];
      (pc.Kicking? && pc.id == id && name == "upload") || (pc.Completing? && pc.id == id && pc.name == name)
    ensures Fails(sys, e, r) <==> Refused(sys.coord, id, name, r.io)
  {
    CannotCompleteIs(sys.coord, id, name, r.io);
    hide CannotComplete, Refused;
  }

  lemma ScanCallFails(sys: Sys, e: nat, r: Reply)
    requires e in sys.pcs && e < |sys.coord.outbox| && sys.pcs[e].Scanning?
    ensures var pc := sys.pcs[e];
      Fails(sys, e, r) <==>
        pc.i < |pc.rows| && pc.rows[pc.i].objectKey != "" && pc.rows[pc.i].provider != "" && !r.ok
  {
  }

  /** Where a completion leaves the delivery. */
  lemma CompletingGoes(sys: Sys, e: nat, id: string, doc: string, name: string, k: nat, tries: nat, r: Reply)
    requires e in sys.pcs && e < |sys.coord.outbox| && sys.pcs[e] == Completing(id, doc, name, k, tries)
    ensures var next := WorkStep(sys, e, r); var got := Get(next.coord, id);
      && e in next.pcs
      && next.pcs[e] == (
           if Refused(sys.coord, id, name, r.io) then Retry(tries)
           else if got.Some? && got.value.status == StatusCompleted then Finalizing(got.value.aggId, tries) else Over)
  {
    hide Refused, CompleteStep, Get;
  }

  lemma BeginWork(sys: Sys, e: nat, evt: Event, k: nat, tries: nat)
    requires e in sys.pcs && e < |sys.coord.outbox| && sys.coord.outbox[e] == evt && sys.pcs[e] == Begin(tries)
    requires RouteOf(evt.eventType) == OnStep(k)
    ensures forall r :: WorkStep(sys, e, r) == At(sys, e,
      if r.open then Retry(tries)
      else OnStepPc(if r.ok then FindByAggregate(sys.coord, evt.aggType, evt.aggId) else None, k, tries))
  {
    hide RouteOf, FindByAggregate, OnStepPc;
  }

  lemma EverDoneSettles(sys: Sys, evt: Event, k: nat)
    requires Always(sys) && evt.sagaId in sys.h.everDone && k <= 4
    ensures Settled(sys, evt, k)
  {
    hide Front, UploadShape, FailedShape, PcsOk, EventsOk, HistoryOk, IndexOk;
    assert evt.sagaId in sys.h.owner.Keys;
    OwnSaga(sys, evt.sagaId);
  }

  /** The reloaded saga is the event's own. */
  lemma ReloadFacts(sys: Sys, e: nat, doc: string, k: nat)
    requires Always(sys) && e in sys.pcs && e < |sys.coord.outbox| && sys.pcs[e].Reloading?
    ensures var evt := sys.coord.outbox[e]; var found := FindByAggregate(sys.coord, evt.aggType, evt.aggId);
      found.Some? ==>
        && found == Get(sys.coord, evt.sagaId) && found.value.id == evt.sagaId && |found.value.steps| == 5
        && found.value.current < 5
  {
    hide Front, RouteOf, Pos, FindByAggregate, Get, Always, Core, EventOk, SagaOk;
    Standing(sys, e);
    var evt := sys.coord.outbox[e];
    FoundIsOwn(sys, evt);
    if FindByAggregate(sys.coord, evt.aggType, evt.aggId).Some? {
      StoredUpload(sys, evt.sagaId);
    }
  }

  /** What completes is the saga's step k or a later one that the saga had reached. */
  lemma CompleteSettles(sys: Sys, e: nat, id: string, doc: string, name: string, k: nat, tries: nat, r: Reply)
    requires Always(sys) && e in sys.pcs && e < |sys.coord.outbox| && sys.pcs[e] == Completing(id, doc, name, k, tries)
    requires !Refused(sys.coord, id, name, r.io)
    ensures Settled(WorkStep(sys, e, r), sys.coord.outbox[e], k)
  {
    hide Always, Core, Front, RouteOf, Pos, CompleteStep, Get, Ref, UploadShape, FailedShape;
    Standing(sys, e);
    OwnSaga(sys, id);
    var j: nat :| Was(sys, id, name, k, j);
    CompleteCall(sys, id, j, r.io);
    CompleteEffect(sys.coord, id, name, r.io);
    assert WorkStep(sys, e, r).coord == CompleteStep(sys.coord, id, name, r.io);
    if Alive(sys, id) {
      AlreadyDoneIffPassed(Get(sys.coord, id).value, j);
      if Completable(sys, id, j, r.io) {
        CompletedStore(sys, id, j, r.io);
      }
    }
  }
}
