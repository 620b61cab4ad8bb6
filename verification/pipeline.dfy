/**
 * The upload pipeline (backend/internal/worker/worker.go, actions.go) as a transition system:
 * outbox events, the dedupe keys, and handlers that interleave one external call at a time.
 */
module Pipeline {
  import opened Basics
  import opened Sagas

  // ---- Data ---------------------------------------------------------------

  /** A stored binary; objectKey and provider are empty for placeholders. */
  datatype Storage = Storage(id: string, checksum: string, objectKey: string, provider: string)

  const PLACEHOLDER := Storage("", "", "", "local")

  const MAX_TRIES := 3

  /** What dispatch does with an event; k is the upload step whose action runs next. */
  datatype Route = Kick | OnStep(k: nat) | Broadcast | Ignore

  function TrimPrefix(s: string, prefix: string): string {
    if prefix <= s then s[|prefix|..] else s
  }

  function RouteOf(eventType: string): (r: Route)
    ensures r.OnStep? ==> 1 <= r.k <= 4
  {
    var name := TrimPrefix(eventType, "saga.");
    if name == "document_uploaded" then Kick
    else if name == "upload" then OnStep(1)
    else if name == "virus_scan" then OnStep(2)
    else if name == "metadata_extraction" then OnStep(3)
    else if name == "storage" then OnStep(4)
    else if name in {"document_updated", "verification_needed", "verification_rejected",
                     "approval_required", "approval_rejected", "document_ready", "access_granted"} then Broadcast
    else Ignore
  }

  /**
   * Where a delivery stands: each position is just before one call to the saga store, the
   * database, the scanner or the hub. tries counts the attempts left, this one included.
   */
  datatype Pc =
    | Begin(tries: nat)
    | Kicking(id: string, tries: nat)
    | Acting(doc: string, k: nat, tries: nat)
    | Scanning(doc: string, rows: seq<Storage>, i: nat, clean: bool, tries: nat)
    | Convicting(doc: string, rows: seq<Storage>, i: nat, tries: nat)
    | Failing(id: string, doc: string, rows: seq<Storage>, i: nat, tries: nat)
    | Reloading(doc: string, k: nat, clean: bool, tries: nat)
    | Completing(id: string, doc: string, name: string, k: nat, tries: nat)
    | Finalizing(doc: string, tries: nat)
    | Promoting(doc: string, tries: nat)
    | Pushing(tries: nat)
    | Over

  /**
   * History: which upload saga belongs to which document, every saga id used, the sagas that
   * ever completed or failed, the actions that ran to success, the rows the scan action
   * cleared, the objects scanned clean, and the documents that finalize promoted, with the
   * saga that did it.
   */
  datatype History = History(
    owner: map<string, string>, used: set<string>, everDone: set<string>, everFailed: set<string>,
    ran: set<(string, nat)>, cleared: map<string, seq<Storage>>, scans: set<(string, Storage)>,
    promoted: map<string, string>)

  /**
   * coord is the saga store with the outbox, whose positions are the event ids; done holds
   * the dedupe keys, pcs the deliveries being handled, docs the document statuses.
   */
  datatype Sys = Sys(
    coord: Coord, done: set<nat>, pcs: map<nat, Pc>,
    docs: map<string, string>, stores: map<string, seq<Storage>>, noopScanner: bool, h: History)

  function Init(noopScanner: bool): Sys {
    Sys(Coord(map[], []), {}, map[], map[], map[], noopScanner, History(map[], {}, {}, {}, {}, map[], {}, map[]))
  }

  /** Answers of the outside world to one call. */
  datatype Reply = Reply(open: bool, ok: bool, clean: bool, io: Io)

  datatype Move =
    | NewDocument(doc: string)
    | StartUpload(id: string, doc: string, io: Io)
    | OtherStart(saga: Saga, io: Io)
    | OtherComplete(id: string, step: string, io: Io)
    | OtherFail(id: string, step: string, io: Io)
    | Publish(event: Event)
    | Expire(key: string)
    | SetStatus(doc: string, status: string)
    | SetRows(doc: string, rows: seq<Storage>)
    | Deliver(e: nat)
    | DeliverUnchecked(e: nat)
    | Work(e: nat, reply: Reply)
    | Drop(e: nat)

  function UploadSaga(id: string, doc: string): Saga {
    NewSaga(id, "document_upload", "document", doc, DOCUMENT_UPLOAD_STEPS)
  }

  function DomainEvent(aggType: string, aggId: string, eventType: string): Event {
    Event(aggType, aggId, eventType, "", Domain)
  }

  function Append(c: Coord, e: Event): Coord {
    c.(outbox := c.outbox + [e])
  }

  // ---- Handler steps ------------------------------------------------------

  function Retry(tries: nat): Pc {
    if tries > 1 then Begin(tries - 1) else Over
  }

  function At(sys: Sys, e: nat, pc: Pc): Sys {
    sys.(pcs := sys.pcs[e := pc])
  }

  function RowsOf(sys: Sys, doc: string): seq<Storage> {
    if doc in sys.stores then sys.stores[doc] else []
  }

  /** The scan action succeeded on these rows. */
  function Clear(sys: Sys, doc: string, rows: seq<Storage>): Sys {
    sys.(h := sys.h.(ran := sys.h.ran + {(doc, 1)}, cleared := sys.h.cleared[doc := rows]))
  }

  function Failed(sys: Sys, id: string, io: Io): Sys {
    sys.(coord := Fail(sys.coord, id, "virus_scan", io), h := sys.h.(everFailed := sys.h.everFailed + {id}))
  }

  function Finished(sys: Sys, coord: Coord, id: string): Sys {
    sys.(coord := coord, h := sys.h.(everDone := sys.h.everDone + {id}))
  }

  predicate Skipped(row: Storage) {
    row.objectKey == "" || row.provider == ""
  }

  /** Route the event: look the saga up, or go straight to the broadcast. */
  function BeginPc(c: Coord, evt: Event, tries: nat, r: Reply): Pc {
    if r.open then Retry(tries) else
      match RouteOf(evt.eventType)
      case Ignore => Over
      case Broadcast => Pushing(tries)
      case Kick => KickPc(if r.ok then FindByAggregate(c, "document", evt.aggId) else None, tries)
      case OnStep(k) => OnStepPc(if r.ok then FindByAggregate(c, evt.aggType, evt.aggId) else None, k, tries)
  }

  /** document_uploaded: complete the upload step of a running saga. */
  function KickPc(found: Option<Saga>, tries: nat): Pc {
    if found.None? then Pushing(tries)
    else if found.value.status == StatusFailed then Over
    else if found.value.status != StatusRunning then Pushing(tries)
    else Kicking(found.value.id, tries)
  }

  /** saga.<step>: run the action of the next step, or finalize a completed saga. */
  function OnStepPc(found: Option<Saga>, k: nat, tries: nat): Pc {
    if found.None? then Retry(tries)
    else if found.value.status == StatusCompleted || found.value.current >= |found.value.steps|
    then Finalizing(found.value.aggId, tries)
    else Acting(found.value.aggId, k, tries)
  }

  function KickStep(sys: Sys, e: nat, id: string, tries: nat, r: Reply): Sys {
    At(sys.(coord := CompleteStep(sys.coord, id, "upload", r.io)), e,
      if Refused(sys.coord, id, "upload", r.io) then Retry(tries) else Pushing(tries))
  }

  predicate MissingChecksum(rows: seq<Storage>) {
    exists i :: 0 <= i < |rows| && rows[i].checksum == ""
  }

  /** The rows are cleared without a scanner: there are none, or the checksums are the gate. */
  predicate ClearedByChecksum(sys: Sys, rows: seq<Storage>) {
    !MissingChecksum(rows) && (rows == [] || sys.noopScanner)
  }

  /** Success of an action, recorded; ensureStorage adds a placeholder row when there is none. */
  function ActLog(sys: Sys, doc: string, k: nat, r: Reply): Sys {
    if !r.ok then sys
    else if k == 1 then
      if ClearedByChecksum(sys, RowsOf(sys, doc))
      then Clear(sys, doc, RowsOf(sys, doc)) else sys
    else
      sys.(h := sys.h.(ran := sys.h.ran + {(doc, k)}),
           stores := if k == 3 && RowsOf(sys, doc) == [] then sys.stores[doc := [PLACEHOLDER]] else sys.stores)
  }

  /** Run the action; the virus scan goes on row by row, the others are one call. */
  function ActPc(sys: Sys, doc: string, k: nat, tries: nat, r: Reply): Pc {
    if !r.ok then Retry(tries)
    else if k != 1 then Reloading(doc, k, true, tries)
    else
      var rows := RowsOf(sys, doc);
      if MissingChecksum(rows) then Convicting(doc, rows, |rows|, tries)
      else if ClearedByChecksum(sys, rows) then Reloading(doc, 1, true, tries)
      else Scanning(doc, rows, 0, true, tries)
  }

  function ScanLog(sys: Sys, doc: string, rows: seq<Storage>, i: nat, clean: bool, r: Reply): Sys {
    if i >= |rows| then
      if clean then Clear(sys, doc, rows) else sys
    else if !Skipped(rows[i]) && r.ok && r.clean then sys.(h := sys.h.(scans := sys.h.scans + {(doc, rows[i])}))
    else sys
  }

  function ScanPc(doc: string, rows: seq<Storage>, i: nat, clean: bool, tries: nat, r: Reply): Pc {
    if i >= |rows| then Reloading(doc, 1, clean, tries)
    else if Skipped(rows[i]) then Scanning(doc, rows, i + 1, clean, tries)
    else if !r.ok then Retry(tries)
    else if r.clean then Scanning(doc, rows, i + 1, clean, tries)
    else Convicting(doc, rows, i + 1, tries)
  }

  /** failSaga, first half: find the document's saga. */
  function ConvictPc(c: Coord, doc: string, rows: seq<Storage>, i: nat, tries: nat, r: Reply): Pc {
    var found := if r.ok then FindByAggregate(c, "document", doc) else None;
    if found.None? then Retry(tries) else Failing(found.value.id, doc, rows, i, tries)
  }

  /** failSaga, second half: an enqueue error still leaves the saga failed. */
  function FailStep(sys: Sys, e: nat, id: string, doc: string, rows: seq<Storage>, i: nat, tries: nat, r: Reply): Sys {
    if Get(sys.coord, id).None? || !r.io.sagaWrite then At(sys, e, Retry(tries))
    else
      var failed := Failed(sys, id, r.io);
      At(failed, e, if r.io.enqueue then Scanning(doc, rows, i, false, tries) else Retry(tries))
  }

  /** The saga is read again: a failed one is never advanced, otherwise its current step completes. */
  function ReloadPc(c: Coord, evt: Event, doc: string, k: nat, tries: nat, r: Reply): Pc {
    var found := if r.ok then FindByAggregate(c, evt.aggType, evt.aggId) else None;
    if found.None? then Retry(tries)
    else if found.value.status == StatusFailed || found.value.current >= |found.value.steps| then Over
    else Completing(found.value.id, doc, found.value.steps[found.value.current].name, k, tries)
  }

  function CompletingStep(sys: Sys, e: nat, id: string, name: string, tries: nat, r: Reply): Sys {
    if Refused(sys.coord, id, name, r.io) then At(sys, e, Retry(tries))
    else
      var coord := CompleteStep(sys.coord, id, name, r.io);
      var finished := Get(coord, id).Some? && Get(coord, id).value.status == StatusCompleted;
      At(if finished then Finished(sys, coord, id) else sys.(coord := coord), e,
        if finished then Finalizing(Get(coord, id).value.aggId, tries) else Over)
  }

  function FinalizePc(sys: Sys, doc: string, tries: nat, r: Reply): Pc {
    if !r.ok || doc !in sys.docs then Retry(tries)
    else if sys.docs[doc] == "draft" then Promoting(doc, tries)
    else Pushing(tries)
  }

  function MarkPending(sys: Sys, doc: string, id: string): Sys {
    sys.(docs := sys.docs[doc := "pending_verification"], h := sys.h.(promoted := sys.h.promoted[doc := id]))
  }

  function PromoteStep(sys: Sys, e: nat, evt: Event, doc: string, tries: nat, r: Reply): Sys {
    if !r.ok then At(sys, e, Retry(tries))
    else
      var marked := At(MarkPending(sys, doc, evt.sagaId), e, Pushing(tries));
      if r.io.enqueue
      then marked.(coord := Append(sys.coord, DomainEvent("document", doc, "verification_needed")))
      else marked
  }

  function WorkStep(sys: Sys, e: nat, r: Reply): Sys
    requires e in sys.pcs && e < |sys.coord.outbox|
  {
    var evt := sys.coord.outbox[e];
    match sys.pcs[e]
    case Begin(t) => At(sys, e, BeginPc(sys.coord, evt, t, r))
    case Kicking(id, t) => KickStep(sys, e, id, t, r)
    case Acting(doc, k, t) => At(ActLog(sys, doc, k, r), e, ActPc(sys, doc, k, t, r))
    case Scanning(doc, rows, i, clean, t) =>
      At(ScanLog(sys, doc, rows, i, clean, r), e, ScanPc(doc, rows, i, clean, t, r))
    case Convicting(doc, rows, i, t) => At(sys, e, ConvictPc(sys.coord, doc, rows, i, t, r))
    case Failing(id, doc, rows, i, t) => FailStep(sys, e, id, doc, rows, i, t, r)
    case Reloading(doc, k, _, t) => At(sys, e, ReloadPc(sys.coord, evt, doc, k, t, r))
    case Completing(id, _, name, _, t) => CompletingStep(sys, e, id, name, t, r)
    case Finalizing(doc, t) => At(sys, e, FinalizePc(sys, doc, t, r))
    case Promoting(doc, t) => PromoteStep(sys, e, evt, doc, t, r)
    case Pushing(t) => At(sys, e, if r.ok then Over else Retry(t))
    case Over => sys
  }

  // ---- Moves --------------------------------------------------------------

  /**
   * What the rest of the system guarantees: fresh saga ids without ':', one upload saga per
   * document, other sagas of other types with other step names, no forged step events, and no
   * second delivery of an event while one is being handled.
   */
  ghost predicate Enabled(sys: Sys, m: Move) {
    match m
    case NewDocument(doc) => doc !in sys.docs
    case StartUpload(id, doc, _) =>
      && id != "" && ':' !in id && id !in sys.h.used
      && forall x :: x in sys.h.owner ==> sys.h.owner[x] != doc
    case OtherStart(s, _) =>
      s.id != "" && ':' !in s.id && s.id !in sys.h.used && s.aggType != "document" && ':' !in s.aggType
    case OtherComplete(id, step, _) =>
      ':' !in id && id !in sys.h.owner && !RouteOf("saga." + step).OnStep?
    case OtherFail(id, _, _) => ':' !in id && id !in sys.h.owner
    case Publish(event) => event.payload == Domain && event.sagaId == "" && !RouteOf(event.eventType).OnStep?
    case Deliver(e) => e < |sys.coord.outbox| && (e !in sys.done && e in sys.pcs ==> sys.pcs[e] == Over)
    case DeliverUnchecked(e) => e < |sys.coord.outbox| && (e in sys.pcs ==> sys.pcs[e] == Over)
    case Work(e, _) => e in sys.pcs && e < |sys.coord.outbox|
    case Drop(e) => e in sys.pcs
    case _ => true
  }

  function Apply(sys: Sys, m: Move): Sys {
    match m
    case NewDocument(doc) =>
      sys.(docs := sys.docs[doc := "draft"],
           coord := Append(sys.coord, DomainEvent("document", doc, "document_uploaded")))
    case StartUpload(id, doc, io) =>
      sys.(coord := Start(sys.coord, UploadSaga(id, doc), io),
           h := sys.h.(used := sys.h.used + {id},
                       owner := if io.sagaWrite then sys.h.owner[id := doc] else sys.h.owner))
    case OtherStart(s, io) => sys.(coord := Start(sys.coord, s, io), h := sys.h.(used := sys.h.used + {s.id}))
    case OtherComplete(id, step, io) => sys.(coord := CompleteStep(sys.coord, id, step, io))
    case OtherFail(id, step, io) => sys.(coord := Fail(sys.coord, id, step, io))
    case Publish(event) => sys.(coord := Append(sys.coord, event))
    case Expire(key) => sys.(coord := sys.coord.(redis := sys.coord.redis - {key}))
    case SetStatus(doc, status) => sys.(docs := sys.docs[doc := status])
    case SetRows(doc, rows) => sys.(stores := sys.stores[doc := rows])
    case Deliver(e) =>
      if e in sys.done then sys else At(sys.(done := sys.done + {e}), e, Begin(MAX_TRIES))
    case DeliverUnchecked(e) => At(sys, e, Begin(MAX_TRIES))
    case Work(e, r) => if e in sys.pcs && e < |sys.coord.outbox| then WorkStep(sys, e, r) else sys
    case Drop(e) => At(sys, e, Over)
  }

  /**
   * The move dispatches an event that was dispatched before. Only a failing Redis leads there: a
   * delivery whose dedupe key cannot be set is handled unchecked, and leaves no key behind.
   */
  predicate Repeats(sys: Sys, m: Move) {
    ((m.Deliver? && m.e !in sys.done) || m.DeliverUnchecked?) && m.e in sys.pcs
  }

  function Run(sys: Sys, moves: seq<Move>): Sys {
    if moves == [] then sys else Apply(Run(sys, moves[..|moves| - 1]), moves[|moves| - 1])
  }

  ghost predicate Legal(sys: Sys, moves: seq<Move>) {
    moves != [] ==>
      Legal(sys, moves[..|moves| - 1]) && Enabled(Run(sys, moves[..|moves| - 1]), moves[|moves| - 1])
  }

  /** Each event is dispatched by at most one delivery, whose attempts may still be several. */
  ghost predicate OncePerEvent(sys: Sys, moves: seq<Move>) {
    moves != [] ==>
      OncePerEvent(sys, moves[..|moves| - 1]) && !Repeats(Run(sys, moves[..|moves| - 1]), moves[|moves| - 1])
  }
}
