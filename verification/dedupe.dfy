/** Why the worker's dedupe key matters: what a second dispatch of the same event does. */
module Dedupe {
  import opened Basics
  import opened Sagas
  import opened SagaEffects
  import opened Pipeline
  import opened UploadSagas
  import opened EveryRun
  import PipelineSafety
  import Deliveries
  import Workers

  /** The world answers every call well. */
  const FINE := Reply(false, true, true, Io(true, true, true))

  /** The next n calls of one delivery. */
  function Again(e: nat, n: nat): seq<Move> {
    seq(n, _ => Work(e, FINE))
  }

  /** The same as a run, one call after another. */
  function Repeat(sys: Sys, e: nat, n: nat): Sys {
    if n == 0 then sys else Apply(Repeat(sys, e, n - 1), Work(e, FINE))
  }

  lemma {:induction false} RepeatRuns(sys: Sys, e: nat, n: nat)
    ensures Run(sys, Again(e, n)) == Repeat(sys, e, n)
  {
    if n > 0 {
      RepeatRuns(sys, e, n - 1);
      assert Again(e, n)[..n - 1] == Again(e, n - 1);
    }
  }

  lemma {:induction false} RepeatAdds(sys: Sys, e: nat, m: nat, n: nat)
    ensures Repeat(Repeat(sys, e, m), e, n) == Repeat(sys, e, m + n)
    decreases n
  {
    hide Apply;
    if n > 0 { RepeatAdds(sys, e, m, n - 1); }
  }

  lemma RepeatOnce(sys: Sys, e: nat)
    requires e in sys.pcs && e < |sys.coord.outbox|
    ensures Repeat(sys, e, 1) == WorkStep(sys, e, FINE)
  {
    assert Repeat(sys, e, 0) == sys;
  }

  /** The event dispatches the action of step k, while the stored, running saga's next step is f. */
  ghost predicate Facing(sys: Sys, e: nat, evt: Event, id: string, k: nat, f: nat) {
    && 1 <= k <= 4 && 1 <= f <= 4
    && e < |sys.coord.outbox| && sys.coord.outbox[e] == evt && RouteOf(evt.eventType) == OnStep(k)
    && id != "" && ':' !in id && evt.aggType == "document" && Ref(sys.coord, "document", evt.aggId) == Some(id)
    && Get(sys.coord, id).Some? && var s := Get(sys.coord, id).value;
    && s.id == id && s.aggId == evt.aggId && UploadShape(s) && Front(s) == f && s.status == StatusRunning
  }

  /** The delivery got from one place to another; only its action is recorded, and no scan adds rows. */
  ghost predicate Got(sys: Sys, next: Sys, e: nat, pc: Pc, ran: set<(string, nat)>) {
    && next.coord == sys.coord && next.docs == sys.docs && e in next.pcs && next.pcs[e] == pc
    && next.h.ran == sys.h.ran + ran
    && ((forall p :: p in ran ==> p.1 == 1) ==> next.stores == sys.stores)
  }

  lemma BeginsToAct(sys: Sys, e: nat, evt: Event, id: string, k: nat, f: nat, t: nat)
    requires Facing(sys, e, evt, id, k, f) && e in sys.pcs && sys.pcs[e] == Begin(t)
    ensures Got(sys, WorkStep(sys, e, FINE), e, Acting(evt.aggId, k, t), {})
    ensures RowsOf(WorkStep(sys, e, FINE), evt.aggId) == RowsOf(sys, evt.aggId)
  {
    hide RouteOf, Get, Ref, Front;
    UploadNames(Get(sys.coord, id).value);
  }

  lemma ScansOnce(sys: Sys, e: nat, doc: string, rows: seq<Storage>, i: nat, t: nat)
    requires e in sys.pcs && e < |sys.coord.outbox| && sys.pcs[e] == Scanning(doc, rows, i, true, t) && i <= |rows|
    ensures var next := WorkStep(sys, e, FINE);
      if i < |rows| then Got(sys, next, e, Scanning(doc, rows, i + 1, true, t), {})
      else Got(sys, next, e, Reloading(doc, 1, true, t), {(doc, 1)})
  {
    hide Skipped;
  }

  lemma {:induction false} ScansThrough(sys: Sys, e: nat, doc: string, rows: seq<Storage>, i: nat, t: nat)
    requires e in sys.pcs && e < |sys.coord.outbox| && sys.pcs[e] == Scanning(doc, rows, i, true, t) && i <= |rows|
    ensures Got(sys, Repeat(sys, e, |rows| - i + 1), e, Reloading(doc, 1, true, t), {(doc, 1)})
    decreases |rows| - i
  {
    hide WorkStep, Apply;
    ScansOnce(sys, e, doc, rows, i, t);
    RepeatOnce(sys, e);
    if i < |rows| {
      ScansThrough(WorkStep(sys, e, FINE), e, doc, rows, i + 1, t);
      RepeatAdds(sys, e, 1, |rows| - i);
    }
  }

  lemma ActsOnce(sys: Sys, e: nat, doc: string, k: nat, t: nat)
    requires e in sys.pcs && e < |sys.coord.outbox| && sys.pcs[e] == Acting(doc, k, t)
    requires k == 1 ==> !MissingChecksum(RowsOf(sys, doc))
    ensures var next, rows := WorkStep(sys, e, FINE), RowsOf(sys, doc);
      if k != 1 || ClearedByChecksum(sys, rows) then Got(sys, next, e, Reloading(doc, k, true, t), {(doc, k)})
      else Got(sys, next, e, Scanning(doc, rows, 0, true, t), {})
  {
    hide MissingChecksum, RowsOf;
  }

  /** The action runs to success; the virus scan needs rows that all carry a checksum. */
  lemma ActsToReload(sys: Sys, e: nat, doc: string, k: nat, t: nat) returns (n: nat)
    requires e in sys.pcs && e < |sys.coord.outbox| && sys.pcs[e] == Acting(doc, k, t)
    requires k == 1 ==> !MissingChecksum(RowsOf(sys, doc))
    ensures Got(sys, Repeat(sys, e, n), e, Reloading(doc, k, true, t), {(doc, k)})
  {
    hide MissingChecksum, RowsOf, ClearedByChecksum, WorkStep, Apply;
    ActsOnce(sys, e, doc, k, t);
    RepeatOnce(sys, e);
    var next, rows := Repeat(sys, e, 1), RowsOf(sys, doc);
    n := 1;
    if k == 1 && !ClearedByChecksum(sys, rows) {
      ScansThrough(next, e, doc, rows, 0, t);
      n := 1 + (|rows| + 1);
      RepeatAdds(sys, e, 1, |rows| + 1);
    }
  }

  lemma ReloadsToComplete(sys: Sys, e: nat, evt: Event, id: string, k: nat, f: nat, t: nat)
    requires Facing(sys, e, evt, id, k, f) && e in sys.pcs && sys.pcs[e] == Reloading(evt.aggId, k, true, t)
    ensures Got(sys, WorkStep(sys, e, FINE), e, Completing(id, evt.aggId, DOCUMENT_UPLOAD_STEPS[f], k, t), {})
  {
    hide RouteOf, Get, Ref, Front;
    UploadNames(Get(sys.coord, id).value);
  }

  /** The saga completed its step f: it is past it, and the step's event is the last of the outbox. */
  ghost predicate Past(sys: Sys, end: Sys, doc: string, id: string, f: nat)
    requires f < 5
  {
    && Get(end.coord, id).Some? && Front(Get(end.coord, id).value) == f + 1
    && Ref(end.coord, "document", doc) == Some(id)
    && end.docs == sys.docs && end.coord.outbox == sys.coord.outbox
      + [Event("document", doc, "saga." + DOCUMENT_UPLOAD_STEPS[f], id, Done(DOCUMENT_UPLOAD_STEPS[f]))]
  }

  /** Whatever step is current completes. */
  lemma CompletesCurrent(sys: Sys, e: nat, evt: Event, id: string, k: nat, f: nat, t: nat)
    requires Facing(sys, e, evt, id, k, f) && e in sys.pcs
    requires sys.pcs[e] == Completing(id, evt.aggId, DOCUMENT_UPLOAD_STEPS[f], k, t)
    ensures var end := WorkStep(sys, e, FINE);
      && end.h.ran == sys.h.ran && end.stores == sys.stores && e in end.pcs && Past(sys, end, evt.aggId, id, f)
      && end.pcs[e] == (if f < 4 then Over else Finalizing(evt.aggId, t))
      && (f < 4 ==> Facing(end, e, evt, id, k, f + 1))
  {
    hide RouteOf, Get, Ref, CompleteStep, Front;
    var s := Get(sys.coord, id).value;
    AlreadyDoneIffPassed(s, f);
    CompleteEffect(sys.coord, id, DOCUMENT_UPLOAD_STEPS[f], FINE.io);
    AdvanceUpload(s, f);
  }

  /** Dispatching the event of step k runs that step's action and comes to complete the current step f. */
  lemma DispatchActs(sys: Sys, e: nat, evt: Event, id: string, k: nat, f: nat) returns (n: nat)
    requires Facing(sys, e, evt, id, k, f) && e in sys.pcs && sys.pcs[e] == Begin(MAX_TRIES)
    requires k == 1 ==> !MissingChecksum(RowsOf(sys, evt.aggId))
    ensures var pc := Completing(id, evt.aggId, DOCUMENT_UPLOAD_STEPS[f], k, MAX_TRIES);
      Got(sys, Repeat(sys, e, n), e, pc, {(evt.aggId, k)})
  {
    hide RouteOf, Get, Ref, Front, UploadShape, WorkStep, Apply, RowsOf, MissingChecksum, Repeat;
    BeginsToAct(sys, e, evt, id, k, f, MAX_TRIES);
    RepeatOnce(sys, e);
    var acting := Repeat(sys, e, 1);
    var m := ActsToReload(acting, e, evt.aggId, k, MAX_TRIES);
    var reloading := Repeat(acting, e, m);
    ReloadsToComplete(reloading, e, evt, id, k, f, MAX_TRIES);
    RepeatOnce(reloading, e);
    RepeatAdds(sys, e, 1, m);
    RepeatAdds(sys, e, 1 + m, 1);
    n := 1 + m + 1;
  }

  /** And then it completes it. */
  lemma DispatchCompletes(sys: Sys, e: nat, evt: Event, id: string, k: nat, f: nat) returns (n: nat)
    requires Facing(sys, e, evt, id, k, f) && e in sys.pcs && sys.pcs[e] == Begin(MAX_TRIES)
    requires k == 1 ==> !MissingChecksum(RowsOf(sys, evt.aggId))
    ensures var end := Repeat(sys, e, n);
      && end.h.ran == sys.h.ran + {(evt.aggId, k)} && (k == 1 ==> end.stores == sys.stores) && e in end.pcs
      && Past(sys, end, evt.aggId, id, f) && end.pcs[e] == (if f < 4 then Over else Finalizing(evt.aggId, MAX_TRIES))
      && (f < 4 ==> Facing(end, e, evt, id, k, f + 1))
  {
    hide RouteOf, Get, Ref, Front, UploadShape, WorkStep, Apply, RowsOf, MissingChecksum, Repeat;
    var m := DispatchActs(sys, e, evt, id, k, f);
    var completing := Repeat(sys, e, m);
    CompletesCurrent(completing, e, evt, id, k, f, MAX_TRIES);
    RepeatOnce(completing, e);
    RepeatAdds(sys, e, m, 1);
    n := m + 1;
  }

  lemma {:induction false} AgainLegal(sys: Sys, e: nat, n: nat)
    requires e in sys.pcs && e < |sys.coord.outbox|
    ensures Legal(sys, Again(e, n)) && e in Repeat(sys, e, n).pcs && sys.coord.outbox <= Repeat(sys, e, n).coord.outbox
  {
    if n > 0 {
      AgainLegal(sys, e, n - 1);
      assert Again(e, n)[..n - 1] == Again(e, n - 1);
      RepeatRuns(sys, e, n - 1);
      Workers.WorkFacts(Repeat(sys, e, n - 1), e, FINE);
      Deliveries.OwnStep(Repeat(sys, e, n - 1), e, FINE);
      hide WorkStep;
    }
  }

  lemma {:induction false} Continues(init: Sys, moves: seq<Move>, more: seq<Move>)
    requires Legal(init, moves) && Legal(Run(init, moves), more)
    ensures Legal(init, moves + more) && Run(init, moves + more) == Run(Run(init, moves), more)
    decreases |more|
  {
    hide Apply, Enabled;
    if more == [] {
      assert moves + more == moves;
    } else {
      var front := more[..|more| - 1];
      Continues(init, moves, front);
      assert (moves + more)[..|moves + more| - 1] == moves + front;
    }
  }

  /**
   * Main result: when an event comes again while Redis cannot tell that it was handled, its
   * handler completes whatever step f the saga is at; the action of step f has run afterwards
   * exactly when it had before or the event was the one of step f. So every event behind the
   * saga's front completes a step whose action was skipped.
   */
  lemma SecondDispatchSkipsAnAction(noop: bool, moves: seq<Move>, e: nat, k: nat) returns (n: nat)
    requires Legal(Init(noop), moves)
    requires var sys := Run(Init(noop), moves);
      && e in sys.pcs && sys.pcs[e] == Over && e < |sys.coord.outbox|
      && var evt := sys.coord.outbox[e]; var id := evt.sagaId;
      && RouteOf(evt.eventType) == OnStep(k)
      && Ref(sys.coord, "document", evt.aggId) == Some(id) && Get(sys.coord, id).Some?
      && Get(sys.coord, id).value.status == StatusRunning
      && (k == 1 ==> !MissingChecksum(RowsOf(sys, evt.aggId)))
    ensures var sys := Run(Init(noop), moves); var evt := sys.coord.outbox[e]; var doc, id := evt.aggId, evt.sagaId;
      var f := Front(Get(sys.coord, id).value);
      var all := moves + [DeliverUnchecked(e)] + Again(e, n);
      var end := Run(Init(noop), all);
      && Legal(Init(noop), all) && k <= f <= 4
      && Get(end.coord, id).Some? && DoneAt(Get(end.coord, id).value, f)
      && ((doc, f) in end.h.ran <==> f == k || (doc, f) in sys.h.ran)
  {
    hide Run, Legal, RouteOf, Get, Ref, Front, UploadShape, Always, Apply, Facing, DoneAt, MissingChecksum, Again,
      Repeat, Enabled;
    var sys := Run(Init(noop), moves);
    var evt := sys.coord.outbox[e];
    var f := Front(Get(sys.coord, evt.sagaId).value);
    EveryRun.RunKeeps(noop, moves);
    FacingOwn(sys, e, k);
    var taken := At(sys, e, Begin(MAX_TRIES));
    Taken(Init(noop), moves, e);
    n := DispatchCompletes(taken, e, evt, evt.sagaId, k, f);
    AgainLegal(taken, e, n);
    RepeatRuns(taken, e, n);
    Continues(Init(noop), moves + [DeliverUnchecked(e)], Again(e, n));
    FrontDone(Get(Repeat(taken, e, n).coord, evt.sagaId).value, f);
  }

  lemma FrontDone(s: Saga, i: nat)
    requires i < Front(s)
    ensures DoneAt(s, i)
  {
  }

  lemma Taken(init: Sys, moves: seq<Move>, e: nat)
    requires Legal(init, moves)
    requires var sys := Run(init, moves); e in sys.pcs && sys.pcs[e] == Over && e < |sys.coord.outbox|
    ensures Legal(init, moves + [DeliverUnchecked(e)])
    ensures Run(init, moves + [DeliverUnchecked(e)]) == At(Run(init, moves), e, Begin(MAX_TRIES))
  {
    assert (moves + [DeliverUnchecked(e)])[..|moves|] == moves;
  }

  /** A handled step event of a running saga faces the saga's next step, at or past its own. */
  lemma FacingOwn(sys: Sys, e: nat, k: nat)
    requires Always(sys) && e < |sys.coord.outbox| && RouteOf(sys.coord.outbox[e].eventType) == OnStep(k)
    requires e in sys.pcs
    requires var evt := sys.coord.outbox[e];
      && Ref(sys.coord, "document", evt.aggId) == Some(evt.sagaId) && Get(sys.coord, evt.sagaId).Some?
      && Get(sys.coord, evt.sagaId).value.status == StatusRunning
    ensures var evt := sys.coord.outbox[e]; var f := Front(Get(sys.coord, evt.sagaId).value);
      && k <= f <= 4 && Facing(sys, e, evt, evt.sagaId, k, f)
      && Facing(At(sys, e, Begin(MAX_TRIES)), e, evt, evt.sagaId, k, f)
  {
    hide RouteOf, Get, Ref, Front, Pos, Always, Core, FailedShape, HistoryOk;
    var evt := sys.coord.outbox[e];
    Standing(sys, e);
    OwnSaga(sys, evt.sagaId);
    FrontBound(Get(sys.coord, evt.sagaId).value);
  }

  // ---- A run that leads there ---------------------------------------------

  lemma Snoc(init: Sys, moves: seq<Move>, m: Move)
    requires Legal(init, moves) && Enabled(Run(init, moves), m)
    ensures Legal(init, moves + [m]) && Run(init, moves + [m]) == Apply(Run(init, moves), m)
    ensures OncePerEvent(init, moves) && !Repeats(Run(init, moves), m) ==> OncePerEvent(init, moves + [m])
  {
    hide Apply, Enabled, Repeats;
    assert (moves + [m])[..|moves|] == moves;
  }

  lemma {:induction false} SnocAgain(init: Sys, moves: seq<Move>, e: nat, n: nat)
    requires Legal(init, moves) && e in Run(init, moves).pcs && e < |Run(init, moves).coord.outbox|
    ensures Legal(init, moves + Again(e, n)) && Run(init, moves + Again(e, n)) == Repeat(Run(init, moves), e, n)
    ensures OncePerEvent(init, moves) ==> OncePerEvent(init, moves + Again(e, n))
  {
    hide Apply;
    if n == 0 {
      assert moves + Again(e, 0) == moves;
    } else {
      SnocAgain(init, moves, e, n - 1);
      AgainLegal(Run(init, moves), e, n - 1);
      Snoc(init, moves + Again(e, n - 1), Work(e, FINE));
      assert moves + Again(e, n - 1) + [Work(e, FINE)] == moves + Again(e, n);
    }
  }

  const ALL_WRITTEN := Io(true, true, true)

  function Uploaded(): Event {
    DomainEvent("document", "d", "document_uploaded")
  }

  /** The document "d" is created and its upload saga "s" started. */
  lemma UploadStarts() returns (moves: seq<Move>)
    ensures Legal(Init(true), moves) && OncePerEvent(Init(true), moves)
    ensures var sys := Run(Init(true), moves);
      && sys.coord == Start(Coord(map[], [Uploaded()]), UploadSaga("s", "d"), ALL_WRITTEN)
      && sys.done == {} && sys.pcs == map[] && sys.stores == map[] && sys.h.ran == {} && sys.docs == map["d" := "draft"]
  {
    hide Start, UploadSaga;
    var init := Init(true);
    assert Run(init, []) == init && Legal(init, []) && OncePerEvent(init, []);
    Snoc(init, [], NewDocument("d"));
    moves := [] + [NewDocument("d")];
    assert [] + [Uploaded()] == [Uploaded()];
    Snoc(init, moves, StartUpload("s", "d", ALL_WRITTEN));
    moves := moves + [StartUpload("s", "d", ALL_WRITTEN)];
  }

  lemma StartedFacts(c: Coord)
    requires c == Start(Coord(map[], [Uploaded()]), UploadSaga("s", "d"), ALL_WRITTEN)
    ensures |c.outbox| == 2 && c.outbox[0] == Uploaded()
    ensures Ref(c, "document", "d") == Some("s") && Get(c, "s") == Some(UploadSaga("s", "d"))
  {
    var c0 := Coord(map[], [Uploaded()]);
    StartEffect(c0, UploadSaga("s", "d"), ALL_WRITTEN);
    FreshUpload("s", "d");
    hide UploadSaga;
  }

  /** Its upload step completes, which emits the event saga.upload at position 2. */
  lemma UploadCompletes() returns (moves: seq<Move>)
    ensures Legal(Init(true), moves) && OncePerEvent(Init(true), moves)
    ensures Kicked(Run(Init(true), moves))
  {
    moves := UploadStarts();
    var sys := Run(Init(true), moves);
    StartedFacts(sys.coord);
    hide Run, Legal, OncePerEvent, Start, WorkStep, DomainEvent, Kicked;
    Snoc(Init(true), moves, Deliver(0));
    moves := moves + [Deliver(0)];
    SnocAgain(Init(true), moves, 0, 3);
    KickRuns(sys, Run(Init(true), moves));
    moves := moves + Again(0, 3);
  }

  /** The events delivered are the first n, and "d" is still a draft. */
  ghost predicate Delivered(sys: Sys, n: nat) {
    (forall e :: e in sys.done || e in sys.pcs ==> e < n) && "d" in sys.docs && sys.docs["d"] == "draft"
  }

  ghost predicate Kicked(sys: Sys) {
    && |sys.coord.outbox| == 3 && Facing(sys, 2, sys.coord.outbox[2], "s", 1, 1)
    && sys.coord.outbox[2].sagaId == "s" && sys.coord.outbox[2].aggId == "d"
    && Delivered(sys, 2) && sys.stores == map[] && sys.h.ran == {}
  }

  lemma KickRuns(sys: Sys, taken: Sys)
    requires taken == At(sys.(done := {0}), 0, Begin(MAX_TRIES)) && sys.pcs == map[]
    requires sys.stores == map[] && sys.h.ran == {} && sys.docs == map["d" := "draft"]
    requires |sys.coord.outbox| == 2 && sys.coord.outbox[0] == Uploaded()
    requires Ref(sys.coord, "document", "d") == Some("s") && Get(sys.coord, "s") == Some(UploadSaga("s", "d"))
    ensures Kicked(Repeat(taken, 0, 3))
  {
    hide Get, Ref, UploadSaga, CompleteStep, Front, RouteOf;
    PlainRoutes();
    FreshUpload("s", "d");
    UploadNames(UploadSaga("s", "d"));
    RepeatOnce(taken, 0);
    var kicking := WorkStep(taken, 0, FINE);
    assert kicking == At(taken, 0, Kicking("s", MAX_TRIES));
    var pushing := WorkStep(kicking, 0, FINE);
    KickCompletes(kicking, pushing);
    var over := WorkStep(pushing, 0, FINE);
    assert over == At(pushing, 0, Over);
    assert Repeat(taken, 0, 2) == pushing && Repeat(taken, 0, 3) == over;
  }

  lemma KickCompletes(sys: Sys, next: Sys)
    requires 0 in sys.pcs && |sys.coord.outbox| == 2 && sys.pcs[0] == Kicking("s", MAX_TRIES)
    requires next == WorkStep(sys, 0, FINE)
    requires Ref(sys.coord, "document", "d") == Some("s") && Get(sys.coord, "s") == Some(UploadSaga("s", "d"))
    requires sys.pcs.Keys == {0} && sys.done == {0} && sys.stores == map[] && sys.h.ran == {}
    requires sys.docs == map["d" := "draft"]
    ensures 0 in next.pcs && next.pcs[0] == Pushing(MAX_TRIES) && Kicked(next)
  {
    hide Get, Ref, UploadSaga, CompleteStep, Front, RouteOf, Advance;
    var s := UploadSaga("s", "d");
    FreshUpload("s", "d");
    assert DOCUMENT_UPLOAD_STEPS[0] == "upload";
    AlreadyDoneIffPassed(s, 0);
    CompleteEffect(sys.coord, "s", "upload", FINE.io);
    AdvanceUpload(s, 0);
    UploadRoute(0);
    assert next.coord == CompleteStep(sys.coord, "s", "upload", FINE.io);
  }

  /**
   * The case is real: replaying saga.upload after its handler finished completes
   * metadata_extraction, although that action never ran.
   */
  lemma ReplayedUploadSkipsMetadata() returns (moves: seq<Move>, n: nat)
    ensures Legal(Init(true), moves) && OncePerEvent(Init(true), moves)
    ensures var all := moves + [DeliverUnchecked(2)] + Again(2, n);
      var end := Run(Init(true), all);
      && Legal(Init(true), all) && Get(end.coord, "s").Some?
      && DOCUMENT_UPLOAD_STEPS[2] == "metadata_extraction" && DoneAt(Get(end.coord, "s").value, 2)
      && ("d", 2) !in end.h.ran
  {
    moves := UploadHandled();
    hide Run, Legal, OncePerEvent, WorkStep, RouteOf, Get, Ref, Front, UploadShape;
    n := Replay(moves, Run(Init(true), moves));
  }

  ghost predicate Handled(sys: Sys) {
    && |sys.coord.outbox| == 4 && Facing(sys, 2, sys.coord.outbox[2], "s", 1, 2) && 2 in sys.pcs && sys.pcs[2] == Over
    && sys.coord.outbox[3] == Event("document", "d", "saga.virus_scan", "s", Done("virus_scan")) && Delivered(sys, 3)
    && sys.coord.outbox[2].sagaId == "s" && sys.coord.outbox[2].aggId == "d" && sys.h.ran == {("d", 1)}
    && !MissingChecksum(RowsOf(sys, "d"))
  }

  /** saga.upload is delivered and handled: the scan ran, and virus_scan is complete. */
  lemma UploadHandled() returns (moves: seq<Move>)
    ensures Legal(Init(true), moves) && OncePerEvent(Init(true), moves) && Handled(Run(Init(true), moves))
  {
    moves := UploadCompletes();
    var sys := Run(Init(true), moves);
    hide Run, Legal, OncePerEvent, WorkStep, RouteOf, Get, Ref, Front, UploadShape;
    Snoc(Init(true), moves, Deliver(2));
    moves := moves + [Deliver(2)];
    var n := FirstDispatch(sys);
    SnocAgain(Init(true), moves, 2, n);
    moves := moves + Again(2, n);
  }

  lemma FirstDispatch(sys: Sys) returns (n: nat)
    requires Kicked(sys)
    ensures Handled(Repeat(Apply(sys, Deliver(2)), 2, n))
  {
    hide WorkStep, RouteOf, Get, Ref, Front, UploadShape, Facing, RowsOf, MissingChecksum, Repeat;
    var taken := At(sys.(done := sys.done + {2}), 2, Begin(MAX_TRIES));
    assert Apply(sys, Deliver(2)) == taken;
    FacingAt(sys, 2, {2}, "s", 1, 1);
    NoRows(taken);
    hide Apply;
    n := DispatchCompletes(taken, 2, sys.coord.outbox[2], "s", 1, 1);
    NoRows(Repeat(taken, 2, n));
    RepeatOwn(taken, 2, n);
    ScanEvent();
  }

  lemma NoRows(sys: Sys)
    requires sys.stores == map[]
    ensures !MissingChecksum(RowsOf(sys, "d"))
  {
  }

  lemma ScanEvent()
    ensures DOCUMENT_UPLOAD_STEPS[1] == "virus_scan" && "saga." + DOCUMENT_UPLOAD_STEPS[1] == "saga.virus_scan"
  {
  }

  /** Taking a message changes nothing a dispatch looks at. */
  lemma FacingAt(sys: Sys, e: nat, done: set<nat>, id: string, k: nat, f: nat)
    requires e < |sys.coord.outbox| && Facing(sys, e, sys.coord.outbox[e], id, k, f)
    ensures Facing(At(sys.(done := sys.done + done), e, Begin(MAX_TRIES)), e, sys.coord.outbox[e], id, k, f)
  {
  }

  /** A delivery's calls move no other delivery and set no dedupe key. */
  lemma {:induction false} RepeatOwn(sys: Sys, e: nat, n: nat)
    requires e in sys.pcs && e < |sys.coord.outbox|
    ensures var end := Repeat(sys, e, n); end.done == sys.done && e in end.pcs && end.pcs == sys.pcs[e := end.pcs[e]]
  {
    if n == 0 {
      assert sys.pcs[e := sys.pcs[e]] == sys.pcs;
    } else {
      RepeatOwn(sys, e, n - 1);
      AgainLegal(sys, e, n - 1);
      Deliveries.OwnStep(Repeat(sys, e, n - 1), e, FINE);
      hide WorkStep;
    }
  }

  lemma Replay(moves: seq<Move>, sys: Sys) returns (n: nat)
    requires Legal(Init(true), moves) && OncePerEvent(Init(true), moves) && sys == Run(Init(true), moves)
    requires Handled(sys)
    ensures var end := Run(Init(true), moves + [DeliverUnchecked(2)] + Again(2, n));
      && Legal(Init(true), moves + [DeliverUnchecked(2)] + Again(2, n))
      && Get(end.coord, "s").Some? && DoneAt(Get(end.coord, "s").value, 2) && ("d", 2) !in end.h.ran
  {
    hide Run, Legal, OncePerEvent, RouteOf, Get, Ref, Front, UploadShape, RowsOf, MissingChecksum;
    n := SecondDispatchSkipsAnAction(true, moves, 2, 1);
  }
}
