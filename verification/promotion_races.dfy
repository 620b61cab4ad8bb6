/**
 * What can happen while a delivery is about to promote a document: a repeated saga.upload fails
 * the completed saga, or a decision is written and lost; each with a run that gets there.
 */
module PromotionRaces {
  import opened Basics
  import opened Sagas
  import opened SagaEffects
  import opened Pipeline
  import opened UploadSagas
  import opened EveryRun
  import opened Dedupe
  import Deliveries
  import PipelineSafety

  /** A row whose checksum is missing. */
  const UNCHECKED := Storage("r", "", "k", "minio")

  /** The document's rows lose their checksum, the scan convicts and fails the saga, and it is promoted. */
  function Convictions(e: nat, g: nat, doc: string): seq<Move> {
    [SetRows(doc, [UNCHECKED])] + Again(g, 3) + [Work(e, FINE)]
  }

  /** Delivery e is about to promote the document while g is about to scan it again. */
  ghost predicate Racing(sys: Sys, e: nat, g: nat, doc: string) {
    && e in sys.pcs && sys.pcs[e].Promoting? && sys.pcs[e].doc == doc
    && g in sys.pcs && sys.pcs[g].Acting? && sys.pcs[g].doc == doc && sys.pcs[g].k == 1
    && FindByAggregate(sys.coord, "document", doc).Some?
  }

  /** The saga is stored failed, after it completed. */
  ghost predicate FailedLate(sys: Sys, id: string) {
    && id in sys.h.everDone && id in sys.h.everFailed
    && Get(sys.coord, id).Some? && Get(sys.coord, id).value.status == StatusFailed
  }

  /** The repeated scan finds the row, and fails the saga. */
  lemma Convicts(sys: Sys, e: nat, g: nat, doc: string)
    requires Always(sys) && Racing(sys, e, g, doc) && RowsOf(sys, doc) == [UNCHECKED]
    requires e < |sys.coord.outbox| && g < |sys.coord.outbox|
    ensures FailedLate(Repeat(sys, g, 3), sys.coord.outbox[e].sagaId)
  {
    hide Get, Always, Core, Fail, RowsOf, FindByAggregate, Front, RouteOf, Pos, Repeat, Apply;
    var id, rows, t := sys.coord.outbox[e].sagaId, [UNCHECKED], sys.pcs[g].tries;
    Standing(sys, e);
    FoundForDoc(sys, doc, id);
    OwnSaga(sys, id);
    var convicting := At(sys, g, Convicting(doc, rows, 1, t));
    var failing := At(convicting, g, Failing(id, doc, rows, 1, t));
    ScansToFail(sys, g, doc, id, t);
    Fails(failing, g, id, doc, rows, t);
    hide WorkStep, FailedLate;
    RepeatOnce(sys, g);
    RepeatOnce(convicting, g);
    RepeatOnce(failing, g);
    RepeatAdds(sys, g, 1, 1);
    RepeatAdds(sys, g, 2, 1);
  }

  lemma ScansToFail(sys: Sys, g: nat, doc: string, id: string, t: nat)
    requires g in sys.pcs && g < |sys.coord.outbox| && sys.pcs[g] == Acting(doc, 1, t)
    requires RowsOf(sys, doc) == [UNCHECKED]
    requires var found := FindByAggregate(sys.coord, "document", doc); found.Some? && found.value.id == id
    ensures var convicting := At(sys, g, Convicting(doc, [UNCHECKED], 1, t));
      && WorkStep(sys, g, FINE) == convicting
      && WorkStep(convicting, g, FINE) == At(convicting, g, Failing(id, doc, [UNCHECKED], 1, t))
  {
    hide FindByAggregate, RowsOf;
    assert [UNCHECKED][0].checksum == "" && MissingChecksum([UNCHECKED]);
  }

  lemma Fails(sys: Sys, g: nat, id: string, doc: string, rows: seq<Storage>, t: nat)
    requires g in sys.pcs && g < |sys.coord.outbox| && sys.pcs[g] == Failing(id, doc, rows, 1, t)
    requires ':' !in id && id != "" && id in sys.h.everDone
    requires Get(sys.coord, id).Some? && Get(sys.coord, id).value.id == id
    ensures FailedLate(WorkStep(sys, g, FINE), id)
  {
    hide Get, Fail;
    FailEffect(sys.coord, id, "virus_scan", FINE.io);
  }

  lemma Promotes(sys: Sys, e: nat, doc: string)
    requires e in sys.pcs && e < |sys.coord.outbox| && sys.pcs[e].Promoting? && sys.pcs[e].doc == doc
    requires FailedLate(sys, sys.coord.outbox[e].sagaId)
    ensures var end := WorkStep(sys, e, FINE);
      && doc in end.docs && end.docs[doc] == "pending_verification"
      && doc in end.h.promoted && end.h.promoted[doc] == sys.coord.outbox[e].sagaId
      && FailedLate(end, sys.coord.outbox[e].sagaId)
  {
    var event := DomainEvent("document", doc, "verification_needed");
    SameLookups(sys.coord, event);
    hide Get;
    assert WorkStep(sys, e, FINE).coord == Append(sys.coord, event);
  }

  /**
   * Main result: from every reached state in which a completed saga is about to promote its
   * document while a repeated saga.upload is about to scan it, the saga may fail and still be the
   * one that promotes.
   */
  lemma RepeatedScanFailsPromoter(noop: bool, moves: seq<Move>, e: nat, g: nat, doc: string)
    requires Legal(Init(noop), moves) && Racing(Run(Init(noop), moves), e, g, doc)
    ensures var all := moves + Convictions(e, g, doc); var end := Run(Init(noop), all);
      && Legal(Init(noop), all) && doc in end.docs && end.docs[doc] == "pending_verification"
      && doc in end.h.promoted && FailedLate(end, end.h.promoted[doc])
  {
    hide Run, Legal, Always, Repeat, FailedLate, Apply, Racing, Enabled, Again;
    var sys, rows := Run(Init(noop), moves), SetRows(doc, [UNCHECKED]);
    EveryRun.RunKeeps(noop, moves);
    assert Enabled(sys, rows) by { RowsAnytime(sys, doc); }
    Snoc(Init(noop), moves, rows);
    EveryRun.RunKeeps(noop, moves + [rows]);
    Race(sys, e, g, doc);
    SnocAgain(Init(noop), moves + [rows], g, 3);
    Snoc(Init(noop), moves + [rows] + Again(g, 3), Work(e, FINE));
    assert moves + [rows] + Again(g, 3) + [Work(e, FINE)] == moves + Convictions(e, g, doc);
  }

  lemma RowsAnytime(sys: Sys, doc: string)
    ensures Enabled(sys, SetRows(doc, [UNCHECKED]))
  {
  }

  lemma Race(sys: Sys, e: nat, g: nat, doc: string)
    requires Always(sys) && Always(Apply(sys, SetRows(doc, [UNCHECKED]))) && Racing(sys, e, g, doc)
    ensures var start := Apply(sys, SetRows(doc, [UNCHECKED])); var failed := Repeat(start, g, 3);
      && g in start.pcs && g < |start.coord.outbox| && Enabled(failed, Work(e, FINE))
      && var end := Apply(failed, Work(e, FINE));
      && doc in end.docs && end.docs[doc] == "pending_verification"
      && doc in end.h.promoted && FailedLate(end, end.h.promoted[doc])
  {
    hide Always, Repeat, FailedLate, WorkStep, FindByAggregate, PcOk, EventOk;
    Standing(sys, e);
    Standing(sys, g);
    var start := Apply(sys, SetRows(doc, [UNCHECKED]));
    Convicts(start, e, g, doc);
    RepeatOwn(start, g, 3);
    AgainLegal(start, g, 3);
    Promotes(Repeat(start, g, 3), e, doc);
  }

  /** A run that dispatches each event by at most one delivery never gets there. */
  lemma {:induction false} OnceNeverRaces(noop: bool, moves: seq<Move>, e: nat, g: nat, doc: string)
    requires Legal(Init(noop), moves) && OncePerEvent(Init(noop), moves)
    ensures !Racing(Run(Init(noop), moves), e, g, doc)
  {
    hide Run, Legal, OncePerEvent, Always, Core, FindByAggregate, Get, Front, Pos, RouteOf, EventOk,
      PipelineSafety.Once, PipelineSafety.EventOnce, PipelineSafety.HistoryOnce;
    var sys := Run(Init(noop), moves);
    if Racing(sys, e, g, doc) {
      PipelineSafety.RunKeeps(noop, moves);
      PipelineSafety.StandingOnce(sys, e);
      PipelineSafety.StandingOnce(sys, g);
      var id := sys.coord.outbox[e].sagaId;
      OwnSaga(sys, id);
      FoundForDoc(sys, doc, id);
      PipelineSafety.DoneFront(sys, id);
    }
  }

  // ---- Runs that get there -------------------------------------------------

  /** The latest step event of the saga "s" is the f-th, not delivered yet; all before were. */
  ghost predicate Latest(sys: Sys, f: nat) {
    && 2 <= f <= 4 && |sys.coord.outbox| == f + 2 && Facing(sys, f + 1, sys.coord.outbox[f + 1], "s", f, f)
    && sys.coord.outbox[f + 1].aggId == "d" && Delivered(sys, f + 1)
  }

  /** The event of a step faces the step after it, which is the saga's next. */
  lemma FacesNext(sys: Sys, e: nat, evt: Event, k: nat, f: nat, n: nat)
    requires 1 <= f < 4 && Facing(sys, e, evt, "s", k, f + 1) && evt.aggId == "d" && n < |sys.coord.outbox|
    requires var name := DOCUMENT_UPLOAD_STEPS[f];
      sys.coord.outbox[n] == Event("document", "d", "saga." + name, "s", Done(name))
    ensures Facing(sys, n, sys.coord.outbox[n], "s", f + 1, f + 1)
  {
    hide Get, Ref, RouteOf, Front, UploadShape;
    UploadRoute(f);
  }

  /** The latest step event is delivered, and its delivery completes the saga's next step. */
  lemma StepDone(sys: Sys, f: nat) returns (m: nat)
    requires Latest(sys, f)
    ensures var e, evt := f + 1, sys.coord.outbox[f + 1]; var taken := Apply(sys, Deliver(e));
      var end := Repeat(taken, e, m);
      && e in taken.pcs && taken.coord == sys.coord && Past(sys, end, "d", "s", f) && Delivered(end, f + 2)
      && e in end.pcs && end.pcs == sys.pcs[e := end.pcs[e]]
      && end.pcs[e] == (if f < 4 then Over else Finalizing("d", MAX_TRIES))
      && (f < 4 ==> Facing(end, e, evt, "s", f, f + 1))
  {
    hide WorkStep, RouteOf, Get, Ref, Front, UploadShape, Facing, Repeat;
    var e := f + 1;
    var taken := At(sys.(done := sys.done + {e}), e, Begin(MAX_TRIES));
    assert Apply(sys, Deliver(e)) == taken;
    FacingAt(sys, e, {e}, "s", f, f);
    hide Apply;
    m := DispatchCompletes(taken, e, sys.coord.outbox[e], "s", f, f);
    RepeatOwn(taken, e, m);
  }

  /** The same up to the promotion, after the last step. */
  lemma NextStep(sys: Sys, f: nat) returns (n: nat)
    requires Latest(sys, f)
    ensures var e := f + 1; var end := Repeat(Apply(sys, Deliver(e)), e, n);
      && e in end.pcs && end.pcs == sys.pcs[e := end.pcs[e]]
      && if f < 4 then Latest(end, f + 1) else Promotable(end)
  {
    hide Apply, WorkStep, RouteOf, Get, Ref, Front, UploadShape, Facing, Repeat, Promotable;
    var e := f + 1;
    var taken := Apply(sys, Deliver(e));
    n := StepDone(sys, f);
    var end := Repeat(taken, e, n);
    if f < 4 {
      FacesNext(end, e, sys.coord.outbox[e], f, f, e + 1);
    } else {
      RepeatOnce(end, e);
      RepeatAdds(taken, e, n, 1);
      Reads(end);
      Deliveries.OwnStep(end, e, FINE);
      n := n + 1;
    }
  }

  /** The delivery of the storage event is about to promote the draft. */
  ghost predicate Promotable(sys: Sys) {
    5 in sys.pcs && sys.pcs[5] == Promoting("d", MAX_TRIES) && FindByAggregate(sys.coord, "document", "d").Some?
  }

  lemma Reads(sys: Sys)
    requires 5 in sys.pcs && 5 < |sys.coord.outbox| && sys.pcs[5] == Finalizing("d", MAX_TRIES)
    requires "d" in sys.docs && sys.docs["d"] == "draft"
    requires Ref(sys.coord, "document", "d") == Some("s") && Get(sys.coord, "s").Some?
    ensures Promotable(WorkStep(sys, 5, FINE))
  {
    hide Get, Ref;
  }

  /** The rest of the upload: every other delivery stays where it was. */
  lemma {:induction false} UploadRuns(init: Sys, moves: seq<Move>, f: nat) returns (all: seq<Move>)
    requires Legal(init, moves) && Latest(Run(init, moves), f)
    ensures Legal(init, all) && Promotable(Run(init, all))
    ensures OncePerEvent(init, moves) ==> OncePerEvent(init, all)
    ensures forall x :: x in Run(init, moves).pcs && x <= f ==>
      x in Run(init, all).pcs && Run(init, all).pcs[x] == Run(init, moves).pcs[x]
    decreases 5 - f
  {
    hide Run, Legal, OncePerEvent, Facing, Repeat, Again, Promotable;
    var sys, e := Run(init, moves), f + 1;
    var n := NextStep(sys, f);
    Snoc(init, moves, Deliver(e));
    SnocAgain(init, moves + [Deliver(e)], e, n);
    hide Apply, Enabled, Repeats;
    all := moves + [Deliver(e)] + Again(e, n);
    if f < 4 {
      all := UploadRuns(init, all, f + 1);
    }
  }

  lemma HandledLatest(sys: Sys)
    requires Handled(sys)
    ensures Latest(sys, 2)
  {
    hide Facing, MissingChecksum, RowsOf;
    ScanEvent();
    FacesNext(sys, 2, sys.coord.outbox[2], 1, 1, 3);
  }

  /** The case is real, with every event dispatched once: a rejection that finalize overwrites. */
  lemma RejectionLost() returns (moves: seq<Move>)
    ensures var rejected := moves + [SetStatus("d", "rejected")]; var all := rejected + [Work(5, FINE)];
      && Legal(Init(true), all) && OncePerEvent(Init(true), moves)
      && "d" in Run(Init(true), rejected).docs && Run(Init(true), rejected).docs["d"] == "rejected"
      && "d" in Run(Init(true), all).docs && Run(Init(true), all).docs["d"] == "pending_verification"
  {
    var handled := UploadHandled();
    HandledLatest(Run(Init(true), handled));
    hide Run, Legal, OncePerEvent, Handled, Latest;
    moves := UploadRuns(Init(true), handled, 2);
    Deliveries.PromotionLosesUpdate(true, moves, 5, "rejected", FINE);
  }

  /** And so is this one: with saga.upload delivered a second time, a failed saga promotes its document. */
  lemma FailedSagaPromotes() returns (all: seq<Move>)
    ensures Legal(Init(true), all)
    ensures var end := Run(Init(true), all);
      && "d" in end.docs && end.docs["d"] == "pending_verification"
      && "d" in end.h.promoted && FailedLate(end, end.h.promoted["d"])
  {
    var handled := UploadHandled();
    hide Run, Legal, OncePerEvent, Handled, Latest, FailedLate, Racing;
    var again := ScansAgain(handled);
    var moves := UploadRuns(Init(true), again, 2);
    Races(Run(Init(true), moves));
    RepeatedScanFailsPromoter(true, moves, 5, 2, "d");
    all := moves + Convictions(5, 2, "d");
  }

  lemma Races(sys: Sys)
    requires Promotable(sys) && 2 in sys.pcs && sys.pcs[2] == Acting("d", 1, MAX_TRIES)
    ensures Racing(sys, 5, 2, "d")
  {
  }

  /** The upload event is taken again with Redis down, and is about to be scanned a second time. */
  lemma ScansAgain(handled: seq<Move>) returns (again: seq<Move>)
    requires Legal(Init(true), handled) && Handled(Run(Init(true), handled))
    ensures Legal(Init(true), again) && var sys := Run(Init(true), again);
      && Latest(sys, 2) && 2 in sys.pcs && sys.pcs[2] == Acting("d", 1, MAX_TRIES)
  {
    hide Run, Legal, OncePerEvent, Facing, WorkStep, RowsOf, MissingChecksum;
    var sys := Run(Init(true), handled);
    HandledLatest(sys);
    Snoc(Init(true), handled, DeliverUnchecked(2));
    var taken := At(sys, 2, Begin(MAX_TRIES));
    assert Apply(sys, DeliverUnchecked(2)) == taken;
    Snoc(Init(true), handled + [DeliverUnchecked(2)], Work(2, FINE));
    again := handled + [DeliverUnchecked(2)] + [Work(2, FINE)];
    BeginsAgain(sys);
  }

  lemma BeginsAgain(sys: Sys)
    requires Handled(sys) && Latest(sys, 2)
    ensures var next := WorkStep(At(sys, 2, Begin(MAX_TRIES)), 2, FINE);
      Latest(next, 2) && 2 in next.pcs && next.pcs[2] == Acting("d", 1, MAX_TRIES)
  {
    hide WorkStep, RowsOf, MissingChecksum, RouteOf, Get, Ref, Front, UploadShape;
    var taken := At(sys, 2, Begin(MAX_TRIES));
    BeginsToAct(taken, 2, sys.coord.outbox[2], "s", 1, 2, MAX_TRIES);
    Deliveries.OwnStep(taken, 2, FINE);
  }
}
