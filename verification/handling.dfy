/** Deliveries whose calls are all answered: how an upload goes through, from its event to its end. */
module Handling {
  import opened Basics
  import opened Sagas
  import opened SagaEffects
  import opened Pipeline
  import opened UploadSagas
  import opened EveryRun
  import opened ScanOutcomes
  import Deliveries
  import Workers

  // ---- Calls that leave the saga store alone -------------------------------

  /** The delivery is at pc in a reached state. */
  ghost predicate IsAt(sys: Sys, e: nat, pc: Pc) {
    Always(sys) && e in sys.pcs && e < |sys.coord.outbox| && sys.pcs[e] == pc
  }

  /** Between the two states only this delivery moved, and perhaps actions and scans were recorded. */
  ghost predicate OnlyMoved(sys: Sys, end: Sys, e: nat) {
    && end.coord == sys.coord && end.docs == sys.docs && end.done == sys.done && e in end.pcs
    && end.pcs == sys.pcs[e := end.pcs[e]] && end.h.promoted == sys.h.promoted && end.h.owner == sys.h.owner
    && end.h.everDone == sys.h.everDone && sys.h.ran <= end.h.ran
  }

  lemma CallFrame(sys: Sys, e: nat, verdict: nat -> bool)
    requires Always(sys) && e in sys.pcs && e < |sys.coord.outbox|
    ensures var end := Calls(sys, e, verdict, 1);
      && end == WorkStep(sys, e, Answer(sys.pcs[e], verdict)) && Always(end)
      && end.done == sys.done && e in end.pcs && end.pcs == sys.pcs[e := end.pcs[e]]
      && sys.coord.outbox <= end.coord.outbox && e < |end.coord.outbox|
      && (!sys.pcs[e].Promoting? ==> Aside(sys, end))
  {
    hide Always, WorkStep, Answer, Calls;
    CallOnce(sys, e, verdict);
    KeepsAlways(sys, e, verdict);
    Workers.OutboxGrows(sys, e, Answer(sys.pcs[e], verdict));
    Deliveries.OwnStep(sys, e, Answer(sys.pcs[e], verdict));
  }

  /** Any number of calls move no other delivery and set no dedupe key. */
  lemma {:induction false} CallsFrame(sys: Sys, e: nat, verdict: nat -> bool, n: nat)
    requires Always(sys) && e in sys.pcs && e < |sys.coord.outbox|
    ensures var end := Calls(sys, e, verdict, n);
      && Always(end) && end.done == sys.done && e in end.pcs && end.pcs == sys.pcs[e := end.pcs[e]]
      && sys.coord.outbox <= end.coord.outbox && e < |end.coord.outbox|
  {
    hide Always, Calls;
    if n == 0 {
      NoCalls(sys, e, verdict);
      assert sys.pcs[e := sys.pcs[e]] == sys.pcs;
    } else {
      CallsFrame(sys, e, verdict, n - 1);
      var last := Calls(sys, e, verdict, n - 1);
      CallFrame(last, e, verdict);
      CallsAdd(sys, e, verdict, n - 1, 1);
      var pc := Calls(sys, e, verdict, n).pcs[e];
      assert sys.pcs[e := last.pcs[e]][e := pc] == sys.pcs[e := pc];
    }
  }

  lemma NoCalls(sys: Sys, e: nat, verdict: nat -> bool)
    ensures Calls(sys, e, verdict, 0) == sys
  {
  }

  // ---- The end: finalize ------------------------------------------------------

  /** The event that announces a promoted document. */
  function NeedsVerification(doc: string): Event {
    Event("document", doc, "verification_needed", "", Domain)
  }

  /** What finalize comes to: a draft is promoted and announced, anything else is left alone. */
  ghost predicate FinalizedFrom(sys: Sys, end: Sys, e: nat, doc: string) {
    && Always(end) && e in end.pcs && end.pcs[e] == Over && end.coord.redis == sys.coord.redis
    && if doc in sys.docs && sys.docs[doc] == "draft"
       then
         && end.docs == sys.docs[doc := "pending_verification"]
         && end.coord.outbox == sys.coord.outbox + [NeedsVerification(doc)]
         && e < |sys.coord.outbox| && doc in end.h.promoted && end.h.promoted[doc] == sys.coord.outbox[e].sagaId
       else end.docs == sys.docs && end.coord.outbox == sys.coord.outbox
  }

  lemma FinalizeAnswered(sys: Sys, e: nat, doc: string, t: nat, verdict: nat -> bool) returns (n: nat)
    requires IsAt(sys, e, Finalizing(doc, t)) && doc in sys.docs
    ensures FinalizedFrom(sys, Calls(sys, e, verdict, n), e, doc)
  {
    hide Always, WorkStep, Answer, Calls;
    FinalizeCall(sys, e, doc, t, verdict);
    CallFrame(sys, e, verdict);
    var next := Calls(sys, e, verdict, 1);
    if sys.docs[doc] == "draft" {
      PromoteCall(next, e, doc, t, verdict);
      CallFrame(next, e, verdict);
      CallsAdd(sys, e, verdict, 1, 1);
      var pushing := Calls(sys, e, verdict, 2);
      PushCall(pushing, e, t, verdict);
      CallFrame(pushing, e, verdict);
      CallsAdd(sys, e, verdict, 2, 1);
      n := 3;
    } else {
      PushCall(next, e, t, verdict);
      CallFrame(next, e, verdict);
      CallsAdd(sys, e, verdict, 1, 1);
      n := 2;
    }
  }

  lemma FinalizeCall(sys: Sys, e: nat, doc: string, t: nat, verdict: nat -> bool)
    requires IsAt(sys, e, Finalizing(doc, t)) && doc in sys.docs
    ensures WorkStep(sys, e, Answer(sys.pcs[e], verdict))
         == At(sys, e, if sys.docs[doc] == "draft" then Promoting(doc, t) else Pushing(t))
  {
  }

  lemma PromoteCall(sys: Sys, e: nat, doc: string, t: nat, verdict: nat -> bool)
    requires IsAt(sys, e, Promoting(doc, t))
    ensures var next := WorkStep(sys, e, Answer(sys.pcs[e], verdict));
      && next.pcs[e] == Pushing(t) && next.docs == sys.docs[doc := "pending_verification"]
      && next.coord.redis == sys.coord.redis && next.coord.outbox == sys.coord.outbox + [NeedsVerification(doc)]
      && doc in next.h.promoted && next.h.promoted[doc] == sys.coord.outbox[e].sagaId
  {
  }

  lemma PushCall(sys: Sys, e: nat, t: nat, verdict: nat -> bool)
    requires e in sys.pcs && e < |sys.coord.outbox| && sys.pcs[e] == Pushing(t)
    ensures WorkStep(sys, e, Answer(sys.pcs[e], verdict)) == At(sys, e, Over)
  {
  }

  // ---- The beginning: routing -------------------------------------------------

  /** Events nobody acts on end at once, and the others without a saga are pushed to the browsers. */
  lemma PlainAnswered(sys: Sys, e: nat, t: nat, verdict: nat -> bool) returns (n: nat)
    requires IsAt(sys, e, Begin(t))
    requires var evt := sys.coord.outbox[e]; var found := FindByAggregate(sys.coord, "document", evt.aggId);
      || RouteOf(evt.eventType).Ignore? || RouteOf(evt.eventType).Broadcast?
      || (RouteOf(evt.eventType).Kick? && (found.None? || found.value.status != StatusRunning))
    ensures var end := Calls(sys, e, verdict, n); OnlyMoved(sys, end, e) && end.pcs[e] == Over && Always(end)
  {
    hide Always, WorkStep, Answer, Calls, FindByAggregate, RouteOf;
    PlainBegin(sys, e, t, verdict);
    CallFrame(sys, e, verdict);
    n := 1;
    var next := Calls(sys, e, verdict, 1);
    if next.pcs[e] != Over {
      PushCall(next, e, t, verdict);
      CallFrame(next, e, verdict);
      CallsAdd(sys, e, verdict, 1, 1);
      n := 2;
    }
  }

  lemma PlainBegin(sys: Sys, e: nat, t: nat, verdict: nat -> bool)
    requires IsAt(sys, e, Begin(t))
    requires var evt := sys.coord.outbox[e]; var found := FindByAggregate(sys.coord, "document", evt.aggId);
      || RouteOf(evt.eventType).Ignore? || RouteOf(evt.eventType).Broadcast?
      || (RouteOf(evt.eventType).Kick? && (found.None? || found.value.status != StatusRunning))
    ensures var evt := sys.coord.outbox[e]; var found := FindByAggregate(sys.coord, "document", evt.aggId);
      var quiet := RouteOf(evt.eventType).Ignore?
        || (RouteOf(evt.eventType).Kick? && found.Some? && found.value.status == StatusFailed);
      WorkStep(sys, e, Answer(sys.pcs[e], verdict)) == At(sys, e, if quiet then Over else Pushing(t))
  {
    hide FindByAggregate, RouteOf;
  }

  /** A step event whose saga cannot be found is tried again until its attempts are used up. */
  lemma {:induction false} LostSagaGivesUp(sys: Sys, e: nat, t: nat, verdict: nat -> bool) returns (n: nat)
    requires IsAt(sys, e, Begin(t)) && RouteOf(sys.coord.outbox[e].eventType).OnStep?
    requires var evt := sys.coord.outbox[e]; FindByAggregate(sys.coord, evt.aggType, evt.aggId).None?
    ensures var end := Calls(sys, e, verdict, n); OnlyMoved(sys, end, e) && end.pcs[e] == Over && n == Max(t, 1)
    decreases t
  {
    hide Always, WorkStep, Answer, Calls, FindByAggregate, RouteOf;
    LostBegin(sys, e, t, verdict);
    CallFrame(sys, e, verdict);
    n := 1;
    if t > 1 {
      var m := LostSagaGivesUp(Calls(sys, e, verdict, 1), e, t - 1, verdict);
      CallsAdd(sys, e, verdict, 1, m);
      n := 1 + m;
    }
  }

  lemma LostBegin(sys: Sys, e: nat, t: nat, verdict: nat -> bool)
    requires IsAt(sys, e, Begin(t)) && RouteOf(sys.coord.outbox[e].eventType).OnStep?
    requires var evt := sys.coord.outbox[e]; FindByAggregate(sys.coord, evt.aggType, evt.aggId).None?
    ensures WorkStep(sys, e, Answer(sys.pcs[e], verdict)) == At(sys, e, if t > 1 then Begin(t - 1) else Over)
  {
    hide FindByAggregate, RouteOf;
  }

  // ---- The middle: a step ---------------------------------------------------

  /** The document's saga is found, running, with f steps completed. */
  ghost predicate Running(sys: Sys, doc: string, id: string, f: nat) {
    && f <= 4 && id in sys.h.owner && sys.h.owner[id] == doc && Alive(sys, id)
    && Front(Get(sys.coord, id).value) == f && Ref(sys.coord, "document", doc) == Some(id)
  }

  lemma RunningFound(sys: Sys, doc: string, id: string, f: nat)
    requires Always(sys) && Running(sys, doc, id, f)
    ensures var found := FindByAggregate(sys.coord, "document", doc);
      && found == Get(sys.coord, id) && found.Some? && found.value.status == StatusRunning && found.value.id == id
      && found.value.aggId == doc && |found.value.steps| == 5 && found.value.current == f
      && found.value.steps[f].name == DOCUMENT_UPLOAD_STEPS[f]
  {
    hide Get, Front, HistoryOk, EventsOk, IndexOk, PcsOk;
    OwnSaga(sys, id);
    StoredUpload(sys, id);
  }

  /** The saga moved on: its next step is completed, and the step's event is the last of the outbox. */
  ghost predicate Moved(sys: Sys, end: Sys, doc: string, id: string, f: nat)
    requires f < 5 && id in sys.h.owner
  {
    && Aside(sys, end) && Alive(end, id) && Front(Get(end.coord, id).value) == f + 1
    && Ref(end.coord, "document", doc) == Some(id)
    && end.coord.outbox == sys.coord.outbox + [StepEvent(sys, id, f)]
  }

  lemma CompletedMoves(sys: Sys, doc: string, id: string, f: nat)
    requires Core(sys) && Running(sys, doc, id, f) && Completable(sys, id, f, Io(true, true, true))
    ensures var mid := Completed(sys, id, f, Io(true, true, true));
      && Alive(mid, id) && Front(Get(mid.coord, id).value) == f + 1 && Ref(mid.coord, "document", doc) == Some(id)
      && mid.coord.outbox == sys.coord.outbox + [StepEvent(sys, id, f)] && Aside(sys, mid)
  {
    hide Core, Get, Ref, CompleteStep, Front;
    CompletedStore(sys, id, f, Io(true, true, true));
  }

  lemma MovedStays(sys: Sys, mid: Sys, end: Sys, doc: string, id: string, f: nat)
    requires f < 5 && id in sys.h.owner && Moved(sys, mid, doc, id, f) && end.coord == mid.coord && Aside(mid, end)
    ensures Moved(sys, end, doc, id, f)
  {
  }

  lemma SameRunning(sys: Sys, end: Sys, doc: string, id: string, f: nat)
    requires Running(sys, doc, id, f) && end.coord == sys.coord && end.h.owner == sys.h.owner
    ensures Running(end, doc, id, f)
  {
  }

  ghost predicate SameRows(sys: Sys, end: Sys) {
    end.stores == sys.stores && end.noopScanner == sys.noopScanner
  }

  /** The first two calls for document_uploaded: the saga is looked up, and its upload step completes. */
  lemma KickCompletes(sys: Sys, e: nat, doc: string, id: string, t: nat, verdict: nat -> bool)
    requires IsAt(sys, e, Begin(t)) && Running(sys, doc, id, 0)
    requires var evt := sys.coord.outbox[e]; RouteOf(evt.eventType).Kick? && evt.aggId == doc
    ensures var end := Calls(sys, e, verdict, 2);
      Moved(sys, end, doc, id, 0) && IsAt(end, e, Pushing(t)) && SameRows(sys, end)
  {
    hide Always, Core, WorkStep, Answer, Calls, RouteOf, FindByAggregate, Get, Ref, Front, Completed, Alive, StepEvent;
    RunningFound(sys, doc, id, 0);
    KickBegin(sys, e, doc, id, t, verdict);
    CallFrame(sys, e, verdict);
    var kicking := Calls(sys, e, verdict, 1);
    AlwaysCore(kicking);
    SameRunning(sys, kicking, doc, id, 0);
    KickCall(kicking, e, doc, id, t, verdict);
    CallFrame(kicking, e, verdict);
    CallsAdd(sys, e, verdict, 1, 1);
    SameStepEvent(sys, kicking, id, 0);
  }

  /** document_uploaded completes the upload step of a running saga that has not completed it. */
  lemma KickAnswered(sys: Sys, e: nat, doc: string, id: string, t: nat, verdict: nat -> bool)
    requires IsAt(sys, e, Begin(t)) && Running(sys, doc, id, 0)
    requires var evt := sys.coord.outbox[e]; RouteOf(evt.eventType).Kick? && evt.aggId == doc
    ensures var end := Calls(sys, e, verdict, 3);
      Moved(sys, end, doc, id, 0) && IsAt(end, e, Over) && SameRows(sys, end)
  {
    hide Always, WorkStep, Answer, Calls, RouteOf, Moved, Running;
    KickCompletes(sys, e, doc, id, t, verdict);
    CallsFrame(sys, e, verdict, 2);
    var pushing := Calls(sys, e, verdict, 2);
    PushCall(pushing, e, t, verdict);
    CallFrame(pushing, e, verdict);
    CallsAdd(sys, e, verdict, 2, 1);
    OwnsDoc(sys, doc, id, 0);
    MovedStays(sys, pushing, Calls(sys, e, verdict, 3), doc, id, 0);
  }

  lemma OwnsDoc(sys: Sys, doc: string, id: string, f: nat)
    requires Running(sys, doc, id, f)
    ensures id in sys.h.owner
  {
  }

  lemma SameStepEvent(sys: Sys, end: Sys, id: string, k: nat)
    requires k < 5 && id in sys.h.owner && end.h.owner == sys.h.owner
    ensures StepEvent(end, id, k) == StepEvent(sys, id, k)
  {
  }

  lemma KickBegin(sys: Sys, e: nat, doc: string, id: string, t: nat, verdict: nat -> bool)
    requires IsAt(sys, e, Begin(t))
    requires var evt := sys.coord.outbox[e]; RouteOf(evt.eventType).Kick? && evt.aggId == doc
    requires var found := FindByAggregate(sys.coord, "document", doc);
      found.Some? && found.value.status == StatusRunning && found.value.id == id
    ensures WorkStep(sys, e, Answer(sys.pcs[e], verdict)) == At(sys, e, Kicking(id, t))
  {
    hide FindByAggregate, RouteOf;
  }

  lemma KickCall(sys: Sys, e: nat, doc: string, id: string, t: nat, verdict: nat -> bool)
    requires Core(sys) && e in sys.pcs && e < |sys.coord.outbox| && sys.pcs[e] == Kicking(id, t)
    requires Running(sys, doc, id, 0)
    ensures var next := WorkStep(sys, e, Answer(sys.pcs[e], verdict));
      && next.pcs[e] == Pushing(t) && Alive(next, id) && Front(Get(next.coord, id).value) == 1 && SameRows(sys, next)
      && Ref(next.coord, "document", doc) == Some(id)
      && next.coord.outbox == sys.coord.outbox + [StepEvent(sys, id, 0)]
  {
    hide Core, Get, Ref, CompleteStep, Front, Completed;
    assert DOCUMENT_UPLOAD_STEPS[0] == "upload";
    CompletedMoves(sys, doc, id, 0);
    CompletedCoord(sys, id, 0, Io(true, true, true));
    assert !Refused(sys.coord, id, "upload", Io(true, true, true));
  }

  lemma CompletedCoord(sys: Sys, id: string, k: nat, io: Io)
    requires k < 5
    ensures Completed(sys, id, k, io).coord == CompleteStep(sys.coord, id, DOCUMENT_UPLOAD_STEPS[k], io)
  {
    hide CompleteStep;
  }

  /** A step event starts the action of its step, whatever step the saga is at. */
  lemma ActionStarts(sys: Sys, e: nat, doc: string, id: string, k: nat, f: nat, t: nat, verdict: nat -> bool)
    requires IsAt(sys, e, Begin(t)) && Running(sys, doc, id, f)
    requires var evt := sys.coord.outbox[e];
      RouteOf(evt.eventType) == OnStep(k) && evt.aggType == "document" && evt.aggId == doc
    ensures WorkStep(sys, e, Answer(sys.pcs[e], verdict)) == At(sys, e, Acting(doc, k, t))
  {
    RunningFound(sys, doc, id, f);
    hide Always, FindByAggregate, Get, RouteOf;
  }

  lemma PlainAction(sys: Sys, e: nat, doc: string, k: nat, t: nat, verdict: nat -> bool)
    requires e in sys.pcs && e < |sys.coord.outbox| && sys.pcs[e] == Acting(doc, k, t) && k != 1
    ensures var next := WorkStep(sys, e, Answer(sys.pcs[e], verdict));
      next.coord == sys.coord && next.pcs[e] == Reloading(doc, k, true, t) && (doc, k) in next.h.ran
  {
    hide RowsOf;
  }

  lemma ReloadCall(sys: Sys, e: nat, doc: string, id: string, k: nat, f: nat, clean: bool, t: nat,
    verdict: nat -> bool)
    requires IsAt(sys, e, Reloading(doc, k, clean, t)) && Running(sys, doc, id, f)
    requires var evt := sys.coord.outbox[e]; evt.aggType == "document" && evt.aggId == doc
    ensures WorkStep(sys, e, Answer(sys.pcs[e], verdict))
         == At(sys, e, Completing(id, doc, DOCUMENT_UPLOAD_STEPS[f], k, t))
  {
    RunningFound(sys, doc, id, f);
    hide Always, FindByAggregate, Get;
  }

  lemma CompleteCallMoves(sys: Sys, e: nat, doc: string, id: string, k: nat, f: nat, t: nat, verdict: nat -> bool)
    requires f <= 4 && IsAt(sys, e, Completing(id, doc, DOCUMENT_UPLOAD_STEPS[f], k, t)) && Running(sys, doc, id, f)
    ensures var next := WorkStep(sys, e, Answer(sys.pcs[e], verdict));
      && next.pcs[e] == (if f == 4 then Finalizing(doc, t) else Over)
      && Alive(next, id) && Front(Get(next.coord, id).value) == f + 1 && Ref(next.coord, "document", doc) == Some(id)
      && next.coord.outbox == sys.coord.outbox + [StepEvent(sys, id, f)]
  {
    hide Always, Core, Get, Ref, Front, RouteOf, Pos, EventOk, CompleteStep, Completed, CompletingStep;
    Standing(sys, e);
    RanItsScan(sys, e, doc, id, k, f, t);
    var r := Answer(sys.pcs[e], verdict);
    CompletingIs(sys, e, id, doc, f, t, r);
    CompletedMoves(sys, doc, id, f);
  }

  /** Nothing completes the scan but a delivery whose own scan ran. */
  lemma RanItsScan(sys: Sys, e: nat, doc: string, id: string, k: nat, f: nat, t: nat)
    requires f <= 4 && IsAt(sys, e, Completing(id, doc, DOCUMENT_UPLOAD_STEPS[f], k, t)) && Running(sys, doc, id, f)
    requires PcOk(sys, sys.coord.outbox[e], sys.pcs[e])
    ensures f == 1 ==> (doc, 1) in sys.h.ran
  {
    hide Always, Core, Get, Ref, Front, RouteOf, Pos, EventOk, Gate;
    var j: nat :| Was(sys, id, DOCUMENT_UPLOAD_STEPS[f], k, j);
    assert f == 1 ==> j == 1;
  }

  /** The step event e belongs to the document. */
  ghost predicate IsStepOf(sys: Sys, e: nat, doc: string, k: nat) {
    && e < |sys.coord.outbox| && RouteOf(sys.coord.outbox[e].eventType) == OnStep(k)
    && sys.coord.outbox[e].aggType == "document" && sys.coord.outbox[e].aggId == doc
  }

  /** The action of step k succeeds: only the scan may not, when the rows do not pass. */
  predicate ActionPasses(sys: Sys, doc: string, k: nat, verdict: nat -> bool) {
    k == 1 ==> Passes(RowsOf(sys, doc), sys.noopScanner, verdict)
  }

  lemma StepActs(sys: Sys, e: nat, doc: string, id: string, k: nat, f: nat, t: nat, verdict: nat -> bool)
    returns (n: nat)
    requires IsAt(sys, e, Begin(t)) && Running(sys, doc, id, f) && IsStepOf(sys, e, doc, k)
    ensures var end, good := Calls(sys, e, verdict, n), ActionPasses(sys, doc, k, verdict);
      && IsAt(end, e, Reloading(doc, k, good, t)) && Aside(sys, end)
      && if good then end.coord == sys.coord else FoundFailed(end, doc)
  {
    hide Always, WorkStep, Answer, Calls, FindByAggregate, Running, Passes, RouteOf;
    RunningFound(sys, doc, id, f);
    ActionStarts(sys, e, doc, id, k, f, t, verdict);
    CallFrame(sys, e, verdict);
    var acting := Calls(sys, e, verdict, 1);
    var m: nat;
    if k == 1 {
      m := ActEnds(acting, e, doc, t, verdict);
    } else {
      PlainAction(acting, e, doc, k, t, verdict);
      CallFrame(acting, e, verdict);
      m := 1;
    }
    CallsAdd(sys, e, verdict, 1, m);
    n := 1 + m;
  }

  /** What a step event comes to when its saga is running and its action passes. */
  lemma StepAnswered(sys: Sys, e: nat, doc: string, id: string, k: nat, f: nat, t: nat, verdict: nat -> bool)
    returns (n: nat)
    requires IsAt(sys, e, Begin(t)) && Running(sys, doc, id, f) && IsStepOf(sys, e, doc, k)
    requires ActionPasses(sys, doc, k, verdict)
    ensures var end := Calls(sys, e, verdict, n);
      Moved(sys, end, doc, id, f) && IsAt(end, e, if f == 4 then Finalizing(doc, t) else Over)
  {
    hide Always, WorkStep, Answer, Calls, FindByAggregate, RowsOf, Passes, RouteOf, Get, Front, Ref, ActionPasses,
      Alive;
    var m := StepActs(sys, e, doc, id, k, f, t, verdict);
    var reloading := Calls(sys, e, verdict, m);
    CallsFrame(sys, e, verdict, m);
    SameRunning(sys, reloading, doc, id, f);
    ReloadCall(reloading, e, doc, id, k, f, true, t, verdict);
    CallFrame(reloading, e, verdict);
    var completing := Calls(reloading, e, verdict, 1);
    SameRunning(sys, completing, doc, id, f);
    CompleteCallMoves(completing, e, doc, id, k, f, t, verdict);
    CallFrame(completing, e, verdict);
    CallsAdd(reloading, e, verdict, 1, 1);
    CallsAdd(sys, e, verdict, m, 2);
    n := m + 2;
  }

  /** And when its action does not pass: the saga is failed, and the delivery ends. */
  lemma StepConvicts(sys: Sys, e: nat, doc: string, id: string, k: nat, f: nat, t: nat, verdict: nat -> bool)
    returns (n: nat)
    requires IsAt(sys, e, Begin(t)) && Running(sys, doc, id, f) && IsStepOf(sys, e, doc, k)
    requires !ActionPasses(sys, doc, k, verdict)
    ensures var end := Calls(sys, e, verdict, n); IsAt(end, e, Over) && FoundFailed(end, doc) && Aside(sys, end)
  {
    hide Always, WorkStep, Answer, Calls, FindByAggregate, RowsOf, Passes, RouteOf, Running;
    var m := StepActs(sys, e, doc, id, k, f, t, verdict);
    var reloading := Calls(sys, e, verdict, m);
    ReloadEnds(reloading, e, doc, t, verdict);
    CallsAdd(sys, e, verdict, m, 1);
    n := m + 1;
  }

  // ---- The whole upload -----------------------------------------------------

  /** The saga's latest step event is the last of the outbox and not delivered yet. */
  ghost predicate Awaits(sys: Sys, doc: string, id: string, f: nat) {
    && Always(sys) && 1 <= f && Running(sys, doc, id, f) && sys.coord.outbox != []
    && sys.coord.outbox[|sys.coord.outbox| - 1] == StepEvent(sys, id, f - 1)
    && (forall x :: x in sys.done || x in sys.pcs ==> x < |sys.coord.outbox| - 1)
  }

  /** Delivering event e, and the delivery before its first call. */
  lemma Delivers(sys: Sys, e: nat)
    requires Always(sys) && e < |sys.coord.outbox| && e !in sys.done && e !in sys.pcs
    ensures var taken := Apply(sys, Deliver(e));
      && Enabled(sys, Deliver(e)) && IsAt(taken, e, Begin(3)) && Aside(sys, taken) && taken.coord == sys.coord
      && taken.done == sys.done + {e} && taken.pcs == sys.pcs[e := Begin(3)]
      && taken.stores == sys.stores && taken.noopScanner == sys.noopScanner
  {
    hide Always;
    Dispatches(sys, e, sys.done + {e});
  }

  lemma AwaitsNext(sys: Sys, end: Sys, e: nat, doc: string, id: string, f: nat)
    requires f < 4 && e < |sys.coord.outbox| && Running(sys, doc, id, f) && Moved(sys, end, doc, id, f) && Always(end)
    requires forall x :: x in end.done || x in end.pcs ==> x < |sys.coord.outbox|
    ensures Awaits(end, doc, id, f + 1)
  {
    hide Always, Get, Ref, Front;
  }

  /** Delivering the latest step event takes the upload one step further. */
  lemma StepDelivered(sys: Sys, doc: string, id: string, f: nat, verdict: nat -> bool) returns (n: nat)
    requires Awaits(sys, doc, id, f) && ActionPasses(sys, doc, f, verdict)
    ensures var e := |sys.coord.outbox| - 1;
      var taken := Apply(sys, Deliver(e)); var end := Calls(taken, e, verdict, n);
      && Aside(sys, end) && Moved(sys, end, doc, id, f)
      && if f < 4 then Awaits(end, doc, id, f + 1) else IsAt(end, e, Finalizing(doc, 3))
  {
    hide Always, WorkStep, Answer, Calls, Passes, RouteOf, Get, Front, Ref, Alive, Apply;
    var e := |sys.coord.outbox| - 1;
    Delivers(sys, e);
    var taken := Apply(sys, Deliver(e));
    SameRunning(sys, taken, doc, id, f);
    StepEventOk(sys, id, f - 1);
    n := StepAnswered(taken, e, doc, id, f, f, 3, verdict);
    CallsFrame(taken, e, verdict, n);
    if f < 4 { AwaitsNext(sys, Calls(taken, e, verdict, n), e, doc, id, f); }
  }

  /** From move k on events are only delivered, and every call of a delivery is answered. */
  ghost predicate Handled(init: Sys, moves: seq<Move>, k: nat, verdict: nat -> bool) {
    forall j :: k <= j < |moves| ==> moves[j].Deliver? || AnsweredAt(init, moves, j, verdict)
  }

  ghost predicate AnsweredAt(init: Sys, moves: seq<Move>, j: nat, verdict: nat -> bool) {
    j < |moves| && moves[j].Work? && var sys, e := Run(init, moves[..j]), moves[j].e;
    e in sys.pcs && moves[j].reply == Answer(sys.pcs[e], verdict)
  }

  lemma HandledLonger(init: Sys, moves: seq<Move>, all: seq<Move>, k: nat, e: nat, verdict: nat -> bool)
    requires Handled(init, moves, k, verdict) && moves <= all && k <= |moves|
    requires Answered(init, all, |moves|, e, verdict)
    ensures Handled(init, all, k, verdict)
  {
    hide Run, Answer;
    forall j | k <= j < |all| ensures all[j].Deliver? || AnsweredAt(init, all, j, verdict) {
      if j < |moves| {
        assert all[j] == moves[j] && all[..j] == moves[..j];
        assert moves[j].Deliver? || AnsweredAt(init, moves, j, verdict);
      }
    }
  }

  /** The event is delivered, and n calls of its delivery are answered. */
  lemma DeliveredRun(init: Sys, moves: seq<Move>, k: nat, e: nat, verdict: nat -> bool, n: nat)
    returns (all: seq<Move>)
    requires Legal(init, moves) && Handled(init, moves, k, verdict) && k <= |moves|
    requires var sys := Run(init, moves); Always(sys) && e < |sys.coord.outbox| && e !in sys.done && e !in sys.pcs
    ensures Legal(init, all) && Handled(init, all, k, verdict) && moves <= all
    ensures Run(init, all) == Calls(Apply(Run(init, moves), Deliver(e)), e, verdict, n)
  {
    hide Run, Legal, Always, Apply, Enabled, Calls, Answer;
    Delivers(Run(init, moves), e);
    Deliveries.OneMore(init, moves, Deliver(e));
    var taken := moves + [Deliver(e)];
    assert Handled(init, taken, k, verdict) by { HandledDeliver(init, moves, k, e, verdict); }
    all := CallsRun(init, taken, |taken|, e, verdict, n);
    HandledLonger(init, taken, all, k, e, verdict);
  }

  lemma HandledDeliver(init: Sys, moves: seq<Move>, k: nat, e: nat, verdict: nat -> bool)
    requires Handled(init, moves, k, verdict) && k <= |moves|
    ensures Handled(init, moves + [Deliver(e)], k, verdict)
  {
    hide Run, Answer;
    var all := moves + [Deliver(e)];
    forall j | k <= j < |all| ensures all[j].Deliver? || AnsweredAt(init, all, j, verdict) {
      if j < |moves| {
        assert all[j] == moves[j] && all[..j] == moves[..j];
        assert moves[j].Deliver? || AnsweredAt(init, moves, j, verdict);
      }
    }
  }

  /** The draft was promoted by its saga, which is completed. */
  ghost predicate Promoted(sys: Sys, end: Sys, doc: string, id: string) {
    && end.docs == sys.docs[doc := "pending_verification"] && doc in end.h.promoted && end.h.promoted[doc] == id
    && Get(end.coord, id).Some? && Get(end.coord, id).value.status == StatusCompleted
  }

  lemma FinalizedPromotes(sys: Sys, fin: Sys, end: Sys, e: nat, doc: string, id: string)
    requires id in sys.h.owner && sys.h.owner[id] == doc && doc in sys.docs && sys.docs[doc] == "draft"
    requires e < |sys.coord.outbox| && sys.coord.outbox[e].sagaId == id
    requires Always(fin) && Moved(sys, fin, doc, id, 4) && FinalizedFrom(fin, end, e, doc)
    ensures Promoted(sys, end, doc, id)
  {
    hide Front, Pos, RouteOf, HistoryOk, EventsOk, IndexOk, PcsOk;
    OwnSaga(fin, id);
    assert fin.coord.outbox[e] == sys.coord.outbox[e];
  }

  /** The steps from f on, and the promotion after the last. */
  lemma {:induction false} StepsRun(init: Sys, moves: seq<Move>, k: nat, doc: string, id: string, f: nat,
    verdict: nat -> bool) returns (all: seq<Move>)
    requires Legal(init, moves) && Handled(init, moves, k, verdict) && k <= |moves|
    requires var sys := Run(init, moves);
      Awaits(sys, doc, id, f) && ActionPasses(sys, doc, f, verdict) && doc in sys.docs && sys.docs[doc] == "draft"
    ensures Legal(init, all) && Handled(init, all, k, verdict) && moves <= all
    ensures Promoted(Run(init, moves), Run(init, all), doc, id)
    decreases 5 - f
  {
    hide Run, Legal, Always, Apply, Calls, Handled, Get, Front, Ref, RouteOf, Passes, RowsOf, FinalizedFrom;
    var sys := Run(init, moves);
    var e := |sys.coord.outbox| - 1;
    Delivers(sys, e);
    var taken := Apply(sys, Deliver(e));
    var n := StepDelivered(sys, doc, id, f, verdict);
    var next := Calls(taken, e, verdict, n);
    if f < 4 {
      var more := DeliveredRun(init, moves, k, e, verdict, n);
      all := StepsRun(init, more, k, doc, id, f + 1, verdict);
      PromotedSame(sys, next, Run(init, all), doc, id);
    } else {
      var m := FinalizeAnswered(next, e, doc, 3, verdict);
      CallsAdd(taken, e, verdict, n, m);
      all := DeliveredRun(init, moves, k, e, verdict, n + m);
      FinalizedPromotes(sys, next, Run(init, all), e, doc, id);
    }
  }

  lemma PromotedSame(sys: Sys, next: Sys, end: Sys, doc: string, id: string)
    requires next.docs == sys.docs && Promoted(next, end, doc, id)
    ensures Promoted(sys, end, doc, id)
  {
  }

  // ---- Main result ------------------------------------------------------------

  /** The kick: the document's event is delivered, and its saga's first event awaits delivery. */
  lemma KickDelivered(sys: Sys, e: nat, doc: string, id: string, verdict: nat -> bool)
    requires Always(sys) && e < |sys.coord.outbox| && e !in sys.done && e !in sys.pcs && Running(sys, doc, id, 0)
    requires var evt := sys.coord.outbox[e]; RouteOf(evt.eventType).Kick? && evt.aggId == doc
    requires forall x :: x in sys.done ==> x < |sys.coord.outbox|
    ensures var taken := Apply(sys, Deliver(e)); var end := Calls(taken, e, verdict, 3);
      Awaits(end, doc, id, 1) && Aside(sys, end) && end.stores == sys.stores && end.noopScanner == sys.noopScanner
  {
    hide Always, Core, Answer, Calls, RouteOf, Get, Ref, Front, Alive, Apply, WorkStep;
    Delivers(sys, e);
    var taken := Apply(sys, Deliver(e));
    SameRunning(sys, taken, doc, id, 0);
    KickAnswered(taken, e, doc, id, 3, verdict);
    CallsFrame(taken, e, verdict, 3);
    PcsInOutbox(sys);
    AwaitsNext(taken, Calls(taken, e, verdict, 3), e, doc, id, 0);
  }

  lemma PcsInOutbox(sys: Sys)
    requires Always(sys)
    ensures forall x :: x in sys.pcs ==> x < |sys.coord.outbox|
  {
    hide Core, PcOk;
  }

  /** Only events of the outbox have dedupe keys. */
  lemma {:induction false} DoneInOutbox(noop: bool, moves: seq<Move>)
    requires Legal(Init(noop), moves)
    ensures forall x :: x in Run(Init(noop), moves).done ==> x < |Run(Init(noop), moves).coord.outbox|
    decreases |moves|
  {
    if moves != [] {
      hide Apply, Always;
      var front, m := moves[..|moves| - 1], moves[|moves| - 1];
      DoneInOutbox(noop, front);
      EveryRun.RunKeeps(noop, front);
      DoneStep(Run(Init(noop), front), m);
    }
  }

  lemma DoneStep(sys: Sys, m: Move)
    requires Always(sys) && Enabled(sys, m) && forall x :: x in sys.done ==> x < |sys.coord.outbox|
    ensures forall x :: x in Apply(sys, m).done ==> x < |Apply(sys, m).coord.outbox|
  {
    hide Always, Core, WorkStep, Start, CompleteStep, Fail;
    if Outside(m) {
      AlwaysCore(sys);
      OutsideKeeps(sys, m);
      Prefix(sys, Apply(sys, m));
      OutsideDone(sys, m);
      hide Apply;
    } else if m.Work? {
      Workers.WorkFacts(sys, m.e, m.reply);
    }
  }

  lemma OutsideDone(sys: Sys, m: Move)
    requires Outside(m)
    ensures Apply(sys, m).done == sys.done
  {
    hide Start, CompleteStep, Fail;
  }

  /** The saga found for the document is stored failed. */
  lemma FoundFailedIs(sys: Sys, doc: string, id: string)
    requires Always(sys) && id in sys.h.owner && sys.h.owner[id] == doc && FoundFailed(sys, doc)
    ensures Get(sys.coord, id).Some? && Get(sys.coord, id).value.status == StatusFailed
  {
    hide Core, FindByAggregate, Get;
    FoundForDoc(sys, doc, id);
  }

  /**
   * Main result: from every reached state with a draft whose upload saga has just started and whose
   * event is not delivered yet, delivering the events one after another and answering every call
   * ends the upload. If the rows pass the scan, the saga completes and promotes the document;
   * otherwise the saga is failed and no document changes.
   */
  lemma {:induction false} UploadEnds(noop: bool, moves: seq<Move>, e: nat, doc: string, id: string,
    verdict: nat -> bool) returns (all: seq<Move>)
    requires Legal(Init(noop), moves)
    requires var sys := Run(Init(noop), moves);
      && e < |sys.coord.outbox| && e !in sys.done && e !in sys.pcs
      && RouteOf(sys.coord.outbox[e].eventType).Kick? && sys.coord.outbox[e].aggId == doc
      && Running(sys, doc, id, 0) && doc in sys.docs && sys.docs[doc] == "draft"
    ensures Legal(Init(noop), all) && moves <= all && Handled(Init(noop), all, |moves|, verdict)
    ensures var sys, end := Run(Init(noop), moves), Run(Init(noop), all);
      var rows := RowsOf(sys, doc);
      var good := (forall row :: row in rows ==> row.checksum != "")
        && (sys.noopScanner || forall j :: 0 <= j < |rows| && rows[j].objectKey != "" && rows[j].provider != "" ==>
              verdict(j));
      && Get(end.coord, id).Some?
      && (if good then Promoted(sys, end, doc, id)
          else end.docs == sys.docs && Get(end.coord, id).value.status == StatusFailed)
  {
    hide Run, Legal, Always, Apply, Calls, Get, Front, Ref, RouteOf, Passes, Answer, Alive;
    var sys := Run(Init(noop), moves);
    EveryRun.RunKeeps(noop, moves);
    DoneInOutbox(noop, moves);
    PassesIs(RowsOf(sys, doc), sys.noopScanner, verdict);
    KickDelivered(sys, e, doc, id, verdict);
    var kicked := DeliveredRun(Init(noop), moves, |moves|, e, verdict, 3);
    var next := Run(Init(noop), kicked);
    if Passes(RowsOf(sys, doc), sys.noopScanner, verdict) {
      all := StepsRun(Init(noop), kicked, |moves|, doc, id, 1, verdict);
      PromotedSame(sys, next, Run(Init(noop), all), doc, id);
      PromotedStored(sys, Run(Init(noop), all), doc, id);
    } else {
      all := ScanFails(Init(noop), kicked, |moves|, doc, id, verdict);
    }
  }

  lemma PromotedStored(sys: Sys, end: Sys, doc: string, id: string)
    requires Promoted(sys, end, doc, id)
    ensures Get(end.coord, id).Some?
  {
  }

  /** The scan's event is delivered, and the rows do not pass. */
  lemma ScanFails(init: Sys, moves: seq<Move>, k: nat, doc: string, id: string, verdict: nat -> bool)
    returns (all: seq<Move>)
    requires Legal(init, moves) && Handled(init, moves, k, verdict) && k <= |moves|
    requires Awaits(Run(init, moves), doc, id, 1) && !ActionPasses(Run(init, moves), doc, 1, verdict)
    ensures Legal(init, all) && Handled(init, all, k, verdict) && moves <= all
    ensures var sys, end := Run(init, moves), Run(init, all);
      end.docs == sys.docs && Get(end.coord, id).Some? && Get(end.coord, id).value.status == StatusFailed
  {
    hide Run, Legal, Always, Apply, Calls, Handled, Get, Front, Ref, RouteOf, Passes, FoundFailed, Alive;
    var sys := Run(init, moves);
    var e := |sys.coord.outbox| - 1;
    Delivers(sys, e);
    var taken := Apply(sys, Deliver(e));
    SameRunning(sys, taken, doc, id, 1);
    StepEventOk(sys, id, 0);
    var n := StepConvicts(taken, e, doc, id, 1, 1, 3, verdict);
    all := DeliveredRun(init, moves, k, e, verdict, n);
    FoundFailedIs(Run(init, all), doc, id);
  }
}
