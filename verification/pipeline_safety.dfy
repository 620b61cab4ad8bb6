/**
 * What the upload pipeline keeps besides when each event is dispatched by at most one delivery,
 * retries included: every step completes after its own action, and one step event moves each saga.
 */
module PipelineSafety {
  import opened Basics
  import opened Sagas
  import opened Pipeline
  import opened UploadSagas
  import opened EveryRun

  // ---- The invariant ------------------------------------------------------

  ghost predicate FrontIs(sys: Sys, id: string, k: nat) {
    Get(sys.coord, id).Some? ==> Front(Get(sys.coord, id).value) == k
  }

  /** The completed steps are the leading ones, and those after upload had their actions run. */
  ghost predicate SagaOnce(sys: Sys, id: string) {
    id in sys.h.owner && Get(sys.coord, id).Some? ==>
      var s := Get(sys.coord, id).value;
      && (forall i: nat :: DoneAt(s, i) ==> i < Front(s))
      && (forall j :: 1 <= j < Front(s) ==> (sys.h.owner[id], j) in sys.h.ran)
  }

  ghost predicate SagasOnce(sys: Sys) {
    forall id :: SagaOnce(sys, id)
  }

  ghost predicate IsStepEvent(sys: Sys, evt: Event) {
    evt.sagaId in sys.h.owner && Pos(evt) > 0
  }

  /** A step event is never ahead of its saga, and until it is dispatched it is the latest one. */
  ghost predicate EventOnce(sys: Sys, e: nat)
    requires e < |sys.coord.outbox|
  {
    var evt := sys.coord.outbox[e];
    IsStepEvent(sys, evt) ==>
      && (Get(sys.coord, evt.sagaId).Some? ==> Pos(evt) <= Front(Get(sys.coord, evt.sagaId).value))
      && (e !in sys.pcs ==> FrontIs(sys, evt.sagaId, Pos(evt)))
  }

  ghost predicate EventsOnce(sys: Sys) {
    forall e: nat :: e < |sys.coord.outbox| ==> EventOnce(sys, e)
  }

  /** Both are the event of the same step of the same upload saga. */
  ghost predicate SameStep(sys: Sys, a: Event, b: Event) {
    a.sagaId == b.sagaId && IsStepEvent(sys, a) && Pos(a) == Pos(b)
  }

  ghost predicate EventsUnique(sys: Sys) {
    forall e: nat, f: nat :: e < |sys.coord.outbox| && f < |sys.coord.outbox| ==>
      SameStep(sys, sys.coord.outbox[e], sys.coord.outbox[f]) ==> e == f
  }

  /** The event's saga waits for this event to move it on. */
  ghost predicate Held(sys: Sys, evt: Event) {
    FrontIs(sys, evt.sagaId, Pos(evt))
  }

  /** The event was the one that completed its saga. */
  ghost predicate Ended(sys: Sys, evt: Event) {
    evt.sagaId in sys.h.everDone && Pos(evt) == 4
  }

  ghost predicate PcOnce(sys: Sys, evt: Event, pc: Pc) {
    match pc
    case Begin(_) => RouteOf(evt.eventType).OnStep? ==> Held(sys, evt) || Ended(sys, evt)
    case Kicking(_, _) => !RouteOf(evt.eventType).OnStep?
    case Completing(_, _, name, k, _) => Held(sys, evt) && 1 <= k <= 4 && name == DOCUMENT_UPLOAD_STEPS[k]
    case Finalizing(_, _) => Ended(sys, evt)
    case Promoting(_, _) => Ended(sys, evt)
    case Pushing(_) => RouteOf(evt.eventType).OnStep? ==> Ended(sys, evt)
    case Over => true
    case _ => Held(sys, evt)
  }

  ghost predicate PcsOnce(sys: Sys) {
    forall e: nat :: e in sys.pcs && e < |sys.coord.outbox| ==> PcOnce(sys, sys.coord.outbox[e], sys.pcs[e])
  }

  ghost predicate HistoryOnce(sys: Sys) {
    && sys.h.everDone !! sys.h.everFailed
    && forall id, j :: id in sys.h.everDone && id in sys.h.owner && 1 <= j <= 4 ==> (sys.h.owner[id], j) in sys.h.ran
  }

  ghost predicate Once(sys: Sys) {
    SagasOnce(sys) && EventsOnce(sys) && EventsUnique(sys) && PcsOnce(sys) && HistoryOnce(sys)
  }

  ghost predicate Inv(sys: Sys) {
    Always(sys) && Once(sys)
  }

  lemma InitOnce(noop: bool)
    ensures Once(Init(noop))
  {
  }

  // ---- Moves that leave every front where it is ------------------------------

  /** The saga expired, or still has the completed steps it had, perhaps without the scan. */
  ghost predicate Calm(sys: Sys, sys': Sys, id: string) {
    Get(sys'.coord, id).Some? ==>
      && Get(sys.coord, id).Some?
      && Front(Get(sys'.coord, id).value) == Front(Get(sys.coord, id).value)
      && forall i: nat :: DoneAt(Get(sys'.coord, id).value, i) ==> DoneAt(Get(sys.coord, id).value, i)
  }

  ghost predicate AllCalm(sys: Sys, sys': Sys) {
    && (forall id :: id in sys.h.owner ==> Calm(sys, sys', id))
    && (forall id :: id in sys'.h.owner && id !in sys.h.owner ==> FrontIs(sys', id, 0))
  }

  lemma HeldStays(sys: Sys, sys': Sys, evt: Event)
    requires evt.sagaId in sys.h.owner && Calm(sys, sys', evt.sagaId) && Held(sys, evt)
    ensures Held(sys', evt)
  {
    hide Get, Front, DoneAt, Pos;
  }

  lemma PcStays(sys: Sys, sys': Sys, evt: Event, pc: Pc)
    requires EventOk(sys, evt) && PcOk(sys, evt, pc) && PcOnce(sys, evt, pc)
    requires evt.sagaId in sys.h.owner ==> Calm(sys, sys', evt.sagaId)
    requires sys.h.everDone <= sys'.h.everDone
    ensures PcOnce(sys', evt, pc)
  {
    hide Get, Front, DoneAt, Pos, RouteOf, Gate, Calm, Held, Was, Reached;
    if evt.sagaId in sys.h.owner && Held(sys, evt) { HeldStays(sys, sys', evt); }
  }

  lemma EventsStay(sys: Sys, sys': Sys)
    requires Inv(sys) && Always(sys') && Evolves(sys, sys') && AllCalm(sys, sys') && PlainAppend(sys, sys')
    requires sys'.pcs == sys.pcs
    ensures EventsOnce(sys') && EventsUnique(sys')
  {
    hide Get, Front, DoneAt, Pos, RouteOf, PcsOnce, PcsOk, HistoryOnce, HistoryOk, SagasOnce, SagasOk, IndexOk, PcOk;
    var n := |sys.coord.outbox|;
    Prefix(sys, sys');
    forall e: nat | e < |sys'.coord.outbox|
      ensures EventOnce(sys', e)
      ensures IsStepEvent(sys', sys'.coord.outbox[e]) ==> e < n && IsStepEvent(sys, sys'.coord.outbox[e])
    {
      if e < n {
        assert EventOk(sys, sys.coord.outbox[e]) && EventOnce(sys, e);
        if IsStepEvent(sys, sys.coord.outbox[e]) { assert Calm(sys, sys', sys.coord.outbox[e].sagaId); }
      }
    }
    forall e: nat, f: nat | e < |sys'.coord.outbox| && f < |sys'.coord.outbox|
      && SameStep(sys', sys'.coord.outbox[e], sys'.coord.outbox[f])
      ensures e == f
    {
      assert IsStepEvent(sys', sys'.coord.outbox[f]);
      assert SameStep(sys, sys.coord.outbox[e], sys.coord.outbox[f]);
    }
  }

  lemma SagasStay(sys: Sys, sys': Sys)
    requires Inv(sys) && Always(sys') && Evolves(sys, sys') && AllCalm(sys, sys')
    ensures SagasOnce(sys')
  {
    hide Get, Front, DoneAt, EventsOnce, EventsUnique, EventsOk, PcsOnce, PcsOk, HistoryOnce, HistoryOk, IndexOk;
    forall id ensures SagaOnce(sys', id) {
      if id in sys.h.owner {
        assert SagaOnce(sys, id) && Calm(sys, sys', id);
      } else if id in sys'.h.owner && Get(sys'.coord, id).Some? {
        OwnSaga(sys', id);
      }
    }
  }

  lemma OnceStays(sys: Sys, sys': Sys)
    requires Inv(sys) && Always(sys') && Evolves(sys, sys') && AllCalm(sys, sys') && PlainAppend(sys, sys')
    requires sys'.pcs == sys.pcs && sys'.h.everDone == sys.h.everDone && sys'.h.everDone !! sys'.h.everFailed
    ensures Once(sys')
  {
    hide Always, AllCalm, PlainAppend, Evolves, EventsOnce, SagasOnce, EventsUnique, PcOnce, HistoryOnce;
    EventsStay(sys, sys');
    SagasStay(sys, sys');
    HistoryStays(sys, sys');
    Prefix(sys, sys');
    forall e: nat | e in sys'.pcs
      ensures e < |sys'.coord.outbox| && PcOnce(sys', sys'.coord.outbox[e], sys'.pcs[e])
    {
      Standing(sys, e);
      CalmAt(sys, sys', sys.coord.outbox[e].sagaId);
      PcStays(sys, sys', sys.coord.outbox[e], sys.pcs[e]);
    }
  }

  lemma CalmAt(sys: Sys, sys': Sys, id: string)
    requires AllCalm(sys, sys')
    ensures id in sys.h.owner ==> Calm(sys, sys', id)
  {
  }

  lemma HistoryStays(sys: Sys, sys': Sys)
    requires Always(sys) && HistoryOnce(sys) && Evolves(sys, sys')
    requires sys'.h.everDone == sys.h.everDone && sys'.h.everDone !! sys'.h.everFailed
    ensures HistoryOnce(sys')
  {
    hide Get, SagasOk, EventsOk, PcsOk, IndexOk, HistoryOk, Rises;
  }

  /** One delivery moves on from a state that has the invariant. */
  lemma OnceAt(sys: Sys, e: nat, pc: Pc)
    requires Once(sys) && e < |sys.coord.outbox| && PcOnce(sys, sys.coord.outbox[e], pc)
    ensures Once(At(sys, e, pc))
  {
    hide Get, Front, DoneAt, Pos, RouteOf;
    var sys' := At(sys, e, pc);
    forall f: nat | f < |sys.coord.outbox| ensures EventOnce(sys', f) {
      assert EventOnce(sys, f);
    }
    forall id ensures SagaOnce(sys', id) {
      assert SagaOnce(sys, id);
    }
  }

  /** One delivery moves on, and the saga store stays. */
  lemma OnceMoves(sys: Sys, mid: Sys, e: nat, pc: Pc)
    requires Inv(sys) && Core(mid) && Evolves(sys, mid) && mid.coord == sys.coord && mid.pcs == sys.pcs
    requires mid.h.owner == sys.h.owner && mid.h.everDone == sys.h.everDone && mid.h.everFailed == sys.h.everFailed
    requires e < |sys.coord.outbox| && PcOnce(sys, sys.coord.outbox[e], pc)
    ensures Once(At(mid, e, pc))
  {
    hide Always, Core, Once, Evolves, PcOnce;
    Stays(sys, mid);
    SameFronts(sys, mid);
    Disjoint(sys);
    OnceStays(sys, mid);
    PcOnceSame(sys, mid, sys.coord.outbox[e], pc);
    OnceAt(mid, e, pc);
  }

  lemma SameFronts(sys: Sys, sys': Sys)
    requires sys'.coord == sys.coord && sys'.h.owner == sys.h.owner
    ensures AllCalm(sys, sys')
  {
  }

  lemma Disjoint(sys: Sys)
    requires Once(sys)
    ensures sys.h.everDone !! sys.h.everFailed
  {
  }

  lemma PcOnceSame(sys: Sys, sys': Sys, evt: Event, pc: Pc)
    requires PcOnce(sys, evt, pc) && sys'.coord == sys.coord && sys'.h.everDone == sys.h.everDone
    ensures PcOnce(sys', evt, pc)
  {
    hide Get, Front, RouteOf, Pos;
  }

  lemma StandingOnce(sys: Sys, e: nat)
    requires Inv(sys) && e in sys.pcs
    ensures e < |sys.coord.outbox| && var evt := sys.coord.outbox[e];
      PcOnce(sys, evt, sys.pcs[e]) && PcOk(sys, evt, sys.pcs[e])
    ensures Core(sys) && EventOk(sys, sys.coord.outbox[e]) && EventOnce(sys, e) && HistoryOnce(sys)
  {
    hide Always, PcOk, PcOnce, EventOk, EventOnce;
    Standing(sys, e);
  }

  lemma OutsideOnce(sys: Sys, m: Move)
    requires Inv(sys) && Enabled(sys, m) && Outside(m)
    ensures Once(Apply(sys, m))
  {
    hide Always, Core, Once, Evolves, Apply, PlainAppend;
    AlwaysCore(sys);
    var sys' := Apply(sys, m);
    OutsideKeeps(sys, m);
    Stays(sys, sys');
    BesideCalm(sys, sys');
    Disjoint(sys);
    OnceStays(sys, sys');
  }

  lemma BesideCalm(sys: Sys, sys': Sys)
    requires Beside(sys, sys') && Evolves(sys, sys')
    ensures AllCalm(sys, sys')
  {
    hide Get, Front, DoneAt, Plain;
  }

  /** The first dispatch of an event. */
  lemma DispatchOnce(sys: Sys, e: nat, done: set<nat>)
    requires Inv(sys) && e < |sys.coord.outbox| && e !in sys.pcs
    ensures Once(At(sys.(done := done), e, Begin(MAX_TRIES)))
  {
    hide Always, Core, Once, Evolves, PcOnce;
    AlwaysCore(sys);
    SameStore(sys, sys.(done := done));
    FirstOk(sys, e);
    OnceMoves(sys, sys.(done := done), e, Begin(MAX_TRIES));
  }

  lemma FirstOk(sys: Sys, e: nat)
    requires Inv(sys) && e < |sys.coord.outbox| && e !in sys.pcs
    ensures PcOnce(sys, sys.coord.outbox[e], Begin(MAX_TRIES))
  {
    hide Get, Front, RouteOf, Pos, PcsOk, PcsOnce, SagasOk, HistoryOk;
    assert EventOk(sys, sys.coord.outbox[e]) && EventOnce(sys, e);
  }

  // ---- Handler steps that leave the saga store alone ---------------------------

  lemma BeginOnce(sys: Sys, evt: Event, t: nat, r: Reply)
    requires Core(sys) && HistoryOnce(sys) && EventOk(sys, evt) && PcOnce(sys, evt, Begin(t))
    ensures PcOnce(sys, evt, BeginPc(sys.coord, evt, t, r))
  {
    hide Get, Core, RouteOf, FindByAggregate, EventOk, HistoryOnce, Held, Ended, OnStepPc;
    if RouteOf(evt.eventType).OnStep? && !r.open {
      OnStepOnce(sys, evt, t, if r.ok then FindByAggregate(sys.coord, evt.aggType, evt.aggId) else None);
    }
  }

  /** A step event finds its saga either waiting for it, or complete because of it. */
  lemma OnStepOnce(sys: Sys, evt: Event, t: nat, found: Option<Saga>)
    requires Core(sys) && HistoryOnce(sys) && EventOk(sys, evt) && PcOnce(sys, evt, Begin(t))
    requires RouteOf(evt.eventType).OnStep?
    requires found.Some? ==> found == FindByAggregate(sys.coord, evt.aggType, evt.aggId)
    ensures PcOnce(sys, evt, OnStepPc(found, RouteOf(evt.eventType).k, t))
  {
    hide Get, Core, FindByAggregate, EventOk, Front, Pos, DoneAt, Names;
    FoundIsOwn(sys, evt);
    if found.Some? {
      StoredUpload(sys, evt.sagaId);
    }
  }

  lemma ReloadOnce(sys: Sys, evt: Event, doc: string, k: nat, clean: bool, t: nat, r: Reply)
    requires Core(sys) && EventOk(sys, evt) && PcOk(sys, evt, Reloading(doc, k, clean, t)) && Held(sys, evt)
    ensures PcOnce(sys, evt, ReloadPc(sys.coord, evt, doc, k, t, r))
  {
    hide Get, Core, FindByAggregate, EventOk, Front, Pos, RouteOf, SagaOk;
    FoundIsOwn(sys, evt);
    if r.ok && FindByAggregate(sys.coord, evt.aggType, evt.aggId).Some? {
      StoredUpload(sys, evt.sagaId);
    }
  }

  /** The delivery's next position, when its step does not write to the saga store. */
  lemma NextOnce(sys: Sys, e: nat, r: Reply)
    requires Inv(sys) && e in sys.pcs && e < |sys.coord.outbox|
    ensures var evt := sys.coord.outbox[e];
      match sys.pcs[e]
      case Begin(t) => PcOnce(sys, evt, BeginPc(sys.coord, evt, t, r))
      case Acting(doc, k, t) => PcOnce(sys, evt, ActPc(sys, doc, k, t, r))
      case Scanning(doc, rows, i, clean, t) => PcOnce(sys, evt, ScanPc(doc, rows, i, clean, t, r))
      case Convicting(doc, rows, i, t) => PcOnce(sys, evt, ConvictPc(sys.coord, doc, rows, i, t, r))
      case Reloading(doc, k, clean, t) => PcOnce(sys, evt, ReloadPc(sys.coord, evt, doc, k, t, r))
      case Finalizing(doc, t) => PcOnce(sys, evt, FinalizePc(sys, doc, t, r))
      case Pushing(t) => PcOnce(sys, evt, if r.ok then Over else Retry(t))
      case _ => true
  {
    hide Inv, Core, RouteOf, Held, Ended, EventOk, EventOnce, HistoryOnce, BeginPc, ReloadPc, FindByAggregate, RowsOf,
      MissingChecksum, ClearedByChecksum, AtStep, Gate;
    StandingOnce(sys, e);
    var evt := sys.coord.outbox[e];
    match sys.pcs[e] {
      case Begin(t) => BeginOnce(sys, evt, t, r);
      case Reloading(doc, k, clean, t) => ReloadOnce(sys, evt, doc, k, clean, t, r);
      case _ =>
    }
  }

  lemma ActOnce(sys: Sys, e: nat, doc: string, k: nat, t: nat, r: Reply)
    requires Inv(sys) && e in sys.pcs && e < |sys.coord.outbox| && sys.pcs[e] == Acting(doc, k, t)
    ensures Once(At(ActLog(sys, doc, k, r), e, ActPc(sys, doc, k, t, r)))
  {
    hide Inv, Core, Evolves, HistoryOk, ActLog, ActPc, PcOnce;
    var logged := ActLog(sys, doc, k, r);
    NextOnce(sys, e, r);
    StandingHere(sys, e);
    ActLogOk(sys, doc, k, r);
    SameCoord(sys, logged);
    OnceMoves(sys, logged, e, ActPc(sys, doc, k, t, r));
  }

  lemma StandingHere(sys: Sys, e: nat)
    requires Inv(sys) && e in sys.pcs
    ensures Always(sys) && e < |sys.coord.outbox| && PcOk(sys, sys.coord.outbox[e], sys.pcs[e])
    ensures Core(sys) && HistoryOk(sys)
  {
    hide Always, PcOk, Core;
    Standing(sys, e);
  }

  lemma ScanOnce(sys: Sys, e: nat, doc: string, rows: seq<Storage>, i: nat, clean: bool, t: nat, r: Reply)
    requires Inv(sys) && e in sys.pcs && e < |sys.coord.outbox| && sys.pcs[e] == Scanning(doc, rows, i, clean, t)
    ensures Once(At(ScanLog(sys, doc, rows, i, clean, r), e, ScanPc(doc, rows, i, clean, t, r)))
  {
    hide Inv, Core, Evolves, HistoryOk, ScanLog, ScanPc, PcOnce, AtStep;
    var logged := ScanLog(sys, doc, rows, i, clean, r);
    NextOnce(sys, e, r);
    StandingHere(sys, e);
    ScanLogOk(sys, doc, rows, i, clean, r);
    SameCoord(sys, logged);
    OnceMoves(sys, logged, e, ScanPc(doc, rows, i, clean, t, r));
  }

  lemma PromoteOnce(sys: Sys, e: nat, doc: string, t: nat, r: Reply)
    requires Inv(sys) && e in sys.pcs && e < |sys.coord.outbox| && sys.pcs[e] == Promoting(doc, t)
    ensures Once(PromoteStep(sys, e, sys.coord.outbox[e], doc, t, r))
  {
    hide Always, Once, Core, Evolves, HistoryOk, RouteOf, Held, Pos, EventOnce, HistoryOnce;
    StandingOnce(sys, e);
    StandingHere(sys, e);
    var evt := sys.coord.outbox[e];
    if !r.ok {
      SameStore(sys, sys);
      OnceMoves(sys, sys, e, Retry(t));
    } else {
      var marked, pushed := MarkPending(sys, doc, evt.sagaId), At(MarkPending(sys, doc, evt.sagaId), e, Pushing(t));
      MarkedOk(sys, doc, evt.sagaId);
      SameCoord(sys.(docs := marked.docs), marked);
      OnceMoves(sys, marked, e, Pushing(t));
      StepsTo(sys, marked, e, Pushing(t));
      if r.io.enqueue {
        PlainRoutes();
        assert DomainEvent("document", doc, "verification_needed").sagaId == "";
        OutsideOnce(pushed, Publish(DomainEvent("document", doc, "verification_needed")));
      }
    }
  }

  // ---- Handler steps on the saga store ------------------------------------------

  lemma FailOnce(sys: Sys, e: nat, id: string, doc: string, rows: seq<Storage>, i: nat, t: nat, r: Reply)
    requires Inv(sys) && e in sys.pcs && e < |sys.coord.outbox| && sys.pcs[e] == Failing(id, doc, rows, i, t)
    ensures Once(FailStep(sys, e, id, doc, rows, i, t, r))
  {
    hide Always, Once, Core, Evolves, RouteOf, Pos, Get, Front, Fail, Alive, EventOk, EventOnce, HistoryOnce, HistoryOk;
    StandingOnce(sys, e);
    StandingHere(sys, e);
    var evt := sys.coord.outbox[e];
    if Get(sys.coord, id).None? || !r.io.sagaWrite {
      SameStore(sys, sys);
      OnceMoves(sys, sys, e, Retry(t));
    } else {
      var failed := Failed(sys, id, r.io);
      FailedKeeps(sys, id, r.io);
      Stays(sys, failed);
      FailedCalm(sys, id, r.io);
      OnceStays(sys, failed);
      assert Held(failed, evt) by { HeldStays(sys, failed, evt); }
      Prefix(sys, failed);
      OnceAt(failed, e, if r.io.enqueue then Scanning(doc, rows, i, false, t) else Retry(t));
    }
  }

  /** Failing a saga whose scan is next leaves it where it is. */
  lemma FailedCalm(sys: Sys, id: string, io: Io)
    requires Inv(sys) && id in sys.h.owner && io.sagaWrite && Get(sys.coord, id).Some? && FrontIs(sys, id, 1)
    ensures var sys' := Failed(sys, id, io);
      && AllCalm(sys, sys') && Calm(sys, sys', id) && PlainAppend(sys, sys') && sys'.h.everDone !! sys'.h.everFailed
  {
    hide Always, Core, Get, Fail, Front, DoneAt, Plain, SagasOnce, EventsOnce, EventsUnique, PcsOnce;
    var sys' := Failed(sys, id, io);
    AlwaysCore(sys);
    OwnSaga(sys, id);
    FailedStore(sys, id, io);
    assert FailedShape(Get(sys'.coord, id).value);
    forall x | x in sys.h.owner ensures Calm(sys, sys', x) {
      OwnSaga(sys, x);
    }
  }

  lemma KickOnce(sys: Sys, e: nat, id: string, t: nat, r: Reply)
    requires Inv(sys) && e in sys.pcs && e < |sys.coord.outbox| && sys.pcs[e] == Kicking(id, t)
    ensures Once(KickStep(sys, e, id, t, r))
  {
    hide Always, Once, Core, CompleteStep, Refused, RouteOf, Held, EventOk, EventOnce, HistoryOnce, Completable;
    StandingOnce(sys, e);
    StandingHere(sys, e);
    var evt, pc := sys.coord.outbox[e], if Refused(sys.coord, id, "upload", r.io) then Retry(t) else Pushing(t);
    OwnSaga(sys, id);
    assert DOCUMENT_UPLOAD_STEPS[0] == "upload";
    KickReaches(sys, id);
    CompleteCall(sys, id, 0, r.io);
    if CompleteStep(sys.coord, id, "upload", r.io) == sys.coord {
      SameStore(sys, sys);
      OnceMoves(sys, sys, e, pc);
    } else {
      CompletedThen(sys, e, id, 0, r.io, pc);
    }
  }

  lemma KickReaches(sys: Sys, id: string)
    ensures Reached(sys, id, 0)
  {
  }

  lemma CompletingOnce(sys: Sys, e: nat, id: string, doc: string, name: string, k: nat, t: nat, r: Reply)
    requires Inv(sys) && e in sys.pcs && e < |sys.coord.outbox| && sys.pcs[e] == Completing(id, doc, name, k, t)
    ensures Once(CompletingStep(sys, e, id, name, t, r))
  {
    hide Always, Once, Core, CompletingStep, RouteOf, Pos, Get, Front, EventOk, EventOnce, HistoryOnce, Was;
    StandingOnce(sys, e);
    StandingHere(sys, e);
    OwnSaga(sys, id);
    assert Reached(sys, id, k);
    CompleteCall(sys, id, k, r.io);
    if Alive(sys, id) && !Refused(sys.coord, id, name, r.io) {
      CompletingIs(sys, e, id, doc, k, t, r);
      CompletedThen(sys, e, id, k, r.io, if k == 4 then Finalizing(doc, t) else Over);
    } else {
      NotCompleting(sys, e, id, name, t, r);
      SameStore(sys, sys);
      OnceMoves(sys, sys, e, if Refused(sys.coord, id, name, r.io) then Retry(t) else Over);
    }
  }

  /** The call is refused, or finds the saga failed. */
  lemma NotCompleting(sys: Sys, e: nat, id: string, name: string, t: nat, r: Reply)
    requires !Alive(sys, id) || Refused(sys.coord, id, name, r.io)
    ensures CompletingStep(sys, e, id, name, t, r)
         == At(sys, e, if Refused(sys.coord, id, name, r.io) then Retry(t) else Over)
  {
    hide AlreadyDone, Advance;
  }

  /** A delivery that completes step k > 0 holds the k-th event, and its action ran. */
  ghost predicate Holds(sys: Sys, e: nat, id: string, k: nat) {
    && e in sys.pcs && e < |sys.coord.outbox|
    && (k > 0 ==>
          && id in sys.h.owner && sys.coord.outbox[e].sagaId == id
          && Pos(sys.coord.outbox[e]) == k && (sys.h.owner[id], k) in sys.h.ran)
  }

  /** Completing the next step and moving the delivery on. */
  lemma CompletedThen(sys: Sys, e: nat, id: string, k: nat, io: Io, pc: Pc)
    requires Inv(sys) && Completable(sys, id, k, io) && Holds(sys, e, id, k)
    requires pc == Over || (pc.Finalizing? && k == 4) || (!RouteOf(sys.coord.outbox[e].eventType).OnStep?
      && (pc.Pushing? || pc.Begin?))
    ensures Once(At(Completed(sys, id, k, io), e, pc))
  {
    hide Always, Once, Core, Completed, Evolves, RouteOf, Pos, Front;
    var over := At(sys, e, Over);
    AlwaysCore(sys);
    SameStore(sys, sys);
    JustMoves(sys, e, Over);
    OnceMoves(sys, sys, e, Over);
    CompletedOnce(over, e, id, k, io);
    CompletedPc(over, e, id, k, io, pc);
    OnceAt(Completed(over, id, k, io), e, pc);
    AtCommutes(sys, e, id, k, io, pc);
  }

  lemma CompletedPc(sys: Sys, e: nat, id: string, k: nat, io: Io, pc: Pc)
    requires Always(sys) && Completable(sys, id, k, io) && Holds(sys, e, id, k)
    requires pc == Over || (pc.Finalizing? && k == 4) || (!RouteOf(sys.coord.outbox[e].eventType).OnStep?
      && (pc.Pushing? || pc.Begin?))
    ensures var sys' := Completed(sys, id, k, io);
      e < |sys'.coord.outbox| && sys'.coord.outbox[e] == sys.coord.outbox[e] && PcOnce(sys', sys.coord.outbox[e], pc)
  {
    hide Always, Core, RouteOf, Pos, Front, CompleteStep, Get;
    AlwaysCore(sys);
    CompletedStore(sys, id, k, io);
  }

  lemma AtCommutes(sys: Sys, e: nat, id: string, k: nat, io: Io, pc: Pc)
    requires k < 5
    ensures At(Completed(At(sys, e, Over), id, k, io), e, pc) == At(Completed(sys, id, k, io), e, pc)
  {
    assert sys.pcs[e := Over][e := pc] == sys.pcs[e := pc];
    hide CompleteStep;
  }

  lemma CompletedOnce(sys: Sys, e: nat, id: string, k: nat, io: Io)
    requires Inv(sys) && Completable(sys, id, k, io) && Holds(sys, e, id, k) && sys.pcs[e] == Over
    ensures Once(Completed(sys, id, k, io))
  {
    hide Inv, CompleteStep, Alive, EventsOnce, EventsUnique, SagasOnce, PcOnce, HistoryOnce, Holds;
    var sys' := Completed(sys, id, k, io);
    CompletedSaga(sys, e, id, k, io);
    CompletedEvents(sys, e, id, k, io);
    CompletedRecord(sys, e, id, k, io);
    forall f: nat | f in sys'.pcs && f < |sys'.coord.outbox| ensures PcOnce(sys', sys'.coord.outbox[f], sys'.pcs[f]) {
      StandingOnce(sys, f);
      CompletedOther(sys, e, id, k, io, f);
    }
  }

  lemma CompletedSaga(sys: Sys, e: nat, id: string, k: nat, io: Io)
    requires Inv(sys) && Completable(sys, id, k, io) && Holds(sys, e, id, k)
    ensures SagasOnce(Completed(sys, id, k, io))
  {
    hide Always, Core, Get, Front, DoneAt, CompleteStep, SagaOnce, Holds, Alive, UploadShape;
    var sys' := Completed(sys, id, k, io);
    AlwaysCore(sys);
    CompletedStore(sys, id, k, io);
    forall x ensures SagaOnce(sys', x) {
      assert SagaOnce(sys, x);
      if x == id {
        CompletedOwn(sys, e, id, k, io);
      } else {
        if x in sys.h.owner { OwnSaga(sys, x); }
        SameSaga(sys, sys', x);
      }
    }
  }

  lemma SameSaga(sys: Sys, sys': Sys, id: string)
    requires SagaOnce(sys, id) && sys'.h.owner == sys.h.owner && sys'.h.ran == sys.h.ran
    requires id in sys.h.owner ==> Get(sys'.coord, id) == Get(sys.coord, id)
    ensures SagaOnce(sys', id)
  {
    hide Get, Front, DoneAt;
  }

  lemma CompletedOwn(sys: Sys, e: nat, id: string, k: nat, io: Io)
    requires Core(sys) && SagaOnce(sys, id) && Completable(sys, id, k, io) && Holds(sys, e, id, k)
    ensures SagaOnce(Completed(sys, id, k, io), id)
  {
    hide Core, Get, Front, DoneAt, CompleteStep, Pos;
    CompletedStore(sys, id, k, io);
  }

  lemma CompletedRecord(sys: Sys, e: nat, id: string, k: nat, io: Io)
    requires Inv(sys) && Completable(sys, id, k, io) && Holds(sys, e, id, k)
    ensures HistoryOnce(Completed(sys, id, k, io))
  {
    hide Always, Core, Get, Front, DoneAt, CompleteStep, Pos, EventsOnce, EventsUnique, PcsOnce, UploadShape,
      FailedShape;
    AlwaysCore(sys);
    OwnSaga(sys, id);
    assert SagaOnce(sys, id);
  }

  /** No other step event of this saga is as far as step k. */
  lemma OnlyHolder(sys: Sys, e: nat, id: string, k: nat, io: Io, f: nat)
    requires Inv(sys) && Completable(sys, id, k, io) && Holds(sys, e, id, k)
    requires f < |sys.coord.outbox| && sys.coord.outbox[f].sagaId == id && Pos(sys.coord.outbox[f]) > 0
    ensures Pos(sys.coord.outbox[f]) <= k && (Pos(sys.coord.outbox[f]) == k ==> f == e)
  {
    hide Always, Get, Front, Pos, PcsOnce, SagasOnce, HistoryOnce;
    assert EventOnce(sys, f);
    assert SameStep(sys, sys.coord.outbox[e], sys.coord.outbox[f]) ==> f == e;
  }

  lemma CompletedEvents(sys: Sys, e: nat, id: string, k: nat, io: Io)
    requires Inv(sys) && Completable(sys, id, k, io) && Holds(sys, e, id, k)
    ensures var sys' := Completed(sys, id, k, io); EventsOnce(sys') && EventsUnique(sys')
  {
    hide Inv, Alive, CompleteStep, Holds, EventOnce, SameStep;
    var sys' := Completed(sys, id, k, io);
    forall f: nat | f < |sys'.coord.outbox| ensures EventOnce(sys', f) {
      CompletedEvent(sys, e, id, k, io, f);
    }
    forall f: nat, g: nat | f < |sys'.coord.outbox| && g < |sys'.coord.outbox|
      && SameStep(sys', sys'.coord.outbox[f], sys'.coord.outbox[g])
      ensures f == g
    {
      CompletedUnique(sys, e, id, k, io, f, g);
    }
  }

  lemma CompletedUnique(sys: Sys, e: nat, id: string, k: nat, io: Io, f: nat, g: nat)
    requires Inv(sys) && Completable(sys, id, k, io) && Holds(sys, e, id, k)
    requires var sys' := Completed(sys, id, k, io);
      && f < |sys'.coord.outbox| && g < |sys'.coord.outbox|
      && SameStep(sys', sys'.coord.outbox[f], sys'.coord.outbox[g])
    ensures f == g
  {
    hide Core, Get, Front, CompleteStep, RouteOf, Pos, Inv, Alive, Holds, UploadShape;
    var n := |sys.coord.outbox|;
    AlwaysCoreOf(sys);
    CompletedStore(sys, id, k, io);
    StepEventOk(sys, id, k);
    if f < n && g < n {
      UniqueAt(sys, f, g);
    } else if f < n {
      OnlyHolder(sys, e, id, k, io, f);
    } else if g < n {
      OnlyHolder(sys, e, id, k, io, g);
    }
  }

  lemma AlwaysCoreOf(sys: Sys)
    requires Inv(sys)
    ensures Core(sys)
  {
  }

  lemma InvOnce(sys: Sys)
    requires Inv(sys)
    ensures Once(sys)
  {
  }

  lemma UniqueAt(sys: Sys, f: nat, g: nat)
    requires Inv(sys) && f < |sys.coord.outbox| && g < |sys.coord.outbox|
    requires SameStep(sys, sys.coord.outbox[f], sys.coord.outbox[g])
    ensures f == g
  {
    hide Always, SameStep;
  }

  lemma CompletedEvent(sys: Sys, e: nat, id: string, k: nat, io: Io, f: nat)
    requires Inv(sys) && Completable(sys, id, k, io) && Holds(sys, e, id, k)
    requires f < |Completed(sys, id, k, io).coord.outbox|
    ensures EventOnce(Completed(sys, id, k, io), f)
  {
    hide Always, Core, Get, Front, CompleteStep, RouteOf, Pos, PcsOnce, SagasOnce, HistoryOnce, EventsUnique;
    AlwaysCore(sys);
    CompletedStore(sys, id, k, io);
    StepEventOk(sys, id, k);
    if f < |sys.coord.outbox| {
      assert EventOnce(sys, f);
      if sys.coord.outbox[f].sagaId == id {
        if Pos(sys.coord.outbox[f]) > 0 { OnlyHolder(sys, e, id, k, io, f); }
      } else if sys.coord.outbox[f].sagaId in sys.h.owner {
        OwnSaga(sys, sys.coord.outbox[f].sagaId);
      }
    } else if f in sys.pcs {
      Standing(sys, f);
      assert false;
    }
  }

  lemma CompletedOther(sys: Sys, e: nat, id: string, k: nat, io: Io, f: nat)
    requires Inv(sys) && Completable(sys, id, k, io) && Holds(sys, e, id, k) && sys.pcs[e] == Over
    requires f in sys.pcs && f < |sys.coord.outbox|
    ensures var sys' := Completed(sys, id, k, io);
      f < |sys'.coord.outbox| && PcOnce(sys', sys'.coord.outbox[f], sys'.pcs[f])
  {
    hide Always, Core, Get, Front, DoneAt, CompleteStep, RouteOf, Pos, Inv, UploadShape, Was, Gate;
    var sys', evt := Completed(sys, id, k, io), sys.coord.outbox[f];
    StandingOnce(sys, f);
    CompletedStore(sys, id, k, io);
    if evt.sagaId == id {
      if Pos(evt) > 0 { OnlyHolder(sys, e, id, k, io, f); }
      hide Holds;
    } else if evt.sagaId in sys.h.owner {
      OwnSaga(sys, evt.sagaId);
      hide Holds;
      PcStays(sys, sys', evt, sys.pcs[f]);
    } else {
      hide Holds;
      PcStays(sys, sys', evt, sys.pcs[f]);
    }
  }

  lemma WorkOnce(sys: Sys, e: nat, r: Reply)
    requires Inv(sys) && e in sys.pcs && e < |sys.coord.outbox|
    ensures Once(WorkStep(sys, e, r))
  {
    hide Inv, Once, Core, Evolves, BeginPc, KickStep, ActLog, ActPc, ScanLog, ScanPc, ConvictPc, FailStep, ReloadPc,
      CompletingStep, FinalizePc, PromoteStep, PcOnce, PcOk, HistoryOk;
    NextOnce(sys, e, r);
    StandingHere(sys, e);
    SameStore(sys, sys);
    match sys.pcs[e] {
      case Begin(t) => Rests(sys, e, BeginPc(sys.coord, sys.coord.outbox[e], t, r));
      case Kicking(id, t) => KickOnce(sys, e, id, t, r);
      case Acting(doc, k, t) => ActOnce(sys, e, doc, k, t, r);
      case Scanning(doc, rows, i, clean, t) => ScanOnce(sys, e, doc, rows, i, clean, t, r);
      case Convicting(doc, rows, i, t) => Rests(sys, e, ConvictPc(sys.coord, doc, rows, i, t, r));
      case Failing(id, doc, rows, i, t) => FailOnce(sys, e, id, doc, rows, i, t, r);
      case Reloading(doc, k, _, t) => Rests(sys, e, ReloadPc(sys.coord, sys.coord.outbox[e], doc, k, t, r));
      case Completing(id, doc, name, k, t) => CompletingOnce(sys, e, id, doc, name, k, t, r);
      case Finalizing(doc, t) => Rests(sys, e, FinalizePc(sys, doc, t, r));
      case Promoting(doc, t) => PromoteOnce(sys, e, doc, t, r);
      case Pushing(t) => Rests(sys, e, if r.ok then Over else Retry(t));
      case Over => InvOnce(sys);
    }
  }

  lemma Rests(sys: Sys, e: nat, pc: Pc)
    requires Inv(sys) && e < |sys.coord.outbox| && PcOnce(sys, sys.coord.outbox[e], pc)
    ensures Once(At(sys, e, pc))
  {
    hide Always, PcOnce;
    OnceAt(sys, e, pc);
  }

  lemma MoveKeeps(sys: Sys, m: Move)
    requires Inv(sys) && Enabled(sys, m) && !Repeats(sys, m)
    ensures Inv(Apply(sys, m))
  {
    hide Always, Once, WorkStep, Start, CompleteStep, Fail;
    EveryRun.MoveKeeps(sys, m);
    match m {
      case Deliver(e) => if e !in sys.done { DispatchOnce(sys, e, sys.done + {e}); }
      case DeliverUnchecked(e) =>
        assert sys.(done := sys.done) == sys;
        DispatchOnce(sys, e, sys.done);
      case Work(e, r) => WorkOnce(sys, e, r);
      case Drop(e) => Standing(sys, e); Rests(sys, e, Over);
      case _ => OutsideOnce(sys, m);
    }
  }

  lemma {:induction false} RunKeeps(noop: bool, moves: seq<Move>)
    requires Legal(Init(noop), moves) && OncePerEvent(Init(noop), moves)
    ensures Inv(Run(Init(noop), moves))
    decreases |moves|
  {
    hide Inv, Apply, Enabled, Repeats;
    if moves == [] {
      StartsOk(noop);
    } else {
      RunKeeps(noop, moves[..|moves| - 1]);
      MoveKeeps(Run(Init(noop), moves[..|moves| - 1]), moves[|moves| - 1]);
    }
  }

  lemma StartsOk(noop: bool)
    ensures Inv(Init(noop))
  {
    InitAlways(noop);
    InitOnce(noop);
  }

  // ---- Main results --------------------------------------------------------

  /**
   * Main result: in every such run the steps of a stored upload saga complete in list order, and
   * every completed step after upload had its own action run to success.
   */
  lemma {:induction false} StepsCompleteInOrder(noop: bool, moves: seq<Move>, id: string, i: nat, j: nat)
    requires Legal(Init(noop), moves) && OncePerEvent(Init(noop), moves)
    requires var sys := Run(Init(noop), moves);
      id in sys.h.owner && Get(sys.coord, id).Some? && i < j < 5 && DoneAt(Get(sys.coord, id).value, j)
    ensures var sys := Run(Init(noop), moves); var s := Get(sys.coord, id).value;
      && Names(s) == DOCUMENT_UPLOAD_STEPS && DoneAt(s, i)
      && s.aggId == sys.h.owner[id] && (sys.h.owner[id], j) in sys.h.ran
  {
    hide Run, Legal, OncePerEvent, Get, Core;
    RunKeeps(noop, moves);
    var sys := Run(Init(noop), moves);
    AlwaysCore(sys);
    OwnSaga(sys, id);
    assert SagaOnce(sys, id);
  }

  /** The event is not dispatched yet, or its delivery is not over. */
  ghost predicate Unconsumed(sys: Sys, e: nat) {
    e in sys.pcs ==> sys.pcs[e] != Over
  }

  /** Both are step events of this stored upload saga. */
  ghost predicate StepEvents(sys: Sys, id: string, e: nat, f: nat) {
    && e < |sys.coord.outbox| && f < |sys.coord.outbox| && id in sys.h.owner && Get(sys.coord, id).Some?
    && sys.coord.outbox[e].sagaId == id && sys.coord.outbox[f].sagaId == id
    && Pos(sys.coord.outbox[e]) > 0 && Pos(sys.coord.outbox[f]) > 0
  }

  /**
   * Main result: two step events of a stored upload saga are unconsumed at once only when the saga
   * is complete, and they are its last two: the storage event, whose delivery is still finalizing,
   * and the indexing event it emitted.
   */
  lemma {:induction false} UnconsumedStepEvents(noop: bool, moves: seq<Move>, id: string, e: nat, f: nat)
    requires Legal(Init(noop), moves) && OncePerEvent(Init(noop), moves)
    requires var sys := Run(Init(noop), moves);
      StepEvents(sys, id, e, f) && Unconsumed(sys, e) && Unconsumed(sys, f) && e != f
    ensures var sys := Run(Init(noop), moves);
      && id in sys.h.everDone && Get(sys.coord, id).value.status == StatusCompleted
      && {Pos(sys.coord.outbox[e]), Pos(sys.coord.outbox[f])} == {4, 5}
  {
    hide Run, Legal, OncePerEvent, Get, Inv, Front, Pos;
    var sys := Run(Init(noop), moves);
    RunKeeps(noop, moves);
    UnconsumedIs(sys, e);
    UnconsumedIs(sys, f);
    if Pos(sys.coord.outbox[e]) == Pos(sys.coord.outbox[f]) {
      UniqueAt(sys, e, f);
    } else {
      DoneFront(sys, id);
    }
  }

  lemma UnconsumedIs(sys: Sys, e: nat)
    requires Inv(sys) && e < |sys.coord.outbox| && Unconsumed(sys, e) && IsStepEvent(sys, sys.coord.outbox[e])
    requires Get(sys.coord, sys.coord.outbox[e].sagaId).Some?
    ensures Held(sys, sys.coord.outbox[e]) || Ended(sys, sys.coord.outbox[e])
  {
    hide Get, Front, RouteOf, Pos, SagasOk, HistoryOk, IndexOk, PcsOk, SagasOnce, EventsUnique, HistoryOnce;
    var evt := sys.coord.outbox[e];
    assert EventOk(sys, evt) && EventOnce(sys, e);
    FrontBound(Get(sys.coord, evt.sagaId).value);
    if e in sys.pcs { Standing(sys, e); }
  }

  lemma DoneFront(sys: Sys, id: string)
    requires Inv(sys) && id in sys.h.everDone && Get(sys.coord, id).Some?
    ensures Front(Get(sys.coord, id).value) == 5 && Get(sys.coord, id).value.status == StatusCompleted
  {
    hide Get, Front, EventsOk, IndexOk, HistoryOk, PcsOk, SagasOnce, EventsOnce, EventsUnique, PcsOnce;
    AlwaysCore(sys);
    assert id in sys.h.owner;
    OwnSaga(sys, id);
  }

  /** The event is not dispatched, or its delivery has not yet completed the next step. */
  ghost predicate Waiting(sys: Sys, e: nat)
    requires e < |sys.coord.outbox|
  {
    e !in sys.pcs || (var pc := sys.pcs[e];
      || pc.Acting? || pc.Scanning? || pc.Convicting? || pc.Failing? || pc.Reloading? || pc.Completing?
      || (pc.Begin? && sys.coord.outbox[e].sagaId !in sys.h.everDone))
  }

  /** In particular at most one of them is still to complete a step. */
  lemma {:induction false} OneStepEventWaiting(noop: bool, moves: seq<Move>, id: string, e: nat, f: nat)
    requires Legal(Init(noop), moves) && OncePerEvent(Init(noop), moves)
    requires var sys := Run(Init(noop), moves); StepEvents(sys, id, e, f) && Waiting(sys, e) && Waiting(sys, f)
    ensures e == f
  {
    hide Run, Legal, OncePerEvent, Get, Inv, Front, Pos;
    var sys := Run(Init(noop), moves);
    if e != f {
      UnconsumedStepEvents(noop, moves, id, e, f);
      RunKeeps(noop, moves);
      DoneFront(sys, id);
      WaitingFront(sys, e);
      WaitingFront(sys, f);
    }
  }

  lemma WaitingFront(sys: Sys, e: nat)
    requires Inv(sys) && e < |sys.coord.outbox| && Waiting(sys, e) && IsStepEvent(sys, sys.coord.outbox[e])
    requires Get(sys.coord, sys.coord.outbox[e].sagaId).Some?
    ensures Held(sys, sys.coord.outbox[e])
  {
    hide Get, Inv, Front, RouteOf, Pos, Held;
    UnconsumedIs(sys, e);
    if e in sys.pcs { StandingOnce(sys, e); } else { NotYet(sys, e); }
  }

  lemma NotYet(sys: Sys, e: nat)
    requires Inv(sys) && e < |sys.coord.outbox| && e !in sys.pcs && IsStepEvent(sys, sys.coord.outbox[e])
    ensures Held(sys, sys.coord.outbox[e])
  {
    hide Always;
    assert EventOnce(sys, e);
  }

  /** Main result: a document is promoted by a saga that never failed and ran all of its actions. */
  lemma {:induction false} PromotedNeverFailed(noop: bool, moves: seq<Move>, doc: string)
    requires Legal(Init(noop), moves) && OncePerEvent(Init(noop), moves)
    requires doc in Run(Init(noop), moves).h.promoted
    ensures var sys := Run(Init(noop), moves); var id := sys.h.promoted[doc];
      && id in sys.h.owner && sys.h.owner[id] == doc && id in sys.h.everDone && id !in sys.h.everFailed
      && (forall j :: 1 <= j <= 4 ==> (doc, j) in sys.h.ran)
  {
    hide Run, Legal, OncePerEvent, Core, PcsOk;
    RunKeeps(noop, moves);
    AlwaysCore(Run(Init(noop), moves));
    CoreHistory(Run(Init(noop), moves));
  }

  /** Main result: a saga that ever failed never completes, and only its upload step is completed. */
  lemma {:induction false} FailedHasOnlyUploaded(noop: bool, moves: seq<Move>, id: string)
    requires Legal(Init(noop), moves) && OncePerEvent(Init(noop), moves) && id in Run(Init(noop), moves).h.everFailed
    ensures var sys := Run(Init(noop), moves);
      && id !in sys.h.everDone && id !in sys.h.promoted.Values
      && (Get(sys.coord, id).Some? ==>
            forall i: nat :: DoneAt(Get(sys.coord, id).value, i) <==> i == 0)
  {
    hide Run, Legal, OncePerEvent, Get, Core, Front;
    RunKeeps(noop, moves);
    var sys := Run(Init(noop), moves);
    PromotedHadDone(sys, id);
    AlwaysCore(sys);
    OwnedFailure(sys, id);
    OwnSaga(sys, id);
    assert SagaOnce(sys, id);
    if Get(sys.coord, id).Some? { FirstDone(Get(sys.coord, id).value); }
  }

  lemma OwnedFailure(sys: Sys, id: string)
    requires Core(sys) && id in sys.h.everFailed
    ensures id in sys.h.owner
  {
    assert id in sys.h.owner.Keys;
  }

  lemma FirstDone(s: Saga)
    requires Front(s) == 1
    ensures DoneAt(s, 0)
  {
  }
}
