/** What a run of the pipeline does to one delivery: its attempts, and the status it promotes over. */
module Deliveries {
  import opened Basics
  import opened Sagas
  import opened Pipeline
  import opened EveryRun

  /** The attempts a delivery has left, the running one included; none once it is over. */
  function Tries(pc: Pc): nat {
    match pc
    case Begin(t) => t
    case Kicking(_, t) => t
    case Acting(_, _, t) => t
    case Scanning(_, _, _, _, t) => t
    case Convicting(_, _, _, t) => t
    case Failing(_, _, _, _, t) => t
    case Reloading(_, _, _, t) => t
    case Completing(_, _, _, _, t) => t
    case Finalizing(_, t) => t
    case Promoting(_, t) => t
    case Pushing(t) => t
    case Over => 0
  }

  /** One call moves a delivery within its attempt, on to its next attempt, or to its end. */
  ghost predicate Follows(sys: Sys, pc: Pc, pc': Pc) {
    && (pc' == Over || pc' == Retry(Tries(pc)) || (Tries(pc') == Tries(pc) && !pc'.Begin?))
    && (pc'.Promoting? ==>
          pc == Finalizing(pc'.doc, pc'.tries) && pc'.doc in sys.docs && sys.docs[pc'.doc] == "draft")
  }

  /** A handler step touches no other delivery and no dedupe key. */
  lemma OwnStep(sys: Sys, e: nat, r: Reply)
    requires e in sys.pcs && e < |sys.coord.outbox|
    ensures var sys' := WorkStep(sys, e, r);
      && sys'.done == sys.done && e in sys'.pcs && sys'.pcs == sys.pcs[e := sys'.pcs[e]]
      && (sys.pcs[e] != Over ==> Follows(sys, sys.pcs[e], sys'.pcs[e]))
      && (sys.pcs[e] == Over ==> sys' == sys)
  {
    hide BeginPc, KickStep, ActLog, ActPc, ScanLog, ScanPc, ConvictPc, FailStep, ReloadPc, CompletingStep, FinalizePc,
      PromoteStep, Retry;
    var evt := sys.coord.outbox[e];
    match sys.pcs[e] {
      case Begin(t) => BeginFollows(sys, evt, t, r);
      case Kicking(id, t) => KickFollows(sys, e, id, t, r);
      case Acting(doc, k, t) => ActFollows(sys, doc, k, t, r);
      case Scanning(doc, rows, i, clean, t) => ScanFollows(sys, doc, rows, i, clean, t, r);
      case Convicting(doc, rows, i, t) => ConvictFollows(sys, doc, rows, i, t, r);
      case Failing(id, doc, rows, i, t) => FailFollows(sys, e, id, doc, rows, i, t, r);
      case Reloading(doc, k, clean, t) => ReloadFollows(sys, evt, doc, k, clean, t, r);
      case Completing(id, doc, name, k, t) => CompletingFollows(sys, e, id, doc, name, k, t, r);
      case Finalizing(doc, t) => FinalizeFollows(sys, doc, t, r);
      case Promoting(doc, t) => PromoteFollows(sys, e, evt, doc, t, r);
      case Pushing(t) => PushFollows(sys, t, r);
      case Over => assert sys.pcs[e := sys.pcs[e]] == sys.pcs;
    }
  }

  lemma BeginFollows(sys: Sys, evt: Event, t: nat, r: Reply)
    ensures Follows(sys, Begin(t), BeginPc(sys.coord, evt, t, r))
  {
    hide RouteOf, FindByAggregate;
  }

  lemma KickFollows(sys: Sys, e: nat, id: string, t: nat, r: Reply)
    ensures var sys' := KickStep(sys, e, id, t, r);
      && sys'.done == sys.done && e in sys'.pcs && sys'.pcs == sys.pcs[e := sys'.pcs[e]]
      && Follows(sys, Kicking(id, t), sys'.pcs[e])
  {
    hide CompleteStep, Refused;
  }

  lemma ActFollows(sys: Sys, doc: string, k: nat, t: nat, r: Reply)
    ensures Follows(sys, Acting(doc, k, t), ActPc(sys, doc, k, t, r))
    ensures ActLog(sys, doc, k, r).done == sys.done && ActLog(sys, doc, k, r).pcs == sys.pcs
  {
    hide RowsOf, ClearedByChecksum, MissingChecksum;
  }

  lemma ScanFollows(sys: Sys, doc: string, rows: seq<Storage>, i: nat, clean: bool, t: nat, r: Reply)
    ensures Follows(sys, Scanning(doc, rows, i, clean, t), ScanPc(doc, rows, i, clean, t, r))
    ensures ScanLog(sys, doc, rows, i, clean, r).done == sys.done && ScanLog(sys, doc, rows, i, clean, r).pcs == sys.pcs
  {
  }

  lemma ConvictFollows(sys: Sys, doc: string, rows: seq<Storage>, i: nat, t: nat, r: Reply)
    ensures Follows(sys, Convicting(doc, rows, i, t), ConvictPc(sys.coord, doc, rows, i, t, r))
  {
    hide FindByAggregate;
  }

  lemma FailFollows(sys: Sys, e: nat, id: string, doc: string, rows: seq<Storage>, i: nat, t: nat, r: Reply)
    ensures var sys' := FailStep(sys, e, id, doc, rows, i, t, r);
      && sys'.done == sys.done && e in sys'.pcs && sys'.pcs == sys.pcs[e := sys'.pcs[e]]
      && Follows(sys, Failing(id, doc, rows, i, t), sys'.pcs[e])
  {
    hide Get, Fail;
    var failed := Failed(sys, id, r.io);
    assert failed.pcs == sys.pcs && failed.done == sys.done;
  }

  lemma ReloadFollows(sys: Sys, evt: Event, doc: string, k: nat, clean: bool, t: nat, r: Reply)
    ensures Follows(sys, Reloading(doc, k, clean, t), ReloadPc(sys.coord, evt, doc, k, t, r))
  {
    hide FindByAggregate;
  }

  lemma CompletingFollows(sys: Sys, e: nat, id: string, doc: string, name: string, k: nat, t: nat, r: Reply)
    ensures var sys' := CompletingStep(sys, e, id, name, t, r);
      && sys'.done == sys.done && e in sys'.pcs && sys'.pcs == sys.pcs[e := sys'.pcs[e]]
      && Follows(sys, Completing(id, doc, name, k, t), sys'.pcs[e])
  {
    hide Refused, CompleteStep, Get;
    var coord := CompleteStep(sys.coord, id, name, r.io);
    assert Finished(sys, coord, id).pcs == sys.pcs && Finished(sys, coord, id).done == sys.done;
  }

  lemma FinalizeFollows(sys: Sys, doc: string, t: nat, r: Reply)
    ensures Follows(sys, Finalizing(doc, t), FinalizePc(sys, doc, t, r))
  {
  }

  lemma PromoteFollows(sys: Sys, e: nat, evt: Event, doc: string, t: nat, r: Reply)
    ensures var sys' := PromoteStep(sys, e, evt, doc, t, r);
      && sys'.done == sys.done && e in sys'.pcs && sys'.pcs == sys.pcs[e := sys'.pcs[e]]
      && Follows(sys, Promoting(doc, t), sys'.pcs[e])
  {
    hide DomainEvent, Append;
    var marked := At(MarkPending(sys, doc, evt.sagaId), e, Pushing(t));
    assert marked.pcs == sys.pcs[e := Pushing(t)] && marked.done == sys.done;
  }

  lemma PushFollows(sys: Sys, t: nat, r: Reply)
    ensures Follows(sys, Pushing(t), if r.ok then Over else Retry(t))
  {
  }

  // ---- Errors ---------------------------------------------------------------

  /** The call ends the attempt with an error: it failed, or what it looked for is not there. */
  predicate Fails(sys: Sys, e: nat, r: Reply)
    requires e in sys.pcs && e < |sys.coord.outbox|
  {
    var evt := sys.coord.outbox[e];
    match sys.pcs[e]
    case Begin(_) =>
      r.open || (RouteOf(evt.eventType).OnStep?
        && (!r.ok || FindByAggregate(sys.coord, evt.aggType, evt.aggId).None?))
    case Kicking(id, _) => CannotComplete(sys.coord, id, "upload", r.io.sagaWrite)
    case Acting(_, _, _) => !r.ok
    case Scanning(_, rows, i, _, _) =>
      i < |rows| && rows[i].objectKey != "" && rows[i].provider != "" && !r.ok
    case Convicting(doc, _, _, _) => !r.ok || FindByAggregate(sys.coord, "document", doc).None?
    case Failing(id, _, _, _, _) => Get(sys.coord, id).None? || !r.io.sagaWrite || !r.io.enqueue
    case Reloading(_, _, _, _) => !r.ok || FindByAggregate(sys.coord, evt.aggType, evt.aggId).None?
    case Completing(id, _, name, _, _) => CannotComplete(sys.coord, id, name, r.io.sagaWrite)
    case Finalizing(doc, _) => !r.ok || doc !in sys.docs
    case Promoting(_, _) => !r.ok
    case Pushing(_) => !r.ok
    case Over => false
  }

  /** The saga is gone, or a write it needs fails: it has not failed and the step is not completed. */
  predicate CannotComplete(c: Coord, id: string, name: string, written: bool) {
    var got := Get(c, id);
    got.None? || (!written && got.value.status != StatusFailed && Step(name, StepCompleted) !in got.value.steps)
  }

  lemma CannotCompleteIs(c: Coord, id: string, name: string, io: Io)
    ensures CannotComplete(c, id, name, io.sagaWrite) <==> Refused(c, id, name, io)
    ensures CannotComplete(c, id, name, io.sagaWrite) ==> CompleteStep(c, id, name, io) == c
  {
    hide Get;
    if Get(c, id).Some? {
      var steps := Get(c, id).value.steps;
      if AlreadyDone(steps, name) {
        var i :| 0 <= i < |steps| && steps[i].name == name && steps[i].status == StepCompleted;
        assert steps[i] == Step(name, StepCompleted);
      }
    }
  }

  /**
   * A call that fails starts the next attempt, or after the third ends the delivery, and leaves
   * nothing behind, except that a saga failed before its event could not be enqueued stays failed;
   * any other call goes on within its attempt.
   */
  lemma FailedCallRetries(sys: Sys, e: nat, r: Reply)
    requires e in sys.pcs && e < |sys.coord.outbox| && sys.pcs[e] != Over
    ensures var next, t := WorkStep(sys, e, r), Tries(sys.pcs[e]);
      && e in next.pcs
      && (Fails(sys, e, r) ==>
            && next.pcs[e] == (if t > 1 then Begin(t - 1) else Over)
            && next.docs == sys.docs && next.stores == sys.stores
            && ((next.h == sys.h && next.coord == sys.coord)
                || (sys.pcs[e].Failing? && r.io.sagaWrite && !r.io.enqueue)))
      && (!Fails(sys, e, r) ==> !next.pcs[e].Begin?)
  {
    hide BeginPc, KickStep, ActLog, ActPc, ScanLog, ScanPc, ConvictPc, FailStep, ReloadPc, CompletingStep, FinalizePc,
      PromoteStep, CannotComplete;
    var evt := sys.coord.outbox[e];
    match sys.pcs[e] {
      case Begin(t) => BeginFails(sys, evt, t, r);
      case Kicking(id, t) => KickFails(sys, e, id, t, r);
      case Acting(doc, k, t) => ActFails(sys, doc, k, t, r);
      case Scanning(doc, rows, i, clean, t) => ScanFails(sys, doc, rows, i, clean, t, r);
      case Convicting(doc, rows, i, t) => ConvictFails(sys, doc, rows, i, t, r);
      case Failing(id, doc, rows, i, t) => FailFails(sys, e, id, doc, rows, i, t, r);
      case Reloading(doc, k, clean, t) => ReloadFails(sys, evt, doc, k, t, r);
      case Completing(id, doc, name, k, t) => CompletingFails(sys, e, id, name, t, r);
      case Finalizing(doc, t) => FinalizeFails(sys, doc, t, r);
      case Promoting(doc, t) => PromoteFails(sys, e, evt, doc, t, r);
      case Pushing(t) =>
    }
  }

  /** Where the next attempt begins. */
  function Again(t: nat): Pc {
    if t > 1 then Begin(t - 1) else Over
  }

  lemma BeginFails(sys: Sys, evt: Event, t: nat, r: Reply)
    ensures var pc, found := BeginPc(sys.coord, evt, t, r), FindByAggregate(sys.coord, evt.aggType, evt.aggId);
      if r.open || (RouteOf(evt.eventType).OnStep? && (!r.ok || found.None?))
      then pc == Again(t) else !pc.Begin?
  {
    hide RouteOf, FindByAggregate;
  }

  lemma KickFails(sys: Sys, e: nat, id: string, t: nat, r: Reply)
    ensures var next := KickStep(sys, e, id, t, r);
      && e in next.pcs && next.docs == sys.docs && next.stores == sys.stores
      && if CannotComplete(sys.coord, id, "upload", r.io.sagaWrite)
         then next.pcs[e] == Again(t) && next.h == sys.h && next.coord == sys.coord else !next.pcs[e].Begin?
  {
    CannotCompleteIs(sys.coord, id, "upload", r.io);
    hide CannotComplete, CompleteStep, Refused;
  }

  lemma ActFails(sys: Sys, doc: string, k: nat, t: nat, r: Reply)
    ensures if !r.ok then ActPc(sys, doc, k, t, r) == Again(t) && ActLog(sys, doc, k, r) == sys
      else !ActPc(sys, doc, k, t, r).Begin?
  {
    hide RowsOf, ClearedByChecksum, MissingChecksum;
  }

  lemma ScanFails(sys: Sys, doc: string, rows: seq<Storage>, i: nat, clean: bool, t: nat, r: Reply)
    ensures if i < |rows| && rows[i].objectKey != "" && rows[i].provider != "" && !r.ok
      then ScanPc(doc, rows, i, clean, t, r) == Again(t) && ScanLog(sys, doc, rows, i, clean, r) == sys
      else !ScanPc(doc, rows, i, clean, t, r).Begin?
  {
  }

  lemma ConvictFails(sys: Sys, doc: string, rows: seq<Storage>, i: nat, t: nat, r: Reply)
    ensures var pc := ConvictPc(sys.coord, doc, rows, i, t, r);
      if !r.ok || FindByAggregate(sys.coord, "document", doc).None? then pc == Again(t) else !pc.Begin?
  {
    hide FindByAggregate;
  }

  lemma FailFails(sys: Sys, e: nat, id: string, doc: string, rows: seq<Storage>, i: nat, t: nat, r: Reply)
    ensures var next := FailStep(sys, e, id, doc, rows, i, t, r);
      && e in next.pcs && next.docs == sys.docs && next.stores == sys.stores
      && (Get(sys.coord, id).None? || !r.io.sagaWrite ==>
            next.pcs[e] == Again(t) && next.h == sys.h && next.coord == sys.coord)
      && (Get(sys.coord, id).Some? && r.io.sagaWrite ==>
            next.pcs[e] == if r.io.enqueue then Scanning(doc, rows, i, false, t) else Again(t))
  {
    hide Get, Fail;
  }

  lemma ReloadFails(sys: Sys, evt: Event, doc: string, k: nat, t: nat, r: Reply)
    ensures var pc := ReloadPc(sys.coord, evt, doc, k, t, r);
      if !r.ok || FindByAggregate(sys.coord, evt.aggType, evt.aggId).None? then pc == Again(t) else !pc.Begin?
  {
    hide FindByAggregate;
  }

  lemma CompletingFails(sys: Sys, e: nat, id: string, name: string, t: nat, r: Reply)
    ensures var next := CompletingStep(sys, e, id, name, t, r);
      && e in next.pcs && next.docs == sys.docs && next.stores == sys.stores
      && if CannotComplete(sys.coord, id, name, r.io.sagaWrite)
         then next.pcs[e] == Again(t) && next.h == sys.h && next.coord == sys.coord else !next.pcs[e].Begin?
  {
    CannotCompleteIs(sys.coord, id, name, r.io);
    hide CannotComplete, CompleteStep, Refused, Get;
  }

  lemma FinalizeFails(sys: Sys, doc: string, t: nat, r: Reply)
    ensures if !r.ok || doc !in sys.docs then FinalizePc(sys, doc, t, r) == Again(t)
      else !FinalizePc(sys, doc, t, r).Begin?
  {
  }

  lemma PromoteFails(sys: Sys, e: nat, evt: Event, doc: string, t: nat, r: Reply)
    ensures var next := PromoteStep(sys, e, evt, doc, t, r);
      && e in next.pcs && next.stores == sys.stores
      && if !r.ok then next.pcs[e] == Again(t) && next.h == sys.h && next.coord == sys.coord && next.docs == sys.docs
         else !next.pcs[e].Begin?
  {
    hide Append, DomainEvent;
  }

  // ---- Attempts -----------------------------------------------------------

  /** The move starts an attempt of the delivery: it dispatches the event. */
  predicate Attempts(sys: Sys, m: Move, e: nat) {
    m.Work? && m.e == e && e in sys.pcs && e < |sys.coord.outbox| && sys.pcs[e].Begin?
  }

  function AttemptCount(sys: Sys, moves: seq<Move>, e: nat): nat {
    if moves == [] then 0
    else
      var front := moves[..|moves| - 1];
      AttemptCount(sys, front, e) + if Attempts(Run(sys, front), moves[|moves| - 1], e) then 1 else 0
  }

  /** Attempts a delivery may still start. */
  function Left(sys: Sys, e: nat): nat {
    if e !in sys.pcs then MAX_TRIES
    else if sys.pcs[e].Begin? then Tries(sys.pcs[e])
    else if Tries(sys.pcs[e]) > 0 then Tries(sys.pcs[e]) - 1 else 0
  }

  lemma LeftFalls(sys: Sys, m: Move, e: nat)
    requires Enabled(sys, m) && !Repeats(sys, m)
    requires e in sys.pcs && sys.pcs[e].Begin? ==> sys.pcs[e].tries >= 1
    ensures var sys' := Apply(sys, m);
      && Left(sys', e) + (if Attempts(sys, m, e) then 1 else 0) <= Left(sys, e)
      && (e in sys'.pcs && sys'.pcs[e].Begin? ==> sys'.pcs[e].tries >= 1)
  {
    hide WorkStep, Start, CompleteStep, Fail;
    if m.Work? && m.e in sys.pcs && m.e < |sys.coord.outbox| {
      OwnStep(sys, m.e, m.reply);
    }
  }

  lemma {:induction false} AttemptsBounded(noop: bool, moves: seq<Move>, e: nat)
    requires Legal(Init(noop), moves) && OncePerEvent(Init(noop), moves)
    ensures var sys := Run(Init(noop), moves);
      && AttemptCount(Init(noop), moves, e) + Left(sys, e) <= MAX_TRIES
      && (e in sys.pcs && sys.pcs[e].Begin? ==> sys.pcs[e].tries >= 1)
  {
    if moves != [] {
      hide Apply, Enabled, Repeats, Left, Attempts;
      AttemptsBounded(noop, moves[..|moves| - 1], e);
      LeftFalls(Run(Init(noop), moves[..|moves| - 1]), moves[|moves| - 1], e);
    }
  }

  /** Main result: an event delivered once is dispatched at most three times, retries included. */
  lemma {:induction false} AtMostThreeAttempts(noop: bool, moves: seq<Move>, e: nat)
    requires Legal(Init(noop), moves) && OncePerEvent(Init(noop), moves)
    ensures AttemptCount(Init(noop), moves, e) <= MAX_TRIES
  {
    hide Run, Legal, OncePerEvent, AttemptCount;
    AttemptsBounded(noop, moves, e);
  }

  // ---- The status a promotion overwrites ----------------------------------

  /** The status the move writes to the document, if it writes one. */
  function Written(sys: Sys, m: Move, doc: string): Option<string> {
    match m
    case NewDocument(d) => if d == doc then Some("draft") else None
    case SetStatus(d, status) => if d == doc then Some(status) else None
    case Work(e, r) =>
      if e in sys.pcs && e < |sys.coord.outbox| && sys.pcs[e].Promoting? && sys.pcs[e].doc == doc && r.ok
      then Some("pending_verification") else None
    case _ => None
  }

  lemma WritesAreLogged(sys: Sys, m: Move, doc: string)
    ensures var sys', w := Apply(sys, m), Written(sys, m, doc);
      && (w.Some? ==> doc in sys'.docs && sys'.docs[doc] == w.value)
      && (w.None? ==> (doc in sys'.docs <==> doc in sys.docs) && (doc in sys.docs ==> sys'.docs[doc] == sys.docs[doc]))
  {
    hide WorkStep, Start, CompleteStep, Fail;
    if m.Work? && m.e in sys.pcs && m.e < |sys.coord.outbox| {
      WorkFrame(sys, m.e, m.reply);
    }
  }

  /**
   * Move i is the delivery's read of the document it is now about to promote: the status was
   * draft, and the delivery has not moved since.
   */
  ghost predicate ReadAt(init: Sys, moves: seq<Move>, e: nat, doc: string, tries: nat, i: nat) {
    && i < |moves| && moves[i].Work? && moves[i].e == e
    && var sys := Run(init, moves[..i]);
    && e in sys.pcs && sys.pcs[e] == Finalizing(doc, tries) && doc in sys.docs && sys.docs[doc] == "draft"
    && forall k :: i < k <= |moves| ==>
         e in Run(init, moves[..k]).pcs && Run(init, moves[..k]).pcs[e] == Promoting(doc, tries)
  }

  /** The status the delivery read is the last written to the document since move i. */
  ghost predicate WrittenLast(init: Sys, moves: seq<Move>, doc: string, i: nat, j: nat, status: string) {
    && i < j < |moves| && Written(Run(init, moves[..j]), moves[j], doc) == Some(status)
    && forall k :: j < k < |moves| ==> Written(Run(init, moves[..k]), moves[k], doc) == None
  }

  lemma MovesToPromoting(sys: Sys, m: Move, e: nat)
    requires var sys' := Apply(sys, m); e in sys'.pcs && sys'.pcs[e].Promoting?
    requires e !in sys.pcs || sys.pcs[e] != Apply(sys, m).pcs[e]
    ensures var pc := Apply(sys, m).pcs[e];
      && m.Work? && m.e == e && e in sys.pcs && sys.pcs[e] == Finalizing(pc.doc, pc.tries)
      && pc.doc in sys.docs && sys.docs[pc.doc] == "draft" && pc.doc in Apply(sys, m).docs
  {
    hide WorkStep, Start, CompleteStep, Fail;
    if m.Work? && m.e in sys.pcs && m.e < |sys.coord.outbox| {
      OwnStep(sys, m.e, m.reply);
      WorkFrame(sys, m.e, m.reply);
      assert !Retry(Tries(sys.pcs[m.e])).Promoting?;
    }
  }

  lemma {:induction false} PromotingHasRead(init: Sys, moves: seq<Move>, e: nat) returns (i: nat)
    requires e !in init.pcs && e in Run(init, moves).pcs && Run(init, moves).pcs[e].Promoting?
    ensures ReadAt(init, moves, e, Run(init, moves).pcs[e].doc, Run(init, moves).pcs[e].tries, i)
    decreases |moves|
  {
    hide Apply;
    var n := |moves| - 1;
    var front, m := moves[..n], moves[n];
    assert front + [m] == moves;
    var sys, pc := Run(init, front), Run(init, moves).pcs[e];
    if e in sys.pcs && sys.pcs[e] == pc {
      i := PromotingHasRead(init, front, e);
      assert front[..i] == moves[..i];
      forall k | i < k <= |moves| ensures e in Run(init, moves[..k]).pcs && Run(init, moves[..k]).pcs[e] == pc {
        if k <= n { assert front[..k] == moves[..k]; } else { assert moves[..k] == moves; }
      }
    } else {
      MovesToPromoting(sys, m, e);
      i := n;
      assert moves[..n + 1] == moves;
    }
  }

  /** The document's status is the last one written since the read, or the draft that was read. */
  lemma {:induction false} StatusSinceRead(init: Sys, moves: seq<Move>, doc: string, i: nat)
    requires i < |moves| && doc in Run(init, moves[..i + 1]).docs && Run(init, moves[..i + 1]).docs[doc] == "draft"
    ensures doc in Run(init, moves).docs
    ensures Run(init, moves).docs[doc] != "draft" <==>
      exists j: nat, status: string :: status != "draft" && WrittenLast(init, moves, doc, i, j, status)
    decreases |moves|
  {
    hide Apply, Written;
    var n := |moves| - 1;
    if i == n {
      assert moves[..i + 1] == moves;
    } else {
      var front, m := moves[..n], moves[n];
      assert front[..i + 1] == moves[..i + 1];
      StatusSinceRead(init, front, doc, i);
      WritesAreLogged(Run(init, front), m, doc);
      LastOfLonger(init, moves, doc, i);
      var w := Written(Run(init, front), m, doc);
      if w.Some? {
        assert WrittenLast(init, moves, doc, i, n, w.value);
      } else if Run(init, front).docs[doc] != "draft" {
        var j: nat, status: string :| status != "draft" && WrittenLast(init, front, doc, i, j, status);
        assert WrittenLast(init, moves, doc, i, j, status);
      }
    }
  }

  lemma LastOfLonger(init: Sys, moves: seq<Move>, doc: string, i: nat)
    requires i < |moves| - 1
    ensures var n := |moves| - 1; var w := Written(Run(init, moves[..n]), moves[n], doc);
      && (w.Some? ==> forall j, s :: WrittenLast(init, moves, doc, i, j, s) <==> j == n && s == w.value)
      && (w.None? ==>
            forall j, s :: WrittenLast(init, moves, doc, i, j, s) <==> WrittenLast(init, moves[..n], doc, i, j, s))
  {
    hide Run, Written;
    var n := |moves| - 1;
    assert forall k :: 0 <= k <= n ==> moves[..n][..k] == moves[..k];
    assert forall k :: 0 <= k < n ==> moves[..n][k] == moves[k];
  }

  /**
   * Main result: finalize reads the status and writes it in two calls, so a promotion overwrites
   * a status other than draft exactly when the last status written to the document between the
   * two is another one; in particular never when nothing was written in between.
   */
  lemma {:induction false} OverwritesWhatLandedBetween(noop: bool, moves: seq<Move>, e: nat) returns (i: nat)
    requires Legal(Init(noop), moves) && e in Run(Init(noop), moves).pcs && Run(Init(noop), moves).pcs[e].Promoting?
    ensures var pc := Run(Init(noop), moves).pcs[e];
      && ReadAt(Init(noop), moves, e, pc.doc, pc.tries, i)
      && pc.doc in Run(Init(noop), moves).docs
      && (Run(Init(noop), moves).docs[pc.doc] != "draft" <==>
            exists j: nat, status: string :: status != "draft" && WrittenLast(Init(noop), moves, pc.doc, i, j, status))
  {
    i := PromotingHasRead(Init(noop), moves, e);
    var doc := Run(Init(noop), moves).pcs[e].doc;
    var before := Run(Init(noop), moves[..i]);
    assert moves[..i + 1][..i] == moves[..i];
    assert Run(Init(noop), moves[..i + 1]) == Apply(before, moves[i]);
    WritesAreLogged(before, moves[i], doc);
    hide Apply, Legal;
    StatusSinceRead(Init(noop), moves, doc, i);
  }

  /**
   * And such writes do get lost: whatever status a decision writes while a delivery is about to
   * promote the document, the delivery may go on and replace it by pending_verification.
   */
  lemma PromotionLosesUpdate(noop: bool, moves: seq<Move>, e: nat, status: string, r: Reply)
    requires Legal(Init(noop), moves) && r.ok
    requires e in Run(Init(noop), moves).pcs && Run(Init(noop), moves).pcs[e].Promoting?
    ensures var doc := Run(Init(noop), moves).pcs[e].doc;
      var decided := moves + [SetStatus(doc, status)];
      && Legal(Init(noop), decided + [Work(e, r)])
      && doc in Run(Init(noop), decided).docs && Run(Init(noop), decided).docs[doc] == status
      && doc in Run(Init(noop), decided + [Work(e, r)]).docs
      && Run(Init(noop), decided + [Work(e, r)]).docs[doc] == "pending_verification"
  {
    hide Run, Legal, Always, Apply, Enabled;
    var sys := Run(Init(noop), moves);
    var update := SetStatus(sys.pcs[e].doc, status);
    EveryRun.RunKeeps(noop, moves);
    Standing(sys, e);
    LosesUpdate(sys, e, status, r);
    OneMore(Init(noop), moves, update);
    OneMore(Init(noop), moves + [update], Work(e, r));
  }

  lemma LosesUpdate(sys: Sys, e: nat, status: string, r: Reply)
    requires e in sys.pcs && e < |sys.coord.outbox| && sys.pcs[e].Promoting? && r.ok
    ensures var doc := sys.pcs[e].doc; var mid := Apply(sys, SetStatus(doc, status));
      && Enabled(sys, SetStatus(doc, status)) && Enabled(mid, Work(e, r)) && doc in mid.docs && mid.docs[doc] == status
      && doc in Apply(mid, Work(e, r)).docs && Apply(mid, Work(e, r)).docs[doc] == "pending_verification"
  {
    hide WorkStep;
    WorkFrame(Apply(sys, SetStatus(sys.pcs[e].doc, status)), e, r);
  }

  lemma OneMore(init: Sys, moves: seq<Move>, m: Move)
    requires Legal(init, moves) && Enabled(Run(init, moves), m)
    ensures Legal(init, moves + [m]) && Run(init, moves + [m]) == Apply(Run(init, moves), m)
  {
    hide Apply, Enabled;
    assert (moves + [m])[..|moves|] == moves;
  }
}
