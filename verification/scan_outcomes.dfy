/** What the virus-scan action comes to when every call is answered, whatever the scanner says. */
module ScanOutcomes {
  import opened Basics
  import opened Sagas
  import opened SagaEffects
  import opened Pipeline
  import opened UploadSagas
  import opened EveryRun
  import Deliveries
  import Workers

  /** Reads and writes go through; the scanner finds row i clean exactly when verdict(i). */
  function Answer(pc: Pc, verdict: nat -> bool): Reply {
    Reply(false, true, !pc.Scanning? || verdict(pc.i), Io(true, true, true))
  }

  /** The delivery's next n calls, nobody else moving. */
  function Calls(sys: Sys, e: nat, verdict: nat -> bool, n: nat): Sys {
    if n == 0 then sys
    else
      var s := Calls(sys, e, verdict, n - 1);
      if e in s.pcs then Apply(s, Work(e, Answer(s.pcs[e], verdict))) else s
  }

  lemma {:induction false} CallsAdd(sys: Sys, e: nat, verdict: nat -> bool, m: nat, n: nat)
    ensures Calls(Calls(sys, e, verdict, m), e, verdict, n) == Calls(sys, e, verdict, m + n)
    decreases n
  {
    hide Apply, Answer;
    if n > 0 { CallsAdd(sys, e, verdict, m, n - 1); }
  }

  lemma CallOnce(sys: Sys, e: nat, verdict: nat -> bool)
    requires e in sys.pcs && e < |sys.coord.outbox|
    ensures Calls(sys, e, verdict, 1) == WorkStep(sys, e, Answer(sys.pcs[e], verdict))
  {
    hide WorkStep, Answer;
    assert Calls(sys, e, verdict, 0) == sys;
  }

  /** The delivery's event, and that its saga is found for the document. */
  ghost predicate Stands(sys: Sys, e: nat, pc: Pc, doc: string) {
    && Always(sys) && e in sys.pcs && e < |sys.coord.outbox| && sys.pcs[e] == pc
    && FindByAggregate(sys.coord, "document", doc).Some?
  }

  ghost predicate FoundFailed(sys: Sys, doc: string) {
    var found := FindByAggregate(sys.coord, "document", doc);
    found.Some? && found.value.status == StatusFailed
  }

  /** Documents and the owners of sagas are left alone. */
  ghost predicate Aside(sys: Sys, end: Sys) {
    end.docs == sys.docs && end.h.owner == sys.h.owner
  }

  lemma KeepsAlways(sys: Sys, e: nat, verdict: nat -> bool)
    requires Always(sys) && e in sys.pcs && e < |sys.coord.outbox|
    ensures var next := WorkStep(sys, e, Answer(sys.pcs[e], verdict));
      && Always(next) && e in next.pcs && e < |next.coord.outbox|
      && (!sys.pcs[e].Promoting? ==> Aside(sys, next))
  {
    hide Always, WorkStep, Answer;
    WorkFrame(sys, e, Answer(sys.pcs[e], verdict));
    WorkKeeps(sys, e, Answer(sys.pcs[e], verdict));
    Workers.OutboxGrows(sys, e, Answer(sys.pcs[e], verdict));
  }

  /** failSaga with the store up: the saga is found, and failed. */
  lemma Convicts(sys: Sys, e: nat, doc: string, rows: seq<Storage>, i: nat, t: nat, verdict: nat -> bool)
    requires Stands(sys, e, Convicting(doc, rows, i, t), doc)
    ensures var end := Calls(sys, e, verdict, 2);
      Stands(end, e, Scanning(doc, rows, i, false, t), doc) && FoundFailed(end, doc) && Aside(sys, end)
  {
    hide Always, WorkStep, Answer, Calls, FindByAggregate;
    var found := FindByAggregate(sys.coord, "document", doc).value;
    var failing := At(sys, e, Failing(found.id, doc, rows, i, t));
    ConvictCall(sys, e, doc, rows, i, t, verdict);
    KeepsAlways(sys, e, verdict);
    CallOnce(sys, e, verdict);
    FailCall(sys, failing, e, found, doc, rows, i, t, verdict);
    KeepsAlways(failing, e, verdict);
    CallOnce(failing, e, verdict);
    CallsAdd(sys, e, verdict, 1, 1);
  }

  lemma ConvictCall(sys: Sys, e: nat, doc: string, rows: seq<Storage>, i: nat, t: nat, verdict: nat -> bool)
    requires e in sys.pcs && e < |sys.coord.outbox| && sys.pcs[e] == Convicting(doc, rows, i, t)
    requires FindByAggregate(sys.coord, "document", doc).Some?
    ensures WorkStep(sys, e, Answer(sys.pcs[e], verdict))
         == At(sys, e, Failing(FindByAggregate(sys.coord, "document", doc).value.id, doc, rows, i, t))
  {
    hide FindByAggregate;
  }

  lemma FailCall(sys: Sys, failing: Sys, e: nat, found: Saga, doc: string, rows: seq<Storage>, i: nat, t: nat,
    verdict: nat -> bool)
    requires Stands(sys, e, Convicting(doc, rows, i, t), doc)
    requires FindByAggregate(sys.coord, "document", doc) == Some(found)
    requires failing == At(sys, e, Failing(found.id, doc, rows, i, t))
    ensures var next := WorkStep(failing, e, Answer(failing.pcs[e], verdict));
      next.pcs[e] == Scanning(doc, rows, i, false, t) && FoundFailed(next, doc)
  {
    hide Always, Core, Get, Ref, Fail, Front, RouteOf, Pos, HistoryOk, EventOk;
    Standing(sys, e);
    var id := sys.coord.outbox[e].sagaId;
    OwnSaga(sys, id);
    FoundForDoc(sys, doc, id);
    IndexFound(sys, doc, id);
    FailEffect(sys.coord, id, "virus_scan", Io(true, true, true));
  }

  /** The index leads to the document's own saga. */
  lemma IndexFound(sys: Sys, doc: string, id: string)
    requires Core(sys) && id in sys.h.owner && sys.h.owner[id] == doc
    ensures FindByAggregate(sys.coord, "document", doc).Some? ==> Ref(sys.coord, "document", doc) == Some(id)
  {
    hide Get, Ref, SagasOk, EventsOk, HistoryOk;
  }

  // ---- The loop -------------------------------------------------------------

  /** Every row from i on that has an object key and a provider is found clean. */
  predicate AllClean(rows: seq<Storage>, i: nat, verdict: nat -> bool) {
    forall j :: i <= j < |rows| && rows[j].objectKey != "" && rows[j].provider != "" ==> verdict(j)
  }

  lemma ScanCall(sys: Sys, e: nat, doc: string, rows: seq<Storage>, i: nat, clean: bool, t: nat, verdict: nat -> bool)
    requires e in sys.pcs && e < |sys.coord.outbox| && sys.pcs[e] == Scanning(doc, rows, i, clean, t) && i <= |rows|
    ensures var next := WorkStep(sys, e, Answer(sys.pcs[e], verdict));
      && next.coord == sys.coord
      && next.pcs[e] == (
           if i == |rows| then Reloading(doc, 1, clean, t)
           else if rows[i].objectKey == "" || rows[i].provider == "" || verdict(i)
           then Scanning(doc, rows, i + 1, clean, t)
           else Convicting(doc, rows, i + 1, t))
  {
  }

  lemma {:induction false} ScanLoop(sys: Sys, e: nat, doc: string, rows: seq<Storage>, i: nat, clean: bool, t: nat,
    verdict: nat -> bool) returns (n: nat)
    requires Stands(sys, e, Scanning(doc, rows, i, clean, t), doc) && i <= |rows|
    requires !clean ==> FoundFailed(sys, doc)
    ensures var end, good := Calls(sys, e, verdict, n), clean && AllClean(rows, i, verdict);
      && Stands(end, e, Reloading(doc, 1, good, t), doc) && Aside(sys, end)
      && if good then end.coord == sys.coord else FoundFailed(end, doc)
    decreases |rows| - i
  {
    hide Always, WorkStep, Answer, Calls, FindByAggregate;
    ScanCall(sys, e, doc, rows, i, clean, t, verdict);
    KeepsAlways(sys, e, verdict);
    CallOnce(sys, e, verdict);
    var next := Calls(sys, e, verdict, 1);
    n := 1;
    if i < |rows| {
      var m, k := 0, 0;
      if next.pcs[e].Convicting? {
        Convicts(next, e, doc, rows, i + 1, t, verdict);
        k := 2;
        m := ScanLoop(Calls(next, e, verdict, 2), e, doc, rows, i + 1, false, t, verdict);
        CallsAdd(next, e, verdict, 2, m);
      } else {
        m := ScanLoop(next, e, doc, rows, i + 1, clean, t, verdict);
        assert AllClean(rows, i, verdict) <==> AllClean(rows, i + 1, verdict);
      }
      CallsAdd(sys, e, verdict, 1, k + m);
      n := 1 + (k + m);
    }
  }

  // ---- The action -----------------------------------------------------------

  /** The rows pass: all have checksums and, with a real scanner, every stored object is found clean. */
  predicate Passes(rows: seq<Storage>, noop: bool, verdict: nat -> bool) {
    (forall j :: 0 <= j < |rows| ==> rows[j].checksum != "") && (noop || AllClean(rows, 0, verdict))
  }

  lemma ActCall(sys: Sys, e: nat, doc: string, t: nat, verdict: nat -> bool)
    requires e in sys.pcs && e < |sys.coord.outbox| && sys.pcs[e] == Acting(doc, 1, t)
    ensures var next, rows := WorkStep(sys, e, Answer(sys.pcs[e], verdict)), RowsOf(sys, doc);
      && next.coord == sys.coord
      && next.pcs[e] == (
           if exists j :: 0 <= j < |rows| && rows[j].checksum == "" then Convicting(doc, rows, |rows|, t)
           else if rows == [] || sys.noopScanner then Reloading(doc, 1, true, t)
           else Scanning(doc, rows, 0, true, t))
  {
    hide RowsOf;
  }

  lemma ActEnds(sys: Sys, e: nat, doc: string, t: nat, verdict: nat -> bool) returns (n: nat)
    requires Stands(sys, e, Acting(doc, 1, t), doc)
    ensures var end, good := Calls(sys, e, verdict, n), Passes(RowsOf(sys, doc), sys.noopScanner, verdict);
      && Stands(end, e, Reloading(doc, 1, good, t), doc) && Aside(sys, end)
      && if good then end.coord == sys.coord else FoundFailed(end, doc)
  {
    hide Always, WorkStep, Answer, Calls, FindByAggregate, RowsOf;
    var rows := RowsOf(sys, doc);
    ActCall(sys, e, doc, t, verdict);
    KeepsAlways(sys, e, verdict);
    CallOnce(sys, e, verdict);
    var next := Calls(sys, e, verdict, 1);
    n := 1;
    if next.pcs[e].Convicting? {
      Convicts(next, e, doc, rows, |rows|, t, verdict);
      var m := ScanLoop(Calls(next, e, verdict, 2), e, doc, rows, |rows|, false, t, verdict);
      CallsAdd(next, e, verdict, 2, m);
      CallsAdd(sys, e, verdict, 1, 2 + m);
      n := 1 + (2 + m);
    } else if next.pcs[e].Scanning? {
      var m := ScanLoop(next, e, doc, rows, 0, true, t, verdict);
      CallsAdd(sys, e, verdict, 1, m);
      n := 1 + m;
    }
  }

  /** The reload after the action: a failed saga ends the delivery. */
  lemma ReloadEnds(sys: Sys, e: nat, doc: string, t: nat, verdict: nat -> bool)
    requires Stands(sys, e, Reloading(doc, 1, false, t), doc) && FoundFailed(sys, doc)
    ensures var end := Calls(sys, e, verdict, 1); Stands(end, e, Over, doc) && FoundFailed(end, doc) && Aside(sys, end)
  {
    hide Always, Calls, FindByAggregate, Pos, EventOk;
    Standing(sys, e);
    FoundIsOwn(sys, sys.coord.outbox[e]);
    KeepsAlways(sys, e, verdict);
    CallOnce(sys, e, verdict);
  }

  // ---- Main results ---------------------------------------------------------

  /** From move k on the run is delivery e's calls, answered according to the verdicts. */
  ghost predicate Answered(init: Sys, moves: seq<Move>, k: nat, e: nat, verdict: nat -> bool) {
    forall j :: k <= j < |moves| ==>
      e in Run(init, moves[..j]).pcs && moves[j] == Work(e, Answer(Run(init, moves[..j]).pcs[e], verdict))
  }

  lemma {:induction false} CallsRun(init: Sys, moves: seq<Move>, k: nat, e: nat, verdict: nat -> bool, n: nat)
    returns (all: seq<Move>)
    requires Legal(init, moves) && e in Run(init, moves).pcs && e < |Run(init, moves).coord.outbox|
    requires k <= |moves| && Answered(init, moves, k, e, verdict)
    ensures Legal(init, all) && Run(init, all) == Calls(Run(init, moves), e, verdict, n)
    ensures moves <= all && Answered(init, all, k, e, verdict)
    ensures e in Run(init, all).pcs && e < |Run(init, all).coord.outbox|
  {
    hide Legal, Run, Answer, WorkStep;
    if n == 0 {
      all := moves;
    } else {
      var front := CallsRun(init, moves, k, e, verdict, n - 1);
      var sys := Run(init, front);
      var m := Work(e, Answer(sys.pcs[e], verdict));
      Workers.WorkFacts(sys, e, m.reply);
      Workers.OutboxGrows(sys, e, m.reply);
      Deliveries.OneMore(init, front, m);
      all := front + [m];
      forall j | k <= j < |all|
        ensures e in Run(init, all[..j]).pcs && all[j] == Work(e, Answer(Run(init, all[..j]).pcs[e], verdict))
      {
        if j < |front| { assert all[..j] == front[..j]; } else { assert all[..j] == front; }
      }
    }
  }

  /** Rows that pass: all have checksums and, with a real scanner, every stored object is found clean. */
  lemma PassesIs(rows: seq<Storage>, noop: bool, verdict: nat -> bool)
    ensures Passes(rows, noop, verdict) <==>
      && (forall row :: row in rows ==> row.checksum != "")
      && (noop || forall j :: 0 <= j < |rows| && rows[j].objectKey != "" && rows[j].provider != "" ==> verdict(j))
  {
  }

  /**
   * Main result: from every reached state in which a delivery is about to scan a document whose
   * saga is found, answered calls bring it to the reload. It comes there clean exactly when every
   * row has a checksum and, with a real scanner, every row with a key and provider is found clean;
   * otherwise the saga is failed, and the reload ends the delivery without another attempt.
   */
  lemma {:induction false} ScanDecides(noop: bool, moves: seq<Move>, e: nat, doc: string, t: nat, verdict: nat -> bool)
    returns (all: seq<Move>, last: seq<Move>)
    requires Legal(Init(noop), moves)
    requires var sys := Run(Init(noop), moves);
      e in sys.pcs && sys.pcs[e] == Acting(doc, 1, t) && FindByAggregate(sys.coord, "document", doc).Some?
    ensures Legal(Init(noop), last) && moves <= all <= last && Answered(Init(noop), last, |moves|, e, verdict)
    ensures var sys, end, over := Run(Init(noop), moves), Run(Init(noop), all), Run(Init(noop), last);
      var rows := RowsOf(sys, doc);
      var good := (forall row :: row in rows ==> row.checksum != "")
        && (sys.noopScanner || forall j :: 0 <= j < |rows| && rows[j].objectKey != "" && rows[j].provider != "" ==>
              verdict(j));
      && e in end.pcs && end.pcs[e] == Reloading(doc, 1, good, t)
      && (good ==> end.coord == sys.coord)
      && (!good ==> FoundFailed(end, doc) && FoundFailed(over, doc) && e in over.pcs && over.pcs[e] == Over)
  {
    hide Run, Legal, Calls, FindByAggregate, RowsOf, Always, Answer, Passes, FoundFailed;
    EveryRun.RunKeeps(noop, moves);
    var sys := Run(Init(noop), moves);
    Standing(sys, e);
    PassesIs(RowsOf(sys, doc), sys.noopScanner, verdict);
    hide PcOk, Core, EventOk, HistoryOk;
    var n := ActEnds(sys, e, doc, t, verdict);
    all := CallsRun(Init(noop), moves, |moves|, e, verdict, n);
    last := all;
    if !Passes(RowsOf(sys, doc), sys.noopScanner, verdict) {
      ReloadEnds(Run(Init(noop), all), e, doc, t, verdict);
      last := CallsRun(Init(noop), all, |moves|, e, verdict, 1);
    }
  }

  /** A delivery that found something before has failed the saga. */
  lemma UncleanFailed(sys: Sys, e: nat, doc: string, rows: seq<Storage>, i: nat, t: nat)
    requires Stands(sys, e, Scanning(doc, rows, i, false, t), doc)
    ensures FoundFailed(sys, doc)
  {
    hide Always, Core, FindByAggregate, Get, Front, UploadShape, FailedShape, HistoryOk, EventOk, Pos, RouteOf;
    Standing(sys, e);
    var id := sys.coord.outbox[e].sagaId;
    FoundForDoc(sys, doc, id);
    OwnSaga(sys, id);
  }

  /**
   * And from within the loop: a row with a key and provider that is found infected fails the saga,
   * and the delivery goes on to the reload and ends.
   */
  lemma {:induction false} InfectedRowFailsSaga(noop: bool, moves: seq<Move>, e: nat, doc: string,
    rows: seq<Storage>, i: nat, clean: bool, t: nat, verdict: nat -> bool) returns (all: seq<Move>)
    requires Legal(Init(noop), moves) && i < |rows| && rows[i].objectKey != "" && rows[i].provider != "" && !verdict(i)
    requires var sys := Run(Init(noop), moves);
      && e in sys.pcs && sys.pcs[e] == Scanning(doc, rows, i, clean, t)
      && FindByAggregate(sys.coord, "document", doc).Some?
    ensures Legal(Init(noop), all) && moves <= all && Answered(Init(noop), all, |moves|, e, verdict)
    ensures var end := Run(Init(noop), all); e in end.pcs && end.pcs[e] == Over && FoundFailed(end, doc)
  {
    hide Run, Legal, Calls, FindByAggregate, Always, Answer, FoundFailed;
    EveryRun.RunKeeps(noop, moves);
    var sys := Run(Init(noop), moves);
    Standing(sys, e);
    hide PcOk, Core, EventOk, HistoryOk;
    if !clean { UncleanFailed(sys, e, doc, rows, i, t); }
    var n := ScanLoop(sys, e, doc, rows, i, clean, t, verdict);
    var reloading := CallsRun(Init(noop), moves, |moves|, e, verdict, n);
    ReloadEnds(Run(Init(noop), reloading), e, doc, t, verdict);
    all := CallsRun(Init(noop), reloading, |moves|, e, verdict, 1);
  }
}
