/** One upload saga: how its steps complete, fail, and show in events. */
module UploadSagas {
  import opened Basics
  import opened Sagas
  import opened Pipeline
  import SagaRuns

  predicate DoneAt(s: Saga, i: nat) {
    i < |s.steps| && s.steps[i].status == StepCompleted
  }

  /** How many leading steps are completed. */
  function Front(s: Saga): nat {
    if !DoneAt(s, 0) then 0 else if !DoneAt(s, 1) then 1 else if !DoneAt(s, 2) then 2
    else if !DoneAt(s, 3) then 3 else if !DoneAt(s, 4) then 4 else 5
  }

  /** What a step's status is when the first f steps are completed. */
  function Standard(i: nat, f: nat): StepStatus {
    if i < f then StepCompleted else if i == f then StepRunning else StepPending
  }

  /** Of a saga that has not failed: steps complete in list order, the next one is running, the rest pending. */
  ghost predicate UploadShape(s: Saga) {
    && Names(s) == DOCUMENT_UPLOAD_STEPS && s.aggType == "document" && s.status != StatusFailed
    && (forall i: nat :: i < |s.steps| ==> s.steps[i].status == Standard(i, Front(s)))
    && (forall i: nat :: DoneAt(s, i) ==> i < Front(s))
    && s.current == Min(Front(s), 4) && (s.status == StatusCompleted <==> Front(s) == 5)
  }

  /** Of a failed one: the scan is marked failed, and all else is as it was with f steps completed. */
  ghost predicate FailedAt(s: Saga, f: nat) {
    && 1 <= f <= 5 && s.current == Min(f, 4) && |s.steps| == 5 && s.steps[1].status == StepFailed
    && forall i: nat :: i < 5 && i != 1 ==> s.steps[i].status == Standard(i, f)
  }

  ghost predicate FailedShape(s: Saga) {
    && Names(s) == DOCUMENT_UPLOAD_STEPS && s.aggType == "document" && s.status == StatusFailed
    && s.current <= 4 && Front(s) == 1 && exists f: nat :: FailedAt(s, f)
  }

  lemma UploadNames(s: Saga)
    requires Names(s) == DOCUMENT_UPLOAD_STEPS
    ensures |s.steps| == 5
    ensures forall i :: 0 <= i < 5 ==> s.steps[i].name == DOCUMENT_UPLOAD_STEPS[i]
  {
    assert |Names(s)| == 5;
    assert forall i :: 0 <= i < 5 ==> Names(s)[i] == s.steps[i].name;
  }

  lemma FreshUpload(id: string, doc: string)
    ensures var s := UploadSaga(id, doc);
      && UploadShape(s) && Front(s) == 0 && s.status == StatusRunning
      && s.id == id && s.aggType == "document" && s.aggId == doc
  {
    assert Names(UploadSaga(id, doc)) == DOCUMENT_UPLOAD_STEPS;
  }

  lemma AlreadyDoneIffPassed(s: Saga, k: nat)
    requires UploadShape(s) && k < 5
    ensures AlreadyDone(s.steps, DOCUMENT_UPLOAD_STEPS[k]) <==> k < Front(s)
  {
    UploadNames(s);
    assert forall i: nat :: i < Front(s) ==> DoneAt(s, i);
    if AlreadyDone(s.steps, DOCUMENT_UPLOAD_STEPS[k]) {
      var i: nat :| i < |s.steps| && s.steps[i].name == DOCUMENT_UPLOAD_STEPS[k] && s.steps[i].status == StepCompleted;
      assert DoneAt(s, i) && i == k;
    } else {
      assert s.steps[k].name == DOCUMENT_UPLOAD_STEPS[k];
    }
  }

  lemma AdvanceUpload(s: Saga, k: nat)
    requires UploadShape(s) && Front(s) == k < 5
    ensures var s' := Advance(s, DOCUMENT_UPLOAD_STEPS[k]);
      && UploadShape(s') && Front(s') == k + 1 && s'.id == s.id && s'.aggId == s.aggId && s'.aggType == s.aggType
  {
    hide DoneAt, DoneSet, Mark, Names, Front;
    UploadNames(s);
    SagaRuns.AdvanceShape(s, DOCUMENT_UPLOAD_STEPS[k]);
    AdvanceDone(s, k);
    AdvanceFront(s, Advance(s, DOCUMENT_UPLOAD_STEPS[k]), k);
    AdvanceStandard(s, k);
  }

  /** The completed step is done, the one after it runs, and the rest stay as they were. */
  lemma AdvanceStandard(s: Saga, k: nat)
    requires UploadShape(s) && Front(s) == k < 5
    requires |DoneSet(Mark(s.steps, DOCUMENT_UPLOAD_STEPS[k], StepCompleted))| == 5 <==> k == 4
    ensures var s' := Advance(s, DOCUMENT_UPLOAD_STEPS[k]);
      |s'.steps| == 5 && forall i: nat :: i < 5 ==> s'.steps[i].status == Standard(i, k + 1)
  {
    hide DoneAt, DoneSet, Names, Front;
    UploadNames(s);
  }

  lemma AdvanceDone(s: Saga, k: nat)
    requires UploadShape(s) && Front(s) == k < 5
    ensures var s' := Advance(s, DOCUMENT_UPLOAD_STEPS[k]);
      && (forall i: nat :: DoneAt(s', i) <==> DoneAt(s, i) || i == k)
      && (|DoneSet(Mark(s.steps, DOCUMENT_UPLOAD_STEPS[k], StepCompleted))| == 5 <==> k == 4)
  {
    UploadNames(s);
    SagaRuns.AdvanceShape(s, DOCUMENT_UPLOAD_STEPS[k]);
    var marked := Mark(s.steps, DOCUMENT_UPLOAD_STEPS[k], StepCompleted);
    SagaRuns.DoneSetBound(marked);
    assert forall i: nat :: i < 5 ==> (marked[i].status == StepCompleted <==> DoneAt(s, i) || i == k);
    assert marked[4].status == StepCompleted ==> DoneAt(s, 4) || k == 4;
  }

  lemma AdvanceFront(s: Saga, s': Saga, k: nat)
    requires (forall i: nat :: DoneAt(s, i) ==> i < Front(s)) && Front(s) == k < 5
    requires forall i: nat :: DoneAt(s', i) <==> DoneAt(s, i) || i == k
    ensures Front(s') == k + 1 && forall i: nat :: DoneAt(s', i) ==> i < k + 1
  {
    hide DoneAt;
  }

  lemma FailShape(s: Saga)
    requires (UploadShape(s) && Front(s) >= 1) || FailedShape(s)
    ensures var s' := MarkFailed(s, "virus_scan");
      && FailedShape(s') && s'.id == s.id && s'.aggId == s.aggId && s'.aggType == s.aggType
      && forall i: nat :: DoneAt(s', i) <==> DoneAt(s, i) && i != 1
  {
    UploadNames(s);
    var s' := MarkFailed(s, "virus_scan");
    assert Names(s') == Names(s);
    assert forall i: nat :: DoneAt(s', i) <==> DoneAt(s, i) && i != 1;
    if FailedShape(s) {
      var f: nat :| FailedAt(s, f);
      assert FailedAt(s', f);
    } else {
      assert FailedAt(s', Front(s));
    }
  }

  lemma InListOrder(s: Saga)
    requires UploadShape(s) || FailedShape(s)
    ensures forall i: nat, j: nat :: i < j && i != 1 && DoneAt(s, j) ==> DoneAt(s, i)
    ensures s.status != StatusFailed ==> forall i: nat, j: nat :: i < j && DoneAt(s, j) ==> DoneAt(s, i)
  {
    if s.status != StatusFailed {
      hide Front;
      forall i: nat, j: nat | i < j && DoneAt(s, j) ensures DoneAt(s, i) {
        assert j < Front(s);
      }
    } else {
      var f: nat :| FailedAt(s, f);
    }
  }

  // ---- Its events ---------------------------------------------------------

  /** Position of a step event of an upload saga, counted from 1; 0 for other events. */
  function Pos(evt: Event): nat {
    if !evt.payload.Done? then 0
    else if evt.payload.step == "upload" then 1
    else if evt.payload.step == "virus_scan" then 2
    else if evt.payload.step == "metadata_extraction" then 3
    else if evt.payload.step == "storage" then 4
    else if evt.payload.step == "indexing" then 5
    else 0
  }

  lemma TrimSaga(name: string)
    ensures TrimPrefix("saga." + name, "saga.") == name
  {
    assert ("saga." + name)[5..] == name;
  }

  lemma PlainRoutes()
    ensures RouteOf("saga.started") == Ignore && RouteOf("saga.failed") == Ignore
    ensures RouteOf("document_uploaded") == Kick && RouteOf("verification_needed") == Broadcast
  {
    assert TrimPrefix("saga.started", "saga.") == "started" by {
      assert "saga.started" == "saga." + "started";
      TrimSaga("started");
    }
    assert TrimPrefix("saga.failed", "saga.") == "failed" by {
      assert "saga.failed" == "saga." + "failed";
      TrimSaga("failed");
    }
    assert TrimPrefix("document_uploaded", "saga.") == "document_uploaded" by {
      assert "document_uploaded"[0] == 'd';
    }
    assert TrimPrefix("verification_needed", "saga.") == "verification_needed" by {
      assert "verification_needed"[0] == 'v';
    }
    hide TrimPrefix;
  }

  lemma UploadRoute(k: nat)
    requires k < 5
    ensures RouteOf("saga." + DOCUMENT_UPLOAD_STEPS[k]) == if k < 4 then OnStep(k + 1) else Ignore
    ensures Pos(Event("document", "", "", "", Done(DOCUMENT_UPLOAD_STEPS[k]))) == k + 1
  {
    TrimSaga(DOCUMENT_UPLOAD_STEPS[k]);
  }
}
