/**
 * Concurrent deciders on approvals and verifications, each under its record's lock
 * (backend/internal/service/approval.go, backend/internal/service/verification.go).
 */
module Decisions {
  import Locks

  datatype Kind = Approval | Verification

  /** Granted stands for an approval's "approved" and a verification's "verified". */
  datatype Status = Pending | Granted | Rejected

  datatype Record = Record(kind: Kind, doc: string, approver: string, level: nat, status: Status)

  /** How far a decider has got; Leaving is about to release the lock. */
  datatype Pc = Waiting | Entered | Loaded | Saved | Closing | Announcing | Leaving | Finished

  datatype Decider = Decider(key: string, actor: string, decision: Status, pc: Pc)

  /**
   * Records are kept under their lock key, and a decider's number is its lock token. The last five
   * fields are history: the saves of each record, the chains opened on each document, the deciders
   * that closed a chain, and, since a document's last chain was opened, who closed it and whether
   * a decider failed on it after a save.
   */
  datatype Sys = Sys(
    locks: Locks.Sys, records: map<string, Record>, docs: map<string, Status>, deciders: map<nat, Decider>,
    saves: multiset<string>, chains: multiset<string>, closers: set<nat>, settled: map<string, nat>,
    broken: set<string>)

  const LOCK_TTL := 10000

  datatype Move =
    | OpenChain(doc: string, levels: map<string, Record>)
    | OpenVerification(key: string, doc: string)
    | Arrive(d: nat, key: string, actor: string, decision: Status)
    | Step(d: nat, ok: bool)
    | Tick(elapsed: nat)

  function Init(start: int): Sys {
    Sys(Locks.Sys(start, map[], map[]), map[], map[], map[], multiset{}, multiset{}, {}, map[], {})
  }

  function PendingOn(records: map<string, Record>, doc: string): set<string> {
    set key |
      key in records && records[key].doc == doc && records[key].kind == Approval && records[key].status == Pending
  }

  ghost predicate Enabled(sys: Sys, m: Move) {
    match m
    case OpenChain(doc, levels) =>
      levels != map[] && forall key :: key in levels ==>
        key !in sys.records && levels[key] == Record(Approval, doc, levels[key].approver, levels[key].level, Pending)
    case OpenVerification(key, _) => key !in sys.records
    case Arrive(d, _, _, decision) => d !in sys.deciders && decision != Pending
    case Step(d, _) => d in sys.deciders && sys.deciders[d].pc != Finished
    case Tick(_) => true
  }

  /** The decider moves on; nothing else changes. */
  function At(sys: Sys, d: nat, pc: Pc): Sys
    requires d in sys.deciders
  {
    sys.(deciders := sys.deciders[d := sys.deciders[d].(pc := pc)])
  }

  /** A decider that fails after its save leaves the chain's resolution undone. */
  function Break(sys: Sys, d: nat): Sys
    requires d in sys.deciders && sys.deciders[d].key in sys.records
  {
    var r := sys.records[sys.deciders[d].key];
    At(sys, d, Leaving).(broken := sys.broken + if r.kind == Approval then {r.doc} else {})
  }

  /** The checks made on the record just read. */
  predicate MayDecide(r: Record, actor: string) {
    (r.kind == Approval ==> r.approver == actor) && r.status == Pending
  }

  function StepWaiting(sys: Sys, d: nat, ok: bool): Sys
    requires d in sys.deciders
  {
    var key := sys.deciders[d].key;
    if !ok then At(sys, d, Finished)
    else if Locks.Live(sys.locks.store, key, sys.locks.now) then sys
    else At(sys, d, Entered).(locks := Locks.Apply(sys.locks, Locks.Acquire(key, d, LOCK_TTL)))
  }

  function StepEntered(sys: Sys, d: nat, ok: bool): Sys
    requires d in sys.deciders
  {
    var me := sys.deciders[d];
    if ok && me.key in sys.records && MayDecide(sys.records[me.key], me.actor) then At(sys, d, Loaded)
    else At(sys, d, Leaving)
  }

  function StepLoaded(sys: Sys, d: nat, ok: bool): Sys
    requires d in sys.deciders && sys.deciders[d].key in sys.records
  {
    var me := sys.deciders[d];
    var r := sys.records[me.key];
    if !ok then At(sys, d, Leaving)
    else At(sys, d, if r.kind == Approval then Saved else Closing).(
           records := sys.records[me.key := r.(status := me.decision)], saves := sys.saves + multiset{me.key})
  }

  function StepSaved(sys: Sys, d: nat, ok: bool): Sys
    requires d in sys.deciders && sys.deciders[d].key in sys.records
  {
    if !ok then Break(sys, d)
    else if PendingOn(sys.records, sys.records[sys.deciders[d].key].doc) != {} then At(sys, d, Leaving)
    else At(sys, d, Closing)
  }

  function StepClosing(sys: Sys, d: nat, ok: bool): Sys
    requires d in sys.deciders && sys.deciders[d].key in sys.records
  {
    if !ok then Break(sys, d)
    else At(sys, d, Announcing).(
           docs := sys.docs[sys.records[sys.deciders[d].key].doc := sys.deciders[d].decision])
  }

  function StepAnnouncing(sys: Sys, d: nat, ok: bool): Sys
    requires d in sys.deciders && sys.deciders[d].key in sys.records
  {
    var r := sys.records[sys.deciders[d].key];
    if !ok then Break(sys, d)
    else At(sys, d, Leaving).(
           closers := sys.closers + {d},
           settled := if r.kind == Approval then sys.settled[r.doc := d] else sys.settled)
  }

  function StepLeaving(sys: Sys, d: nat, ok: bool): Sys
    requires d in sys.deciders
  {
    if !ok then At(sys, d, Finished)
    else At(sys, d, Finished).(locks := Locks.Apply(sys.locks, Locks.Release(sys.deciders[d].key, d)))
  }

  function StepDecider(sys: Sys, d: nat, ok: bool): Sys
    requires d in sys.deciders
  {
    match sys.deciders[d].pc
    case Waiting => StepWaiting(sys, d, ok)
    case Entered => StepEntered(sys, d, ok)
    case Loaded => if sys.deciders[d].key in sys.records then StepLoaded(sys, d, ok) else sys
    case Saved => if sys.deciders[d].key in sys.records then StepSaved(sys, d, ok) else sys
    case Closing => if sys.deciders[d].key in sys.records then StepClosing(sys, d, ok) else sys
    case Announcing => if sys.deciders[d].key in sys.records then StepAnnouncing(sys, d, ok) else sys
    case Leaving => StepLeaving(sys, d, ok)
    case Finished => sys
  }

  function Apply(sys: Sys, m: Move): Sys {
    match m
    case OpenChain(doc, levels) =>
      sys.(records := sys.records + levels, chains := sys.chains + multiset{doc},
           settled := sys.settled - {doc}, broken := sys.broken - {doc})
    case OpenVerification(key, doc) => sys.(records := sys.records[key := Record(Verification, doc, "", 0, Pending)])
    case Arrive(d, key, actor, decision) =>
      sys.(deciders := sys.deciders[d := Decider(key, actor, decision, Waiting)])
    case Step(d, ok) => if d in sys.deciders then StepDecider(sys, d, ok) else sys
    case Tick(elapsed) => sys.(locks := Locks.Apply(sys.locks, Locks.Tick(elapsed)))
  }

  function Run(start: int, moves: seq<Move>): Sys {
    if moves == [] then Init(start) else Apply(Run(start, moves[..|moves| - 1]), moves[|moves| - 1])
  }

  ghost predicate Legal(start: int, moves: seq<Move>) {
    moves != [] ==>
      Legal(start, moves[..|moves| - 1]) && Enabled(Run(start, moves[..|moves| - 1]), moves[|moves| - 1])
  }

  /** A save happens before the decider's lock expires. */
  predicate InTime(sys: Sys, m: Move) {
    m.Step? && m.ok && m.d in sys.deciders && sys.deciders[m.d].pc == Loaded ==> Locks.Owns(sys.locks, m.d)
  }

  ghost predicate AllInTime(start: int, moves: seq<Move>) {
    moves != [] ==>
      AllInTime(start, moves[..|moves| - 1]) && InTime(Run(start, moves[..|moves| - 1]), moves[|moves| - 1])
  }

  // ---- Locking ------------------------------------------------------------

  predicate Inside(pc: Pc) {
    pc != Waiting && pc != Finished
  }

  /** Deciders and lock grants agree. */
  ghost predicate LockingInv(sys: Sys) {
    && Locks.Inv(sys.locks)
    && (forall t :: t in sys.locks.grants ==>
          t in sys.deciders && sys.locks.grants[t].key == sys.deciders[t].key && sys.deciders[t].pc != Waiting)
    && (forall d :: d in sys.deciders && Inside(sys.deciders[d].pc) ==> d in sys.locks.grants)
    && (forall d :: d in sys.deciders ==> sys.deciders[d].decision != Pending)
  }

  lemma LockingStep(sys: Sys, m: Move)
    requires LockingInv(sys) && Enabled(sys, m)
    ensures LockingInv(Apply(sys, m))
  {
    hide Locks.Inv, Locks.Taken, Locks.Freed;
    if m.Step? {
      LockingDecider(sys, m.d, m.ok);
    } else if m.Tick? {
      Locks.ApplyKeeps(sys.locks, Locks.Tick(m.elapsed));
    }
  }

  /** Next differs from sys, among the deciders, only in where d stands. */
  ghost predicate OnlyMoves(sys: Sys, next: Sys, d: nat) {
    d in sys.deciders && d in next.deciders
    && next.deciders == sys.deciders[d := sys.deciders[d].(pc := next.deciders[d].pc)]
  }

  /** A step that stands the decider somewhere, whatever else it writes. */
  lemma AtMoves(sys: Sys, next: Sys, d: nat, pc: Pc)
    requires d in sys.deciders && next.deciders == At(sys, d, pc).deciders
    ensures OnlyMoves(sys, next, d)
  {
  }

  /** The step before and while the record is loaded and saved. */
  lemma OwnPcEarly(sys: Sys, d: nat, ok: bool)
    requires d in sys.deciders && sys.deciders[d].pc in {Waiting, Entered, Loaded, Leaving, Finished}
    ensures OnlyMoves(sys, StepDecider(sys, d, ok), d)
  {
    hide StepSaved, StepClosing, StepAnnouncing, MayDecide, Locks.Apply, Locks.Live, OnlyMoves;
    var next := StepDecider(sys, d, ok);
    SameMap(sys.deciders, d);
    AtMoves(sys, next, d, next.deciders[d].pc);
  }

  /** The steps that settle the document. */
  lemma OwnPcLate(sys: Sys, d: nat, ok: bool)
    requires d in sys.deciders && sys.deciders[d].pc in {Saved, Closing, Announcing}
    ensures OnlyMoves(sys, StepDecider(sys, d, ok), d)
  {
    hide StepWaiting, StepEntered, StepLoaded, StepLeaving, PendingOn, OnlyMoves;
    var next := StepDecider(sys, d, ok);
    SameMap(sys.deciders, d);
    AtMoves(sys, next, d, next.deciders[d].pc);
  }

  /** A decider's step changes only its own program counter among the deciders. */
  lemma OwnPc(sys: Sys, d: nat, ok: bool)
    requires d in sys.deciders
    ensures OnlyMoves(sys, StepDecider(sys, d, ok), d)
  {
    hide StepDecider, OnlyMoves;
    match sys.deciders[d].pc {
      case Saved => OwnPcLate(sys, d, ok);
      case Closing => OwnPcLate(sys, d, ok);
      case Announcing => OwnPcLate(sys, d, ok);
      case _ => OwnPcEarly(sys, d, ok);
    }
  }

  lemma SameMap(m: map<nat, Decider>, d: nat)
    requires d in m
    ensures m[d := m[d].(pc := m[d].pc)] == m
  {
  }

  /** Between taking the lock and giving it back the lock table is not touched. */
  lemma SameLocks(sys: Sys, d: nat, ok: bool)
    requires d in sys.deciders && sys.deciders[d].pc !in {Waiting, Leaving}
    ensures HoldsOn(sys, StepDecider(sys, d, ok), d)
  {
    hide StepDecider, HoldsOn;
    match sys.deciders[d].pc {
      case Saved => SameLocksLate(sys, d, ok);
      case Closing => SameLocksLate(sys, d, ok);
      case Announcing => SameLocksLate(sys, d, ok);
      case _ => SameLocksEarly(sys, d, ok);
    }
  }

  ghost predicate HoldsOn(sys: Sys, next: Sys, d: nat) {
    && d in sys.deciders && next.locks == sys.locks && d in next.deciders
    && (Inside(next.deciders[d].pc) <==> Inside(sys.deciders[d].pc)) && next.deciders[d].pc != Waiting
  }

  lemma SameLocksEarly(sys: Sys, d: nat, ok: bool)
    requires d in sys.deciders && sys.deciders[d].pc in {Entered, Loaded, Finished}
    ensures HoldsOn(sys, StepDecider(sys, d, ok), d)
  {
    hide MayDecide, StepSaved, StepClosing, StepAnnouncing, StepWaiting, StepLeaving;
  }

  lemma SameLocksLate(sys: Sys, d: nat, ok: bool)
    requires d in sys.deciders && sys.deciders[d].pc in {Saved, Closing, Announcing}
    ensures HoldsOn(sys, StepDecider(sys, d, ok), d)
  {
    hide PendingOn, StepEntered, StepLoaded, StepWaiting, StepLeaving;
  }

  lemma LockingSame(sys: Sys, next: Sys, d: nat, pc: Pc)
    requires LockingInv(sys) && d in sys.deciders && next.locks == sys.locks
    requires next.deciders == sys.deciders[d := sys.deciders[d].(pc := pc)]
    requires (Inside(pc) ==> Inside(sys.deciders[d].pc)) && (pc == Waiting ==> sys.deciders[d].pc == Waiting)
    ensures LockingInv(next)
  {
    hide Locks.Inv;
  }

  lemma LockingWaiting(sys: Sys, d: nat)
    requires LockingInv(sys) && d in sys.deciders && sys.deciders[d].pc == Waiting
    ensures LockingInv(StepWaiting(sys, d, true))
  {
    hide Locks.Inv, Locks.Taken, Locks.Freed, Locks.Live;
    Locks.ApplyKeeps(sys.locks, Locks.Acquire(sys.deciders[d].key, d, LOCK_TTL));
  }

  lemma LockingLeaving(sys: Sys, d: nat)
    requires LockingInv(sys) && d in sys.deciders && sys.deciders[d].pc == Leaving
    ensures LockingInv(StepLeaving(sys, d, true))
  {
    hide Locks.Inv, Locks.Taken, Locks.Freed, Locks.Live;
    Locks.ApplyKeeps(sys.locks, Locks.Release(sys.deciders[d].key, d));
  }

  lemma LockingDecider(sys: Sys, d: nat, ok: bool)
    requires LockingInv(sys) && d in sys.deciders
    ensures LockingInv(StepDecider(sys, d, ok))
  {
    var next := StepDecider(sys, d, ok);
    OwnPc(sys, d, ok);
    if sys.deciders[d].pc == Waiting && ok {
      LockingWaiting(sys, d);
    } else if sys.deciders[d].pc == Leaving && ok {
      LockingLeaving(sys, d);
    } else if sys.deciders[d].pc in {Waiting, Leaving} {
      LockingSame(sys, next, d, Finished);
    } else {
      SameLocks(sys, d, ok);
      hide StepDecider, LockingInv;
      LockingSame(sys, next, d, next.deciders[d].pc);
    }
  }

  // ---- Each record is decided at most once --------------------------------

  ghost predicate OnceInv(sys: Sys) {
    && (forall d :: d in sys.deciders && sys.deciders[d].pc == Loaded && Locks.Owns(sys.locks, d) ==>
          sys.deciders[d].key in sys.records && sys.records[sys.deciders[d].key].status == Pending)
    && (forall key :: sys.saves[key] <= 1)
    && (forall key :: key in sys.records ==> (sys.records[key].status == Pending <==> sys.saves[key] == 0))
    && (forall key :: key !in sys.records ==> sys.saves[key] == 0)
  }

  /** A step that takes or gives back no lock, and saves nothing, cannot disturb the count. */
  lemma OnceStep(sys: Sys, m: Move)
    requires LockingInv(sys) && OnceInv(sys) && Enabled(sys, m) && InTime(sys, m)
    ensures OnceInv(Apply(sys, m))
  {
    hide StepDecider, LockingInv, OnceInv;
    if m.Step? {
      OnceDecider(sys, m.d, m.ok);
    } else {
      OnceOther(sys, m);
    }
  }

  lemma OnceOther(sys: Sys, m: Move)
    requires OnceInv(sys) && Enabled(sys, m) && !m.Step?
    ensures OnceInv(Apply(sys, m))
  {
    hide StepDecider, PendingOn;
  }

  lemma OnceDecider(sys: Sys, d: nat, ok: bool)
    requires LockingInv(sys) && OnceInv(sys) && d in sys.deciders
    requires ok && sys.deciders[d].pc == Loaded ==> Locks.Owns(sys.locks, d)
    ensures OnceInv(StepDecider(sys, d, ok))
  {
    if sys.deciders[d].pc == Loaded {
      OnceSave(sys, d, ok);
    } else {
      var next := StepDecider(sys, d, ok);
      OwnPc(sys, d, ok);
      SameRecords(sys, d, ok);
      OwnersShrink(sys, d, ok);
      hide StepDecider, LockingInv, Locks.Owns;
      OnceSame(sys, next, d);
    }
  }

  /** Only a save touches the records; only a check that passed leads to Loaded. */
  lemma SameRecords(sys: Sys, d: nat, ok: bool)
    requires d in sys.deciders && sys.deciders[d].pc != Loaded
    ensures var next := StepDecider(sys, d, ok);
      && next.records == sys.records && next.saves == sys.saves && d in next.deciders
      && (next.deciders[d].pc == Loaded ==>
            sys.deciders[d].key in sys.records && sys.records[sys.deciders[d].key].status == Pending)
  {
    hide PendingOn;
  }

  /** The only decider a step can make an owner is the one that takes it. */
  lemma OwnersShrink(sys: Sys, d: nat, ok: bool)
    requires d in sys.deciders
    ensures forall e :: e != d && Locks.Owns(StepDecider(sys, d, ok).locks, e) ==> Locks.Owns(sys.locks, e)
  {
    hide PendingOn, MayDecide, Locks.Taken, Locks.Freed, Locks.Live;
  }

  lemma OnceSame(sys: Sys, next: Sys, d: nat)
    requires OnceInv(sys) && d in sys.deciders && d in next.deciders
    requires next.deciders == sys.deciders[d := sys.deciders[d].(pc := next.deciders[d].pc)]
    requires next.records == sys.records && next.saves == sys.saves
    requires next.deciders[d].pc == Loaded ==>
      sys.deciders[d].key in sys.records && sys.records[sys.deciders[d].key].status == Pending
    requires forall e :: e != d && Locks.Owns(next.locks, e) ==> Locks.Owns(sys.locks, e)
    ensures OnceInv(next)
  {
    hide Locks.Owns;
  }

  lemma OnceSave(sys: Sys, d: nat, ok: bool)
    requires LockingInv(sys) && OnceInv(sys) && d in sys.deciders && sys.deciders[d].pc == Loaded
    requires ok ==> Locks.Owns(sys.locks, d)
    ensures OnceInv(StepDecider(sys, d, ok))
  {
    forall e | e in sys.deciders && e != d && Locks.Owns(sys.locks, e) && Locks.Owns(sys.locks, d)
      ensures sys.deciders[e].key != sys.deciders[d].key
    {
    }
  }

  // ---- The last decision closes the chain ---------------------------------

  predicate Busy(pc: Pc) {
    pc == Saved || pc == Closing || pc == Announcing
  }

  /** The decider decides an approval of the document. */
  predicate For(sys: Sys, d: nat, doc: string) {
    && d in sys.deciders && sys.deciders[d].key in sys.records
    && sys.records[sys.deciders[d].key].kind == Approval && sys.records[sys.deciders[d].key].doc == doc
  }

  /** The decider has saved and not yet finished checking the document's chain. */
  predicate Resolving(sys: Sys, d: nat, doc: string) {
    For(sys, d, doc) && Busy(sys.deciders[d].pc)
  }

  /** The decider's next call writes the document's status, changed or not, or announces it. */
  predicate Settles(sys: Sys, d: nat) {
    d in sys.deciders && (sys.deciders[d].pc == Closing || sys.deciders[d].pc == Announcing)
  }

  /** Deciders past their checks decide a known record; only approvals are counted. */
  ghost predicate Known(sys: Sys) {
    && (forall d :: d in sys.deciders && (sys.deciders[d].pc == Loaded || Busy(sys.deciders[d].pc)) ==>
          sys.deciders[d].key in sys.records)
    && (forall d :: d in sys.deciders && sys.deciders[d].pc == Saved ==>
          For(sys, d, sys.records[sys.deciders[d].key].doc))
    && (forall doc :: doc in sys.settled ==> For(sys, sys.settled[doc], doc) && sys.settled[doc] in sys.closers)
  }

  ghost predicate Chained(sys: Sys) {
    forall key :: key in sys.records && sys.records[key].kind == Approval ==> sys.chains[sys.records[key].doc] >= 1
  }

  /** While a document is being settled none of its approvals is pending. */
  ghost predicate Quiet(sys: Sys, doc: string) {
    forall d :: For(sys, d, doc) && Settles(sys, d) ==> PendingOn(sys.records, doc) == {}
  }

  /** Once a document's last chain is fully decided, some decider has closed it or is about to. */
  ghost predicate Resolvable(sys: Sys, doc: string) {
    sys.chains[doc] >= 1 && PendingOn(sys.records, doc) == {} && doc !in sys.broken ==>
      doc in sys.settled || exists d :: Resolving(sys, d, doc)
  }

  ghost predicate ChainInv(sys: Sys, doc: string) {
    Known(sys) && Chained(sys) && Quiet(sys, doc) && Resolvable(sys, doc)
  }

  /** The move opens a new chain between a decider's count and its last write on the document. */
  ghost predicate Disturbs(sys: Sys, m: Move, doc: string) {
    m.OpenChain? && m.doc == doc && exists d :: For(sys, d, doc) && Settles(sys, d)
  }

  ghost predicate Undisturbed(start: int, moves: seq<Move>, doc: string) {
    moves != [] ==>
      && Undisturbed(start, moves[..|moves| - 1], doc)
      && !Disturbs(Run(start, moves[..|moves| - 1]), moves[|moves| - 1], doc)
  }

  /** How a step that saves nothing moves its decider and marks its document. */
  ghost predicate Moved(sys: Sys, next: Sys, d: nat) {
    && d in sys.deciders && d in next.deciders && next.chains == sys.chains
    && sys.closers <= next.closers && sys.broken <= next.broken
    && var p, q, key := sys.deciders[d].pc, next.deciders[d].pc, sys.deciders[d].key;
    && (q == Loaded || Busy(q) ==> key in sys.records)
    && (q == Saved ==> p == Saved)
    && (q == Closing || q == Announcing ==> Busy(p))
    && (p == Saved && (q == Closing || q == Announcing) ==> PendingOn(sys.records, sys.records[key].doc) == {})
    && var onApproval := key in sys.records && sys.records[key].kind == Approval;
    || (onApproval && d in next.closers && next.settled == sys.settled[sys.records[key].doc := d])
    || (next.settled == sys.settled
         && (Busy(p) && !Busy(q) && onApproval ==>
               sys.records[key].doc in next.broken || PendingOn(sys.records, sys.records[key].doc) != {}))
  }

  lemma SameFor(sys: Sys, next: Sys, d: nat, e: nat, doc: string)
    requires OnlyMoves(sys, next, d) && next.records == sys.records
    ensures For(next, e, doc) <==> For(sys, e, doc)
  {
  }

  /** A step that touches no record keeps the chain's invariant. */
  lemma ChainSame(sys: Sys, next: Sys, d: nat, doc: string)
    requires ChainInv(sys, doc) && OnlyMoves(sys, next, d) && next.records == sys.records && Moved(sys, next, d)
    ensures ChainInv(next, doc)
  {
    hide PendingOn, Known, Quiet, Resolvable, Moved, OnlyMoves;
    KnownSame(sys, next, d);
    QuietSame(sys, next, d, doc);
    ResolvableSame(sys, next, d, doc);
  }

  lemma KnownSame(sys: Sys, next: Sys, d: nat)
    requires Known(sys) && Chained(sys) && OnlyMoves(sys, next, d) && next.records == sys.records && Moved(sys, next, d)
    ensures Known(next) && Chained(next)
  {
    forall e, any ensures For(next, e, any) <==> For(sys, e, any) {
      SameFor(sys, next, d, e, any);
    }
    hide PendingOn;
  }

  lemma QuietSame(sys: Sys, next: Sys, d: nat, doc: string)
    requires Quiet(sys, doc) && OnlyMoves(sys, next, d) && next.records == sys.records && Moved(sys, next, d)
    ensures Quiet(next, doc)
  {
    hide PendingOn;
    forall e | For(next, e, doc) && Settles(next, e) ensures PendingOn(next.records, doc) == {} {
      SameFor(sys, next, d, e, doc);
      assert e != d ==> Settles(sys, e);
    }
  }

  lemma ResolvableSame(sys: Sys, next: Sys, d: nat, doc: string)
    requires Resolvable(sys, doc) && OnlyMoves(sys, next, d) && next.records == sys.records && Moved(sys, next, d)
    ensures Resolvable(next, doc)
  {
    hide PendingOn;
    if e :| Resolving(sys, e, doc) {
      SameFor(sys, next, d, e, doc);
      assert e != d ==> Resolving(next, e, doc);
      assert Busy(next.deciders[d].pc) && e == d ==> Resolving(next, d, doc);
    }
  }

  /** What a step that saves nothing may do to its decider. */
  lemma PcMoves(sys: Sys, d: nat, ok: bool)
    requires Known(sys) && d in sys.deciders && sys.deciders[d].pc != Loaded
    ensures Moved(sys, StepDecider(sys, d, ok), d)
  {
    match sys.deciders[d].pc {
      case Saved => SavedMoves(sys, d, ok);
      case Closing => ClosingMoves(sys, d, ok);
      case Announcing => AnnouncingMoves(sys, d, ok);
      case _ => EarlyMoves(sys, d, ok);
    }
  }

  lemma SavedMoves(sys: Sys, d: nat, ok: bool)
    requires Known(sys) && d in sys.deciders && sys.deciders[d].pc == Saved
    ensures Moved(sys, StepDecider(sys, d, ok), d)
  {
    hide PendingOn;
    assert StepDecider(sys, d, ok) == StepSaved(sys, d, ok);
  }

  lemma ClosingMoves(sys: Sys, d: nat, ok: bool)
    requires Known(sys) && d in sys.deciders && sys.deciders[d].pc == Closing
    ensures Moved(sys, StepDecider(sys, d, ok), d)
  {
    hide PendingOn;
    assert StepDecider(sys, d, ok) == StepClosing(sys, d, ok);
  }

  lemma AnnouncingMoves(sys: Sys, d: nat, ok: bool)
    requires Known(sys) && d in sys.deciders && sys.deciders[d].pc == Announcing
    ensures Moved(sys, StepDecider(sys, d, ok), d)
  {
    hide PendingOn;
    assert StepDecider(sys, d, ok) == StepAnnouncing(sys, d, ok);
  }

  lemma EarlyMoves(sys: Sys, d: nat, ok: bool)
    requires Known(sys) && d in sys.deciders && sys.deciders[d].pc in {Waiting, Entered, Leaving, Finished}
    ensures Moved(sys, StepDecider(sys, d, ok), d)
  {
    hide PendingOn, MayDecide, Locks.Apply, Locks.Live, StepSaved, StepClosing, StepAnnouncing, StepLoaded;
    match sys.deciders[d].pc {
      case Waiting => hide StepEntered, StepLeaving;
      case Entered => hide StepWaiting, StepLeaving;
      case _ => hide StepWaiting, StepEntered;
    }
  }

  lemma PendingAfterSave(records: map<string, Record>, key: string, status: Status, doc: string)
    requires key in records && status != Pending
    ensures PendingOn(records[key := records[key].(status := status)], doc) ==
      if records[key].kind == Approval && records[key].doc == doc then PendingOn(records, doc) - {key}
      else PendingOn(records, doc)
  {
  }

  /** What a successful save does. */
  ghost predicate Saves(sys: Sys, next: Sys, d: nat) {
    && d in sys.deciders && sys.deciders[d].key in sys.records && sys.deciders[d].decision != Pending
    && var me := sys.deciders[d]; var r := sys.records[me.key];
    && next.records == sys.records[me.key := r.(status := me.decision)]
    && next.deciders == sys.deciders[d := me.(pc := if r.kind == Approval then Saved else Closing)]
    && next.chains == sys.chains && next.closers == sys.closers
    && next.settled == sys.settled && next.broken == sys.broken
  }

  lemma SaveKeepsFor(sys: Sys, next: Sys, d: nat, e: nat, doc: string)
    requires Saves(sys, next, d)
    ensures For(next, e, doc) <==> For(sys, e, doc)
  {
  }

  lemma SavePending(sys: Sys, next: Sys, d: nat, doc: string)
    requires Saves(sys, next, d)
    ensures PendingOn(next.records, doc) <= PendingOn(sys.records, doc)
    ensures !For(sys, d, doc) ==> PendingOn(next.records, doc) == PendingOn(sys.records, doc)
  {
    PendingAfterSave(sys.records, sys.deciders[d].key, sys.deciders[d].decision, doc);
  }

  lemma SaveKnown(sys: Sys, next: Sys, d: nat)
    requires Known(sys) && Chained(sys) && Saves(sys, next, d)
    ensures Known(next) && Chained(next)
  {
    forall e, any ensures For(next, e, any) <==> For(sys, e, any) {
      SaveKeepsFor(sys, next, d, e, any);
    }
  }

  lemma SaveQuiet(sys: Sys, next: Sys, d: nat, doc: string)
    requires Quiet(sys, doc) && Saves(sys, next, d) && sys.deciders[d].pc == Loaded
    ensures Quiet(next, doc)
  {
    forall e | For(next, e, doc) && Settles(next, e) ensures PendingOn(next.records, doc) == {} {
      SaveKeepsFor(sys, next, d, e, doc);
      SavePending(sys, next, d, doc);
      assert e != d;
    }
  }

  lemma ChainSave(sys: Sys, next: Sys, d: nat, doc: string)
    requires ChainInv(sys, doc) && Saves(sys, next, d) && sys.deciders[d].pc == Loaded
    ensures ChainInv(next, doc)
  {
    hide PendingOn, Known, Chained, Quiet;
    SaveKnown(sys, next, d);
    SaveQuiet(sys, next, d, doc);
    SavePending(sys, next, d, doc);
    if For(sys, d, doc) {
      assert Resolving(next, d, doc);
    } else if e :| Resolving(sys, e, doc) {
      SaveKeepsFor(sys, next, d, e, doc);
      assert Resolving(next, e, doc);
    }
  }

  lemma ChainDecider(sys: Sys, d: nat, ok: bool, doc: string)
    requires LockingInv(sys) && ChainInv(sys, doc) && d in sys.deciders
    ensures ChainInv(StepDecider(sys, d, ok), doc)
  {
    var next := StepDecider(sys, d, ok);
    OwnPc(sys, d, ok);
    if sys.deciders[d].pc == Loaded && ok {
      assert Saves(sys, next, d);
      hide ChainInv;
      ChainSave(sys, next, d, doc);
    } else if sys.deciders[d].pc == Loaded {
      assert next == At(sys, d, Leaving);
      ChainSame(sys, next, d, doc);
    } else {
      SameRecords(sys, d, ok);
      PcMoves(sys, d, ok);
      hide StepDecider, LockingInv, ChainInv, PendingOn, Known, Chained, Quiet, Resolvable, Moved;
      ChainSame(sys, next, d, doc);
    }
  }

  lemma PendingWithMore(records: map<string, Record>, more: map<string, Record>, doc: string)
    requires more.Keys !! records.Keys
    ensures PendingOn(records + more, doc) == PendingOn(records, doc) + PendingOn(more, doc)
  {
  }

  lemma NoneAdded(more: map<string, Record>, doc: string)
    requires forall key :: key in more && more[key].kind == Approval ==> more[key].doc != doc
    ensures PendingOn(more, doc) == {}
  {
  }

  /** New records, none of them an approval of the document, change nothing for it. */
  lemma ChainElsewhere(sys: Sys, next: Sys, more: map<string, Record>, doc: string)
    requires ChainInv(sys, doc) && more.Keys !! sys.records.Keys && Known(next) && Chained(next)
    requires next.records == sys.records + more && next.deciders == sys.deciders && next.chains[doc] == sys.chains[doc]
    requires (doc in next.settled <==> doc in sys.settled) && (doc in next.broken <==> doc in sys.broken)
    requires forall key :: key in more && more[key].kind == Approval ==> more[key].doc != doc
    ensures ChainInv(next, doc)
  {
    PendingWithMore(sys.records, more, doc);
    NoneAdded(more, doc);
    assert forall d :: For(next, d, doc) <==> For(sys, d, doc);
    hide PendingOn, Known, Chained;
    if e :| Resolving(sys, e, doc) {
      assert Resolving(next, e, doc);
    }
  }

  lemma KnownWithMore(sys: Sys, next: Sys, more: map<string, Record>)
    requires Known(sys) && Chained(sys) && more.Keys !! sys.records.Keys
    requires next.records == sys.records + more && next.deciders == sys.deciders && next.closers == sys.closers
    requires forall doc :: doc in next.settled ==> doc in sys.settled && next.settled[doc] == sys.settled[doc]
    requires forall doc :: sys.chains[doc] <= next.chains[doc]
    requires forall key :: key in more && more[key].kind == Approval ==> next.chains[more[key].doc] >= 1
    ensures Known(next) && Chained(next)
  {
    assert forall d, doc :: For(sys, d, doc) ==> For(next, d, doc);
  }

  lemma ChainOpen(sys: Sys, opening: string, levels: map<string, Record>, doc: string)
    requires ChainInv(sys, doc) && Enabled(sys, OpenChain(opening, levels))
    requires !Disturbs(sys, OpenChain(opening, levels), doc)
    ensures ChainInv(Apply(sys, OpenChain(opening, levels)), doc)
  {
    var next := Apply(sys, OpenChain(opening, levels));
    KnownWithMore(sys, next, levels);
    if opening != doc {
      hide ChainInv, Known, Chained, Quiet, Resolvable, PendingOn;
      ChainElsewhere(sys, next, levels, doc);
    } else {
      var key :| key in levels;
      PendingWithMore(sys.records, levels, doc);
      assert key in PendingOn(levels, doc);
      assert forall d :: For(next, d, doc) && Settles(next, d) ==> For(sys, d, doc);
    }
  }

  lemma ChainVerification(sys: Sys, key: string, of: string, doc: string)
    requires ChainInv(sys, doc) && Enabled(sys, OpenVerification(key, of))
    ensures ChainInv(Apply(sys, OpenVerification(key, of)), doc)
  {
    var more := map[key := Record(Verification, of, "", 0, Pending)];
    var next := Apply(sys, OpenVerification(key, of));
    assert next.records == sys.records + more;
    KnownWithMore(sys, next, more);
    hide ChainInv, Known, Chained, Quiet, Resolvable, PendingOn;
    ChainElsewhere(sys, next, more, doc);
  }

  lemma ChainTick(sys: Sys, elapsed: nat, doc: string)
    requires ChainInv(sys, doc)
    ensures ChainInv(Apply(sys, Tick(elapsed)), doc)
  {
    hide PendingOn, Locks.Apply;
    var next := Apply(sys, Tick(elapsed));
    assert forall d, any :: For(sys, d, any) <==> For(next, d, any);
    assert forall d :: Settles(sys, d) <==> Settles(next, d);
    assert forall d :: Resolving(sys, d, doc) ==> Resolving(next, d, doc);
  }

  lemma ChainStep(sys: Sys, m: Move, doc: string)
    requires LockingInv(sys) && ChainInv(sys, doc) && Enabled(sys, m) && !Disturbs(sys, m, doc)
    ensures ChainInv(Apply(sys, m), doc)
  {
    hide LockingInv, ChainInv, StepDecider, PendingOn, Known, Chained, Quiet, Resolvable, Disturbs;
    match m {
      case OpenChain(opening, levels) => ChainOpen(sys, opening, levels, doc);
      case OpenVerification(key, of) => ChainVerification(sys, key, of, doc);
      case Arrive(d, key, actor, decision) => ChainArrive(sys, Apply(sys, m), d, doc);
      case Step(d, ok) => ChainDecider(sys, d, ok, doc);
      case Tick(elapsed) => ChainTick(sys, elapsed, doc);
    }
  }

  lemma ChainArrive(sys: Sys, next: Sys, d: nat, doc: string)
    requires ChainInv(sys, doc) && d !in sys.deciders && d in next.deciders && next.deciders[d].pc == Waiting
    requires next.deciders == sys.deciders[d := next.deciders[d]]
    requires next.records == sys.records && next.chains == sys.chains && next.settled == sys.settled
    requires next.closers == sys.closers && next.broken == sys.broken
    ensures ChainInv(next, doc)
  {
    hide PendingOn;
    assert forall e, any :: For(sys, e, any) ==> For(next, e, any);
    assert forall e, any :: For(next, e, any) && e != d ==> For(sys, e, any);
    assert forall e :: Resolving(sys, e, doc) ==> Resolving(next, e, doc);
  }

  // ---- Main results -------------------------------------------------------

  lemma InitOk(start: int, doc: string)
    ensures LockingInv(Init(start)) && ChainInv(Init(start), doc) && OnceInv(Init(start))
  {
  }

  lemma {:induction false} RunKeeps(start: int, moves: seq<Move>, doc: string)
    requires Legal(start, moves)
    ensures LockingInv(Run(start, moves))
    ensures Undisturbed(start, moves, doc) ==> ChainInv(Run(start, moves), doc)
    ensures AllInTime(start, moves) ==> OnceInv(Run(start, moves))
  {
    hide Init, LockingInv, ChainInv, OnceInv, Apply, Enabled, InTime, Disturbs;
    if moves == [] {
      InitOk(start, doc);
    } else {
      var sys, m := Run(start, moves[..|moves| - 1]), moves[|moves| - 1];
      RunKeeps(start, moves[..|moves| - 1], doc);
      LockingStep(sys, m);
      if Undisturbed(start, moves, doc) {
        ChainStep(sys, m, doc);
      }
      if AllInTime(start, moves) {
        OnceStep(sys, m);
      }
    }
  }

  /** When every save lands within the lock's lifetime, each record leaves pending at most once. */
  lemma {:induction false} DecidedAtMostOnce(start: int, moves: seq<Move>, key: string)
    requires Legal(start, moves) && AllInTime(start, moves)
    ensures var sys := Run(start, moves);
      && sys.saves[key] <= 1
      && (key in sys.records ==> (sys.records[key].status != Pending <==> sys.saves[key] == 1))
  {
    hide Run, Legal, AllInTime, ChainInv, LockingInv, Undisturbed;
    RunKeeps(start, moves, "");
  }

  /**
   * Once a document's last chain is decided and everybody has finished, without an error after a
   * save, some decider closed the document since that chain was opened, as long as no chain was
   * opened between a decider's count and its last write.
   */
  lemma {:induction false} LastDecisionResolves(start: int, moves: seq<Move>, doc: string)
    requires Legal(start, moves) && Undisturbed(start, moves, doc)
    requires var sys := Run(start, moves);
      && sys.chains[doc] >= 1 && PendingOn(sys.records, doc) == {} && doc !in sys.broken
      && forall d :: d in sys.deciders ==> sys.deciders[d].pc == Finished
    ensures var sys := Run(start, moves);
      doc in sys.settled && For(sys, sys.settled[doc], doc) && sys.settled[doc] in sys.closers
  {
    hide Run, Legal, Undisturbed, LockingInv, PendingOn, Chained, Quiet;
    RunKeeps(start, moves, doc);
    var sys := Run(start, moves);
    assert forall d :: !Resolving(sys, d, doc);
    assert Resolvable(sys, doc);
  }

  /** A document with one chain is never disturbed, so there nothing more is needed. */
  lemma {:induction false} OneChainUndisturbed(start: int, moves: seq<Move>, doc: string)
    requires Legal(start, moves) && Run(start, moves).chains[doc] <= 1
    ensures Undisturbed(start, moves, doc)
  {
    if moves != [] {
      hide Undisturbed, Known, Quiet, Resolvable, LockingInv, PendingOn, StepDecider;
      var front, m := moves[..|moves| - 1], moves[|moves| - 1];
      ChainsGrow(Run(start, front), m, doc);
      OneChainUndisturbed(start, front, doc);
      RunKeeps(start, front, doc);
      FirstChainUndisturbed(Run(start, front), m, doc);
      UndisturbedLonger(start, moves, doc);
    }
  }

  lemma UndisturbedLonger(start: int, moves: seq<Move>, doc: string)
    requires moves != [] && Undisturbed(start, moves[..|moves| - 1], doc)
    requires !Disturbs(Run(start, moves[..|moves| - 1]), moves[|moves| - 1], doc)
    ensures Undisturbed(start, moves, doc)
  {
  }

  lemma ChainsGrow(sys: Sys, m: Move, doc: string)
    ensures Apply(sys, m).chains[doc] == sys.chains[doc] + if m.OpenChain? && m.doc == doc then 1 else 0
  {
    hide PendingOn, MayDecide, Locks.Apply, Locks.Live;
  }

  lemma FirstChainUndisturbed(sys: Sys, m: Move, doc: string)
    requires ChainInv(sys, doc) && (m.OpenChain? && m.doc == doc ==> sys.chains[doc] == 0)
    ensures !Disturbs(sys, m, doc)
  {
    hide Known, Quiet, Resolvable;
  }

  lemma ForKnown(sys: Sys, d: nat, doc: string)
    requires For(sys, d, doc)
    ensures d in sys.deciders
  {
  }

  lemma WhoResolves(sys: Sys, d: nat)
    requires d in sys.deciders
    requires var next := StepDecider(sys, d, true); next.docs != sys.docs || next.closers != sys.closers
    ensures Settles(sys, d)
  {
    if !Settles(sys, d) { QuietStep(sys, d); }
  }

  lemma QuietStep(sys: Sys, d: nat)
    requires d in sys.deciders && !Settles(sys, d)
    ensures StepDecider(sys, d, true).docs == sys.docs && StepDecider(sys, d, true).closers == sys.closers
  {
    hide PendingOn, Locks.Apply, Locks.Live, MayDecide, StepClosing, StepAnnouncing;
    match sys.deciders[d].pc {
      case Waiting => hide StepEntered, StepLoaded, StepSaved, StepLeaving;
      case Entered => hide StepWaiting, StepLoaded, StepSaved, StepLeaving;
      case Loaded => hide StepWaiting, StepEntered, StepSaved, StepLeaving;
      case Saved => hide StepWaiting, StepEntered, StepLoaded, StepLeaving;
      case _ => hide StepWaiting, StepEntered, StepLoaded, StepSaved;
    }
  }

  /**
   * Nobody writes or announces a document's outcome while one of its approvals is pending, as long
   * as no chain was opened between a decider's count and its last write.
   */
  lemma {:induction false} NoEarlyResolution(start: int, moves: seq<Move>, d: nat, doc: string)
    requires Legal(start, moves) && Undisturbed(start, moves, doc) && For(Run(start, moves), d, doc)
    requires var sys, next := Run(start, moves), Apply(Run(start, moves), Step(d, true));
      Settles(sys, d) || next.docs != sys.docs || next.closers != sys.closers
    ensures PendingOn(Run(start, moves).records, doc) == {}
  {
    hide Run, Legal, Undisturbed, LockingInv, PendingOn, Known, Chained, Resolvable, StepDecider, For;
    RunKeeps(start, moves, doc);
    var sys := Run(start, moves);
    ForKnown(sys, d, doc);
    if !Settles(sys, d) { WhoResolves(sys, d); }
    assert Quiet(sys, doc);
  }

  lemma Snoc(start: int, moves: seq<Move>, m: Move)
    ensures Run(start, moves + [m]) == Apply(Run(start, moves), m)
    ensures Legal(start, moves + [m]) <==> Legal(start, moves) && Enabled(Run(start, moves), m)
  {
    assert (moves + [m])[..|moves|] == moves;
  }

  /**
   * The condition is needed at every state: a chain opened while a decider is about to write the
   * document's status is pending when the status is written.
   */
  lemma ChainOpenedTooLate(start: int, moves: seq<Move>, d: nat, doc: string, levels: map<string, Record>)
    requires Legal(start, moves) && For(Run(start, moves), d, doc) && Run(start, moves).deciders[d].pc == Closing
    requires Enabled(Run(start, moves), OpenChain(doc, levels))
    ensures var opening := moves + [OpenChain(doc, levels)];
      && Legal(start, opening + [Step(d, true)])
      && doc in Run(start, opening + [Step(d, true)]).docs
      && Run(start, opening + [Step(d, true)]).docs[doc] == Run(start, moves).deciders[d].decision
      && PendingOn(Run(start, opening + [Step(d, true)]).records, doc) != {}
  {
    var sys, opening := Run(start, moves), moves + [OpenChain(doc, levels)];
    Snoc(start, moves, OpenChain(doc, levels));
    Snoc(start, opening, Step(d, true));
    hide Run, Legal;
    var key :| key in levels;
    PendingWithMore(sys.records, levels, doc);
    assert key in PendingOn(levels, doc);
    hide PendingOn;
    var chained := Apply(sys, OpenChain(doc, levels));
    assert chained.deciders == sys.deciders && For(chained, d, doc);
    assert Apply(chained, Step(d, true)) == StepClosing(chained, d, true);
  }

  /** The moves by which a newcomer decides a record alone, and then another saves late. */
  function Overtake(key: string, e: nat, actor: string, decision: Status, d: nat): seq<Move> {
    [Arrive(e, key, actor, decision)] + [Step(e, true)] + [Step(e, true)] + [Step(e, true)] + [Step(d, true)]
  }

  /** The newcomer arrives, takes the free lock, and loads the pending record. */
  lemma NewcomerLoads(sys: Sys, key: string, e: nat, decision: Status)
    requires key in sys.records && sys.records[key].status == Pending && decision != Pending
    requires !Locks.Live(sys.locks.store, key, sys.locks.now) && e !in sys.deciders
    ensures var arrived := Apply(sys, Arrive(e, key, sys.records[key].approver, decision));
      var entered := StepWaiting(arrived, e, true);
      var loaded := StepEntered(entered, e, true);
      && Apply(arrived, Step(e, true)) == entered && Apply(entered, Step(e, true)) == loaded
      && Enabled(sys, Arrive(e, key, sys.records[key].approver, decision))
      && Enabled(arrived, Step(e, true)) && Enabled(entered, Step(e, true))
      && loaded.records == sys.records && loaded.saves == sys.saves
      && loaded.deciders == sys.deciders[e := Decider(key, sys.records[key].approver, decision, Loaded)]
  {
    hide Locks.Live, Locks.Apply, PendingOn;
    var arrived := Apply(sys, Arrive(e, key, sys.records[key].approver, decision));
    var entered := StepWaiting(arrived, e, true);
    var loaded := StepEntered(entered, e, true);
    assert loaded.deciders == sys.deciders[e := Decider(key, sys.records[key].approver, decision, Loaded)];
  }

  /** Both deciders save, the late one last. */
  lemma BothSave(sys: Sys, key: string, e: nat, d: nat)
    requires key in sys.records && e != d && e in sys.deciders && d in sys.deciders
    requires sys.deciders[e].key == key == sys.deciders[d].key
    requires sys.deciders[e].pc == Loaded == sys.deciders[d].pc
    ensures var saved := Apply(sys, Step(e, true)); var late := Apply(saved, Step(d, true));
      && Enabled(sys, Step(e, true)) && Enabled(saved, Step(d, true)) && key in late.records
      && late.saves[key] == sys.saves[key] + 2 && late.records[key].status == sys.deciders[d].decision
  {
    hide PendingOn;
  }

  /**
   * The lifetime is needed at every state: while a decider has loaded a pending record whose lock
   * is free again, a newcomer may decide the record, and the late save decides it once more.
   */
  lemma {:induction false} LateSaveOverwrites(start: int, moves: seq<Move>, d: nat, e: nat, decision: Status)
    requires Legal(start, moves) && decision != Pending
    requires var sys := Run(start, moves);
      && d in sys.deciders && sys.deciders[d].pc == Loaded && e !in sys.deciders
      && var key := sys.deciders[d].key;
      && key in sys.records && sys.records[key].status == Pending
      && !Locks.Live(sys.locks.store, key, sys.locks.now)
    ensures var sys := Run(start, moves); var key := sys.deciders[d].key;
      var all := moves + Overtake(key, e, sys.records[key].approver, decision, d);
      && Legal(start, all) && Run(start, all).saves[key] == sys.saves[key] + 2
      && key in Run(start, all).records && Run(start, all).records[key].status == sys.deciders[d].decision
  {
    hide Apply, Enabled, StepWaiting, StepEntered, PendingOn, Locks.Live, Overtake;
    var sys := Run(start, moves);
    var key := sys.deciders[d].key;
    var actor := sys.records[key].approver;
    NewcomerLoads(sys, key, e, decision);
    var arrived := Apply(sys, Arrive(e, key, actor, decision));
    var loaded := Apply(Apply(arrived, Step(e, true)), Step(e, true));
    BothSave(loaded, key, e, d);
    OvertakeRuns(start, moves, key, e, actor, decision, d);
  }

  lemma OvertakeRuns(start: int, moves: seq<Move>, key: string, e: nat, actor: string, decision: Status, d: nat)
    ensures var arrived := Apply(Run(start, moves), Arrive(e, key, actor, decision));
      var entered := Apply(arrived, Step(e, true));
      var loaded := Apply(entered, Step(e, true));
      var saved := Apply(loaded, Step(e, true));
      && Run(start, moves + Overtake(key, e, actor, decision, d)) == Apply(saved, Step(d, true))
      && ((Legal(start, moves) && Enabled(Run(start, moves), Arrive(e, key, actor, decision))
           && Enabled(arrived, Step(e, true)) && Enabled(entered, Step(e, true)) && Enabled(loaded, Step(e, true))
           && Enabled(saved, Step(d, true)))
          ==> Legal(start, moves + Overtake(key, e, actor, decision, d)))
  {
    hide Apply, Enabled, Run, Legal;
    var m0 := moves + [Arrive(e, key, actor, decision)];
    var m1 := m0 + [Step(e, true)];
    Snoc(start, moves, Arrive(e, key, actor, decision));
    Snoc(start, m0, Step(e, true));
    Snoc(start, m1, Step(e, true));
    Snoc(start, m1 + [Step(e, true)], Step(e, true));
    Snoc(start, m1 + [Step(e, true)] + [Step(e, true)], Step(d, true));
    assert moves + Overtake(key, e, actor, decision, d) == m1 + [Step(e, true)] + [Step(e, true)] + [Step(d, true)];
  }

  /** Two deciders on one verification; the first has loaded it and its lock has just expired. */
  function Overrun(): seq<Move> {
    [] + [OpenVerification("v", "doc")] + [Arrive(0, "v", "a", Granted)]
    + [Step(0, true)] + [Step(0, true)] + [Tick(LOCK_TTL)]
  }

  lemma OverrunRuns()
    ensures Legal(0, Overrun())
    ensures var sys := Run(0, Overrun());
      && sys.records == map["v" := Record(Verification, "doc", "", 0, Pending)] && sys.saves == multiset{}
      && sys.deciders == map[0 := Decider("v", "a", Granted, Loaded)]
      && !Locks.Live(sys.locks.store, "v", sys.locks.now)
  {
    var m0, m1 := OpenVerification("v", "doc"), Arrive(0, "v", "a", Granted);
    var arrived := [] + [m0] + [m1];
    Snoc(0, [], m0);
    Snoc(0, [] + [m0], m1);
    Snoc(0, arrived, Step(0, true));
    Snoc(0, arrived + [Step(0, true)], Step(0, true));
    Snoc(0, arrived + [Step(0, true)] + [Step(0, true)], Tick(LOCK_TTL));
    assert Legal(0, []) && Run(0, []) == Init(0);
    hide Run, Legal, PendingOn;
    var sys := Run(0, arrived);
    assert sys.deciders == map[0 := Decider("v", "a", Granted, Waiting)];
    OverrunSteps(sys);
  }

  lemma OverrunSteps(sys: Sys)
    requires sys.deciders == map[0 := Decider("v", "a", Granted, Waiting)]
    requires sys.records == map["v" := Record(Verification, "doc", "", 0, Pending)]
    requires sys.locks == Locks.Sys(0, map[], map[])
    ensures var entered := Apply(sys, Step(0, true)); var loaded := Apply(entered, Step(0, true));
      var expired := Apply(loaded, Tick(LOCK_TTL));
      && Enabled(sys, Step(0, true)) && Enabled(entered, Step(0, true))
      && expired.records == sys.records && expired.saves == sys.saves
      && expired.deciders == map[0 := Decider("v", "a", Granted, Loaded)]
      && !Locks.Live(expired.locks.store, "v", expired.locks.now)
  {
    hide PendingOn;
    var entered := StepWaiting(sys, 0, true);
    assert Apply(sys, Step(0, true)) == entered;
    assert entered.deciders == map[0 := Decider("v", "a", Granted, Entered)];
  }

  /** Such a state is reached: here a verification is decided twice. */
  lemma OverrunDecidesTwice()
    ensures var moves := Overrun() + Overtake("v", 1, "", Rejected, 0);
      Legal(0, moves) && Run(0, moves).saves["v"] == 2
  {
    OverrunRuns();
    hide Overrun, Run, Legal, Overtake;
    LateSaveOverwrites(0, Overrun(), 0, 1, Rejected);
  }
}
