/** The outbox dispatcher (backend/internal/pkg/outbox/outbox.go): publishing and attempt accounting. */
module Outbox {
  import opened Basics
  import Retry

  datatype RowStatus = Pending | Published | Failed

  datatype Row = Row(status: RowStatus, attempts: nat, createdAt: int)

  /**
   * Rows are identified by their position: they are only ever appended. sent counts the successful
   * publishes of each row; lost counts those whose status update the database refused.
   */
  datatype State = State(rows: seq<Row>, sent: multiset<nat>, lost: multiset<nat>)

  datatype Config = Config(batch: nat, maxTry: nat)

  /**
   * The environment of one cycle: whether the lock was won, the batch the database returned, and
   * for each row the publish attempts' replies and whether its update succeeds. A publish refused
   * by the open breaker replies like one that failed.
   */
  datatype Env = Env(won: bool, found: Option<seq<nat>>, world: nat -> Retry.World, writes: nat -> bool)

  ghost predicate IsPending(rows: seq<Row>, id: nat) {
    id < |rows| && rows[id].status == Pending
  }

  function PendingSet(rows: seq<Row>): set<nat> {
    set id: nat | id < |rows| && rows[id].status == Pending
  }

  /** The query's answer: the earliest pending rows, in order of creation, up to the limit. */
  ghost predicate IsBatch(rows: seq<Row>, batch: nat, ids: seq<nat>) {
    && (forall k :: 0 <= k < |ids| ==> ids[k] in PendingSet(rows))
    && (forall j, k :: 0 <= j < k < |ids| ==>
          ids[j] != ids[k] && rows[ids[j]].createdAt <= rows[ids[k]].createdAt)
    && |ids| == Min(batch, |PendingSet(rows)|)
    && (forall k, id :: 0 <= k < |ids| && id in PendingSet(rows) && id !in ids ==>
          rows[ids[k]].createdAt <= rows[id].createdAt)
  }

  // ---- One message --------------------------------------------------------

  /** An attempt of the publish is acknowledged, and every earlier one may be retried. */
  ghost predicate Acknowledged(maxTry: nat, w: Retry.World) {
    exists n: nat ::
      && 1 <= n <= Tries(maxTry) && w.reply(n) == Retry.Done
      && forall m: nat :: 1 <= m < n ==> w.reply(m) == Retry.Transient && !w.cancelled(m)
  }

  /** A limit of zero asks the retry loop for its default. */
  function Tries(maxTry: nat): nat {
    if maxTry == 0 then 3 else maxTry
  }

  function Charged(maxTry: nat, row: Row): Row {
    row.(attempts := row.attempts + 1, status := if row.attempts + 1 >= maxTry then Failed else Pending)
  }

  ghost function Deliver(maxTry: nat, st: State, id: nat, env: Env): (next: State)
    requires id < |st.rows|
    ensures |next.rows| == |st.rows|
  {
    if !Acknowledged(maxTry, env.world(id)) then
      if env.writes(id) then st.(rows := st.rows[id := Charged(maxTry, st.rows[id])]) else st
    else if env.writes(id) then
      State(st.rows[id := st.rows[id].(status := Published)], st.sent + multiset{id}, st.lost)
    else State(st.rows, st.sent + multiset{id}, st.lost + multiset{id})
  }

  /** The row was published, but the database refused to say so. */
  ghost predicate Aborts(maxTry: nat, id: nat, env: Env) {
    Acknowledged(maxTry, env.world(id)) && !env.writes(id)
  }

  /** A cycle stops at the first published row whose update fails. */
  ghost function Cycle(maxTry: nat, st: State, ids: seq<nat>, env: Env): State
    requires forall k :: 0 <= k < |ids| ==> ids[k] < |st.rows|
    decreases |ids|
  {
    if ids == [] then st
    else
      var next := Deliver(maxTry, st, ids[0], env);
      if Aborts(maxTry, ids[0], env) then next
      else Cycle(maxTry, next, ids[1..], env)
  }

  class Dispatcher {
    var rows: seq<Row>
    var stream: multiset<nat>
    ghost var lost: multiset<nat>
    const batch: nat
    const maxTry: nat

    constructor (batch: nat, maxTry: nat)
      ensures View() == State([], multiset{}, multiset{})
      ensures this.batch == batch && this.maxTry == maxTry
    {
      rows, stream, lost := [], multiset{}, multiset{};
      this.batch, this.maxTry := batch, maxTry;
    }

    ghost function View(): State
      reads this
    {
      State(rows, stream, lost)
    }

    method Enqueue(createdAt: int)
      modifies this
      ensures View() == old(View()).(rows := old(rows) + [Row(Pending, 0, createdAt)])
    {
      rows := rows + [Row(Pending, 0, createdAt)];
    }

    method PublishWithRetry(id: nat, w: Retry.World) returns (ok: bool)
      modifies this
      ensures ok <==> exists n: nat :: (
          && 1 <= n <= Tries(maxTry) && w.reply(n) == Retry.Done
          && forall m: nat :: 1 <= m < n ==> w.reply(m) == Retry.Transient && !w.cancelled(m))
      ensures View() == old(View()).(sent := if ok then old(stream) + multiset{id} else old(stream))
    {
      var verdict, calls, waits := Retry.Do(Retry.Options(maxTry, 0.0, 0.0, 0.0, 0.0), w);
      ok := verdict == Retry.Success;
      if ok { stream := stream + multiset{id}; }
    }

    method MarkFailed(id: nat, msg: Row, writeOk: bool)
      requires id < |rows| && rows[id] == msg
      modifies this
      ensures View() == old(View()).(rows := if writeOk then old(rows)[id := Charged(maxTry, msg)] else old(rows))
    {
      var attempts := msg.attempts + 1;
      var status := Pending;
      if attempts >= maxTry { status := Failed; }
      if writeOk { rows := rows[id := rows[id].(status := status, attempts := attempts)]; }
    }

    /** One message of a cycle; abort reports a published row whose update was refused. */
    method Handle(id: nat, msg: Row, env: Env) returns (abort: bool)
      requires id < |rows| && rows[id] == msg
      modifies this
      ensures View() == Deliver(maxTry, old(View()), id, env)
      ensures abort == Aborts(maxTry, id, env)
    {
      hide Charged;
      abort := false;
      var ok := PublishWithRetry(id, env.world(id));
      if !ok {
        MarkFailed(id, msg, env.writes(id));
      } else if env.writes(id) {
        rows := rows[id := rows[id].(status := Published)];
      } else {
        lost := lost + multiset{id};
        abort := true;
      }
    }

    /** One dispatch cycle; err reports a failed query or a refused status update. */
    method DispatchOnce(env: Env) returns (err: bool)
      requires env.won && env.found.Some? ==> IsBatch(rows, batch, env.found.value)
      modifies this
      ensures !env.won || env.found.None? ==> View() == old(View()) && err == env.won
      ensures env.won && env.found.Some? ==> View() == Cycle(maxTry, old(View()), env.found.value, env)
      ensures env.won && env.found.Some? ==>
        (err <==> exists k :: 0 <= k < |env.found.value| && Aborts(maxTry, env.found.value[k], env))
    {
      hide Acknowledged;
      if !env.won { return false; }
      if env.found.None? { return true; }
      var ids := env.found.value;
      var msgs := rows;
      var i := 0;
      assert ids[0..] == ids;
      while i < |ids|
        invariant 0 <= i <= |ids| && |rows| == |msgs|
        invariant forall k :: 0 <= k < |ids| ==> ids[k] < |msgs|
        invariant forall k :: i <= k < |ids| ==> rows[ids[k]] == msgs[ids[k]]
        invariant forall k :: 0 <= k < i ==> !Aborts(maxTry, ids[k], env)
        invariant Cycle(maxTry, View(), ids[i..], env) == Cycle(maxTry, old(View()), ids, env)
      {
        assert ids[i..][0] == ids[i] && ids[i..][1..] == ids[i + 1..];
        DeliverFrame(maxTry, View(), ids[i], env);
        var abort := Handle(ids[i], msgs[ids[i]], env);
        if abort { return true; }
        i := i + 1;
      }
      return false;
    }
  }

  lemma DeliverFrame(maxTry: nat, st: State, id: nat, env: Env)
    requires id < |st.rows|
    ensures forall k :: 0 <= k < |st.rows| && k != id ==> Deliver(maxTry, st, id, env).rows[k] == st.rows[k]
  {
    hide Acknowledged;
  }

  // ---- What every run keeps -----------------------------------------------

  datatype Op = Enqueue(createdAt: int) | Dispatch(env: Env)

  predicate Runs(env: Env) {
    env.won && env.found.Some?
  }

  ghost predicate Enabled(c: Config, st: State, op: Op) {
    op.Dispatch? && Runs(op.env) ==> IsBatch(st.rows, c.batch, op.env.found.value)
  }

  ghost function Apply(c: Config, st: State, op: Op): State {
    match op
    case Enqueue(t) => st.(rows := st.rows + [Row(Pending, 0, t)])
    case Dispatch(env) => if Runs(env) && Enabled(c, st, op) then Cycle(c.maxTry, st, env.found.value, env) else st
  }

  ghost function Run(c: Config, st: State, ops: seq<Op>): State {
    if ops == [] then st else Apply(c, Run(c, st, ops[..|ops| - 1]), ops[|ops| - 1])
  }

  ghost predicate Legal(c: Config, st: State, ops: seq<Op>) {
    ops != [] ==>
      Legal(c, st, ops[..|ops| - 1]) && Enabled(c, Run(c, st, ops[..|ops| - 1]), ops[|ops| - 1])
  }

  /** A row's publishes and failures are accounted for. */
  predicate RowOk(maxTry: nat, row: Row, sent: nat, lost: nat) {
    && sent == lost + (if row.status == Published then 1 else 0)
    && (row.status == Failed ==> row.attempts == maxTry)
    && (row.status != Failed ==> row.attempts < maxTry)
  }

  ghost predicate Accounted(maxTry: nat, st: State) {
    && (forall id: nat :: id < |st.rows| ==> RowOk(maxTry, st.rows[id], st.sent[id], st.lost[id]))
    && (forall id: nat :: id >= |st.rows| ==> st.sent[id] == st.lost[id] == 0)
  }

  /** Terminal rows never change, and rows are only appended. */
  ghost predicate Extends(before: seq<Row>, after: seq<Row>) {
    && |before| <= |after|
    && (forall id :: 0 <= id < |before| ==>
          after[id].createdAt == before[id].createdAt && after[id].attempts >= before[id].attempts)
    && (forall id :: 0 <= id < |before| && before[id].status != Pending ==> after[id] == before[id])
  }

  function Weight(maxTry: nat, row: Row): nat {
    if row.status == Pending && row.attempts < maxTry then maxTry - row.attempts else 0
  }

  /** The sum over the pending rows of the attempts they have left. */
  function Potential(maxTry: nat, rows: seq<Row>): nat {
    if rows == [] then 0
    else Potential(maxTry, rows[..|rows| - 1]) + Weight(maxTry, rows[|rows| - 1])
  }

  lemma {:induction false} PotentialUpdate(maxTry: nat, rows: seq<Row>, id: nat, row: Row)
    requires id < |rows|
    ensures Potential(maxTry, rows[id := row])
         == Potential(maxTry, rows) - Weight(maxTry, rows[id]) + Weight(maxTry, row)
  {
    var last := |rows| - 1;
    if id == last {
      assert rows[id := row][..last] == rows[..last];
    } else {
      assert rows[id := row][..last] == rows[..last][id := row];
      PotentialUpdate(maxTry, rows[..last], id, row);
    }
  }

  lemma DeliverAccounted(maxTry: nat, st: State, id: nat, env: Env)
    requires maxTry >= 1 && Accounted(maxTry, st) && IsPending(st.rows, id)
    ensures Accounted(maxTry, Deliver(maxTry, st, id, env))
  {
    hide Acknowledged, RowOk;
    var next := Deliver(maxTry, st, id, env);
    assert RowOk(maxTry, st.rows[id], st.sent[id], st.lost[id]);
    DeliverRowOk(maxTry, st, id, env);
    assert forall k: nat :: k != id ==> next.sent[k] == st.sent[k] && next.lost[k] == st.lost[k];
  }

  lemma DeliverRowOk(maxTry: nat, st: State, id: nat, env: Env)
    requires maxTry >= 1 && IsPending(st.rows, id) && RowOk(maxTry, st.rows[id], st.sent[id], st.lost[id])
    ensures var next := Deliver(maxTry, st, id, env);
      RowOk(maxTry, next.rows[id], next.sent[id], next.lost[id])
  {
    hide Acknowledged;
  }

  lemma DeliverRows(maxTry: nat, st: State, id: nat, env: Env)
    requires IsPending(st.rows, id)
    ensures var rows := Deliver(maxTry, st, id, env).rows;
      Extends(st.rows, rows) && rows == st.rows[id := rows[id]]
  {
    hide Acknowledged;
  }

  lemma DeliverPotential(maxTry: nat, st: State, id: nat, env: Env)
    requires maxTry >= 1 && IsPending(st.rows, id) && st.rows[id].attempts < maxTry
    ensures Potential(maxTry, Deliver(maxTry, st, id, env).rows) + (if env.writes(id) then 1 else 0)
      <= Potential(maxTry, st.rows)
  {
    hide Acknowledged, Potential;
    PotentialUpdate(maxTry, st.rows, id, Charged(maxTry, st.rows[id]));
    PotentialUpdate(maxTry, st.rows, id, st.rows[id].(status := Published));
  }

  lemma ExtendsTrans(a: seq<Row>, b: seq<Row>, c: seq<Row>)
    requires Extends(a, b) && Extends(b, c)
    ensures Extends(a, c)
  {
  }

  predicate AllWritten(ids: seq<nat>, env: Env) {
    forall k :: 0 <= k < |ids| ==> env.writes(ids[k])
  }

  lemma {:induction false} CycleKeeps(maxTry: nat, st: State, ids: seq<nat>, env: Env)
    requires maxTry >= 1 && Accounted(maxTry, st)
    requires forall k :: 0 <= k < |ids| ==> ids[k] < |st.rows| && IsPending(st.rows, ids[k])
    requires forall j, k :: 0 <= j < k < |ids| ==> ids[j] != ids[k]
    ensures var next := Cycle(maxTry, st, ids, env);
      && Accounted(maxTry, next) && |next.rows| == |st.rows| && Extends(st.rows, next.rows)
      && Potential(maxTry, next.rows) + (if AllWritten(ids, env) then |ids| else 0) <= Potential(maxTry, st.rows)
    decreases |ids|
  {
    if ids != [] {
      var id, rest := ids[0], ids[1..];
      var next := Deliver(maxTry, st, id, env);
      assert st.rows[id].attempts < maxTry && IsPending(st.rows, id);
      hide Accounted, Potential, Acknowledged, Deliver, Extends;
      DeliverAccounted(maxTry, st, id, env);
      DeliverRows(maxTry, st, id, env);
      DeliverPotential(maxTry, st, id, env);
      if !Acknowledged(maxTry, env.world(id)) || env.writes(id) {
        CycleKeeps(maxTry, next, rest, env);
        ExtendsTrans(st.rows, next.rows, Cycle(maxTry, next, rest, env).rows);
        assert AllWritten(ids, env) ==> AllWritten(rest, env) && env.writes(id);
      } else {
        assert !AllWritten(ids, env);
      }
    } else {
      assert Extends(st.rows, st.rows);
    }
  }

  lemma ApplyKeeps(c: Config, st: State, op: Op)
    requires c.maxTry >= 1 && Accounted(c.maxTry, st) && Enabled(c, st, op)
    ensures var next := Apply(c, st, op);
      && Accounted(c.maxTry, next) && Extends(st.rows, next.rows)
      && |next.rows| == |st.rows| + (if op.Enqueue? then 1 else 0)
      && (op.Dispatch? ==> Potential(c.maxTry, next.rows) <= Potential(c.maxTry, st.rows))
  {
    match op {
      case Enqueue(_) =>
      case Dispatch(env) =>
        hide Accounted, Extends;
        if Runs(env) {
          CycleKeeps(c.maxTry, st, env.found.value, env);
        } else {
          ExtendsSame(st.rows);
        }
    }
  }

  lemma ExtendsSame(rows: seq<Row>)
    ensures Extends(rows, rows)
  {
  }

  function Enqueues(ops: seq<Op>): nat {
    if ops == [] then 0 else Enqueues(ops[..|ops| - 1]) + if ops[|ops| - 1].Enqueue? then 1 else 0
  }

  // ---- Main results -------------------------------------------------------

  /**
   * In every run each row is accounted for, terminal rows stay as they are, and the table grows by
   * exactly the rows enqueued: none is dropped and none appears.
   */
  lemma {:induction false} RunKeeps(c: Config, st: State, ops: seq<Op>)
    requires c.maxTry >= 1 && Accounted(c.maxTry, st) && Legal(c, st, ops)
    ensures var last := Run(c, st, ops);
      Accounted(c.maxTry, last) && Extends(st.rows, last.rows) && |last.rows| == |st.rows| + Enqueues(ops)
  {
    if ops == [] {
      ExtendsSame(st.rows);
    } else {
      hide Accounted, Extends, Apply, Enabled;
      var front := ops[..|ops| - 1];
      RunKeeps(c, st, front);
      ApplyKeeps(c, Run(c, st, front), ops[|ops| - 1]);
      ExtendsTrans(st.rows, Run(c, st, front).rows, Run(c, st, ops).rows);
    }
  }

  /**
   * A row that reached a terminal status was published exactly once if published and never if
   * failed, exactly when no status update after a publish of it was refused.
   */
  lemma TerminalRowsPublishedOnce(c: Config, ops: seq<Op>, id: nat)
    requires c.maxTry >= 1 && Legal(c, State([], multiset{}, multiset{}), ops)
    requires var st := Run(c, State([], multiset{}, multiset{}), ops);
      id < |st.rows| && st.rows[id].status != Pending
    ensures var st := Run(c, State([], multiset{}, multiset{}), ops);
      st.sent[id] == (if st.rows[id].status == Published then 1 else 0) <==> st.lost[id] == 0
  {
    RunKeeps(c, State([], multiset{}, multiset{}), ops);
    hide Run, Legal;
    var st := Run(c, State([], multiset{}, multiset{}), ops);
    assert RowOk(c.maxTry, st.rows[id], st.sent[id], st.lost[id]);
  }

  // ---- The accounts, from the replies ---------------------------------------

  /** What a cycle may do to a row: publish it, lose that publish to a refused update, charge it. */
  datatype Entry = Publish | Loss | Charge

  /** The cycle comes to the row: it is in the batch, and nothing before it stopped the cycle. */
  ghost predicate Reaches(maxTry: nat, ids: seq<nat>, env: Env, id: nat) {
    exists p :: 0 <= p < |ids| && ids[p] == id
      && forall q :: 0 <= q < p ==> !Acknowledged(maxTry, env.world(ids[q])) || env.writes(ids[q])
  }

  /** The replies and the update make this entry. */
  ghost predicate Enters(maxTry: nat, env: Env, id: nat, kind: Entry) {
    match kind
    case Publish => Acknowledged(maxTry, env.world(id))
    case Loss => Acknowledged(maxTry, env.world(id)) && !env.writes(id)
    case Charge => !Acknowledged(maxTry, env.world(id)) && env.writes(id)
  }

  /** How many entries of a kind the run's cycles make for a row. */
  ghost function Entries(c: Config, st: State, ops: seq<Op>, id: nat, kind: Entry): nat {
    if ops == [] then 0
    else
      var op := ops[|ops| - 1];
      Entries(c, st, ops[..|ops| - 1], id, kind)
      + if op.Dispatch? && Runs(op.env) && Reaches(c.maxTry, op.env.found.value, op.env, id)
           && Enters(c.maxTry, op.env, id, kind) then 1 else 0
  }

  ghost function Bit(b: bool): nat {
    if b then 1 else 0
  }

  /** A cycle makes its entries in the rows it reaches, and touches no others. */
  ghost predicate Booked(maxTry: nat, st: State, next: State, ids: seq<nat>, env: Env, id: nat) {
    var here := Reaches(maxTry, ids, env, id);
    && next.sent[id] == st.sent[id] + Bit(here && Enters(maxTry, env, id, Publish))
    && next.lost[id] == st.lost[id] + Bit(here && Enters(maxTry, env, id, Loss))
    && |next.rows| == |st.rows|
    && (id < |st.rows| ==>
          next.rows[id].attempts == st.rows[id].attempts + Bit(here && Enters(maxTry, env, id, Charge)))
  }

  lemma ReachesFirst(maxTry: nat, ids: seq<nat>, env: Env, id: nat)
    requires ids != [] && forall j, k :: 0 <= j < k < |ids| ==> ids[j] != ids[k]
    ensures var goesOn := !Acknowledged(maxTry, env.world(ids[0])) || env.writes(ids[0]);
      Reaches(maxTry, ids, env, id) <==> id == ids[0] || (goesOn && Reaches(maxTry, ids[1..], env, id))
    ensures !Reaches(maxTry, ids[1..], env, ids[0])
  {
    hide Acknowledged;
    var goesOn := !Acknowledged(maxTry, env.world(ids[0])) || env.writes(ids[0]);
    if Reaches(maxTry, ids, env, id) && id != ids[0] {
      var p :| 0 <= p < |ids| && ids[p] == id
        && forall q :: 0 <= q < p ==> !Acknowledged(maxTry, env.world(ids[q])) || env.writes(ids[q]);
      assert ids[1..][p - 1] == id;
    }
    if goesOn && Reaches(maxTry, ids[1..], env, id) {
      var p :| 0 <= p < |ids[1..]| && ids[1..][p] == id
        && forall q :: 0 <= q < p ==> !Acknowledged(maxTry, env.world(ids[1..][q])) || env.writes(ids[1..][q]);
      assert ids[p + 1] == id;
      forall q | 0 <= q < p + 1 ensures !Acknowledged(maxTry, env.world(ids[q])) || env.writes(ids[q]) {
        if q > 0 { assert ids[1..][q - 1] == ids[q]; }
      }
    }
    if id == ids[0] { assert ids[0] == id; }
  }

  lemma {:induction false} CycleBooks(maxTry: nat, st: State, ids: seq<nat>, env: Env, id: nat)
    requires forall k :: 0 <= k < |ids| ==> ids[k] < |st.rows|
    requires forall j, k :: 0 <= j < k < |ids| ==> ids[j] != ids[k]
    ensures Booked(maxTry, st, Cycle(maxTry, st, ids, env), ids, env, id)
    decreases |ids|
  {
    if ids != [] {
      hide Acknowledged, Reaches;
      ReachesFirst(maxTry, ids, env, id);
      var next := Deliver(maxTry, st, ids[0], env);
      if !Aborts(maxTry, ids[0], env) {
        CycleBooks(maxTry, next, ids[1..], env, id);
      }
    }
  }

  /**
   * Main result: in every run, row by row, the publishes are the cycles in which an attempt was
   * acknowledged, the attempts charged are the others whose update went through, and a row is
   * published exactly when one of its publishes was recorded, and failed exactly when the limit
   * of attempts was charged.
   */
  lemma {:induction false} AccountsAreExact(c: Config, ops: seq<Op>, id: nat)
    requires c.maxTry >= 1 && Legal(c, State([], multiset{}, multiset{}), ops)
    ensures var start := State([], multiset{}, multiset{}); var st := Run(c, start, ops);
      && st.sent[id] == Entries(c, start, ops, id, Publish) && st.lost[id] == Entries(c, start, ops, id, Loss)
      && (id < |st.rows| ==>
            && st.rows[id].attempts == Entries(c, start, ops, id, Charge)
            && (st.rows[id].status == Published <==>
                  Entries(c, start, ops, id, Publish) > Entries(c, start, ops, id, Loss))
            && (st.rows[id].status == Failed <==> Entries(c, start, ops, id, Charge) == c.maxTry))
      && (id >= |st.rows| ==> Entries(c, start, ops, id, Charge) == 0)
  {
    var start := State([], multiset{}, multiset{});
    RunKeeps(c, start, ops);
    RowAccounted(c.maxTry, Run(c, start, ops), id);
    if ops != [] {
      hide Accounted, Extends, Reaches, Enters, Apply, Enabled, Legal;
      var front, op := ops[..|ops| - 1], ops[|ops| - 1];
      LegalFront(c, start, ops);
      AccountsAreExact(c, front, id);
      ApplyBooks(c, Run(c, start, front), op, id);
    }
  }

  lemma LegalFront(c: Config, st: State, ops: seq<Op>)
    requires ops != [] && Legal(c, st, ops)
    ensures Legal(c, st, ops[..|ops| - 1]) && Enabled(c, Run(c, st, ops[..|ops| - 1]), ops[|ops| - 1])
  {
  }

  lemma RowAccounted(maxTry: nat, st: State, id: nat)
    requires Accounted(maxTry, st)
    ensures if id < |st.rows| then RowOk(maxTry, st.rows[id], st.sent[id], st.lost[id])
      else st.sent[id] == st.lost[id] == 0
  {
  }

  lemma ApplyBooks(c: Config, st: State, op: Op, id: nat)
    requires Enabled(c, st, op)
    ensures var next := Apply(c, st, op);
      if op.Dispatch? && Runs(op.env) then
        && Booked(c.maxTry, st, next, op.env.found.value, op.env, id)
        && (id >= |st.rows| ==> !Reaches(c.maxTry, op.env.found.value, op.env, id))
      else
        && next.sent == st.sent && next.lost == st.lost && |st.rows| <= |next.rows|
        && (id < |next.rows| ==> next.rows[id].attempts == if id < |st.rows| then st.rows[id].attempts else 0)
  {
    if op.Dispatch? && Runs(op.env) {
      CycleBooks(c.maxTry, st, op.env.found.value, op.env, id);
      hide Acknowledged, Cycle, Booked;
    }
  }

  /** A cycle that holds the lock, reads its batch, and whose updates all succeed. */
  predicate Clean(op: Op) {
    op.Dispatch? && Runs(op.env) && AllWritten(op.env.found.value, op.env)
  }

  /** A clean cycle takes at least one attempt from each row of its batch. */
  lemma CleanCycleFalls(c: Config, st: State, op: Op)
    requires c.maxTry >= 1 && Accounted(c.maxTry, st) && Enabled(c, st, op) && Clean(op)
    ensures Potential(c.maxTry, Apply(c, st, op).rows) + Min(c.batch, |PendingSet(st.rows)|)
      <= Potential(c.maxTry, st.rows)
  {
    hide Accounted;
    CycleKeeps(c.maxTry, st, op.env.found.value, op.env);
  }

  function CleanCycles(ops: seq<Op>): nat {
    if ops == [] then 0 else CleanCycles(ops[..|ops| - 1]) + if Clean(ops[|ops| - 1]) then 1 else 0
  }

  lemma {:induction false} PendingHasPotential(maxTry: nat, rows: seq<Row>, id: nat)
    requires id < |rows| && Weight(maxTry, rows[id]) > 0
    ensures Potential(maxTry, rows) > 0
  {
    if id < |rows| - 1 {
      PendingHasPotential(maxTry, rows[..|rows| - 1], id);
    }
  }

  lemma {:induction false} PotentialPaysForCycles(c: Config, st: State, ops: seq<Op>)
    requires c.maxTry >= 1 && c.batch >= 1 && Accounted(c.maxTry, st) && Legal(c, st, ops) && Enqueues(ops) == 0
    ensures var last := Run(c, st, ops);
      PendingSet(last.rows) != {} ==>
        Potential(c.maxTry, last.rows) + CleanCycles(ops) <= Potential(c.maxTry, st.rows)
    ensures Potential(c.maxTry, Run(c, st, ops).rows) <= Potential(c.maxTry, st.rows)
  {
    if ops != [] {
      hide Accounted, Extends, Apply, Enabled, Potential;
      var front, op := ops[..|ops| - 1], ops[|ops| - 1];
      var before := Run(c, st, front);
      PotentialPaysForCycles(c, st, front);
      RunKeeps(c, st, front);
      ApplyKeeps(c, before, op);
      var last := Apply(c, before, op);
      if PendingSet(last.rows) != {} {
        StillPending(before.rows, last.rows);
        if Clean(op) { CleanCycleFalls(c, before, op); }
      }
    }
  }

  lemma StillPending(before: seq<Row>, after: seq<Row>)
    requires Extends(before, after) && |after| == |before| && PendingSet(after) != {}
    ensures PendingSet(before) != {} && |PendingSet(before)| >= 1
  {
    var id :| id in PendingSet(after);
    assert id in PendingSet(before);
  }

  /**
   * Once nothing more is enqueued, as many clean cycles as there are attempts left, with any
   * others in between, leave no row pending.
   */
  lemma ClosedQueueDrains(c: Config, st: State, ops: seq<Op>)
    requires c.maxTry >= 1 && c.batch >= 1 && Accounted(c.maxTry, st) && Legal(c, st, ops) && Enqueues(ops) == 0
    requires CleanCycles(ops) >= Potential(c.maxTry, st.rows)
    ensures PendingSet(Run(c, st, ops).rows) == {}
  {
    hide Run, Legal, Potential;
    PotentialPaysForCycles(c, st, ops);
    RunKeeps(c, st, ops);
    var last := Run(c, st, ops);
    if id :| id in PendingSet(last.rows) {
      assert RowOk(c.maxTry, last.rows[id], last.sent[id], last.lost[id]);
      PendingHasPotential(c.maxTry, last.rows, id);
    }
  }

  /** Without a refused update no publish is ever repeated. */
  lemma {:induction false} CleanRunsLoseNothing(c: Config, st: State, ops: seq<Op>)
    requires c.maxTry >= 1 && Accounted(c.maxTry, st) && Legal(c, st, ops)
    requires forall k :: 0 <= k < |ops| && ops[k].Dispatch? && Runs(ops[k].env) ==> Clean(ops[k])
    ensures Run(c, st, ops).lost == st.lost
  {
    if ops != [] {
      hide Accounted;
      var front, op := ops[..|ops| - 1], ops[|ops| - 1];
      CleanRunsLoseNothing(c, st, front);
      RunKeeps(c, st, front);
      if op.Dispatch? && Runs(op.env) {
        CleanCycleLosesNothing(c.maxTry, Run(c, st, front), op.env.found.value, op.env);
      }
    }
  }

  lemma {:induction false} CleanCycleLosesNothing(maxTry: nat, st: State, ids: seq<nat>, env: Env)
    requires forall k :: 0 <= k < |ids| ==> ids[k] < |st.rows|
    requires AllWritten(ids, env)
    ensures Cycle(maxTry, st, ids, env).lost == st.lost
    decreases |ids|
  {
    if ids != [] {
      hide Acknowledged;
      CleanCycleLosesNothing(maxTry, Deliver(maxTry, st, ids[0], env), ids[1..], env);
    }
  }

  // ---- A row published twice ----------------------------------------------

  /** A world in which the first attempt publishes. */
  const PROMPT := Retry.World(_ => Retry.Done, _ => false, _ => 0.0)

  function Cycle0(written: bool): Op {
    Dispatch(Env(true, Some([0]), _ => PROMPT, _ => written))
  }

  lemma PromptlySent(c: Config)
    requires c.maxTry >= 1
    ensures Acknowledged(c.maxTry, PROMPT)
  {
    assert PROMPT.reply(1) == Retry.Done;
  }

  lemma Snoc(c: Config, st: State, ops: seq<Op>, op: Op)
    ensures Run(c, st, ops + [op]) == Apply(c, Run(c, st, ops), op)
    ensures Legal(c, st, ops + [op]) <==> Legal(c, st, ops) && Enabled(c, Run(c, st, ops), op)
  {
    assert (ops + [op])[..|ops|] == ops;
  }

  /** A cycle over one pending row publishes it, and records it only when the update goes through. */
  lemma OneRowCycle(c: Config, st: State, written: bool)
    requires c.maxTry >= 1 && c.batch >= 1 && |st.rows| == 1 && st.rows[0].status == Pending
    ensures Enabled(c, st, Cycle0(written))
    ensures Apply(c, st, Cycle0(written)) == (
      if written then State([st.rows[0].(status := Published)], st.sent + multiset{0}, st.lost)
      else State(st.rows, st.sent + multiset{0}, st.lost + multiset{0}))
  {
    PromptlySent(c);
    hide Acknowledged;
    assert PendingSet(st.rows) == {0};
    var env := Cycle0(written).env;
    assert Cycle(c.maxTry, st, [0], env) == Deliver(c.maxTry, st, 0, env);
    assert st.rows[0 := st.rows[0].(status := Published)] == [st.rows[0].(status := Published)];
  }

  /** An input with a refused update: the row is published twice before it is recorded. */
  lemma RefusedUpdatePublishesTwice(c: Config)
    requires c.maxTry >= 1 && c.batch >= 1
    ensures var start := State([], multiset{}, multiset{});
      var ops := [] + [Enqueue(0)] + [Cycle0(false)] + [Cycle0(true)];
      && Legal(c, start, ops)
      && Run(c, start, ops).rows == [Row(Published, 0, 0)] && Run(c, start, ops).sent[0] == 2
  {
    var start := State([], multiset{}, multiset{});
    Snoc(c, start, [], Enqueue(0));
    Snoc(c, start, [] + [Enqueue(0)], Cycle0(false));
    Snoc(c, start, [] + [Enqueue(0)] + [Cycle0(false)], Cycle0(true));
    assert Run(c, start, []) == start && Legal(c, start, []);
    var queued := Run(c, start, [] + [Enqueue(0)]);
    assert queued.rows == [Row(Pending, 0, 0)];
    OneRowCycle(c, queued, false);
    OneRowCycle(c, Run(c, start, [] + [Enqueue(0)] + [Cycle0(false)]), true);
    hide Run, Legal, Apply;
  }
}
