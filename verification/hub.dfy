/** The WebSocket hub: client set, per-user index, bounded queues (backend/internal/ws/hub.go). */
module Hubs {

  /** Capacity of a client's send channel. */
  const CAPACITY := 32

  /**
   * One connection. queue is its channel; pumping says its writer runs. taken and delivered are
   * history: the events the writer received from the channel, and those it wrote to the socket.
   */
  datatype Conn<E> = Conn(
    user: string, queue: seq<E>, closed: bool, pumping: bool, taken: seq<E>, delivered: seq<E>)

  datatype State<E> = State(clients: set<nat>, byUser: map<string, set<nat>>, conns: map<nat, Conn<E>>)

  // ---- The operations -----------------------------------------------------

  function Targets(users: seq<string>): set<string> {
    set u | u in users && u != ""
  }

  /** No target at all means everybody. */
  predicate Addressed(users: seq<string>, user: string) {
    Targets(users) == {} || user in Targets(users)
  }

  /** Send without blocking: a full queue drops the event. */
  function Offer<E>(c: Conn<E>, evt: E): Conn<E> {
    if |c.queue| < CAPACITY then c.(queue := c.queue + [evt]) else c
  }

  /** The connections after the event was offered to the addressed ones among the visited clients. */
  function Swept<E>(conns: map<nat, Conn<E>>, visited: set<nat>, users: seq<string>, evt: E): map<nat, Conn<E>> {
    map c | c in conns :: if c in visited && Addressed(users, conns[c].user) then Offer(conns[c], evt) else conns[c]
  }

  lemma SweptNone<E>(conns: map<nat, Conn<E>>, users: seq<string>, evt: E)
    ensures Swept(conns, {}, users, evt) == conns
  {
  }

  lemma SweptMore<E>(conns: map<nat, Conn<E>>, visited: set<nat>, c: nat, users: seq<string>, evt: E)
    requires c in conns && c !in visited
    ensures c in Swept(conns, visited, users, evt) && Swept(conns, visited, users, evt)[c] == conns[c]
    ensures Swept(conns, visited + {c}, users, evt) == if Addressed(users, conns[c].user)
      then Swept(conns, visited, users, evt)[c := Offer(conns[c], evt)] else Swept(conns, visited, users, evt)
  {
    hide Addressed, Offer;
  }

  /** Spelled out: every visited client that is addressed and has room gets the event. */
  lemma SweptIs<E>(conns: map<nat, Conn<E>>, visited: set<nat>, users: seq<string>, evt: E)
    ensures Swept(conns, visited, users, evt).Keys == conns.Keys
    ensures forall c :: c in conns ==> (
      var before := conns[c];
      var addressed := (forall u :: u in users ==> u == "") || (before.user != "" && before.user in users);
      Swept(conns, visited, users, evt)[c] ==
        if c in visited && addressed && |before.queue| < 32 then before.(queue := before.queue + [evt]) else before)
  {
    assert Targets(users) == {} <==> forall u :: u in users ==> u == "" by {
      if u :| u in users && u != "" { assert u in Targets(users); }
    }
  }

  function AfterPublish<E>(st: State<E>, users: seq<string>, evt: E): State<E> {
    st.(conns := Swept(st.conns, st.clients, users, evt))
  }

  function AfterRegister<E>(st: State<E>, c: nat, user: string): State<E> {
    State(
      st.clients + {c},
      if user == "" then st.byUser else st.byUser[user := (if user in st.byUser then st.byUser[user] else {}) + {c}],
      st.conns[c := Conn(user, [], false, true, [], [])])
  }

  function AfterUnregister<E>(st: State<E>, c: nat): State<E>
    requires c in st.clients ==> c in st.conns
  {
    if c !in st.clients then st
    else
      var user := st.conns[c].user;
      var rest := if user in st.byUser then st.byUser[user] - {c} else {};
      State(
        st.clients - {c},
        if user == "" then st.byUser else if rest == {} then st.byUser - {user} else st.byUser[user := rest],
        st.conns[c := st.conns[c].(closed := true)])
  }

  /** One turn of a client's writer; it stops on a write error, and when a closed queue is empty. */
  function Pumped<E>(c: Conn<E>, ok: bool): Conn<E> {
    if !c.pumping then c
    else if c.queue == [] then if c.closed then c.(pumping := false) else c
    else
      var msg, rest := c.queue[0], c.queue[1..];
      if ok then c.(queue := rest, taken := c.taken + [msg], delivered := c.delivered + [msg])
      else c.(queue := rest, taken := c.taken + [msg], pumping := false)
  }

  class Hub<E> {
    var clients: set<nat>
    var byUser: map<string, set<nat>>
    var conns: map<nat, Conn<E>>

    constructor ()
      ensures View() == State({}, map[], map[])
    {
      clients, byUser, conns := {}, map[], map[];
    }

    function View(): State<E>
      reads this
    {
      State(clients, byUser, conns)
    }

    method Register(c: nat, user: string)
      modifies this
      ensures View() == AfterRegister(old(View()), c, user)
      ensures c in clients && c in conns && conns[c] == Conn(user, [], false, true, [], [])
    {
      clients := clients + {c};
      conns := conns[c := Conn(user, [], false, true, [], [])];
      if user != "" {
        if user !in byUser { byUser := byUser[user := {}]; }
        byUser := byUser[user := byUser[user] + {c}];
      }
    }

    method Unregister(c: nat)
      requires IndexOk(View())
      modifies this
      ensures View() == AfterUnregister(old(View()), c)
    {
      if c !in clients { return; }
      var user := conns[c].user;
      assert c in Group(View(), user);
      clients := clients - {c};
      if user != "" {
        byUser := byUser[user := byUser[user] - {c}];
        if |byUser[user]| == 0 {
          byUser := byUser - {user};
        }
      }
      conns := conns[c := conns[c].(closed := true)];
    }

    /** The named users without the empty ones. */
    static method CollectTargets(users: seq<string>) returns (targets: set<string>)
      ensures targets == Targets(users) && forall u :: u in targets <==> u in users && u != ""
    {
      targets := {};
      for i := 0 to |users|
        invariant targets == Targets(users[..i])
      {
        assert users[..i + 1] == users[..i] + [users[i]];
        if users[i] != "" { targets := targets + {users[i]}; }
      }
      assert users[..|users|] == users;
    }

    /** Send without blocking; a full queue drops the event. */
    method Send(c: nat, evt: E)
      requires c in conns
      modifies this`conns
      ensures conns == old(conns)[c := Offer(old(conns)[c], evt)]
    {
      if |conns[c].queue| < CAPACITY {
        conns := conns[c := conns[c].(queue := conns[c].queue + [evt])];
      }
    }

    method PublishToUsers(users: seq<string>, evt: E)
      requires IndexOk(View())
      modifies this`conns
      ensures View() == AfterPublish(old(View()), users, evt)
      ensures conns.Keys == old(conns).Keys
      ensures forall c :: c in conns ==> (
        var before := old(conns)[c];
        var addressed := (forall u :: u in users ==> u == "") || (before.user != "" && before.user in users);
        conns[c] == if c in clients && addressed && |before.queue| < 32 then before.(queue := before.queue + [evt])
          else before)
    {
      assert forall c :: c in clients ==> c in conns;
      hide IndexOk, Group, Targets, Swept, Offer;
      var targets := CollectTargets(users);
      var left := clients;
      SweptNone(conns, users, evt);
      assert clients - left == {};
      while left != {}
        invariant left <= clients
        invariant conns == Swept(old(conns), clients - left, users, evt)
        decreases |left|
      {
        var c :| c in left;
        SweptMore(old(conns), clients - left, c, users, evt);
        assert clients - (left - {c}) == (clients - left) + {c};
        if targets == {} || conns[c].user in targets {
          Send(c, evt);
        }
        left := left - {c};
      }
      assert clients - left == clients;
      SweptIs(old(conns), clients, users, evt);
    }

    method WriteOne(c: nat, ok: bool)
      requires c in conns
      modifies this`conns
      ensures conns == old(conns)[c := Pumped(old(conns)[c], ok)]
    {
      var conn := conns[c];
      if !conn.pumping { return; }
      if conn.queue == [] {
        if conn.closed { conns := conns[c := conn.(pumping := false)]; }
        return;
      }
      var msg := conn.queue[0];
      conn := conn.(queue := conn.queue[1..], taken := conn.taken + [msg]);
      if ok {
        conn := conn.(delivered := conn.delivered + [msg]);
      } else {
        conn := conn.(pumping := false);
      }
      conns := conns[c := conn];
    }
  }

  // ---- Runs ---------------------------------------------------------------

  datatype Op<E> =
    | Register(c: nat, user: string)
    | Unregister(c: nat)
    | Publish(users: seq<string>, evt: E)
    | Write(c: nat, ok: bool)

  /** Each client is registered once. */
  predicate Enabled<E>(st: State<E>, op: Op<E>) {
    match op
    case Register(c, _) => c !in st.conns
    case Write(c, _) => c in st.conns
    case _ => true
  }

  function Apply<E>(st: State<E>, op: Op<E>): State<E> {
    match op
    case Register(c, user) => AfterRegister(st, c, user)
    case Unregister(c) => if c in st.conns then AfterUnregister(st, c) else st
    case Publish(users, evt) => AfterPublish(st, users, evt)
    case Write(c, ok) => if c in st.conns then st.(conns := st.conns[c := Pumped(st.conns[c], ok)]) else st
  }

  function Run<E>(ops: seq<Op<E>>): State<E> {
    if ops == [] then State({}, map[], map[]) else Apply(Run(ops[..|ops| - 1]), ops[|ops| - 1])
  }

  ghost predicate Legal<E>(ops: seq<Op<E>>) {
    ops != [] ==> Legal(ops[..|ops| - 1]) && Enabled(Run(ops[..|ops| - 1]), ops[|ops| - 1])
  }

  /** The registered clients of one user. */
  function Group<E>(st: State<E>, user: string): set<nat> {
    set c | c in st.clients && c in st.conns && st.conns[c].user == user
  }

  /** The index is the registered clients with a user, grouped by it; no group is empty. */
  ghost predicate IndexOk<E>(st: State<E>) {
    && (forall c :: c in st.clients ==> c in st.conns)
    && (forall u :: u in st.byUser <==> u != "" && Group(st, u) != {})
    && (forall u :: u in st.byUser ==> st.byUser[u] == Group(st, u))
  }

  /** A channel is closed exactly when its client is no longer registered. */
  ghost predicate OpenOk<E>(st: State<E>) {
    forall c :: c in st.conns ==> (st.conns[c].closed <==> c !in st.clients) && |st.conns[c].queue| <= CAPACITY
  }

  lemma GroupSame<E>(st: State<E>, next: State<E>, user: string)
    requires next.clients == st.clients && next.conns.Keys == st.conns.Keys
    requires forall c :: c in st.conns ==> next.conns[c].user == st.conns[c].user
    ensures Group(next, user) == Group(st, user)
  {
  }

  lemma GroupRegister<E>(st: State<E>, c: nat, user: string, u: string)
    requires c !in st.conns && IndexOk(st)
    ensures Group(AfterRegister(st, c, user), u) == Group(st, u) + if u == user then {c} else {}
  {
  }

  lemma GroupUnregister<E>(st: State<E>, c: nat, u: string)
    requires c in st.clients && IndexOk(st)
    ensures Group(AfterUnregister(st, c), u) == Group(st, u) - {c}
    ensures c in Group(st, u) <==> u == st.conns[c].user
  {
  }

  lemma IndexRegister<E>(st: State<E>, c: nat, user: string)
    requires IndexOk(st) && c !in st.conns
    ensures IndexOk(AfterRegister(st, c, user))
  {
    var next := AfterRegister(st, c, user);
    forall u ensures Group(next, u) == Group(st, u) + if u == user then {c} else {} {
      GroupRegister(st, c, user, u);
    }
    hide Group;
  }

  lemma IndexUnregister<E>(st: State<E>, c: nat)
    requires IndexOk(st) && c in st.clients
    ensures IndexOk(AfterUnregister(st, c))
  {
    var next := AfterUnregister(st, c);
    forall u ensures Group(next, u) == Group(st, u) - {c} && (c in Group(st, u) <==> u == st.conns[c].user) {
      GroupUnregister(st, c, u);
    }
    hide Group;
    assert forall u :: u != st.conns[c].user ==> Group(st, u) - {c} == Group(st, u);
  }

  lemma IndexSame<E>(st: State<E>, next: State<E>)
    requires IndexOk(st) && next.clients == st.clients && next.byUser == st.byUser
    requires next.conns.Keys == st.conns.Keys && forall c :: c in st.conns ==> next.conns[c].user == st.conns[c].user
    ensures IndexOk(next)
  {
    forall u ensures Group(next, u) == Group(st, u) { GroupSame(st, next, u); }
    hide Group;
    assert forall c :: c in next.conns <==> c in st.conns;
  }

  lemma IndexStep<E>(st: State<E>, op: Op<E>)
    requires IndexOk(st) && Enabled(st, op)
    ensures IndexOk(Apply(st, op))
  {
    match op {
      case Register(c, user) => IndexRegister(st, c, user);
      case Unregister(c) => if c in st.clients { IndexUnregister(st, c); }
      case Publish(users, evt) =>
        hide IndexOk;
        IndexSame(st, AfterPublish(st, users, evt));
      case Write(c, ok) =>
        hide IndexOk;
        var next := Apply(st, op);
        assert next.conns.Keys == st.conns.Keys + {c} == st.conns.Keys;
        IndexSame(st, next);
    }
  }

  lemma OpenStep<E>(st: State<E>, op: Op<E>)
    requires IndexOk(st) && OpenOk(st) && Enabled(st, op)
    ensures OpenOk(Apply(st, op))
  {
    hide Group;
  }

  lemma {:induction false} RunKeeps<E>(ops: seq<Op<E>>)
    requires Legal(ops)
    ensures IndexOk(Run(ops)) && OpenOk(Run(ops))
  {
    if ops != [] {
      hide IndexOk, OpenOk, Apply, Enabled;
      RunKeeps(ops[..|ops| - 1]);
      IndexStep(Run(ops[..|ops| - 1]), ops[|ops| - 1]);
      OpenStep(Run(ops[..|ops| - 1]), ops[|ops| - 1]);
    }
  }

  // ---- What each client receives ------------------------------------------

  /** An event published to a registered client, and whether its queue had room. */
  datatype Offered<E> = Offered(evt: E, room: bool)

  /** Every event addressed to the client while it was registered. */
  function Offers<E>(ops: seq<Op<E>>, c: nat): seq<Offered<E>> {
    if ops == [] then []
    else
      var st, op := Run(ops[..|ops| - 1]), ops[|ops| - 1];
      Offers(ops[..|ops| - 1], c)
      + if op.Publish? && c in st.clients && c in st.conns && Addressed(op.users, st.conns[c].user)
        then [Offered(op.evt, |st.conns[c].queue| < CAPACITY)] else []
  }

  /** The events that found room, in order. */
  function Kept<E>(offers: seq<Offered<E>>): seq<E> {
    if offers == [] then []
    else Kept(offers[..|offers| - 1]) + if offers[|offers| - 1].room then [offers[|offers| - 1].evt] else []
  }

  /** Nothing taken is out of order, and only a write that failed is not delivered. */
  ghost predicate Written<E>(c: Conn<E>) {
    && c.delivered <= c.taken
    && |c.taken| <= |c.delivered| + 1
    && (c.taken != c.delivered ==> !c.pumping)
  }

  /**
   * Main result: what a client's writer took, followed by what is queued, is exactly the events
   * addressed to it that found room; what it delivered is the same up to one failed last write.
   */
  lemma {:induction false} DeliveredInOrder<E>(ops: seq<Op<E>>, c: nat)
    requires Legal(ops)
    ensures c !in Run(ops).conns ==> Offers(ops, c) == []
    ensures c in Run(ops).conns ==>
      var conn := Run(ops).conns[c]; conn.taken + conn.queue == Kept(Offers(ops, c)) && Written(conn)
  {
    if ops != [] {
      var front, op := ops[..|ops| - 1], ops[|ops| - 1];
      DeliveredInOrder(front, c);
      RunKeeps(front);
      ReceiveStep(front, op, c);
      assert front + [op] == ops;
    }
  }

  /** The step offers the event to the client. */
  predicate OffersTo<E>(st: State<E>, op: Op<E>, c: nat) {
    op.Publish? && c in st.clients && c in st.conns && Addressed(op.users, st.conns[c].user)
  }

  /** What one step does to one connection. */
  lemma ConnStep<E>(st: State<E>, op: Op<E>, c: nat)
    requires Enabled(st, op) && IndexOk(st)
    ensures var next := Apply(st, op);
      && (c in st.conns ==> c in next.conns)
      && (c in next.conns && c !in st.conns ==>
            next.conns[c].queue == next.conns[c].taken == next.conns[c].delivered == [])
      && (OffersTo(st, op, c) ==> next.conns[c] == Offer(st.conns[c], op.evt))
      && (c in st.conns && !OffersTo(st, op, c) ==>
            || next.conns[c] == st.conns[c] || next.conns[c] == st.conns[c].(closed := true)
            || (op.Write? && next.conns[c] == Pumped(st.conns[c], op.ok)))
  {
    hide Group, Addressed;
  }

  lemma PumpAccounts<E>(conn: Conn<E>, ok: bool)
    requires Written(conn)
    ensures Written(Pumped(conn, ok)) && Pumped(conn, ok).taken + Pumped(conn, ok).queue == conn.taken + conn.queue
  {
    if conn.pumping && conn.queue != [] {
      assert conn.queue == [conn.queue[0]] + conn.queue[1..];
    }
  }

  lemma KeptOne<E>(offers: seq<Offered<E>>, offer: Offered<E>)
    ensures Kept(offers + [offer]) == Kept(offers) + if offer.room then [offer.evt] else []
  {
    assert (offers + [offer])[..|offers|] == offers;
  }

  lemma ReceiveStep<E>(front: seq<Op<E>>, op: Op<E>, c: nat)
    requires Legal(front) && Enabled(Run(front), op) && IndexOk(Run(front))
    requires c !in Run(front).conns ==> Offers(front, c) == []
    requires c in Run(front).conns ==>
      var conn := Run(front).conns[c]; conn.taken + conn.queue == Kept(Offers(front, c)) && Written(conn)
    ensures var ops := front + [op];
      && (c !in Run(ops).conns ==> Offers(ops, c) == [])
      && (c in Run(ops).conns ==>
            var conn := Run(ops).conns[c]; conn.taken + conn.queue == Kept(Offers(ops, c)) && Written(conn))
  {
    var ops := front + [op];
    assert ops[..|ops| - 1] == front;
    var st := Run(front);
    assert Run(ops) == Apply(st, op);
    assert Offers(ops, c) == Offers(front, c)
      + if OffersTo(st, op, c) then [Offered(op.evt, |st.conns[c].queue| < CAPACITY)] else [];
    hide Run, Legal, Group, Offers, Kept, Apply, Enabled, IndexOk, OffersTo;
    ConnStep(st, op, c);
    assert Kept<E>([]) == [] by { KeptNone<E>(); }
    if OffersTo(st, op, c) {
      OfferedIsKnown(st, op, c);
      KeptOne(Offers(front, c), Offered(op.evt, |st.conns[c].queue| < CAPACITY));
      OfferAccounts(st.conns[c], op.evt);
    } else {
      assert Offers(front, c) + [] == Offers(front, c);
      if op.Write? && c in st.conns { PumpAccounts(st.conns[c], op.ok); }
    }
  }

  lemma KeptNone<E>()
    ensures Kept<E>([]) == []
  {
  }

  lemma OfferedIsKnown<E>(st: State<E>, op: Op<E>, c: nat)
    requires OffersTo(st, op, c)
    ensures c in st.conns
  {
  }

  lemma OfferAccounts<E>(conn: Conn<E>, evt: E)
    requires Written(conn)
    ensures Written(Offer(conn, evt))
    ensures Offer(conn, evt).taken + Offer(conn, evt).queue
      == conn.taken + conn.queue + if |conn.queue| < CAPACITY then [evt] else []
  {
  }

  /** n turns of one client's writer, every write going through. */
  function Turns<E>(c: nat, n: nat): seq<Op<E>> {
    seq(n, _ => Write(c, true))
  }

  /** The connection after n such turns. */
  function Drained<E>(before: Conn<E>, n: nat): Conn<E> {
    if n <= |before.queue|
    then before.(queue := before.queue[n..], taken := before.taken + before.queue[..n],
           delivered := before.delivered + before.queue[..n])
    else before.(queue := [], taken := before.taken + before.queue, delivered := before.delivered + before.queue,
           pumping := !before.closed)
  }

  lemma DrainOne<E>(before: Conn<E>, n: nat)
    requires before.pumping && n <= |before.queue|
    ensures Pumped(Drained(before, n), true) == Drained(before, n + 1)
  {
    if n < |before.queue| {
      assert before.queue[..n + 1] == before.queue[..n] + [before.queue[n]];
      assert before.queue[n..][1..] == before.queue[n + 1..];
      assert before.taken + before.queue[..n] + [before.queue[n]] == before.taken + before.queue[..n + 1];
      assert before.delivered + before.queue[..n] + [before.queue[n]] == before.delivered + before.queue[..n + 1];
    } else {
      assert before.queue[..n] == before.queue;
    }
  }

  lemma OneMoreTurn<E>(ops: seq<Op<E>>, c: nat)
    requires Legal(ops) && c in Run(ops).conns
    ensures var all := ops + [Write(c, true)];
      Legal(all) && c in Run(all).conns && Run(all).conns[c] == Pumped(Run(ops).conns[c], true)
  {
    assert (ops + [Write(c, true)])[..|ops|] == ops;
    hide Pumped;
  }

  /**
   * A running writer whose socket works delivers what is queued, in order, in as many turns, and
   * one more turn stops it when the channel is closed.
   */
  lemma {:induction false} WriterDrains<E>(ops: seq<Op<E>>, c: nat, n: nat)
    requires Legal(ops) && c in Run(ops).conns && Run(ops).conns[c].pumping && n <= |Run(ops).conns[c].queue| + 1
    ensures Legal(ops + Turns(c, n)) && c in Run(ops + Turns(c, n)).conns
    ensures Run(ops + Turns(c, n)).conns[c] == Drained(Run(ops).conns[c], n)
  {
    hide Run, Legal, Pumped, Drained;
    if n == 0 {
      assert ops + Turns(c, 0) == ops;
      DrainedNone(Run(ops).conns[c]);
    } else {
      WriterDrains(ops, c, n - 1);
      OneMoreTurn(ops + Turns(c, n - 1), c);
      DrainOne(Run(ops).conns[c], n - 1);
      assert ops + Turns<E>(c, n) == ops + Turns<E>(c, n - 1) + [Write(c, true)];
    }
  }

  lemma DrainedNone<E>(before: Conn<E>)
    ensures Drained(before, 0) == before
  {
    assert before.queue[0..] == before.queue && before.taken + before.queue[..0] == before.taken;
    assert before.delivered + before.queue[..0] == before.delivered;
  }

  /**
   * Main result: a channel is closed exactly when its client has left, nothing is ever sent to a
   * closed one, and none holds more than its capacity.
   */
  lemma {:induction false} NoSendAfterClose<E>(ops: seq<Op<E>>, op: Op<E>, c: nat)
    requires Legal(ops + [op]) && c in Run(ops).conns
    ensures Legal(ops) && Run(ops + [op]) == Apply(Run(ops), op) && c in Run(ops + [op]).conns
    ensures var before, after := Run(ops).conns[c], Run(ops + [op]).conns[c];
      && |after.queue| <= CAPACITY && (after.closed <==> c !in Run(ops + [op]).clients)
      && (before.closed ==>
            after.closed && (after.queue == before.queue || (before.queue != [] && after.queue == before.queue[1..])))
  {
    assert (ops + [op])[..|ops|] == ops;
    RunKeeps(ops);
    RunKeeps(ops + [op]);
    hide Run, Legal, Group;
  }

  /** Main result: the index always is the registered clients grouped by user. */
  lemma {:induction false} IndexIsGrouping<E>(ops: seq<Op<E>>, user: string, c: nat)
    requires Legal(ops)
    ensures var st := Run(ops);
      && (user in st.byUser ==> user != "" && st.byUser[user] != {})
      && (user in st.byUser && c in st.byUser[user] <==>
            user != "" && c in st.clients && c in st.conns && st.conns[c].user == user)
  {
    hide Run, Legal;
    RunKeeps(ops);
    var st := Run(ops);
    if c in st.clients && c in st.conns && st.conns[c].user == user {
      assert c in Group(st, user);
    }
  }
}
