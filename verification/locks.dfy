/** The timed, token-owned distributed lock (backend/internal/pkg/lock/lock.go). */
module Locks {

  /** A Redis entry: the owner's token and the time the entry expires. */
  datatype Held = Held(token: nat, expires: int)

  /** What the history remembers of a successful acquisition. */
  datatype Grant = Grant(key: string, expires: int, released: bool)

  datatype Sys = Sys(now: int, store: map<string, Held>, grants: map<nat, Grant>)

  /** An expired entry reads as absent. */
  predicate Live(store: map<string, Held>, key: string, now: int) {
    key in store && now < store[key].expires
  }

  /** SetNX with a lifetime. */
  function Taken(store: map<string, Held>, key: string, token: nat, ttl: nat, now: int): map<string, Held> {
    if Live(store, key, now) then store else store[key := Held(token, now + ttl)]
  }

  /** The release script: delete only an entry that still carries the caller's token. */
  function Freed(store: map<string, Held>, key: string, token: nat, now: int): map<string, Held> {
    if Live(store, key, now) && store[key].token == token then store - {key} else store
  }

  /** What one poll of a waiting caller finds: the store as the others left it. */
  datatype Poll = Poll(store: map<string, Held>, now: int, failed: bool, cancelled: bool)

  datatype Outcome = Ran | Failed | Cancelled

  class Lock {
    var store: map<string, Held>

    constructor ()
      ensures store == map[]
    {
      store := map[];
    }

    method Acquire(key: string, token: nat, ttl: nat, now: int) returns (ok: bool)
      modifies this
      ensures ok <==> !Live(old(store), key, now)
      ensures store == Taken(old(store), key, token, ttl, now)
    {
      ok := !(key in store && now < store[key].expires);
      if ok { store := store[key := Held(token, now + ttl)]; }
    }

    method Release(key: string, token: nat, now: int)
      modifies this
      ensures store == Freed(old(store), key, token, now)
    {
      if key in store && now < store[key].expires && store[key].token == token {
        store := store - {key};
      }
    }

    /**
     * Poll until the lock is taken, the store fails, or the caller gives up; the last poll is the
     * one at which the caller's context is done. The protected function runs on the store held and
     * leaves it, with what others did meanwhile, as left at the time ended; then the lock is released.
     */
    method WithLock(key: string, token: nat, ttl: nat, polls: seq<Poll>, left: map<string, Held>, ended: int)
      returns (res: Outcome, k: nat, held: map<string, Held>)
      requires polls != [] && polls[|polls| - 1].cancelled
      modifies this
      ensures k < |polls|
      ensures forall j :: 0 <= j < k ==>
        !polls[j].failed && Live(polls[j].store, key, polls[j].now) && !polls[j].cancelled
      ensures res == Failed <==> polls[k].failed
      ensures res == Ran <==> !polls[k].failed && !Live(polls[k].store, key, polls[k].now)
      ensures res == Cancelled ==> polls[k].cancelled
      ensures res == Ran ==> held == polls[k].store[key := Held(token, polls[k].now + ttl)]
      ensures store == if res == Ran then Freed(left, key, token, ended) else polls[k].store
    {
      k := 0;
      while true
        invariant k < |polls|
        invariant forall j :: 0 <= j < k ==>
          !polls[j].failed && Live(polls[j].store, key, polls[j].now) && !polls[j].cancelled
        decreases |polls| - k
      {
        store := polls[k].store;
        if polls[k].failed { return Failed, k, store; }
        var ok := Acquire(key, token, ttl, polls[k].now);
        if ok {
          held := store;
          store := left;
          Release(key, token, ended);
          return Ran, k, held;
        }
        if polls[k].cancelled { return Cancelled, k, store; }
        k := k + 1;
      }
    }
  }

  // ---- Timed runs ---------------------------------------------------------

  datatype Op = Acquire(key: string, token: nat, ttl: nat) | Release(key: string, token: nat) | Tick(elapsed: nat)

  /** A token is granted at most once, and released under the key it was granted. */
  predicate Enabled(sys: Sys, op: Op) {
    match op
    case Acquire(_, token, _) => token !in sys.grants
    case Release(key, token) => token in sys.grants && sys.grants[token].key == key
    case Tick(_) => true
  }

  function Apply(sys: Sys, op: Op): Sys {
    match op
    case Acquire(key, token, ttl) =>
      if Live(sys.store, key, sys.now) then sys
      else Sys(sys.now, Taken(sys.store, key, token, ttl, sys.now),
               sys.grants[token := Grant(key, sys.now + ttl, false)])
    case Release(key, token) =>
      if token !in sys.grants then sys.(store := Freed(sys.store, key, token, sys.now))
      else Sys(sys.now, Freed(sys.store, key, token, sys.now),
               sys.grants[token := sys.grants[token].(released := true)])
    case Tick(elapsed) => sys.(now := sys.now + elapsed)
  }

  function Run(start: int, ops: seq<Op>): Sys {
    if ops == [] then Sys(start, map[], map[]) else Apply(Run(start, ops[..|ops| - 1]), ops[|ops| - 1])
  }

  ghost predicate Legal(start: int, ops: seq<Op>) {
    ops != [] ==>
      Legal(start, ops[..|ops| - 1]) && Enabled(Run(start, ops[..|ops| - 1]), ops[|ops| - 1])
  }

  /** The token holds its lock: granted, not released, not expired. */
  predicate Owns(sys: Sys, token: nat) {
    token in sys.grants && !sys.grants[token].released && sys.now < sys.grants[token].expires
  }

  /** Each owner's entry is in the store. */
  ghost predicate Inv(sys: Sys) {
    && (forall t :: Owns(sys, t) ==>
          sys.grants[t].key in sys.store && sys.store[sys.grants[t].key] == Held(t, sys.grants[t].expires))
    && (forall key :: Live(sys.store, key, sys.now) ==>
          Owns(sys, sys.store[key].token) && sys.grants[sys.store[key].token].key == key)
  }

  lemma ApplyKeeps(sys: Sys, op: Op)
    requires Inv(sys) && Enabled(sys, op)
    ensures Inv(Apply(sys, op))
  {
  }

  lemma {:induction false} RunKeeps(start: int, ops: seq<Op>)
    requires Legal(start, ops)
    ensures Inv(Run(start, ops))
  {
    if ops != [] {
      hide Inv, Apply, Enabled;
      RunKeeps(start, ops[..|ops| - 1]);
      ApplyKeeps(Run(start, ops[..|ops| - 1]), ops[|ops| - 1]);
    } else {
      assert Run(start, ops).grants == map[];
    }
  }

  /** Main result: at most one unexpired, unreleased owner exists per key. */
  lemma AtMostOneOwner(start: int, ops: seq<Op>, t: nat, u: nat)
    requires Legal(start, ops)
    requires var sys := Run(start, ops); Owns(sys, t) && Owns(sys, u) && sys.grants[t].key == sys.grants[u].key
    ensures t == u
  {
    hide Run, Legal;
    RunKeeps(start, ops);
  }

  /** Main result: whoever releases, every other owner keeps its lock, and its entry. */
  lemma ReleaseFreesOnlyItsOwn(start: int, ops: seq<Op>, key: string, t: nat, u: nat)
    requires Legal(start, ops + [Release(key, t)]) && u != t && Owns(Run(start, ops), u)
    ensures var sys, next := Run(start, ops), Run(start, ops + [Release(key, t)]);
      && Owns(next, u) && next.grants[u] == sys.grants[u]
      && Live(next.store, next.grants[u].key, next.now) && next.store[next.grants[u].key].token == u
  {
    assert (ops + [Release(key, t)])[..|ops|] == ops;
    assert Run(start, ops + [Release(key, t)]) == Apply(Run(start, ops), Release(key, t));
    RunKeeps(start, ops + [Release(key, t)]);
    hide Run, Legal;
  }

  /** A free key can always be taken: an expired owner blocks nobody. */
  lemma FreeUnlessOwned(start: int, ops: seq<Op>, key: string)
    requires Legal(start, ops)
    ensures var sys := Run(start, ops);
      Live(sys.store, key, sys.now) <==> exists t :: Owns(sys, t) && sys.grants[t].key == key
  {
    hide Run, Legal;
    RunKeeps(start, ops);
    var sys := Run(start, ops);
    if Live(sys.store, key, sys.now) {
      assert Owns(sys, sys.store[key].token);
    }
  }
}
