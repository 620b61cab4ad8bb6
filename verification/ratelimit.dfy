/** The fixed-window request limiter (backend/internal/middleware/ratelimit.go). */
module RateLimit {
  import opened Basics

  /** The window in milliseconds. */
  const WINDOW := 60000

  /** A Redis counter; once its lifetime is over it reads as absent. */
  datatype Counter = Counter(count: nat, expires: Option<int>)

  function Normalized(limit: int): (n: nat)
    ensures n >= 1 && (limit >= 1 ==> n == limit)
  {
    if limit <= 0 then 120 else limit
  }

  /** Requests are counted per user, or per address when there is no user. */
  function Identity(ip: string, user: Option<string>): string {
    if user.Some? && user.value != "" then "u:" + user.value else ip
  }

  predicate Live(store: map<string, Counter>, key: string, now: int) {
    key in store && (store[key].expires.Some? ==> now < store[key].expires.value)
  }

  /** The counter's value after the increment. */
  function Count(store: map<string, Counter>, key: string, now: int): nat {
    if Live(store, key, now) then store[key].count + 1 else 1
  }

  function Incremented(store: map<string, Counter>, key: string, now: int): map<string, Counter> {
    store[key := Counter(Count(store, key, now), if Live(store, key, now) then store[key].expires else None)]
  }

  /** One request: its key, its time, and whether the increment and the expiry reach Redis. */
  datatype Request = Request(key: string, now: int, up: bool, expiryOk: bool)

  function After(store: map<string, Counter>, r: Request): map<string, Counter> {
    if !r.up then store
    else
      var next := Incremented(store, r.key, r.now);
      if Count(store, r.key, r.now) == 1 && r.expiryOk then
        next[r.key := next[r.key].(expires := Some(r.now + WINDOW))]
      else next
  }

  predicate Admits(limit: nat, store: map<string, Counter>, r: Request) {
    r.up ==> Count(store, r.key, r.now) <= limit
  }

  class RateLimiter {
    var store: map<string, Counter>
    const limit: nat

    constructor (limit: int)
      ensures this.limit == Normalized(limit) && store == map[]
      ensures this.limit == if limit <= 0 then 120 else limit
    {
      this.limit := if limit <= 0 then 120 else limit;
      store := map[];
    }

    /** Fails open: with Redis down every request passes. */
    method Handle(ip: string, user: Option<string>, now: int, up: bool, expiryOk: bool) returns (admitted: bool)
      modifies this
      ensures var r := Request(Identity(ip, user), now, up, expiryOk);
        admitted == Admits(limit, old(store), r) && store == After(old(store), r)
      ensures !up ==> admitted && store == old(store)
    {
      var key := ip;
      if user.Some? && user.value != "" { key := "u:" + user.value; }
      if !up { return true; }
      var count := 1;
      if Live(store, key, now) {
        count := store[key].count + 1;
        store := store[key := store[key].(count := count)];
      } else {
        store := store[key := Counter(1, None)];
      }
      if count == 1 && expiryOk {
        store := store[key := store[key].(expires := Some(now + WINDOW))];
      }
      admitted := count <= limit;
    }
  }

  /**
   * Two requests are counted together exactly when both are of the same user, or both of no user
   * and the same address; addresses do not look like a user's key.
   */
  lemma IdentityExactly(ip1: string, user1: Option<string>, ip2: string, user2: Option<string>)
    requires !("u:" <= ip1) && !("u:" <= ip2)
    ensures var known1, known2 := user1.Some? && user1.value != "", user2.Some? && user2.value != "";
      Identity(ip1, user1) == Identity(ip2, user2) <==>
      if known1 then known2 && user1.value == user2.value else !known2 && ip1 == ip2
  {
    if user1.Some? { assert ("u:" + user1.value)[2..] == user1.value && "u:" <= "u:" + user1.value; }
    if user2.Some? { assert ("u:" + user2.value)[2..] == user2.value && "u:" <= "u:" + user2.value; }
  }

  // ---- Timed request sequences --------------------------------------------

  function Run(requests: seq<Request>): map<string, Counter> {
    if requests == [] then map[] else After(Run(requests[..|requests| - 1]), requests[|requests| - 1])
  }

  /** Redis is up throughout and the clock does not run backwards. */
  predicate Steady(requests: seq<Request>) {
    && (forall i :: 0 <= i < |requests| ==> requests[i].up && requests[i].expiryOk)
    && (forall i, j :: 0 <= i < j < |requests| ==> requests[i].now <= requests[j].now)
  }

  /** Requests of one key admitted at times in [lo, hi). */
  function Admitted(limit: nat, requests: seq<Request>, key: string, lo: int, hi: int): nat {
    if requests == [] then 0
    else
      var rest, r := requests[..|requests| - 1], requests[|requests| - 1];
      Admitted(limit, rest, key, lo, hi)
      + if r.key == key && lo <= r.now < hi && Admits(limit, Run(rest), r) then 1 else 0
  }

  /** Admissions in the interval of one window's length that starts at lo. */
  function Burst(limit: nat, requests: seq<Request>, key: string, lo: int): nat {
    Admitted(limit, requests, key, lo, lo + WINDOW)
  }

  /** The largest number of admissions in [lo, lo + WINDOW) that the key's counter allows for. */
  function Allowance(limit: nat, store: map<string, Counter>, key: string, lo: int): nat {
    if key !in store || store[key].expires.None? then 0
    else
      var e, m := store[key].expires.value, Min(store[key].count, limit);
      if e <= lo then 0
      else if e <= lo + WINDOW then m
      else if e < lo + WINDOW + WINDOW then limit + m
      else limit + limit
  }

  ghost predicate Counting(limit: nat, requests: seq<Request>, key: string) {
    var store := Run(requests);
    && (key !in store ==> forall lo, hi :: Admitted(limit, requests, key, lo, hi) == 0)
    && (key in store ==> store[key].expires.Some? && store[key].count >= 1)
    && (key in store ==>
          var e := store[key].expires.value;
          && requests != [] && e - WINDOW <= requests[|requests| - 1].now
          && Admitted(limit, requests, key, e - WINDOW, e) == Min(store[key].count, limit)
          && forall lo, hi :: e <= lo ==> Admitted(limit, requests, key, lo, hi) == 0)
    && (forall lo :: Burst(limit, requests, key, lo) <= Allowance(limit, store, key, lo))
  }

  lemma {:induction false} RunCounts(limit: nat, requests: seq<Request>, key: string)
    requires limit >= 1 && Steady(requests)
    ensures Counting(limit, requests, key)
  {
    if requests != [] {
      var rest, r := requests[..|requests| - 1], requests[|requests| - 1];
      RunCounts(limit, rest, key);
      CountOne(limit, rest, r, key);
      assert rest + [r] == requests;
    }
  }

  lemma Snoc(limit: nat, rest: seq<Request>, r: Request, key: string, lo: int, hi: int)
    ensures Run(rest + [r]) == After(Run(rest), r)
    ensures Admitted(limit, rest + [r], key, lo, hi) == Admitted(limit, rest, key, lo, hi)
      + if r.key == key && lo <= r.now < hi && Admits(limit, Run(rest), r) then 1 else 0
  {
    assert (rest + [r])[..|rest|] == rest;
  }

  lemma CountOne(limit: nat, rest: seq<Request>, r: Request, key: string)
    requires limit >= 1 && r.up && r.expiryOk && Counting(limit, rest, key)
    requires rest != [] ==> rest[|rest| - 1].now <= r.now
    ensures Counting(limit, rest + [r], key)
  {
    forall lo, hi
      ensures Admitted(limit, rest + [r], key, lo, hi) == Admitted(limit, rest, key, lo, hi)
        + if r.key == key && lo <= r.now < hi && Admits(limit, Run(rest), r) then 1 else 0
    {
      Snoc(limit, rest, r, key, lo, hi);
    }
    Snoc(limit, rest, r, key, 0, 0);
    hide Run, Admitted;
    if r.key == key {
      var s := Run(rest);
      if !Live(s, key, r.now) {
        assert key in s ==> s[key].expires.value <= r.now;
        assert Admitted(limit, rest, key, r.now, r.now + WINDOW) == 0;
      }
      forall lo ensures Burst(limit, rest + [r], key, lo) <= Allowance(limit, Run(rest + [r]), key, lo) {
        BurstOne(limit, rest, r, lo);
      }
    } else {
      forall lo ensures Burst(limit, rest + [r], key, lo) <= Allowance(limit, Run(rest + [r]), key, lo) {
        assert Burst(limit, rest + [r], key, lo) == Burst(limit, rest, key, lo);
      }
    }
  }

  lemma BurstOne(limit: nat, rest: seq<Request>, r: Request, lo: int)
    requires limit >= 1 && r.up && r.expiryOk && Counting(limit, rest, r.key)
    requires rest != [] ==> rest[|rest| - 1].now <= r.now
    ensures Burst(limit, rest + [r], r.key, lo) <= Allowance(limit, Run(rest + [r]), r.key, lo)
  {
    Snoc(limit, rest, r, r.key, lo, lo + WINDOW);
    hide Run, Admitted;
    var s := Run(rest);
    assert Burst(limit, rest, r.key, lo) <= Allowance(limit, s, r.key, lo);
    if r.key in s {
      assert s[r.key].expires.value - WINDOW <= r.now;
    }
  }

  // ---- Main results -------------------------------------------------------

  /** One identity is admitted at most twice the limit in any interval of one window's length. */
  lemma AtMostTwiceTheLimit(limit: nat, requests: seq<Request>, key: string, lo: int)
    requires limit >= 1 && Steady(requests)
    ensures Admitted(limit, requests, key, lo, lo + 60000) <= 2 * limit
  {
    hide Admitted, Run;
    RunCounts(limit, requests, key);
    assert Burst(limit, requests, key, lo) <= Allowance(limit, Run(requests), key, lo);
  }

  /** Within the window its counter is in, one identity is admitted at most limit times. */
  lemma AtMostLimitPerWindow(limit: nat, requests: seq<Request>, key: string)
    requires limit >= 1 && Steady(requests) && key in Run(requests)
    ensures Run(requests)[key].expires.Some?
    ensures var e := Run(requests)[key].expires.value;
      Admitted(limit, requests, key, e - 60000, e) <= limit
  {
    hide Admitted, Run;
    RunCounts(limit, requests, key);
  }

  /** A request is refused exactly when its identity's running window has used up the limit. */
  lemma RefusedExactlyWhenFull(limit: nat, requests: seq<Request>, r: Request)
    requires limit >= 1 && Steady(requests) && r.up
    ensures !Admits(limit, Run(requests), r) <==>
      && Live(Run(requests), r.key, r.now)
      && var e := Run(requests)[r.key].expires;
      e.Some? && Admitted(limit, requests, r.key, e.value - 60000, e.value) == limit
  {
    hide Admitted, Run;
    RunCounts(limit, requests, r.key);
  }

  /** The requests of one key. */
  function Own(requests: seq<Request>, key: string): seq<Request> {
    if requests == [] then []
    else
      var r := requests[|requests| - 1];
      Own(requests[..|requests| - 1], key) + if r.key == key then [r] else []
  }

  predicate SameCounter(s: map<string, Counter>, t: map<string, Counter>, key: string) {
    (key in s <==> key in t) && (key in s ==> s[key] == t[key])
  }

  lemma AfterSame(limit: nat, s: map<string, Counter>, t: map<string, Counter>, r: Request)
    requires SameCounter(s, t, r.key)
    ensures SameCounter(After(s, r), After(t, r), r.key) && (Admits(limit, s, r) <==> Admits(limit, t, r))
  {
  }

  /** Requests of other identities neither use up nor free a key's window. */
  lemma {:induction false} OthersDoNotCount(limit: nat, requests: seq<Request>, key: string, lo: int, hi: int)
    ensures SameCounter(Run(requests), Run(Own(requests, key)), key)
    ensures Admitted(limit, requests, key, lo, hi) == Admitted(limit, Own(requests, key), key, lo, hi)
  {
    if requests != [] {
      var rest, r := requests[..|requests| - 1], requests[|requests| - 1];
      OthersDoNotCount(limit, rest, key, lo, hi);
      if r.key == key {
        Snoc(limit, Own(rest, key), r, key, lo, hi);
        AfterSame(limit, Run(rest), Run(Own(rest, key)), r);
      } else {
        assert Own(requests, key) == Own(rest, key);
      }
    }
  }

  /** The counter was created, its expiry was not set, and it has passed the limit. */
  predicate Stuck(limit: nat, store: map<string, Counter>, key: string) {
    key in store && store[key].expires.None? && store[key].count >= limit
  }

  /** A counter whose expiry is not set never expires, and never loses count. */
  lemma {:induction false} StuckStays(limit: nat, requests: seq<Request>, more: seq<Request>, key: string)
    requires limit >= 1 && Stuck(limit, Run(requests), key)
    ensures Stuck(limit, Run(requests + more), key)
    decreases |more|
  {
    if more == [] {
      assert requests + more == requests;
    } else {
      var front, r := more[..|more| - 1], more[|more| - 1];
      StuckStays(limit, requests, front, key);
      assert requests + more == requests + front + [r];
      Snoc(limit, requests + front, r, key, 0, 0);
      hide Run;
    }
  }

  /**
   * Setting the expiry must succeed: once it failed and the limit is used up, the identity is
   * refused at every later time, whatever happens in between, unless Redis is down.
   */
  lemma LostExpiryBlocksForever(limit: nat, requests: seq<Request>, more: seq<Request>, r: Request)
    requires limit >= 1 && Stuck(limit, Run(requests), r.key)
    ensures Admits(limit, Run(requests + more), r) <==> !r.up
  {
    hide Run;
    StuckStays(limit, requests, more, r.key);
  }

  /** It takes limit requests whose expiry, on the first, was not set. */
  lemma {:induction false} LostExpirySticks(limit: nat, requests: seq<Request>, key: string)
    requires limit >= 1 && |requests| >= 1
    requires forall i :: 0 <= i < |requests| ==> requests[i].up && requests[i].key == key
    requires !requests[0].expiryOk
    ensures key in Run(requests) && Run(requests)[key] == Counter(|requests|, None)
    ensures |requests| >= limit ==> Stuck(limit, Run(requests), key)
  {
    var rest, r := requests[..|requests| - 1], requests[|requests| - 1];
    if rest == [] {
      assert Run(rest) == map[];
    } else {
      LostExpirySticks(limit, rest, key);
    }
  }
}
