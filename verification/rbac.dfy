/** Permission checks and their cache (backend/internal/service/rbac.go). */
module Rbac {
  import opened Basics

  const SUPER_ADMIN := "super_admin"
  const WILDCARD := "*"

  /** Role and permission rows, and the two join tables. */
  datatype Db = Db(
    users: set<string>, codes: map<string, string>, routes: map<string, string>,
    userRoles: set<(string, string)>, rolePermissions: set<(string, string)>)

  /** The cache holds one route set per user, under the user's key. */
  datatype State = State(db: Db, cache: map<string, set<string>>)

  datatype Error = NotFound | Storage | Duplicate

  /** Which cache operations of a lookup succeed. */
  datatype Io = Io(probe: bool, members: bool, add: bool)

  // ---- The uncached answer ------------------------------------------------

  function RolesOf(db: Db, user: string): set<string> {
    set p | p in db.userRoles && p.0 == user && p.1 in db.codes :: p.1
  }

  function RoutesOf(db: Db, role: string): set<string> {
    set p | p in db.rolePermissions && p.0 == role && p.1 in db.routes :: db.routes[p.1]
  }

  /** The route keys one role gives, super_admin carrying the wildcard. */
  predicate Gives(db: Db, role: string, key: string) {
    (key == WILDCARD && role in db.codes && db.codes[role] == SUPER_ADMIN) || key in RoutesOf(db, role)
  }

  ghost predicate GivenBy(db: Db, roles: set<string>, key: string) {
    exists role :: role in roles && Gives(db, role, key)
  }

  ghost predicate Grants(db: Db, user: string, key: string) {
    GivenBy(db, RolesOf(db, user), key)
  }

  ghost predicate IsGranted(db: Db, user: string, keys: set<string>) {
    forall key :: key in keys <==> Grants(db, user, key)
  }

  /** What a permission check should answer. */
  ghost predicate Permitted(db: Db, user: string, verb: string, path: string) {
    user != "" && (Grants(db, user, verb + " " + path) || Grants(db, user, WILDCARD))
  }

  /**
   * Spelled out over the tables: one of the user's roles is super_admin, or has a permission for
   * this route or for every route.
   */
  lemma PermittedExactly(db: Db, user: string, verb: string, path: string)
    ensures Permitted(db, user, verb, path) <==>
      && user != ""
      && exists role :: (
           && (user, role) in db.userRoles && role in db.codes
           && (|| db.codes[role] == "super_admin"
               || exists p :: (role, p) in db.rolePermissions && p in db.routes
                    && (db.routes[p] == verb + " " + path || db.routes[p] == "*")))
  {
    forall role ensures role in RolesOf(db, user) <==> (user, role) in db.userRoles && role in db.codes {
    }
    forall role, key
      ensures key in RoutesOf(db, role) <==>
        exists p :: (role, p) in db.rolePermissions && p in db.routes && db.routes[p] == key
    {
      if key in RoutesOf(db, role) {
        var q :| q in db.rolePermissions && q.0 == role && q.1 in db.routes && db.routes[q.1] == key;
        assert (role, q.1) in db.rolePermissions;
      }
    }
    hide RolesOf, RoutesOf;
    var route := verb + " " + path;
    if |verb| == 0 { assert route[0] == ' '; } else { assert |route| >= 2; }
    assert route != WILDCARD;
  }

  // ---- The service --------------------------------------------------------

  /** Every cached set is the one the tables give, for a known user. */
  ghost predicate Coherent(s: State) {
    forall user :: user in s.cache ==> user in s.db.users && IsGranted(s.db, user, s.cache[user])
  }

  function Holders(db: Db, role: string): set<string> {
    set p | p in db.userRoles && p.1 == role :: p.0
  }

  function WithPermissions(db: Db, role: string, ids: seq<string>): Db {
    db.(rolePermissions :=
          (set p | p in db.rolePermissions && p.0 != role) + (set i | 0 <= i < |ids| :: (role, ids[i])))
  }

  function WithRoles(db: Db, user: string, ids: seq<string>): Db {
    db.(userRoles := (set p | p in db.userRoles && p.0 != user) + (set i | 0 <= i < |ids| :: (user, ids[i])))
  }

  predicate Distinct(ids: seq<string>) {
    forall i, j :: 0 <= i < j < |ids| ==> ids[i] != ids[j]
  }

  class RbacService {
    var db: Db
    var cache: map<string, set<string>>

    constructor (db: Db)
      ensures View() == State(db, map[])
    {
      this.db := db;
      cache := map[];
    }

    function View(): State
      reads this
    {
      State(db, cache)
    }

    /** Cached when present; otherwise read from the tables and cached unless empty. */
    method UserRoutes(user: string, io: Io) returns (r: Result<set<string>, Error>)
      modifies this`cache
      ensures old(Coherent(View())) ==> Coherent(View()) && Next(old(View()), Lookup(user), View())
      ensures forall u :: u != user ==> (u in cache <==> u in old(cache)) && (u in cache ==> cache[u] == old(cache)[u])
      ensures old(Coherent(View())) && r.Ok? ==> user in db.users && IsGranted(db, user, r.value)
      ensures r == Err(NotFound) ==> user !in db.users
      ensures r.Err? ==> View() == old(View())
      ensures r.Ok? && r.value != {} && io.add && old(Coherent(View())) ==> user in cache && cache[user] == r.value
      ensures r.Ok? && r.value == {} ==> cache == old(cache)
      ensures io.members ==> (r.Ok? <==> user in db.users || (io.probe && user in old(cache)))
    {
      if io.probe && user in cache {
        if !io.members { return Err(Storage); }
        return Ok(cache[user]);
      }
      if user !in db.users { return Err(NotFound); }
      var routes := LoadRoutes(user);
      if routes != {} && io.add {
        // Adding to a set that a failed existence test hid merges with it.
        if user in cache {
          ghost var cached := cache[user];
          assert old(Coherent(View())) ==> cached == routes;
          cache := cache[user := cache[user] + routes];
          assert cached == routes ==> cached + routes == cached;
          assert old(Coherent(View())) ==> cache == old(cache);
        } else {
          cache := cache[user := routes];
        }
      }
      return Ok(routes);
    }

    /** The loops over the user's roles and each role's permissions. */
    method LoadRoutes(user: string) returns (routes: set<string>)
      ensures IsGranted(db, user, routes)
    {
      routes := {};
      var roles := RolesOf(db, user);
      var left := roles;
      while left != {}
        invariant left <= roles && roles == RolesOf(db, user)
        invariant forall key :: key in routes <==> GivenBy(db, roles - left, key)
        decreases |left|
      {
        var role :| role in left;
        ghost var before := routes;
        if db.codes[role] == SUPER_ADMIN { routes := routes + {WILDCARD}; }
        routes := routes + RoutesOf(db, role);
        assert roles - (left - {role}) == (roles - left) + {role};
        left := left - {role};
        assert forall key :: key in routes <==> key in before || Gives(db, role, key);
      }
      assert roles - left == roles;
    }

    method HasPermission(user: string, verb: string, path: string, io: Io) returns (r: Result<bool, Error>)
      requires Coherent(View())
      modifies this`cache
      ensures Coherent(View())
      ensures r.Ok? ==> (r.value <==> Permitted(db, user, verb, path))
      ensures user == "" || (io.members && user in db.users) ==> r.Ok?
    {
      if user == "" { return Ok(false); }
      var routes := UserRoutes(user, io);
      if routes.Err? { return Err(routes.error); }
      return Ok(verb + " " + path in routes.value || WILDCARD in routes.value);
    }

    method InvalidateUser(user: string, delOk: bool) returns (ok: bool)
      modifies this`cache
      ensures ok == delOk && cache == if ok then old(cache) - {user} else old(cache)
      ensures Next(old(View()), if ok then Drop(user) else Nothing, View())
    {
      if delOk { cache := cache - {user}; }
      ok := delOk;
    }

    /** Stops at the first deletion that fails. */
    method InvalidateRoleUsers(role: string, delOk: string -> bool) returns (ok: bool)
      modifies this`cache
      ensures ok <==> forall user :: user in Holders(db, role) ==> delOk(user)
      ensures ok ==> cache == old(cache) - Holders(db, role)
      ensures forall user :: user in old(cache) && (user, role) !in db.userRoles ==> user in cache
      ensures old(cache) - Holders(db, role) == cache - Holders(db, role)
      ensures cache.Keys <= old(cache).Keys && forall user :: user in cache ==> cache[user] == old(cache)[user]
    {
      var left := Holders(db, role);
      while left != {}
        invariant left <= Holders(db, role)
        invariant forall user :: user in Holders(db, role) - left ==> delOk(user)
        invariant cache == old(cache) - (Holders(db, role) - left)
        decreases |left|
      {
        var user :| user in left;
        if !delOk(user) { return false; }
        cache := cache - {user};
        left := left - {user};
      }
      return true;
    }

    /**
     * Replace a role's permissions in one transaction; a repeated id violates the key and rolls
     * everything back. Then drop the cached sets of the role's users.
     */
    method AssignPermissions(role: string, ids: seq<string>, txOk: bool, delOk: string -> bool)
      returns (r: Result<(), Error>)
      modifies this
      ensures !Distinct(ids) || !txOk ==> r.Err? && View() == old(View())
      ensures Distinct(ids) && txOk ==> db == WithPermissions(old(db), role, ids)
      ensures Distinct(ids) && txOk ==> forall x, p :: (x, p) in db.rolePermissions <==>
        if x == role then p in ids else (x, p) in old(db).rolePermissions
      ensures r.Ok? <==> Distinct(ids) && txOk && forall user :: user in Holders(old(db), role) ==> delOk(user)
      ensures r.Ok? ==> Next(old(View()), Op.AssignPermissions(role, ids), View())
      ensures old(cache) - Holders(old(db), role) == cache - Holders(old(db), role)
    {
      var rows := set p | p in db.rolePermissions && p.0 != role;
      var i := 0;
      while i < |ids|
        invariant 0 <= i <= |ids|
        invariant rows == (set p | p in db.rolePermissions && p.0 != role) + (set k | 0 <= k < i :: (role, ids[k]))
        invariant forall j, k :: 0 <= j < k < i ==> ids[j] != ids[k]
      {
        if (role, ids[i]) in rows {
          assert exists k :: 0 <= k < i && ids[k] == ids[i];
          return Err(Duplicate);
        }
        rows := rows + {(role, ids[i])};
        i := i + 1;
      }
      if !txOk { return Err(Storage); }
      db := db.(rolePermissions := rows);
      assert Holders(db, role) == Holders(old(db), role);
      var ok := InvalidateRoleUsers(role, delOk);
      return if ok then Ok(()) else Err(Storage);
    }

    method AssignRoles(user: string, ids: seq<string>, txOk: bool, delOk: bool) returns (r: Result<(), Error>)
      modifies this
      ensures !Distinct(ids) || !txOk ==> r.Err? && View() == old(View())
      ensures Distinct(ids) && txOk ==> db == WithRoles(old(db), user, ids)
      ensures Distinct(ids) && txOk ==> forall x, p :: (x, p) in db.userRoles <==>
        if x == user then p in ids else (x, p) in old(db).userRoles
      ensures r.Ok? <==> Distinct(ids) && txOk && delOk
      ensures r.Ok? ==> Next(old(View()), Op.AssignRoles(user, ids), View())
      ensures old(cache) - {user} == cache - {user}
    {
      var rows := set p | p in db.userRoles && p.0 != user;
      var i := 0;
      while i < |ids|
        invariant 0 <= i <= |ids|
        invariant rows == (set p | p in db.userRoles && p.0 != user) + (set k | 0 <= k < i :: (user, ids[k]))
        invariant forall j, k :: 0 <= j < k < i ==> ids[j] != ids[k]
      {
        if (user, ids[i]) in rows {
          assert exists k :: 0 <= k < i && ids[k] == ids[i];
          return Err(Duplicate);
        }
        rows := rows + {(user, ids[i])};
        i := i + 1;
      }
      if !txOk { return Err(Storage); }
      db := db.(userRoles := rows);
      var ok := InvalidateUser(user, delOk);
      return if ok then Ok(()) else Err(Storage);
    }
  }

  // ---- Sequences of operations --------------------------------------------

  /** Assignments here commit and invalidate; one that fails its transaction is a Nothing. */
  datatype Op =
    | Lookup(user: string)
    | AssignPermissions(role: string, ids: seq<string>)
    | AssignRoles(user: string, ids: seq<string>)
    | Drop(user: string)
    | Nothing

  /** The steps of the service; Drop is an invalidation or an entry reaching its time to live. */
  ghost predicate Next(s: State, op: Op, t: State) {
    match op
    case Lookup(user) =>
      t.db == s.db && (t.cache == s.cache
        || (user !in s.cache && user in s.db.users && user in t.cache && IsGranted(s.db, user, t.cache[user])
            && t.cache == s.cache[user := t.cache[user]]))
    case AssignPermissions(role, ids) =>
      t == State(WithPermissions(s.db, role, ids), s.cache - Holders(s.db, role))
    case AssignRoles(user, ids) => t == State(WithRoles(s.db, user, ids), s.cache - {user})
    case Drop(user) => t == State(s.db, s.cache - {user})
    case Nothing => t == s
  }

  ghost predicate Trace(states: seq<State>, ops: seq<Op>) {
    |states| == |ops| + 1 && forall i :: 0 <= i < |ops| ==> Next(states[i], ops[i], states[i + 1])
  }

  lemma RolesFrame(db: Db, user: string, ids: seq<string>, other: string, key: string)
    requires other != user
    ensures Grants(WithRoles(db, user, ids), other, key) <==> Grants(db, other, key)
  {
    var db' := WithRoles(db, user, ids);
    assert RolesOf(db', other) == RolesOf(db, other);
    assert forall role :: Gives(db', role, key) <==> Gives(db, role, key);
  }

  lemma PermissionsFrame(db: Db, role: string, ids: seq<string>, user: string, key: string)
    requires user !in Holders(db, role)
    ensures Grants(WithPermissions(db, role, ids), user, key) <==> Grants(db, user, key)
  {
    var db' := WithPermissions(db, role, ids);
    assert RolesOf(db', user) == RolesOf(db, user);
    assert role in RolesOf(db, user) ==> (user, role) in db.userRoles;
    forall other | other != role ensures RoutesOf(db', other) == RoutesOf(db, other) {}
  }

  lemma NextKeeps(s: State, op: Op, t: State)
    requires Coherent(s) && Next(s, op, t)
    ensures Coherent(t)
  {
    forall user | user in t.cache ensures user in t.db.users && IsGranted(t.db, user, t.cache[user]) {
      match op {
        case AssignPermissions(role, ids) =>
          assert user in s.cache && user !in Holders(s.db, role);
          forall key { PermissionsFrame(s.db, role, ids, user, key); }
        case AssignRoles(other, ids) =>
          forall key { RolesFrame(s.db, other, ids, user, key); }
        case _ =>
      }
    }
  }

  /** Main result: along every sequence of operations the cache agrees with the tables. */
  lemma {:induction false} CacheNeverStale(states: seq<State>, ops: seq<Op>, i: nat)
    requires Trace(states, ops) && Coherent(states[0]) && i < |states|
    ensures Coherent(states[i])
  {
    if i > 0 {
      CacheNeverStale(states, ops, i - 1);
      NextKeeps(states[i - 1], ops[i - 1], states[i]);
    }
  }

  /**
   * Main result: a check answered from the cache is the uncached answer, after any operations,
   * when the cache started in agreement.
   */
  lemma CheckAgrees(states: seq<State>, ops: seq<Op>, i: nat, user: string, verb: string, path: string)
    requires Trace(states, ops) && Coherent(states[0]) && i < |states| && user != "" && user in states[i].cache
    ensures verb + " " + path in states[i].cache[user] || WILDCARD in states[i].cache[user]
      <==> Permitted(states[i].db, user, verb, path)
  {
    CacheNeverStale(states, ops, i);
  }

  /** The two sets of tables grant the user the same keys. */
  ghost predicate SameGrants(db: Db, db': Db, user: string) {
    forall key :: Grants(db', user, key) <==> Grants(db, user, key)
  }

  /**
   * The deletions matter: when a role assignment commits but dropping the user's set fails, the
   * cache stays right exactly when that user was not cached or the new roles grant the same keys.
   */
  lemma FailedDropStaysRight(s: State, user: string, ids: seq<string>)
    requires Coherent(s)
    ensures var db' := WithRoles(s.db, user, ids);
      Coherent(State(db', s.cache)) <==> user !in s.cache || SameGrants(s.db, db', user)
  {
    var db' := WithRoles(s.db, user, ids);
    forall other, key | other != user ensures Grants(db', other, key) <==> Grants(s.db, other, key) {
      RolesFrame(s.db, user, ids, other, key);
    }
    CachedSetDecides(s, db', user, s.cache);
  }

  /** For a cached user the set is still right under other tables exactly when they grant the same. */
  lemma CachedSetDecides(s: State, db': Db, user: string, left: map<string, set<string>>)
    requires Coherent(s) && (user in left ==> user in s.cache && left[user] == s.cache[user])
    ensures user in left ==> (IsGranted(db', user, left[user]) <==> SameGrants(s.db, db', user))
  {
    if user in left {
      assert IsGranted(s.db, user, s.cache[user]);
      if IsGranted(db', user, left[user]) {
        forall key ensures Grants(db', user, key) <==> Grants(s.db, user, key) {
          assert key in left[user] <==> Grants(s.db, user, key);
        }
      }
    }
  }

  /**
   * Likewise for a role's users: whichever of them were dropped before the failure, the cache
   * stays right exactly when the new permissions grant the others the same keys.
   */
  lemma FailedRoleDropStaysRight(s: State, role: string, ids: seq<string>, left: map<string, set<string>>)
    requires Coherent(s) && left.Keys <= s.cache.Keys && forall u :: u in left ==> left[u] == s.cache[u]
    ensures var db' := WithPermissions(s.db, role, ids);
      Coherent(State(db', left)) <==>
      forall u :: u in left && u in Holders(s.db, role) ==> SameGrants(s.db, db', u)
  {
    var db' := WithPermissions(s.db, role, ids);
    forall u, key | u !in Holders(s.db, role) ensures Grants(db', u, key) <==> Grants(s.db, u, key) {
      PermissionsFrame(s.db, role, ids, u, key);
    }
    forall u ensures u in left ==> (IsGranted(db', u, left[u]) <==> SameGrants(s.db, db', u)) {
      CachedSetDecides(s, db', u, left);
    }
  }

  /**
   * A revoked grant survives: when a user loses every role but dropping its set fails, whatever
   * the cache permitted it still permits, and the tables permit nothing.
   */
  lemma RevokedGrantSurvives(s: State, user: string, verb: string, path: string)
    requires Coherent(s) && user in s.cache && Permitted(s.db, user, verb, path)
    ensures var db' := WithRoles(s.db, user, []);
      && (verb + " " + path in s.cache[user] || WILDCARD in s.cache[user])
      && !Permitted(db', user, verb, path) && !Coherent(State(db', s.cache))
  {
    var db' := WithRoles(s.db, user, []);
    assert RolesOf(db', user) == {};
    assert !Grants(db', user, verb + " " + path) && !Grants(db', user, WILDCARD);
    FailedDropStaysRight(s, user, []);
  }

  /** An input at which it does: an editor's cached right to create documents. */
  lemma EditorKeepsRevokedRight()
    ensures
      var db := Db({"ann"}, map["r1" := "editor"], map["p1" := "POST /documents"], {("ann", "r1")}, {("r1", "p1")});
      var s := State(db, map["ann" := {"POST /documents"}]);
      && Coherent(s) && Permitted(db, "ann", "POST", "/documents")
      && !Permitted(WithRoles(db, "ann", []), "ann", "POST", "/documents")
      && "POST" + " " + "/documents" in s.cache["ann"]
  {
    var db := Db({"ann"}, map["r1" := "editor"], map["p1" := "POST /documents"], {("ann", "r1")}, {("r1", "p1")});
    var s := State(db, map["ann" := {"POST /documents"}]);
    assert ("ann", "r1") in db.userRoles && ("r1", "p1") in db.rolePermissions;
    assert RolesOf(db, "ann") == {"r1"} && RoutesOf(db, "r1") == {"POST /documents"};
    assert "editor" != SUPER_ADMIN by { assert "editor"[0] == 'e' && SUPER_ADMIN[0] == 's'; }
    assert forall key :: Gives(db, "r1", key) <==> key == "POST /documents";
    assert forall key :: Grants(db, "ann", key) <==> key == "POST /documents";
    assert "POST" + " " + "/documents" == "POST /documents";
    RevokedGrantSurvives(s, "ann", "POST", "/documents");
  }
}
