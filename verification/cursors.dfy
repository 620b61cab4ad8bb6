/** The page request and the cursor token (backend/internal/pkg/pagination). */
module Cursors {
  import opened Basics

  const DEFAULT_LIMIT := 20
  const MAX_LIMIT := 100
  const TWO_53 := 0x20_0000_0000_0000

  datatype Dir = Asc | Desc

  // ---- Request ------------------------------------------------------------

  datatype DateField = NoDate | GoodDate(at: int) | BadDate

  /** The list request after trimming and lower-casing of its text fields. */
  datatype Request = Request(limit: int, sortBy: string, sortDir: string, dateFrom: DateField, dateTo: DateField)

  datatype Normalized = Normalized(limit: nat, sortBy: string, dir: Dir, dateFrom: Option<int>, dateTo: Option<int>)

  datatype RequestError = BadSortDir | BadDateFrom | BadDateTo

  /** The page size the server serves when asked for one. */
  function ServedLimit(asked: int): (limit: nat)
    ensures 1 <= limit <= 100 && (limit == asked <==> 1 <= asked <= 100)
    ensures (asked <= 0 ==> limit == 20) && (asked > 100 ==> limit == 100)
  {
    if asked <= 0 then DEFAULT_LIMIT else Min(asked, MAX_LIMIT)
  }

  method Normalize(req: Request, defaultSort: string) returns (r: Result<Normalized, RequestError>)
    ensures r.Ok? <==> req.sortDir in {"", "asc", "desc"} && !req.dateFrom.BadDate? && !req.dateTo.BadDate?
    ensures r.Ok? ==> r.value.limit == ServedLimit(req.limit)
    ensures r.Ok? && 1 <= req.limit <= 100 ==> r.value.limit == req.limit
    ensures r.Ok? && req.limit <= 0 ==> r.value.limit == 20
    ensures r.Ok? && req.limit > 100 ==> r.value.limit == 100
    ensures r.Ok? ==> (r.value.dir == Asc <==> req.sortDir == "asc")
    ensures r.Ok? ==> r.value.sortBy == if req.sortBy == "" then defaultSort else req.sortBy
    ensures r.Ok? ==> r.value.dateFrom == if req.dateFrom.GoodDate? then Some(req.dateFrom.at) else None
    ensures r.Ok? ==> r.value.dateTo == if req.dateTo.GoodDate? then Some(req.dateTo.at) else None
    ensures r == Err(BadSortDir) <==> req.sortDir !in {"", "asc", "desc"}
    ensures r == Err(BadDateFrom) <==> req.sortDir in {"", "asc", "desc"} && req.dateFrom.BadDate?
    ensures r == Err(BadDateTo) <==>
      req.sortDir in {"", "asc", "desc"} && !req.dateFrom.BadDate? && req.dateTo.BadDate?
  {
    var limit, sortBy, sortDir := req.limit, req.sortBy, req.sortDir;
    if limit <= 0 {
      limit := DEFAULT_LIMIT;
    }
    if limit > MAX_LIMIT {
      limit := MAX_LIMIT;
    }
    if sortBy == "" {
      sortBy := defaultSort;
    }
    if sortDir == "" {
      sortDir := "desc";
    }
    if sortDir != "asc" && sortDir != "desc" {
      return Err(BadSortDir);
    }
    var from, to: Option<int> := None, None;
    match req.dateFrom {
      case NoDate =>
      case BadDate => return Err(BadDateFrom);
      case GoodDate(t) => from := Some(t);
    }
    match req.dateTo {
      case NoDate =>
      case BadDate => return Err(BadDateTo);
      case GoodDate(t) => to := Some(t);
    }
    r := Ok(Normalized(limit, sortBy, if sortDir == "asc" then Asc else Desc, from, to));
  }

  // ---- float64 ------------------------------------------------------------

  /** Distance between neighbouring doubles at magnitude m. */
  function Ulp(m: nat): (u: nat)
    ensures u >= 1
  {
    if m < TWO_53 then 1 else 2 * Ulp(m / 2)
  }

  /** Round to a multiple of u, ties to even. */
  function RoundEven(m: nat, u: nat): int
    requires u >= 1
  {
    var q, r := m / u, m % u;
    if 2 * r < u || (2 * r == u && q % 2 == 0) then q * u else (q + 1) * u
  }

  /** The integer value of Go's float64(n). */
  function Float64(n: int): int {
    if n >= 0 then RoundEven(n, Ulp(n)) else -RoundEven(-n, Ulp(-n))
  }

  predicate Representable(n: int) {
    var m := if n >= 0 then n else -n;
    m % Ulp(m) == 0
  }

  lemma RoundEvenExact(m: nat, u: nat)
    requires u >= 1
    ensures RoundEven(m, u) == m <==> m % u == 0
  {
    var q, r := m / u, m % u;
    assert m == q * u + r;
    assert (q + 1) * u == q * u + u;
  }

  /** Rounding goes to the nearest multiple, and to an even one from halfway. */
  lemma RoundEvenIsNearest(m: nat, u: nat)
    requires u >= 1
    ensures var r := RoundEven(m, u);
      && r >= 0 && r % u == 0 && 2 * m <= 2 * r + u && 2 * r <= 2 * m + u
      && (2 * m == 2 * r + u || 2 * r == 2 * m + u ==> r / u % 2 == 0)
  {
    var q, x := m / u, m % u;
    assert m == q * u + x && (q + 1) * u == q * u + u;
    MultipleOf(q, u);
    MultipleOf(q + 1, u);
  }

  lemma MultipleOf(q: nat, u: nat)
    requires u >= 1
    ensures q * u % u == 0 && q * u / u == q
  {
    QuotientIs(q * u, u, q, 0);
  }

  lemma QuotientIs(m: nat, d: nat, q: nat, r: nat)
    requires d >= 1 && m == q * d + r && r < d
    ensures m / d == q && m % d == r
  {
    var e := m / d;
    assert m == e * d + m % d;
    Multiples(e, q, d);
    Multiples(q, e, d);
  }

  lemma {:induction false} Multiples(a: nat, b: nat, d: nat)
    ensures a < b ==> a * d + d <= b * d
    decreases b
  {
    if a < b {
      Multiples(a, b - 1, d);
      assert b * d == (b - 1) * d + d;
    }
  }

  /** Neighbouring doubles are one unit apart up to 2^53, and then as far as 53 bits allow. */
  lemma {:induction false} UlpIs53Bits(m: nat)
    ensures m < TWO_53 ==> Ulp(m) == 1
    ensures m >= TWO_53 ==> TWO_53 / 2 <= m / Ulp(m) < TWO_53
    decreases m
  {
    if m >= TWO_53 {
      var u := Ulp(m / 2);
      if m / 2 >= TWO_53 { UlpIs53Bits(m / 2); }
      HalveQuotient(m, u);
    }
  }

  lemma HalveQuotient(m: nat, u: nat)
    requires u >= 1
    ensures m / (2 * u) == m / 2 / u
  {
    var q, r := m / 2 / u, m / 2 % u;
    assert m / 2 == q * u + r && m == 2 * (q * u + r) + m % 2;
    assert m == q * (2 * u) + (2 * r + m % 2);
    QuotientIs(m, 2 * u, q, 2 * r + m % 2);
  }

  /** The magnitude's double: nearest among those 53 bits allow, an even one from halfway. */
  lemma Float64IsNearest(n: int)
    ensures var m := if n >= 0 then n else -n; var r := if n >= 0 then Float64(n) else -Float64(n);
      && r >= 0 && r % Ulp(m) == 0 && 2 * m <= 2 * r + Ulp(m) && 2 * r <= 2 * m + Ulp(m)
      && (2 * m == 2 * r + Ulp(m) || 2 * r == 2 * m + Ulp(m) ==> r / Ulp(m) % 2 == 0)
      && (if m < TWO_53 then Ulp(m) == 1 else TWO_53 / 2 <= m / Ulp(m) < TWO_53)
  {
    var m := if n >= 0 then n else -n;
    UlpIs53Bits(m);
    RoundEvenIsNearest(m, Ulp(m));
    hide Ulp, RoundEven;
  }

  lemma Float64Exact(n: int)
    ensures Float64(n) == n <==> Representable(n)
  {
    var m := if n >= 0 then n else -n;
    RoundEvenExact(m, Ulp(m));
  }

  lemma SmallIntegersRepresentable(n: int)
    requires -TWO_53 <= n <= TWO_53
    ensures Representable(n)
  {
    var m: nat := if n >= 0 then n else -n;
    if m == TWO_53 {
      assert m / 2 < TWO_53;
      assert Ulp(m) == 2 * Ulp(m / 2) == 2;
    }
  }

  // ---- Cursor codec -------------------------------------------------------

  datatype ColumnKind = TimeColumn | NumberColumn | TextColumn
  datatype CursorKind = TimeKind | NumberKind | StringKind

  /**
   * A decoded cursor. Sort values are integers: an instant, a number, or the rank
   * of a text in the column's collation; ids are their rank too.
   */
  datatype CursorValue = CursorValue(kind: CursorKind, str: int, num: int, time: Option<int>, id: int)

  /** A cursor as it arrives: absent, undecodable (or with an empty id), or a token. */
  datatype Cursor = NoCursor | Malformed | Token(cv: CursorValue)

  function EncodeCursor(col: ColumnKind, key: int, id: int): CursorValue {
    match col
    case TimeColumn => CursorValue(TimeKind, 0, 0, Some(key), id)
    case NumberColumn => CursorValue(NumberKind, 0, Float64(key), None, id)
    case TextColumn => CursorValue(StringKind, key, 0, None, id)
  }

  function Value(cv: CursorValue): int {
    match cv.kind
    case NumberKind => cv.num
    case TimeKind => if cv.time.Some? then cv.time.value else cv.str
    case StringKind => cv.str
  }

  /** The sort value survives the trip through a cursor. */
  predicate Exact(col: ColumnKind, key: int) {
    col.NumberColumn? ==> Representable(key)
  }

  lemma CursorRoundTrip(col: ColumnKind, key: int, id: int)
    ensures EncodeCursor(col, key, id).id == id
    ensures Value(EncodeCursor(col, key, id)) == key <==> Exact(col, key)
  {
    Float64Exact(key);
  }

  lemma IntegersWithin53BitsAreExact(col: ColumnKind, key: int)
    requires col.NumberColumn? ==> -TWO_53 <= key <= TWO_53
    ensures Exact(col, key)
  {
    if col.NumberColumn? {
      SmallIntegersRepresentable(key);
    }
  }
}
