/** The client's cursor history (frontend/src/hooks/useCursorPagination.ts) against the server's pages. */
module CursorHistory {
  import opened Basics
  import opened Cursors
  import opened Keyset

  /** history[index] is the cursor of the page on screen; total is the last total applied. */
  datatype State = State(history: seq<Cursor>, index: nat, total: nat)

  const INITIAL := State([NoCursor], 0, 0)

  function Current(st: State): Cursor {
    if st.index < |st.history| then st.history[st.index] else NoCursor
  }

  /** Push the next cursor, dropping any forward history; an empty cursor is ignored. */
  function Next(st: State, cursor: Cursor): State {
    if cursor == NoCursor then st else
      var history := st.history[..Min(st.index + 1, |st.history|)] + [cursor];
      State(history, |history| - 1, st.total)
  }

  function Prev(st: State): State {
    st.(index := Max(0, st.index - 1))
  }

  function Reset(st: State): State {
    INITIAL
  }

  function ApplyResult(st: State, meta: Meta): State {
    st.(total := meta.total)
  }

  /** The summary line: nothing while the total is 0, otherwise "start-end of total". */
  datatype Summary = Blank | Showing(start: int, end: int, total: nat)

  function Window(st: State, limit: int): Summary {
    if st.total == 0 then Blank
    else Showing(st.index * limit + 1, Min((st.index + 1) * limit, st.total), st.total)
  }

  // ---- Sessions against a frozen table ------------------------------------

  /** User actions: Forward passes on the cursor of the page on screen, Loaded applies its result. */
  datatype Action = Forward | Back | Restart | Loaded

  /** The server's answer for the page on screen. */
  function Screen(s: set<Row>, q: Query, st: State): Result<Page, ListError>
    requires q.limit >= 1
  {
    ListPage(s, q.(cursor := Current(st)))
  }

  function Act(s: set<Row>, q: Query, st: State, a: Action): State
    requires q.limit >= 1
  {
    var page := Screen(s, q, st);
    match a
    case Forward => if page.Ok? then Next(st, page.value.meta.nextCursor) else st
    case Back => Prev(st)
    case Restart => Reset(st)
    case Loaded => if page.Ok? then ApplyResult(st, page.value.meta) else st
  }

  function Session(s: set<Row>, q: Query, actions: seq<Action>): State
    requires q.limit >= 1
  {
    if actions == [] then INITIAL
    else Act(s, q, Session(s, q, actions[..|actions| - 1]), actions[|actions| - 1])
  }

  /** Entry k of the history is the cursor of page k, and page k exists. */
  ghost predicate Faithful(s: set<Row>, q: Query, st: State) {
    && st.index < |st.history|
    && (forall k :: 0 <= k < |st.history| ==> StartOf(q, k) <= |s| && (k > 0 ==> StartOf(q, k) < |s|))
    && (forall k :: 0 <= k < |st.history| && StartOf(q, k) <= |s| ==> st.history[k] == CursorAfter(s, q, StartOf(q, k)))
    && st.total in {0, |s|}
  }

  /** Number of rows on the pages before page k. */
  function StartOf(q: Query, k: nat): nat {
    k * q.limit
  }

  lemma NextStart(q: Query, k: nat)
    ensures StartOf(q, k + 1) == StartOf(q, k) + q.limit
  {
  }

  lemma FaithfulScreen(s: set<Row>, q: Query, st: State)
    requires q.limit >= 1 && q.sortCol != "id" && ExactTable(s, q) && Faithful(s, q, st)
    ensures var j := StartOf(q, st.index);
      && |Sorted(q.dir, s)| == |s| && j <= |s| && (s != {} ==> j < |s|)
      && Screen(s, q, st) == Ok(Page(Sorted(q.dir, s)[j..Min(j + q.limit, |s|)], Meta(
           if j + q.limit < |s| then CursorAfter(s, q, j + q.limit) else NoCursor,
           j + q.limit < |s|, q.limit, Min(j + q.limit, |s|) - j, |s|)))
  {
    assert StartOf(q, 0) == 0;
    ExactTableCuts(s, q, StartOf(q, st.index));
    PageIsSlice(s, q, StartOf(q, st.index));
  }

  lemma ActKeepsFaithful(s: set<Row>, q: Query, st: State, a: Action)
    requires q.limit >= 1 && q.sortCol != "id" && ExactTable(s, q)
    requires Faithful(s, q, st)
    ensures Faithful(s, q, Act(s, q, st, a))
  {
    hide First, CursorAfter, ListPage, Sorted;
    var j := StartOf(q, st.index);
    FaithfulScreen(s, q, st);
    NextStart(q, st.index);
    var st' := Act(s, q, st, a);
    if a == Forward && j + q.limit < |s| {
      assert st'.history == st.history[..st.index + 1] + [CursorAfter(s, q, j + q.limit)];
      assert st'.index == st.index + 1;
    }
    if a == Restart {
      assert StartOf(q, 0) == 0;
    }
  }

  lemma {:induction false} SessionFaithful(s: set<Row>, q: Query, actions: seq<Action>)
    requires q.limit >= 1 && q.sortCol != "id" && ExactTable(s, q)
    ensures Faithful(s, q, Session(s, q, actions))
    decreases |actions|
  {
    if actions == [] {
      assert StartOf(q, 0) == 0;
    } else {
      var before := actions[..|actions| - 1];
      SessionFaithful(s, q, before);
      ActKeepsFaithful(s, q, Session(s, q, before), actions[|actions| - 1]);
    }
  }

  /**
   * Main result: after any session the page on screen is slice number index of the sorted
   * table, history entry k is the cursor of page k, and a summary names exactly the
   * positions of the rows on screen.
   */
  lemma ScreenShowsItsWindow(s: set<Row>, q: Query, actions: seq<Action>)
    requires q.limit >= 1 && q.sortCol != "id" && ExactTable(s, q)
    ensures var st := Session(s, q, actions); var j := StartOf(q, st.index);
      && st.index < |st.history| && |Sorted(q.dir, s)| == |s| && j <= |s|
      && Screen(s, q, st).Ok?
      && Screen(s, q, st).value.rows == Sorted(q.dir, s)[j..Min(j + q.limit, |s|)]
      && (forall k :: 0 <= k < |st.history| ==>
            StartOf(q, k) <= |s| && st.history[k] == CursorAfter(s, q, StartOf(q, k)))
      && (Window(st, q.limit).Showing? ==>
            && j < |s| && Window(st, q.limit) == Showing(j + 1, Min(j + q.limit, |s|), |s|))
  {
    hide First, CursorAfter, ListPage, Sorted, Session;
    SessionFaithful(s, q, actions);
    FaithfulScreen(s, q, Session(s, q, actions));
    if Window(Session(s, q, actions), q.limit).Showing? {
      FaithfulWindow(s, q, Session(s, q, actions));
    }
  }

  lemma FaithfulWindow(s: set<Row>, q: Query, st: State)
    requires Faithful(s, q, st) && Window(st, q.limit).Showing?
    ensures var j := StartOf(q, st.index);
      j < |s| && Window(st, q.limit) == Showing(j + 1, Min(j + q.limit, |s|), |s|)
  {
    NextStart(q, st.index);
    if st.index == 0 {
      assert StartOf(q, 0) == 0;
    }
  }

  /** Once the result on screen has been applied, a non-empty table always shows its summary. */
  lemma LoadedShowsSummary(s: set<Row>, q: Query, actions: seq<Action>)
    requires q.limit >= 1 && q.sortCol != "id" && ExactTable(s, q) && s != {}
    ensures Window(Session(s, q, actions + [Loaded]), q.limit).Showing?
  {
    var all := actions + [Loaded];
    assert all[..|all| - 1] == actions;
    SessionFaithful(s, q, actions);
    FaithfulScreen(s, q, Session(s, q, actions));
  }

  /** Restarting shows the first page anew, whatever the session was, with no summary until it is loaded. */
  lemma RestartShowsFirstPage(s: set<Row>, q: Query, actions: seq<Action>)
    requires q.limit >= 1
    ensures var st := Session(s, q, actions + [Restart]);
      && st.index == 0 && st.history == [NoCursor] && Current(st) == NoCursor && Window(st, q.limit) == Blank
      && Screen(s, q, st) == Screen(s, q, Session(s, q, []))
  {
    assert (actions + [Restart])[..|actions|] == actions;
    hide ListPage;
  }

  /** Going back undoes going forward, and going forward again restores the same state. */
  lemma PrevUndoesNext(st: State, cursor: Cursor)
    requires st.index < |st.history| && cursor != NoCursor
    ensures var back := Prev(Next(st, cursor));
      && Current(back) == Current(st) && back.index == st.index && back.total == st.total
      && back.history == st.history[..st.index + 1] + [cursor]
      && Next(back, cursor) == Next(st, cursor)
  {
    var back := Prev(Next(st, cursor));
    assert back.history[..st.index + 1] == st.history[..st.index + 1];
  }

  /**
   * Main result: entry k of the history is the cursor of page k after a step forward exactly when
   * the step passes on the cursor of the page on screen; any other cursor breaks it.
   */
  lemma NextFaithfulExactly(s: set<Row>, q: Query, st: State, cursor: Cursor)
    requires q.limit >= 1 && q.sortCol != "id" && ExactTable(s, q) && Faithful(s, q, st) && cursor != NoCursor
    ensures Screen(s, q, st).Ok?
    ensures Faithful(s, q, Next(st, cursor)) <==> cursor == Screen(s, q, st).value.meta.nextCursor
  {
    hide First, ListPage, Sorted, CursorAfter;
    var j := StartOf(q, st.index);
    FaithfulScreen(s, q, st);
    NextStart(q, st.index);
    var next := Next(st, cursor);
    assert next.history[st.index + 1] == cursor && next.index == st.index + 1;
    if j + q.limit < |s| {
      if cursor == CursorAfter(s, q, j + q.limit) {
        assert next.history == st.history[..st.index + 1] + [cursor];
      }
    } else {
      assert StartOf(q, st.index + 1) >= |s|;
    }
  }

  /** So a second Forward with the cursor of an earlier screen shows one page under two numbers. */
  lemma StaleForwardDuplicatesPage(s: set<Row>, q: Query, st: State)
    requires q.limit >= 1 && q.sortCol != "id" && ExactTable(s, q) && Faithful(s, q, st)
    requires StartOf(q, st.index) + q.limit < |s|
    ensures var cursor := Screen(s, q, st).value.meta.nextCursor; var twice := Next(Next(st, cursor), cursor);
      Screen(s, q, twice) == Screen(s, q, Next(st, cursor)) && twice.index == st.index + 2 && !Faithful(s, q, twice)
  {
    hide First, ListPage, Sorted;
    var j := StartOf(q, st.index);
    FaithfulScreen(s, q, st);
    NextStart(q, st.index);
    var cursor := CursorAfter(s, q, j + q.limit);
    var once := Next(st, cursor);
    NextFaithfulExactly(s, q, st, cursor);
    NextFaithfulExactly(s, q, once, cursor);
    FaithfulScreen(s, q, once);
    if j + 2 * q.limit < |s| {
      CursorsDiffer(s, q, j + q.limit, j + 2 * q.limit);
    }
  }

  /** Different pages of an exact table have different cursors. */
  lemma CursorsDiffer(s: set<Row>, q: Query, i: nat, j: nat)
    requires ExactTable(s, q) && 0 < i < j <= |s|
    ensures CursorAfter(s, q, i) != CursorAfter(s, q, j)
  {
    SortedElements(q.dir, s);
    var rows := Sorted(q.dir, s);
    var a, b := rows[i - 1], rows[j - 1];
    assert Before(q.dir, a, b);
    assert a in Elements(rows) && b in Elements(rows);
    CursorRoundTrip(q.col, a.key, a.id);
    CursorRoundTrip(q.col, b.key, b.id);
  }

  /** Rows on the first page when the hook asks for limit rows out of n. */
  function FirstPageRows(limit: int, n: nat): nat {
    Min(ServedLimit(limit), n)
  }

  /**
   * The hook multiplies by the limit it asked for, the server by the limit it served: the
   * first window is right for every table size exactly for limits the server keeps.
   */
  lemma WindowNeedsServedLimit(limit: int)
    ensures (forall n: nat :: n > 0 ==>
               Window(State([NoCursor], 0, n), limit) == Showing(1, FirstPageRows(limit, n), n))
       <==> 1 <= limit <= MAX_LIMIT
  {
    if limit > MAX_LIMIT {
      assert Window(State([NoCursor], 0, limit), limit).end == limit;
    } else if limit <= 0 {
      assert Window(State([NoCursor], 0, 1), limit).end <= 0;
    }
  }
}
