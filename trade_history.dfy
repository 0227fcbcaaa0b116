/** src/components/TradeHistoryTable.jsx: which trades the table shows (the
    provided list, the seeded fallback set, or the provided list padded with
    older seeded trades), the query and side filter, the column sort, five-row
    pagination with a clamped page, and the table's own UI state. */
module TradeHistory {
  import opened Wrappers
  import opened MockTrades
  import MockTradeFacts
  import StableSort
  import Text
  import Utils

  // ---------------------------------------------------------------------------
  // effectiveTrades

  /** `start`: two years (`DAYS = 730`) before `now`. */
  function HistoryStart(now: int): int {
    Start(730, now)
  }

  /** `Math.min` over the provided timestamps: the oldest one. */
  function Oldest(trades: seq<Trade>): (m: int)
    requires trades != []
    ensures forall i :: 0 <= i < |trades| ==> m <= trades[i].ts
    ensures exists i :: 0 <= i < |trades| && trades[i].ts == m
  {
    if |trades| == 1 then trades[0].ts
    else
      var rest := Oldest(trades[1..]);
      if trades[0].ts <= rest then trades[0].ts
      else
        assert exists i :: 1 <= i < |trades| && trades[i].ts == rest by {
          var i :| 0 <= i < |trades[1..]| && trades[1..][i].ts == rest;
          assert trades[i + 1].ts == rest;
        }
        rest
  }

  /** `pad`: the generated trades strictly older than `cut`, in their order. */
  function OlderThan(pad: seq<Trade>, cut: int): (r: seq<Trade>)
    ensures forall t :: t in r <==> t in pad && t.ts < cut
  {
    if pad == [] then []
    else (if pad[0].ts < cut then [pad[0]] else []) + OlderThan(pad[1..], cut)
  }

  /** `seen`: the ids of the provided trades. */
  function Ids(trades: seq<Trade>): set<string> {
    set t | t in trades :: t.id
  }

  /** `pad.filter((t) => !seen.has(t.id))`, in order. */
  function Unseen(xs: seq<Trade>, seen: set<string>): (r: seq<Trade>)
    ensures forall t :: t in r <==> t in xs && t.id !in seen
  {
    if xs == [] then []
    else (if xs[0].id !in seen then [xs[0]] else []) + Unseen(xs[1..], seen)
  }

  /** The generated trades the merge appends to the provided ones. */
  function Added(trades: seq<Trade>, pad: seq<Trade>): seq<Trade>
    requires trades != []
  {
    Unseen(OlderThan(pad, Oldest(trades)), Ids(trades))
  }

  /** `merged`, sorted newest first. */
  function Padded(trades: seq<Trade>, pad: seq<Trade>): seq<Trade>
    requires trades != []
  {
    StableSort.SortBy(trades + Added(trades, pad), TsKey, StableSort.Desc)
  }

  /** `effectiveTrades` with the two generated sets given: `fallback` for a
      missing (`None`, not an array) or empty list, `pad` for the older trades. */
  function EffectiveFrom(given: Option<seq<Trade>>, now: int, fallback: seq<Trade>, pad: seq<Trade>): seq<Trade> {
    if given.None? || given.value == [] then fallback
    else if Oldest(given.value) <= HistoryStart(now) then given.value
    else Padded(given.value, pad)
  }

  /** `effectiveTrades` at time `now`. */
  function EffectiveTrades(given: Option<seq<Trade>>, now: int): seq<Trade> {
    EffectiveFrom(given, now, Generated(TableFile, 730, 900, 42, now), SeededPad(now))
  }

  /** The merge is ordered newest first and is a permutation of the provided
      trades followed by the added ones. */
  lemma {:induction false} PaddedOrder(trades: seq<Trade>, pad: seq<Trade>)
    requires trades != []
    ensures var r := Padded(trades, pad);
      multiset(r) == multiset(trades) + multiset(Added(trades, pad)) &&
      forall i, j :: 0 <= i < j < |r| ==> r[i].ts >= r[j].ts
  {
    var r := Padded(trades, pad);
    StableSort.SortBySorted(trades + Added(trades, pad), TsKey, StableSort.Desc);
    forall i, j | 0 <= i < j < |r| ensures r[i].ts >= r[j].ts {
      assert !StableSort.Ahead(r[j], r[i], TsKey, StableSort.Desc);
    }
  }

  /** The merge holds exactly the provided trades and the generated trades that
      are strictly older than the oldest provided one and whose id is not provided. */
  lemma {:induction false} PaddedMembers(trades: seq<Trade>, pad: seq<Trade>)
    requires trades != []
    ensures forall t :: t in Padded(trades, pad) <==>
        t in trades || (t in pad && t.ts < Oldest(trades) && t.id !in Ids(trades))
  {
    var m := trades + Added(trades, pad);
    var r := Padded(trades, pad);
    assert multiset(r) == multiset(m);
    forall t ensures t in r <==> t in m {
      assert t in r <==> t in multiset(r);
      assert t in m <==> t in multiset(m);
    }
  }

  /** Every added trade is older than every provided trade. */
  lemma AddedOlder(trades: seq<Trade>, pad: seq<Trade>)
    requires trades != []
    ensures forall t, i :: t in Added(trades, pad) && 0 <= i < |trades| ==> t.ts < trades[i].ts
  {
  }

  /** Only the merge's filters decide what is added, so added trades never carry
      an id that is already provided, and distinct ids stay distinct. */
  lemma {:induction false} UnseenDistinct(xs: seq<Trade>, seen: set<string>)
    requires MockTradeFacts.DistinctIds(xs)
    ensures MockTradeFacts.DistinctIds(Unseen(xs, seen))
  {
    if xs != [] {
      UnseenDistinct(xs[1..], seen);
      var rest := Unseen(xs[1..], seen);
      forall t | t in rest ensures t.id != xs[0].id {
        var j :| 0 <= j < |xs[1..]| && xs[1..][j] == t;
        assert xs[j + 1] == t;
      }
    }
  }

  lemma {:induction false} OlderThanDistinct(xs: seq<Trade>, cut: int)
    requires MockTradeFacts.DistinctIds(xs)
    ensures MockTradeFacts.DistinctIds(OlderThan(xs, cut))
  {
    if xs != [] {
      OlderThanDistinct(xs[1..], cut);
      var rest := OlderThan(xs[1..], cut);
      forall t | t in rest ensures t.id != xs[0].id {
        var j :| 0 <= j < |xs[1..]| && xs[1..][j] == t;
        assert xs[j + 1] == t;
      }
    }
  }

  /** Provided trades with distinct ids, padded from a set with distinct ids,
      give a list with distinct ids: the merge avoids id collisions. */
  lemma {:induction false} PaddedDistinct(trades: seq<Trade>, pad: seq<Trade>)
    requires trades != []
    requires MockTradeFacts.DistinctIds(trades) && MockTradeFacts.DistinctIds(pad)
    ensures MockTradeFacts.DistinctIds(Padded(trades, pad))
  {
    var a := Added(trades, pad);
    OlderThanDistinct(pad, Oldest(trades));
    UnseenDistinct(OlderThan(pad, Oldest(trades)), Ids(trades));
    var m := trades + a;
    forall i, j | 0 <= i < j < |m| ensures m[i].id != m[j].id {
      if j >= |trades| && i < |trades| {
        assert m[j] in a;
        assert m[i] in trades;
      } else if j >= |trades| {
        assert m[i] == a[i - |trades|] && m[j] == a[j - |trades|];
      }
    }
    MockTradeFacts.DistinctIdsPermuted(Padded(trades, pad), m);
  }

  /** No list or an empty list: the table shows the 900 seeded trades (seed 42),
      newest first, with distinct ids, all within the last two years. */
  lemma {:induction false} FallbackFacts(given: Option<seq<Trade>>, now: int)
    requires given.None? || given.value == []
    ensures var r := EffectiveTrades(given, now);
      r == Generated(TableFile, 730, 900, 42, now) &&
      |r| == 900 &&
      (forall i, j :: 0 <= i < j < |r| ==> r[i].ts >= r[j].ts) &&
      MockTradeFacts.DistinctIds(r) &&
      forall t :: t in r ==> MockTradeFacts.WellFormed(TableFile, t, HistoryStart(now), now)
  {
    MockTradeFacts.GeneratedFacts(TableFile, 730, 900, 42, now);
  }

  /** A list that already reaches back two years is shown unchanged. */
  lemma LongHistoryUnchanged(trades: seq<Trade>, now: int)
    requires trades != [] && exists i :: 0 <= i < |trades| && trades[i].ts <= HistoryStart(now)
    ensures EffectiveTrades(Some(trades), now) == trades
  {
  }

  /** The seed-1337 set the padding draws from. */
  function SeededPad(now: int): seq<Trade> {
    Generated(TableFile, 730, 900, 1337, now)
  }

  /** The padding set has distinct ids and only well-formed trades of the last
      two years. */
  lemma SeededPadFacts(now: int)
    ensures MockTradeFacts.DistinctIds(SeededPad(now))
    ensures forall t :: t in SeededPad(now) ==> MockTradeFacts.WellFormed(TableFile, t, HistoryStart(now), now)
  {
    MockTradeFacts.GeneratedFacts(TableFile, 730, 900, 1337, now);
  }

  /** A list whose every trade is newer than two years ago is padded from the
      pad set; `PaddedOrder`, `PaddedMembers`, `PaddedAdds` and `PaddedDistinct`
      say what that merge holds. */
  lemma ShortHistoryPadded(trades: seq<Trade>, now: int, fallback: seq<Trade>, pad: seq<Trade>)
    requires trades != [] && forall i :: 0 <= i < |trades| ==> trades[i].ts > HistoryStart(now)
    ensures EffectiveFrom(Some(trades), now, fallback, pad) == Padded(trades, pad)
  {
    assert Oldest(trades) > HistoryStart(now);
  }

  /** Padding from well-formed trades of the window `[start, now]` adds only
      such trades of the pad, each older than every provided trade and with an
      id that is not provided. */
  lemma {:induction false} PaddedAdds(trades: seq<Trade>, pad: seq<Trade>, start: int, now: int)
    requires trades != []
    requires forall t :: t in pad ==> MockTradeFacts.WellFormed(TableFile, t, start, now)
    ensures forall t :: t in Padded(trades, pad) && t !in trades ==>
        t in pad && t.id !in Ids(trades) &&
        MockTradeFacts.WellFormed(TableFile, t, start, now) &&
        forall i :: 0 <= i < |trades| ==> t.ts < trades[i].ts
  {
    PaddedMembers(trades, pad);
  }

  // ---------------------------------------------------------------------------
  // filtered

  /** `q.trim().toLowerCase()`. */
  function Query(q: string): string {
    Text.ToLower(Text.Trim(q))
  }

  /** `matchesQuery` for an already trimmed and lower-cased query. */
  predicate MatchesQuery(t: Trade, query: string) {
    query == [] ||
    Text.Contains(Text.ToLower(t.symbol), query) ||
    Text.Contains(Text.ToLower(t.side), query) ||
    Text.Contains(Text.ToLower(t.id), query)
  }

  /** `matchesSide`: `"ALL"` keeps every side, anything else must match exactly. */
  predicate MatchesSide(t: Trade, side: string) {
    side == "ALL" || t.side == side
  }

  predicate Keeps(t: Trade, query: string, side: string) {
    MatchesQuery(t, query) && MatchesSide(t, side)
  }

  /** `effectiveTrades.filter(...)` for a prepared query. */
  function KeepWhere(trades: seq<Trade>, query: string, side: string): (r: seq<Trade>)
    ensures |r| <= |trades|
  {
    if trades == [] then []
    else (if Keeps(trades[0], query, side) then [trades[0]] else []) + KeepWhere(trades[1..], query, side)
  }

  /** `filtered`. */
  function Filtered(trades: seq<Trade>, q: string, side: string): seq<Trade> {
    KeepWhere(trades, Query(q), side)
  }

  /** `r` is `s` with some elements left out, the rest in their order. */
  predicate Subsequence<T(==)>(r: seq<T>, s: seq<T>)
    decreases |s|
  {
    r == [] || (s != [] && (if r[0] == s[0] then Subsequence(r[1..], s[1..]) else Subsequence(r, s[1..])))
  }

  /** A trade is kept exactly when it is in the input and passes both tests. */
  lemma {:induction false} KeepWhereMembers(trades: seq<Trade>, query: string, side: string)
    ensures forall t :: t in KeepWhere(trades, query, side) <==> t in trades && Keeps(t, query, side)
  {
    if trades != [] {
      KeepWhereMembers(trades[1..], query, side);
      assert trades == [trades[0]] + trades[1..];
    }
  }

  /** The filter keeps order: its result is a subsequence of its input. */
  lemma {:induction false} KeepWhereSubsequence(trades: seq<Trade>, query: string, side: string)
    ensures Subsequence(KeepWhere(trades, query, side), trades)
  {
    if trades != [] {
      KeepWhereSubsequence(trades[1..], query, side);
      var rest := KeepWhere(trades[1..], query, side);
      if Keeps(trades[0], query, side) {
        assert KeepWhere(trades, query, side) == [trades[0]] + rest;
        assert ([trades[0]] + rest)[1..] == rest;
      } else {
        assert KeepWhere(trades, query, side) == rest;
        SkipHead(rest, trades);
      }
    }
  }

  /** A subsequence of the tail is a subsequence of the whole. */
  lemma SkipHead<T>(r: seq<T>, s: seq<T>)
    requires s != [] && Subsequence(r, s[1..])
    ensures Subsequence(r, s)
    decreases |s|, |r|
  {
    if r != [] && r[0] == s[0] {
      DropHead(r, s[1..]);
    }
  }

  /** Dropping the first element of a subsequence leaves a subsequence. */
  lemma DropHead<T>(r: seq<T>, s: seq<T>)
    requires r != [] && Subsequence(r, s)
    ensures Subsequence(r[1..], s)
    decreases |s|, |r|
  {
    if r[0] != s[0] {
      DropHead(r, s[1..]);
      SkipHead(r[1..], s);
    } else if r[1..] != [] {
      SkipHead(r[1..], s);
    }
  }

  /** The filter works element by element: it distributes over concatenation. */
  lemma {:induction false} KeepWhereAppend(a: seq<Trade>, b: seq<Trade>, query: string, side: string)
    ensures KeepWhere(a + b, query, side) == KeepWhere(a, query, side) + KeepWhere(b, query, side)
  {
    if a != [] {
      var head := if Keeps(a[0], query, side) then [a[0]] else [];
      assert (a + b)[0] == a[0] && (a + b)[1..] == a[1..] + b;
      assert KeepWhere(a + b, query, side) == head + KeepWhere(a[1..] + b, query, side);
      assert KeepWhere(a, query, side) == head + KeepWhere(a[1..], query, side);
      KeepWhereAppend(a[1..], b, query, side);
      StableSort.ConcatAssoc(head, KeepWhere(a[1..], query, side), KeepWhere(b, query, side));
    } else {
      assert a + b == b;
    }
  }

  /** Filtering twice with the same settings is filtering once. */
  lemma {:induction false} KeepWhereIdempotent(trades: seq<Trade>, query: string, side: string)
    ensures KeepWhere(KeepWhere(trades, query, side), query, side) == KeepWhere(trades, query, side)
  {
    if trades != [] {
      var rest := KeepWhere(trades[1..], query, side);
      KeepWhereIdempotent(trades[1..], query, side);
      if Keeps(trades[0], query, side) {
        var kept := [trades[0]] + rest;
        assert KeepWhere(trades, query, side) == kept;
        assert kept != [] && kept[0] == trades[0] && kept[1..] == rest;
        assert KeepWhere(kept, query, side) == [trades[0]] + KeepWhere(rest, query, side);
      } else {
        assert KeepWhere(trades, query, side) == rest;
      }
    }
  }

  /** `filtered` keeps exactly the trades whose side matches and whose lower-cased
      symbol, side or id contains the trimmed, lower-cased query (any trade when
      the query is blank), in their order. */
  lemma FilteredFacts(trades: seq<Trade>, q: string, side: string)
    ensures var r := Filtered(trades, q, side);
      Subsequence(r, trades) &&
      forall t :: t in r <==> (t in trades && MatchesSide(t, side) &&
        (Query(q) == [] || Text.Contains(Text.ToLower(t.symbol), Query(q)) ||
         Text.Contains(Text.ToLower(t.side), Query(q)) || Text.Contains(Text.ToLower(t.id), Query(q))))
  {
    KeepWhereMembers(trades, Query(q), side);
    KeepWhereSubsequence(trades, Query(q), side);
  }

  /** A blank query with side `"ALL"` keeps every trade. */
  lemma BlankQueryKeepsAll(trades: seq<Trade>, q: string)
    requires forall k :: 0 <= k < |q| ==> Text.IsSpace(q[k])
    ensures Filtered(trades, q, "ALL") == trades
  {
    assert Query(q) == [];
    EmptyQueryKeepsAll(trades);
  }

  /** With no query and side `"ALL"` the filter keeps every trade. */
  lemma {:induction false} EmptyQueryKeepsAll(trades: seq<Trade>)
    ensures KeepWhere(trades, [], "ALL") == trades
  {
    if trades != [] {
      EmptyQueryKeepsAll(trades[1..]);
      assert trades == [trades[0]] + trades[1..];
    }
  }

  // ---------------------------------------------------------------------------
  // sorted

  /** The sortable columns: `ts`, `symbol`, `side`, `quantity`, `price`, `feeUsd`. */
  datatype Column = TsCol | SymbolCol | SideCol | QuantityCol | PriceCol | FeeCol {
    /** The columns whose values are numbers (a time counts as one). */
    predicate Numeric() { this != SymbolCol && this != SideCol }
  }

  /** The value a numeric column compares. */
  function NumberIn(c: Column, t: Trade): real {
    match c
    case TsCol => t.ts as real
    case QuantityCol => t.quantity
    case PriceCol => t.price
    case FeeCol => t.feeUsd
    case _ => 0.0
  }

  /** The text a string column compares. */
  function TextIn(c: Column, t: Trade): string {
    if c == SymbolCol then t.symbol else t.side
  }

  /** What the comparator compares: time for `ts`, the number for a number
      field, otherwise `String(value)` in code-point order. */
  function KeyOf(c: Column, t: Trade): StableSort.SortKey {
    if c.Numeric() then StableSort.Num(NumberIn(c, t)) else StableSort.Str(TextIn(c, t))
  }

  /** The comparator's key for column `c`. */
  function ColumnKey(c: Column): Trade -> StableSort.SortKey {
    (t: Trade) => KeyOf(c, t)
  }

  /** `sorted`: a stable sort of the filtered rows on one column. */
  function Sorted(rows: seq<Trade>, c: Column, dir: StableSort.Dir): seq<Trade> {
    StableSort.SortBy(rows, ColumnKey(c), dir)
  }

  /** On a number column the rows are ordered by value in the chosen direction. */
  lemma SortedNumbers(rows: seq<Trade>, c: Column, dir: StableSort.Dir)
    requires c.Numeric()
    ensures var r := Sorted(rows, c, dir);
      forall i, j :: 0 <= i < j < |r| ==>
        if dir == StableSort.Asc then NumberIn(c, r[i]) <= NumberIn(c, r[j])
        else NumberIn(c, r[i]) >= NumberIn(c, r[j])
  {
    var r := Sorted(rows, c, dir);
    StableSort.SortBySorted(rows, ColumnKey(c), dir);
    forall i, j | 0 <= i < j < |r|
      ensures if dir == StableSort.Asc then NumberIn(c, r[i]) <= NumberIn(c, r[j])
        else NumberIn(c, r[i]) >= NumberIn(c, r[j])
    {
      assert !StableSort.Ahead(r[j], r[i], ColumnKey(c), dir);
    }
  }

  /** On a string column the rows are in code-point order in the chosen direction. */
  lemma SortedTexts(rows: seq<Trade>, c: Column, dir: StableSort.Dir)
    requires !c.Numeric()
    ensures var r := Sorted(rows, c, dir);
      forall i, j :: 0 <= i < j < |r| ==>
        if dir == StableSort.Asc then Text.LexLe(TextIn(c, r[i]), TextIn(c, r[j]))
        else Text.LexLe(TextIn(c, r[j]), TextIn(c, r[i]))
  {
    var r := Sorted(rows, c, dir);
    StableSort.SortBySorted(rows, ColumnKey(c), dir);
    forall i, j | 0 <= i < j < |r|
      ensures if dir == StableSort.Asc then Text.LexLe(TextIn(c, r[i]), TextIn(c, r[j]))
        else Text.LexLe(TextIn(c, r[j]), TextIn(c, r[i]))
    {
      assert !StableSort.Ahead(r[j], r[i], ColumnKey(c), dir);
      Text.LexLeTotal(TextIn(c, r[i]), TextIn(c, r[j]));
    }
  }

  /** `sorted` is a permutation of its input, ordered by the column in the
      chosen direction, and rows with equal values keep their order. */
  lemma SortedFacts(rows: seq<Trade>, c: Column, dir: StableSort.Dir)
    ensures var r := Sorted(rows, c, dir);
      multiset(r) == multiset(rows) &&
      (c.Numeric() ==> forall i, j :: 0 <= i < j < |r| ==>
        if dir == StableSort.Asc then NumberIn(c, r[i]) <= NumberIn(c, r[j])
        else NumberIn(c, r[i]) >= NumberIn(c, r[j])) &&
      (!c.Numeric() ==> forall i, j :: 0 <= i < j < |r| ==>
        if dir == StableSort.Asc then Text.LexLe(TextIn(c, r[i]), TextIn(c, r[j]))
        else Text.LexLe(TextIn(c, r[j]), TextIn(c, r[i]))) &&
      forall k :: StableSort.WithKey(r, ColumnKey(c), k) == StableSort.WithKey(rows, ColumnKey(c), k)
  {
    if c.Numeric() {
      SortedNumbers(rows, c, dir);
    } else {
      SortedTexts(rows, c, dir);
    }
    forall k ensures StableSort.WithKey(Sorted(rows, c, dir), ColumnKey(c), k) == StableSort.WithKey(rows, ColumnKey(c), k) {
      StableSort.SortByStable(rows, ColumnKey(c), dir, k);
    }
  }

  // ---------------------------------------------------------------------------
  // Pagination (pageSize 5)

  /** `Math.max(1, Math.ceil(n / 5))`. */
  function TotalPages(n: nat): (p: nat)
    ensures p >= 1
    ensures n <= 5 * p
    ensures n > 0 ==> 5 * (p - 1) < n
  {
    if n == 0 then 1 else (n + 4) / 5
  }

  /** `clamp(page, 1, totalPages)`. */
  function CurrentPage(page: int, total: nat): (c: int)
    requires total >= 1
    ensures 1 <= c <= total
    ensures 1 <= page <= total ==> c == page
    ensures page < 1 ==> c == 1
    ensures page > total ==> c == total
  {
    if page < 1 then 1 else if page > total then total else page
  }

  /** The page clamp is `clamp` from src/lib/utils.js on whole numbers. */
  lemma CurrentPageIsClamp(page: int, total: nat)
    requires total >= 1
    ensures CurrentPage(page, total) as real == Utils.Clamp(page as real, 1.0, total as real)
  {
  }

  /** `sorted.slice((currentPage - 1) * 5, currentPage * 5)`. */
  function PageRows(rows: seq<Trade>, page: int): (r: seq<Trade>)
    ensures |r| <= 5
    ensures |rows| > 0 ==> r != []
    ensures var cp := CurrentPage(page, TotalPages(|rows|));
      r == rows[5 * (cp - 1)..if 5 * cp <= |rows| then 5 * cp else |rows|]
  {
    var cp := CurrentPage(page, TotalPages(|rows|));
    rows[5 * (cp - 1)..if 5 * cp <= |rows| then 5 * cp else |rows|]
  }

  /** Pages 1 to `k`, one after the other. */
  function Pages(rows: seq<Trade>, k: nat): seq<Trade> {
    if k == 0 then [] else Pages(rows, k - 1) + PageRows(rows, k)
  }

  /** The first `k` pages are the first `5 k` rows. */
  lemma {:induction false} PagesPrefix(rows: seq<Trade>, k: nat)
    requires k <= TotalPages(|rows|)
    ensures Pages(rows, k) == rows[..if 5 * k <= |rows| then 5 * k else |rows|]
  {
    if k > 0 {
      PagesPrefix(rows, k - 1);
      assert CurrentPage(k, TotalPages(|rows|)) == k;
    }
  }

  /** Paging through every page shows every row once, in order. */
  lemma PagesCover(rows: seq<Trade>)
    ensures Pages(rows, TotalPages(|rows|)) == rows
  {
    PagesPrefix(rows, TotalPages(|rows|));
  }

  // ---------------------------------------------------------------------------
  // Sort toggle, indicator and page buttons

  /** `d === "asc" ? "desc" : "asc"`. */
  function Flip(d: StableSort.Dir): (e: StableSort.Dir)
    ensures e != d
  {
    if d == StableSort.Asc then StableSort.Desc else StableSort.Asc
  }

  /** `toggleSort(key)`: the new `(sortKey, sortDir)`. */
  function Toggle(key: Column, sortKey: Column, dir: StableSort.Dir): (Column, StableSort.Dir) {
    if key == sortKey then (sortKey, Flip(dir)) else (key, StableSort.Desc)
  }

  /** Toggling always selects the clicked column; a second click on the same
      column restores the direction, and a new column starts descending and
      then goes ascending. */
  lemma ToggleFacts(key: Column, sortKey: Column, dir: StableSort.Dir)
    ensures Toggle(key, sortKey, dir).0 == key
    ensures key == sortKey ==> Toggle(key, sortKey, dir).1 != dir
    ensures var (k, d) := Toggle(key, sortKey, dir);
      key == sortKey ==> Toggle(key, k, d) == (sortKey, dir)
    ensures var (k, d) := Toggle(key, sortKey, dir);
      key != sortKey ==> d == StableSort.Desc && Toggle(key, k, d) == (key, StableSort.Asc)
  {
  }

  /** `sortIndicator(key)`: a marker only on the active column, up for ascending. */
  function SortIndicator(key: Column, sortKey: Column, dir: StableSort.Dir): (s: string)
    ensures s == [] <==> key != sortKey
  {
    if key != sortKey then "" else if dir == StableSort.Asc then " \U{25B2}" else " \U{25BC}"
  }

  /** Clicking a column header leaves the marker on that column alone, pointing
      the way the rows are now ordered. */
  lemma IndicatorAfterToggle(clicked: Column, other: Column, sortKey: Column, dir: StableSort.Dir)
    requires other != clicked
    ensures var (k, d) := Toggle(clicked, sortKey, dir);
      SortIndicator(other, k, d) == [] &&
      SortIndicator(clicked, k, d) == (if d == StableSort.Asc then " \U{25B2}" else " \U{25BC}")
  {
  }

  /** `setPage((p) => Math.max(1, p - 1))`. */
  function PrevPageOf(page: int): (p: int)
    ensures p >= 1
  {
    if page - 1 >= 1 then page - 1 else 1
  }

  /** `setPage((p) => Math.min(totalPages, p + 1))`. */
  function NextPageOf(page: int, total: nat): (p: int)
    ensures p <= total
  {
    if total <= page + 1 then total else page + 1
  }

  /** While the stored page is within range, "Next" moves the shown page one
      forward unless it is disabled (on the last page), "Prev" one back unless
      it is disabled (on page 1), and the two undo each other. */
  lemma PageButtons(page: int, n: nat)
    requires 1 <= page <= TotalPages(n)
    ensures var total := TotalPages(n);
      var cp := CurrentPage(page, total);
      (cp != total ==> CurrentPage(NextPageOf(page, total), total) == cp + 1) &&
      (cp == total ==> CurrentPage(NextPageOf(page, total), total) == cp) &&
      (cp != 1 ==> CurrentPage(PrevPageOf(page), total) == cp - 1) &&
      (cp == 1 ==> CurrentPage(PrevPageOf(page), total) == 1) &&
      (cp != total ==> PrevPageOf(NextPageOf(page, total)) == page) &&
      (cp != 1 ==> NextPageOf(PrevPageOf(page), total) == page) &&
      1 <= NextPageOf(page, total) <= total && 1 <= PrevPageOf(page) <= total
  {
  }

  /** `pageRows` for the given trades and UI state. */
  function Shown(trades: seq<Trade>, q: string, side: string, sortKey: Column, sortDir: StableSort.Dir, page: int): seq<Trade> {
    PageRows(Sorted(Filtered(trades, q, side), sortKey, sortDir), page)
  }

  /** Sorting keeps exactly the same trades. */
  lemma SortedSameMembers(rows: seq<Trade>, c: Column, dir: StableSort.Dir)
    ensures forall t :: t in Sorted(rows, c, dir) <==> t in rows
  {
    var r := Sorted(rows, c, dir);
    forall t ensures t in r <==> t in rows {
      assert t in r <==> t in multiset(r);
      assert t in rows <==> t in multiset(rows);
    }
  }

  /** A page holds only rows of the list it is cut from. */
  lemma PageRowsWithin(rows: seq<Trade>, page: int)
    ensures forall t :: t in PageRows(rows, page) ==> t in rows
  {
    var cp := CurrentPage(page, TotalPages(|rows|));
    var hi := if 5 * cp <= |rows| then 5 * cp else |rows|;
    forall t | t in PageRows(rows, page) ensures t in rows {
      var k :| 0 <= k < |rows[5 * (cp - 1)..hi]| && rows[5 * (cp - 1)..hi][k] == t;
      assert rows[5 * (cp - 1) + k] == t;
    }
  }

  /** The shown page holds at most five rows, only trades that pass the
      filter, and at least one row whenever some trade passes it. */
  lemma {:induction false} ShownFacts(trades: seq<Trade>, q: string, side: string, sortKey: Column, sortDir: StableSort.Dir, page: int)
    ensures var r := Shown(trades, q, side, sortKey, sortDir, page);
      |r| <= 5 &&
      (forall t :: t in r ==> t in trades && Keeps(t, Query(q), side)) &&
      ((exists t :: t in trades && Keeps(t, Query(q), side)) ==> r != [])
  {
    var f := Filtered(trades, q, side);
    var rows := Sorted(f, sortKey, sortDir);
    KeepWhereMembers(trades, Query(q), side);
    SortedSameMembers(f, sortKey, sortDir);
    PageRowsWithin(rows, page);
    if exists t :: t in trades && Keeps(t, Query(q), side) {
      var t :| t in trades && Keeps(t, Query(q), side);
      assert t in rows;
    }
  }

  /** The table's state: the query, the side filter, the sort column and
      direction, and the stored page. */
  class TableState {
    var q: string
    var side: string
    var sortKey: Column
    var sortDir: StableSort.Dir
    var page: int

    /** The stored page is never below 1. */
    ghost predicate Valid()
      reads this
    {
      page >= 1
    }

    /** `useState("")`, `useState("ALL")`, `useState("ts")`, `useState("desc")`, `useState(1)`. */
    constructor()
      ensures Valid()
      ensures q == "" && side == "ALL" && sortKey == TsCol && sortDir == StableSort.Desc && page == 1
    {
      q := "";
      side := "ALL";
      sortKey := TsCol;
      sortDir := StableSort.Desc;
      page := 1;
    }

    /** Typing a query; the effect on `[q, side]` puts the table back on page 1. */
    method SetQuery(newQ: string)
      modifies this
      ensures Valid()
      ensures q == newQ && page == 1
      ensures side == old(side) && sortKey == old(sortKey) && sortDir == old(sortDir)
    {
      q := newQ;
      page := 1;
    }

    /** Choosing a side; the same effect resets the page. */
    method SetSide(newSide: string)
      modifies this
      ensures Valid()
      ensures side == newSide && page == 1
      ensures q == old(q) && sortKey == old(sortKey) && sortDir == old(sortDir)
    {
      side := newSide;
      page := 1;
    }

    /** `toggleSort(key)`; the page is kept. */
    method ToggleSort(key: Column)
      requires Valid()
      modifies this
      ensures Valid()
      ensures (sortKey, sortDir) == Toggle(key, old(sortKey), old(sortDir))
      ensures q == old(q) && side == old(side) && page == old(page)
    {
      if key == sortKey {
        sortDir := Flip(sortDir);
      } else {
        sortKey := key;
        sortDir := StableSort.Desc;
      }
    }

    /** The "Prev" button. */
    method PrevPage()
      requires Valid()
      modifies this
      ensures Valid()
      ensures page == PrevPageOf(old(page))
      ensures q == old(q) && side == old(side) && sortKey == old(sortKey) && sortDir == old(sortDir)
    {
      page := if page - 1 >= 1 then page - 1 else 1;
    }

    /** The "Next" button, when the filtered list has `n` rows. */
    method NextPage(n: nat)
      requires Valid()
      modifies this
      ensures Valid()
      ensures page == NextPageOf(old(page), TotalPages(n))
      ensures q == old(q) && side == old(side) && sortKey == old(sortKey) && sortDir == old(sortDir)
    {
      var total := TotalPages(n);
      page := if total <= page + 1 then total else page + 1;
    }

    /** The rows of the shown page, for the trades the table works on. */
    function View(trades: seq<Trade>): seq<Trade>
      reads this
    {
      Shown(trades, q, side, sortKey, sortDir, page)
    }
  }
}
