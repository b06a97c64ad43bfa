/** The paged and filtered log of an organization's messages, each with its latest attempt. */
module WebhookLogs {
  import opened AttemptStore

  datatype LogRow = LogRow(id: nat, org: nat, url: string, status: string, createdAt: int)

  /** A condition of the WHERE clause; n is the number of its placeholder $n. */
  datatype Condition = OrgIs(n: nat) | StatusIs(n: nat) | UrlLike(n: nat)

  datatype Arg = OrgArg(org: nat) | TextArg(text: string) | CountArg(count: int)

  datatype Query = Query(conditions: seq<Condition>, args: seq<Arg>, limitAt: nat, offsetAt: nat)

  /** A message with the status code, the duration and the time shown for it. */
  datatype LogEntry = LogEntry(row: LogRow, code: int, ms: int, attemptedAt: int)

  datatype LogsResult = LogsResult(data: seq<LogEntry>, total: nat, page: int, limit: int, totalPages: int)

  /** What the request asks for; `like` is the database's ILIKE. */
  predicate Wanted(row: LogRow, org: nat, status: string, search: string, like: (string, string) -> bool) {
    && row.org == org
    && (status != "" ==> row.status == status)
    && (search != "" ==> like(row.url, "%" + search + "%"))
  }

  /** A condition under the positional arguments; false when its placeholder has no argument of its kind. */
  predicate Satisfies(row: LogRow, c: Condition, args: seq<Arg>, like: (string, string) -> bool) {
    1 <= c.n <= |args| &&
    match c
    case OrgIs(n) => args[n - 1].OrgArg? && row.org == args[n - 1].org
    case StatusIs(n) => args[n - 1].TextArg? && row.status == args[n - 1].text
    case UrlLike(n) => args[n - 1].TextArg? && like(row.url, args[n - 1].text)
  }

  predicate Selected(row: LogRow, q: Query, like: (string, string) -> bool) {
    forall i :: 0 <= i < |q.conditions| ==> Satisfies(row, q.conditions[i], q.args, like)
  }

  /** The clause and its arguments are grown side by side; the numbering never slips, so the
      query selects what was wanted and its last two placeholders are the limit and the offset. */
  method BuildQuery(org: nat, status: string, search: string, limit: int, offset: int) returns (q: Query)
    ensures forall row, like :: Selected(row, q, like) <==> Wanted(row, org, status, search, like)
    ensures 1 <= q.limitAt <= |q.args| && q.args[q.limitAt - 1] == CountArg(limit)
    ensures 1 <= q.offsetAt <= |q.args| && q.args[q.offsetAt - 1] == CountArg(offset)
  {
    var conditions := [OrgIs(1)];
    var args := [OrgArg(org)];
    var argIdx := 2;
    if status != "" {
      conditions := conditions + [StatusIs(argIdx)];
      args := args + [TextArg(status)];
      argIdx := argIdx + 1;
    }
    if search != "" {
      conditions := conditions + [UrlLike(argIdx)];
      args := args + [TextArg("%" + search + "%")];
      argIdx := argIdx + 1;
    }
    args := args + [CountArg(limit), CountArg(offset)];
    q := Query(conditions, args, argIdx, argIdx + 1);
    forall row, like ensures Selected(row, q, like) <==> Wanted(row, org, status, search, like) {
      assert q.conditions[0] == OrgIs(1) && q.args[0] == OrgArg(org);
      if status != "" { assert q.conditions[1] == StatusIs(2) && q.args[1] == TextArg(status); }
      if search != "" {
        var last := |q.conditions| - 1;
        assert q.conditions[last] == UrlLike(last + 1) && q.args[last] == TextArg("%" + search + "%");
      }
    }
  }

  /** By falling time of creation. */
  predicate Falling(rows: seq<LogRow>) {
    forall i, j :: 0 <= i < j < |rows| ==> rows[i].createdAt >= rows[j].createdAt
  }

  /** The wanted rows as `ORDER BY created_at DESC` may give them: each as often as it is stored,
      the newest first, rows of the same moment in any order. */
  ghost predicate IsListing(all: seq<LogRow>, rows: seq<LogRow>, keep: LogRow -> bool) {
    && Falling(all)
    && forall row :: multiset(all)[row] == if keep(row) then multiset(rows)[row] else 0
  }

  /** No two rows were created at the same moment. */
  ghost predicate Distinct(rows: seq<LogRow>) {
    forall i, j :: 0 <= i < j < |rows| ==> rows[i].createdAt != rows[j].createdAt
  }

  /** How many wanted rows are newer than this one. */
  ghost function Rank(rows: seq<LogRow>, keep: LogRow -> bool, row: LogRow): nat {
    |set x | x in rows && keep(x) && x.createdAt > row.createdAt|
  }

  function Min(a: int, b: int): int {
    if a <= b then a else b
  }

  /** `LIMIT limit OFFSET (page - 1) * limit`. */
  function PageOf(rows: seq<LogRow>, page: int, limit: int): seq<LogRow>
    requires 1 <= page && 1 <= limit
  {
    var from := Min((page - 1) * limit, |rows|);
    var to := Min(page * limit, |rows|);
    OffsetInRange(page, limit);
    rows[from..to]
  }

  lemma OffsetInRange(page: int, limit: int)
    requires 1 <= page && 1 <= limit
    ensures 0 <= (page - 1) * limit && page * limit == (page - 1) * limit + limit
  {
  }

  /** The entry for a row joined with a highest-numbered attempt, or with none. */
  ghost predicate EntryShows(row: LogRow, attempts: seq<Attempt>, e: LogEntry) {
    && e.row == row
    && if attempts == [] then e.code == 0 && e.ms == 0 && e.attemptedAt == row.createdAt
       else exists i :: 0 <= i < |attempts| && IsHighest(attempts, i)
              && e.code == attempts[i].code.GetOr(0) && e.ms == attempts[i].ms && e.attemptedAt == attempts[i].at
  }

  /** The code of an entry is what the dashboard is said to show. */
  lemma EntryShowsCode(row: LogRow, attempts: seq<Attempt>, e: LogEntry)
    requires EntryShows(row, attempts, e)
    ensures Shows(attempts, e.code)
  {
  }

  ghost predicate EntriesShow(rows: seq<LogRow>, log: AttemptLog, entries: seq<LogEntry>) {
    && |entries| == |rows|
    && forall i :: 0 <= i < |rows| ==> EntryShows(rows[i], AttemptsOf(log, rows[i].id), entries[i])
  }

  /** A row joined with the attempt that ordering by falling number puts first. */
  method JoinLatest(row: LogRow, attempts: seq<Attempt>) returns (e: LogEntry)
    ensures EntryShows(row, attempts, e)
    ensures attempts == [] ==> e == LogEntry(row, 0, 0, row.createdAt)
    ensures attempts != [] ==> exists i ::
      && 0 <= i < |attempts| && (forall j :: 0 <= j < |attempts| ==> attempts[j].number <= attempts[i].number)
      && var code := if attempts[i].code.Some? then attempts[i].code.value else 0;
         e == LogEntry(row, code, attempts[i].ms, attempts[i].at)
  {
    if attempts == [] { return LogEntry(row, 0, 0, row.createdAt); }
    var latest := 0;
    for i := 1 to |attempts|
      invariant latest < i <= |attempts|
      invariant forall j :: 0 <= j < i ==> attempts[j].number <= attempts[latest].number
    {
      if attempts[i].number > attempts[latest].number { latest := i; }
    }
    assert IsHighest(attempts, latest);
    return LogEntry(row, attempts[latest].code.GetOr(0), attempts[latest].ms, attempts[latest].at);
  }

  function TotalPages(total: nat, limit: int): int
    requires 1 <= limit
  {
    (total + limit - 1) / limit
  }

  lemma ListingHas(all: seq<LogRow>, rows: seq<LogRow>, keep: LogRow -> bool)
    requires IsListing(all, rows, keep)
    ensures forall row :: row in all <==> row in rows && keep(row)
  {
    forall row ensures row in all <==> row in rows && keep(row) {
      assert row in all <==> multiset(all)[row] > 0;
      assert row in rows <==> multiset(rows)[row] > 0;
    }
  }

  lemma OnceEach(rows: seq<LogRow>, i: nat, j: nat)
    requires i < j < |rows| && rows[i] == rows[j]
    ensures multiset(rows)[rows[i]] >= 2
  {
    assert rows == rows[..i] + [rows[i]] + rows[i + 1..j] + [rows[j]] + rows[j + 1..];
  }

  lemma {:induction false} DistinctOnce(rows: seq<LogRow>, row: LogRow)
    requires Distinct(rows)
    ensures multiset(rows)[row] <= 1
  {
    if rows != [] {
      var init, last := rows[..|rows| - 1], rows[|rows| - 1];
      DistinctOnce(init, row);
      assert rows == init + [last];
      if row == last { assert last !in init by { assert forall i :: 0 <= i < |init| ==> rows[i].createdAt != last.createdAt; } }
    }
  }

  /** With distinct times the listing is strictly falling. */
  lemma StrictlyFalling(all: seq<LogRow>, rows: seq<LogRow>, keep: LogRow -> bool, i: nat, j: nat)
    requires IsListing(all, rows, keep) && Distinct(rows) && i < j < |all|
    ensures all[i].createdAt > all[j].createdAt
  {
    ListingHas(all, rows, keep);
    if all[i].createdAt == all[j].createdAt {
      var a, b := all[i], all[j];
      assert a in rows && b in rows;
      var k :| 0 <= k < |rows| && rows[k] == a;
      var l :| 0 <= l < |rows| && rows[l] == b;
      assert k == l;
      OnceEach(all, i, j);
      DistinctOnce(rows, a);
      assert false;
    }
  }

  function RowSet(rows: seq<LogRow>): set<LogRow> {
    set x | x in rows
  }

  lemma {:induction false} PrefixSize(all: seq<LogRow>, n: nat)
    requires n <= |all| && forall i, j :: 0 <= i < j < |all| ==> all[i].createdAt > all[j].createdAt
    ensures |RowSet(all[..n])| == n
  {
    if n > 0 {
      PrefixSize(all, n - 1);
      assert all[..n] == all[..n - 1] + [all[n - 1]];
      assert RowSet(all[..n]) == RowSet(all[..n - 1]) + {all[n - 1]};
      assert all[n - 1] !in all[..n - 1];
    }
  }

  /** The place of a row in the listing is its rank. */
  lemma RankIsIndex(all: seq<LogRow>, rows: seq<LogRow>, keep: LogRow -> bool, i: nat)
    requires IsListing(all, rows, keep) && Distinct(rows) && i < |all|
    ensures Rank(rows, keep, all[i]) == i
  {
    ListingHas(all, rows, keep);
    forall k, l | 0 <= k < l < |all| ensures all[k].createdAt > all[l].createdAt {
      StrictlyFalling(all, rows, keep, k, l);
    }
    PrefixSize(all, i);
    var newer := set x | x in rows && keep(x) && x.createdAt > all[i].createdAt;
    forall x ensures x in newer <==> x in all[..i] {
      if x in newer { var k :| 0 <= k < |all| && all[k] == x; assert k < i; assert all[..i][k] == x; }
    }
    assert newer == RowSet(all[..i]);
  }

  ghost predicate InEntries(data: seq<LogEntry>, row: LogRow) {
    exists k :: 0 <= k < |data| && data[k].row == row
  }

  lemma RanksInPage(all: seq<LogRow>, rows: seq<LogRow>, keep: LogRow -> bool, page: int, limit: int,
                    log: AttemptLog, data: seq<LogEntry>, i: nat)
    requires IsListing(all, rows, keep) && Distinct(rows) && 1 <= page && 1 <= limit && i < |all|
    requires EntriesShow(PageOf(all, page, limit), log, data) && (page - 1) * limit <= i < page * limit
    ensures InEntries(data, all[i])
  {
    OffsetInRange(page, limit);
    var from := Min((page - 1) * limit, |all|);
    assert PageOf(all, page, limit)[i - from] == all[i];
    assert data[i - from].row == all[i];
  }

  lemma PageHasRanks(all: seq<LogRow>, page: int, limit: int, log: AttemptLog, data: seq<LogEntry>, k: nat)
    requires 1 <= page && 1 <= limit && EntriesShow(PageOf(all, page, limit), log, data) && k < |data|
    ensures 0 <= (page - 1) * limit + k < page * limit && (page - 1) * limit + k < |all|
    ensures data[k].row == all[(page - 1) * limit + k]
  {
    OffsetInRange(page, limit);
    assert data[k].row == PageOf(all, page, limit)[k];
  }

  lemma InPageIsRanked(all: seq<LogRow>, rows: seq<LogRow>, keep: LogRow -> bool, page: int, limit: int,
                       log: AttemptLog, data: seq<LogEntry>, row: LogRow)
    requires IsListing(all, rows, keep) && Distinct(rows) && 1 <= page && 1 <= limit
    requires EntriesShow(PageOf(all, page, limit), log, data) && InEntries(data, row)
    ensures row in all && (page - 1) * limit <= Rank(rows, keep, row) < page * limit
  {
    var k :| 0 <= k < |data| && data[k].row == row;
    PageHasRanks(all, page, limit, log, data, k);
    RankIsIndex(all, rows, keep, (page - 1) * limit + k);
  }

  lemma RankedIsInPage(all: seq<LogRow>, rows: seq<LogRow>, keep: LogRow -> bool, page: int, limit: int,
                       log: AttemptLog, data: seq<LogEntry>, row: LogRow)
    requires IsListing(all, rows, keep) && Distinct(rows) && 1 <= page && 1 <= limit
    requires EntriesShow(PageOf(all, page, limit), log, data)
    requires row in all && (page - 1) * limit <= Rank(rows, keep, row) < page * limit
    ensures InEntries(data, row)
  {
    var i :| 0 <= i < |all| && all[i] == row;
    RankIsIndex(all, rows, keep, i);
    RanksInPage(all, rows, keep, page, limit, log, data, i);
  }

  predicate RankInPage(rank: nat, page: int, limit: int) {
    (page - 1) * limit <= rank < page * limit
  }

  lemma PageByRank(all: seq<LogRow>, rows: seq<LogRow>, keep: LogRow -> bool, page: int, limit: int,
                   log: AttemptLog, data: seq<LogEntry>, row: LogRow)
    requires IsListing(all, rows, keep) && Distinct(rows) && 1 <= page && 1 <= limit
    requires EntriesShow(PageOf(all, page, limit), log, data)
    ensures InEntries(data, row) <==> row in rows && keep(row) && RankInPage(Rank(rows, keep, row), page, limit)
  {
    ListingHas(all, rows, keep);
    if InEntries(data, row) { InPageIsRanked(all, rows, keep, page, limit, log, data, row); }
    if row in all && RankInPage(Rank(rows, keep, row), page, limit) {
      RankedIsInPage(all, rows, keep, page, limit, log, data, row);
    }
  }

  /** A page of a falling list is falling. */
  lemma PageFalls(all: seq<LogRow>, page: int, limit: int, log: AttemptLog, data: seq<LogEntry>)
    requires 1 <= page && 1 <= limit && Falling(all) && EntriesShow(PageOf(all, page, limit), log, data)
    ensures forall i, j :: 0 <= i < j < |data| ==> data[i].row.createdAt >= data[j].row.createdAt
  {
    forall i, j | 0 <= i < j < |data| ensures data[i].row.createdAt >= data[j].row.createdAt {
      PageHasRanks(all, page, limit, log, data, i);
      PageHasRanks(all, page, limit, log, data, j);
    }
  }

  lemma {:induction false} ListingSize(all: seq<LogRow>, rows: seq<LogRow>, keep: LogRow -> bool)
    requires IsListing(all, rows, keep) && Distinct(rows)
    ensures |all| == |set x | x in rows && keep(x)|
  {
    ListingHas(all, rows, keep);
    forall k, l | 0 <= k < l < |all| ensures all[k].createdAt > all[l].createdAt {
      StrictlyFalling(all, rows, keep, k, l);
    }
    PrefixSize(all, |all|);
    assert all[..|all|] == all;
    assert (set x | x in rows && keep(x)) == RowSet(all);
  }

  /** A result is its page of a listing. */
  ghost predicate IsPage(r: LogsResult, all: seq<LogRow>, log: AttemptLog) {
    && 1 <= r.page && 1 <= r.limit
    && r.total == |all| && r.totalPages == TotalPages(|all|, r.limit)
    && EntriesShow(PageOf(all, r.page, r.limit), log, r.data)
  }

  /** The stored messages, in any order, and their attempts. */
  class LogTable {
    var rows: seq<LogRow>
    var log: AttemptLog

    constructor ()
      ensures rows == [] && log == map[]
    {
      rows := [];
      log := map[];
    }

    /** With distinct times of creation the page holds exactly the wanted rows of its ranks. */
    method FindWebhookLogs(org: nat, status: string, search: string, page: int, limit: int, like: (string, string) -> bool)
      returns (r: LogsResult)
      ensures r.page == if page < 1 then 1 else page
      ensures r.limit == if limit < 1 then 20 else limit
      ensures exists all :: IsListing(all, rows, row => Wanted(row, org, status, search, like)) && IsPage(r, all, log)
      ensures forall i, j :: 0 <= i < j < |r.data| ==> r.data[i].row.createdAt >= r.data[j].row.createdAt
      ensures var keep := (row: LogRow) =>
          row.org == org && (status != "" ==> row.status == status) && (search != "" ==> like(row.url, "%" + search + "%"));
        Distinct(rows) ==>
          && r.total == |set x | x in rows && keep(x)|
          && forall row :: InEntries(r.data, row) <==>
               row in rows && keep(row) && (r.page - 1) * r.limit <= Rank(rows, keep, row) < r.page * r.limit
    {
      var p := if page < 1 then 1 else page;
      var l := if limit < 1 then 20 else limit;
      var offset := (p - 1) * l;
      var q := BuildQuery(org, status, search, l, offset);
      var selected := SelectNewestFirst(q, org, status, search, like);
      var total := |selected|;
      var totalPages := 0;
      if total > 0 {
        totalPages := (total + l - 1) / l;
      }
      var entries := TakePage(selected, log, p, l);
      NoPagesWhenEmpty(total, l);
      r := LogsResult(entries, total, p, l, totalPages);
      assert IsPage(r, selected, log);
      PageFalls(selected, p, l, log, entries);
      if Distinct(rows) { ByRank(selected, rows, org, status, search, like, p, l, log, entries); }
    }

    method SelectNewestFirst(q: Query, org: nat, status: string, search: string, like: (string, string) -> bool)
      returns (selected: seq<LogRow>)
      requires forall row :: Selected(row, q, like) <==> Wanted(row, org, status, search, like)
      ensures IsListing(selected, rows, row => Wanted(row, org, status, search, like))
    {
      ghost var keep := row => Wanted(row, org, status, search, like);
      selected := [];
      for i := 0 to |rows|
        invariant IsListing(selected, rows[..i], keep)
      {
        assert rows[..i + 1] == rows[..i] + [rows[i]];
        if Selected(rows[i], q, like) {
          selected := PlaceByTime(selected, rows[i]);
        }
      }
      assert rows[..|rows|] == rows;
    }

    /** A row goes behind those created no earlier. */
    static method PlaceByTime(sorted: seq<LogRow>, row: LogRow) returns (more: seq<LogRow>)
      requires Falling(sorted)
      ensures Falling(more) && multiset(more) == multiset(sorted) + multiset{row}
    {
      var i := 0;
      while i < |sorted| && sorted[i].createdAt >= row.createdAt
        invariant 0 <= i <= |sorted|
        invariant forall j :: 0 <= j < i ==> sorted[j].createdAt >= row.createdAt
      {
        i := i + 1;
      }
      assert i < |sorted| ==> sorted[i].createdAt < row.createdAt;
      assert sorted == sorted[..i] + sorted[i..];
      more := sorted[..i] + [row] + sorted[i..];
    }

    /** Scans at most `limit` rows from the offset on, each joined with its latest attempt. */
    static method TakePage(selected: seq<LogRow>, log: AttemptLog, page: int, limit: int) returns (entries: seq<LogEntry>)
      requires 1 <= page && 1 <= limit
      ensures EntriesShow(PageOf(selected, page, limit), log, entries)
    {
      OffsetInRange(page, limit);
      var from := Min((page - 1) * limit, |selected|);
      var at := from;
      entries := [];
      while at < |selected| && |entries| < limit
        invariant from <= at <= |selected| && |entries| == at - from <= limit
        invariant EntriesShow(selected[from..at], log, entries)
      {
        assert selected[from..at + 1] == selected[from..at] + [selected[at]];
        var entry := JoinLatest(selected[at], AttemptsOf(log, selected[at].id));
        entries := entries + [entry];
        at := at + 1;
      }
      assert at == Min(from + limit, |selected|) == Min(page * limit, |selected|);
    }
  }

  lemma ByRank(all: seq<LogRow>, rows: seq<LogRow>, org: nat, status: string, search: string,
               like: (string, string) -> bool, page: int, limit: int, log: AttemptLog, data: seq<LogEntry>)
    requires Distinct(rows) && 1 <= page && 1 <= limit
    requires IsListing(all, rows, row => Wanted(row, org, status, search, like))
    requires EntriesShow(PageOf(all, page, limit), log, data)
    ensures var keep := (row: LogRow) =>
        row.org == org && (status != "" ==> row.status == status) && (search != "" ==> like(row.url, "%" + search + "%"));
      && |all| == |set x | x in rows && keep(x)|
      && forall row :: InEntries(data, row) <==>
           row in rows && keep(row) && (page - 1) * limit <= Rank(rows, keep, row) < page * limit
  {
    var keep := (row: LogRow) =>
      row.org == org && (status != "" ==> row.status == status) && (search != "" ==> like(row.url, "%" + search + "%"));
    assert IsListing(all, rows, keep);
    ListingSize(all, rows, keep);
    forall row ensures InEntries(data, row) <==>
      row in rows && keep(row) && (page - 1) * limit <= Rank(rows, keep, row) < page * limit
    {
      PageByRank(all, rows, keep, page, limit, log, data, row);
    }
  }

  lemma NoPagesWhenEmpty(total: nat, limit: int)
    requires 1 <= limit
    ensures total == 0 ==> TotalPages(total, limit) == 0
  {
  }

  /** Pages 1..n in order. */
  function PagesUpTo(rows: seq<LogRow>, n: nat, limit: int): seq<LogRow>
    requires 1 <= limit
  {
    if n == 0 then [] else PagesUpTo(rows, n - 1, limit) + PageOf(rows, n, limit)
  }

  lemma {:induction false} PagesArePrefix(rows: seq<LogRow>, n: nat, limit: int)
    requires 1 <= limit
    ensures 0 <= n * limit
    ensures PagesUpTo(rows, n, limit) == rows[..Min(n * limit, |rows|)]
  {
    if n > 0 {
      PagesArePrefix(rows, n - 1, limit);
      OffsetInRange(n, limit);
    }
  }

  lemma TotalPagesBounds(total: nat, limit: int)
    requires 1 <= limit
    ensures 0 <= TotalPages(total, limit)
    ensures var n := TotalPages(total, limit);
      (n - 1) * limit < total <= n * limit || (total == 0 && n == 0)
  {
    var t := TotalPages(total, limit);
    assert t * limit <= total + limit - 1 < t * limit + limit;
    assert (t - 1) * limit == t * limit - limit;
    if t < 0 { Times(t, -1, limit); }
    if t > 0 && total == 0 { Times(1, t, limit); }
  }

  lemma Times(a: int, b: int, c: int)
    requires a <= b && 0 <= c
    ensures a * c <= b * c
  {
  }

  /** The pages put together are the filtered list, with no gap and no repeat; the last page
      is not empty and every later page is. */
  lemma PagesPartition(rows: seq<LogRow>, limit: int, page: int)
    requires 1 <= limit && 1 <= page
    ensures 0 <= TotalPages(|rows|, limit) && PagesUpTo(rows, TotalPages(|rows|, limit), limit) == rows
    ensures page < TotalPages(|rows|, limit) ==> |PageOf(rows, page, limit)| == limit
    ensures page == TotalPages(|rows|, limit) ==> PageOf(rows, page, limit) != []
    ensures page > TotalPages(|rows|, limit) ==> PageOf(rows, page, limit) == []
  {
    var t := TotalPages(|rows|, limit);
    TotalPagesBounds(|rows|, limit);
    PagesArePrefix(rows, t, limit);
    OffsetInRange(page, limit);
    if page < t {
      Times(page, t - 1, limit);
    } else if page > t {
      Times(t, page - 1, limit);
    }
  }
}
