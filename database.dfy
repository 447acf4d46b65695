// The application database: which commits have been processed, and a small
// key/value table of application state.
//
// The `processed_commits` table is a sequence of rows in insertion order,
// unique on (repository, sha, process type). `available` is false when the
// database cannot be opened; then every call takes its SQLite error branch.
module Database {
  import opened Wrappers
  import opened Lists
  import Clock

  /** A row of `processed_commits`. */
  datatype Row = Row(
    repo: string, sha: string, kind: string, processedAt: Clock.Time,
    entryPath: Option<string>, provider: Option<string>, prompt: Option<string>)

  /** The UNIQUE(repo_name, commit_sha, process_type) constraint. */
  ghost predicate UniqueTriples(rows: seq<Row>)
  {
    forall i, j | 0 <= i < j < |rows| ::
      !(rows[i].repo == rows[j].repo && rows[i].sha == rows[j].sha && rows[i].kind == rows[j].kind)
  }

  predicate SameCommit(r: Row, repo: string, sha: string)
  {
    r.repo == repo && r.sha == sha
  }

  /**
   * The query of `is_commit_processed`: with type "any" some row of the commit
   * exists, with any other type the exact (repository, sha, type) row exists.
   */
  predicate Processed(rows: seq<Row>, repo: string, sha: string, kind: string)
  {
    exists i | 0 <= i < |rows| :: SameCommit(rows[i], repo, sha) && (kind == "any" || rows[i].kind == kind)
  }

  /** `INSERT OR REPLACE`: the row with the same triple, if any, is deleted and the new row appended. */
  function Mark(rows: seq<Row>, row: Row): (r: seq<Row>)
  {
    Filter(rows, (x: Row) => !(SameCommit(x, row.repo, row.sha) && x.kind == row.kind)) + [row]
  }

  /**
   * The DELETE of `mark_commit_unprocessed`: type "both" deletes every row of
   * the commit, any other type only the row of that type.
   */
  function Unmark(rows: seq<Row>, repo: string, sha: string, kind: string): (r: seq<Row>)
  {
    if kind == "both" then Filter(rows, (x: Row) => !SameCommit(x, repo, sha))
    else Filter(rows, (x: Row) => !(SameCommit(x, repo, sha) && x.kind == kind))
  }

  // ------------------------------------------------------------ properties of marking

  /** After marking, the commit is processed for that type and for "any". */
  lemma {:induction false} MarkedIsProcessed(rows: seq<Row>, row: Row)
    ensures Processed(Mark(rows, row), row.repo, row.sha, row.kind)
    ensures Processed(Mark(rows, row), row.repo, row.sha, "any")
  {
    var r := Mark(rows, row);
    assert r[|r| - 1] == row;
  }

  /** Marking never makes a processed commit unprocessed, for "any" type. */
  lemma {:induction false} MarkKeepsProcessed(rows: seq<Row>, row: Row, repo: string, sha: string)
    requires Processed(rows, repo, sha, "any")
    ensures Processed(Mark(rows, row), repo, sha, "any")
  {
    var r := Mark(rows, row);
    var i :| 0 <= i < |rows| && SameCommit(rows[i], repo, sha);
    var p := (x: Row) => !(SameCommit(x, row.repo, row.sha) && x.kind == row.kind);
    if p(rows[i]) {
      assert rows[i] in Filter(rows, p);
      var j :| 0 <= j < |Filter(rows, p)| && Filter(rows, p)[j] == rows[i];
      assert r[j] == rows[i];
    } else {
      assert r[|r| - 1] == row;
    }
  }

  /** Marking keeps the UNIQUE constraint, and leaves exactly one row for the triple. */
  lemma {:induction false} MarkKeepsUnique(rows: seq<Row>, row: Row)
    requires UniqueTriples(rows)
    ensures UniqueTriples(Mark(rows, row))
    ensures |Mark(rows, row)| <= |rows| + 1
  {
    var p := (x: Row) => !(SameCommit(x, row.repo, row.sha) && x.kind == row.kind);
    FilterKeepsUnique(rows, p);
  }

  /** Leaving rows out keeps the UNIQUE constraint. */
  lemma {:induction false} FilterKeepsUnique(rows: seq<Row>, p: Row -> bool)
    requires UniqueTriples(rows)
    ensures UniqueTriples(Filter(rows, p))
    decreases |rows|
  {
    if rows != [] {
      FilterKeepsUnique(rows[1..], p);
      var rest := Filter(rows[1..], p);
      if p(rows[0]) {
        HeadDiffers(rows);
        forall k | 0 <= k < |rest|
          ensures !(rows[0].repo == rest[k].repo && rows[0].sha == rest[k].sha && rows[0].kind == rest[k].kind)
        {
          assert rest[k] in rows[1..];
        }
        ConsUnique(rows[0], rest);
      }
    }
  }

  /** Under the UNIQUE constraint, no later row repeats the first row's triple. */
  lemma {:induction false} HeadDiffers(rows: seq<Row>)
    requires rows != [] && UniqueTriples(rows)
    ensures forall y | y in rows[1..] :: !(rows[0].repo == y.repo && rows[0].sha == y.sha && rows[0].kind == y.kind)
  {
    forall y | y in rows[1..]
      ensures !(rows[0].repo == y.repo && rows[0].sha == y.sha && rows[0].kind == y.kind)
    {
      var j :| 0 <= j < |rows| - 1 && rows[1..][j] == y;
      assert rows[j + 1] == y;
    }
  }

  /** A row whose triple no other row has can go in front. */
  lemma {:induction false} ConsUnique(x: Row, rest: seq<Row>)
    requires UniqueTriples(rest)
    requires forall k | 0 <= k < |rest| :: !(x.repo == rest[k].repo && x.sha == rest[k].sha && x.kind == rest[k].kind)
    ensures UniqueTriples([x] + rest)
  {
    var r := [x] + rest;
    forall i, j | 0 <= i < j < |r|
      ensures !(r[i].repo == r[j].repo && r[i].sha == r[j].sha && r[i].kind == r[j].kind)
    {
      if i == 0 {
        assert r[j] == rest[j - 1];
      } else {
        assert r[i] == rest[i - 1] && r[j] == rest[j - 1];
      }
    }
  }

  /** Marking the same triple again changes nothing but the stored row: the set of processed triples stays. */
  lemma {:induction false} MarkIdempotent(rows: seq<Row>, row: Row, again: Row)
    requires again.repo == row.repo && again.sha == row.sha && again.kind == row.kind
    ensures Mark(Mark(rows, row), again) == Mark(rows, row)[..|Mark(rows, row)| - 1] + [again]
    ensures forall repo, sha, kind :: Processed(Mark(Mark(rows, row), again), repo, sha, kind) == Processed(Mark(rows, row), repo, sha, kind)
  {
    var p := (x: Row) => !(SameCommit(x, row.repo, row.sha) && x.kind == row.kind);
    var once := Mark(rows, row);
    FilterAllKept(Filter(rows, p), p);
    assert Filter(once, p) == Filter(Filter(rows, p), p) by {
      FilterAppend(Filter(rows, p), [row], p);
    }
    forall repo, sha, kind
      ensures Processed(Mark(once, again), repo, sha, kind) == Processed(once, repo, sha, kind)
    {
      var twice := Mark(once, again);
      if Processed(once, repo, sha, kind) {
        var i :| 0 <= i < |once| && SameCommit(once[i], repo, sha) && (kind == "any" || once[i].kind == kind);
        if i == |once| - 1 {
          assert twice[|twice| - 1] == again;
        } else {
          assert twice[i] == once[i];
        }
      }
      if Processed(twice, repo, sha, kind) {
        var i :| 0 <= i < |twice| && SameCommit(twice[i], repo, sha) && (kind == "any" || twice[i].kind == kind);
        if i == |twice| - 1 {
          assert once[|once| - 1] == row;
        } else {
          assert once[i] == twice[i];
        }
      }
    }
  }

  /** After unmarking "both", the commit is processed for no type. */
  lemma {:induction false} UnmarkBothClears(rows: seq<Row>, repo: string, sha: string, kind: string)
    ensures !Processed(Unmark(rows, repo, sha, "both"), repo, sha, kind)
  {
  }

  /** Unmarking one type removes that type. */
  lemma {:induction false} UnmarkRemovesType(rows: seq<Row>, repo: string, sha: string, kind: string)
    requires kind != "both" && kind != "any"
    ensures !Processed(Unmark(rows, repo, sha, kind), repo, sha, kind)
  {
    var p := (x: Row) => !(SameCommit(x, repo, sha) && x.kind == kind);
    var r := Unmark(rows, repo, sha, kind);
    assert r == Filter(rows, p);
    forall j | 0 <= j < |r|
      ensures !(SameCommit(r[j], repo, sha) && r[j].kind == kind)
    {
      assert p(r[j]);
    }
  }

  /**
   * Unmarking one type leaves the other types as they were: a commit marked
   * "both" and then unmarked "message" is still processed.
   */
  lemma {:induction false} UnmarkKeepsOtherTypes(rows: seq<Row>, repo: string, sha: string, kind: string, other: string)
    requires kind != "both" && other != kind && other != "any"
    ensures Processed(Unmark(rows, repo, sha, kind), repo, sha, other) == Processed(rows, repo, sha, other)
  {
    var p := (x: Row) => !(SameCommit(x, repo, sha) && x.kind == kind);
    var r := Unmark(rows, repo, sha, kind);
    assert r == Filter(rows, p);
    if Processed(rows, repo, sha, other) {
      var i :| 0 <= i < |rows| && SameCommit(rows[i], repo, sha) && rows[i].kind == other;
      assert p(rows[i]);
      var j :| 0 <= j < |r| && r[j] == rows[i];
      assert Processed(r, repo, sha, other);
    }
    if Processed(r, repo, sha, other) {
      var j :| 0 <= j < |r| && SameCommit(r[j], repo, sha) && r[j].kind == other;
      var i :| 0 <= i < |rows| && rows[i] == r[j];
      assert Processed(rows, repo, sha, other);
    }
  }

  // ------------------------------------------------------------ the listing

  /** `ORDER BY processed_at DESC`: a row goes before the first row that is not newer. */
  function InsertByTime(row: Row, sorted: seq<Row>): (r: seq<Row>)
    ensures multiset(r) == multiset(sorted) + multiset{row}
  {
    if sorted == [] || sorted[0].processedAt <= row.processedAt then [row] + sorted
    else
      assert sorted == [sorted[0]] + sorted[1..];
      [sorted[0]] + InsertByTime(row, sorted[1..])
  }

  /** The rows newest first; among rows of the same instant the later insertion comes first. */
  function NewestFirst(rows: seq<Row>): (r: seq<Row>)
    ensures multiset(r) == multiset(rows)
  {
    if rows == [] then []
    else
      assert rows == rows[..|rows| - 1] + [rows[|rows| - 1]];
      InsertByTime(rows[|rows| - 1], NewestFirst(rows[..|rows| - 1]))
  }

  ghost predicate NewestFirstOrder(rows: seq<Row>)
  {
    forall i, j | 0 <= i < j < |rows| :: rows[i].processedAt >= rows[j].processedAt
  }

  /** Inserting a row no newer than `t` among rows no newer than `t` keeps every row no newer than `t`. */
  lemma {:induction false} InsertBounded(row: Row, sorted: seq<Row>, t: Clock.Time)
    requires row.processedAt <= t
    requires forall k | 0 <= k < |sorted| :: sorted[k].processedAt <= t
    ensures forall k | 0 <= k < |InsertByTime(row, sorted)| :: InsertByTime(row, sorted)[k].processedAt <= t
    decreases |sorted|
  {
    if !(sorted == [] || sorted[0].processedAt <= row.processedAt) {
      InsertBounded(row, sorted[1..], t);
    }
  }

  lemma {:induction false} InsertKeepsOrder(row: Row, sorted: seq<Row>)
    requires NewestFirstOrder(sorted)
    ensures NewestFirstOrder(InsertByTime(row, sorted))
    decreases |sorted|
  {
    if !(sorted == [] || sorted[0].processedAt <= row.processedAt) {
      var rest := sorted[1..];
      InsertKeepsOrder(row, rest);
      assert forall k | 0 <= k < |rest| :: rest[k].processedAt <= sorted[0].processedAt by {
        forall k | 0 <= k < |rest| ensures rest[k].processedAt <= sorted[0].processedAt {
          assert rest[k] == sorted[k + 1];
        }
      }
      InsertBounded(row, rest, sorted[0].processedAt);
    }
  }

  /** The listing is newest first. */
  lemma {:induction false} NewestFirstIsOrdered(rows: seq<Row>)
    ensures NewestFirstOrder(NewestFirst(rows))
    decreases |rows|
  {
    if rows != [] {
      NewestFirstIsOrdered(rows[..|rows| - 1]);
      InsertKeepsOrder(rows[|rows| - 1], NewestFirst(rows[..|rows| - 1]));
    }
  }

  /**
   * The statement `get_processed_commits` runs: filter by repository when one
   * is given (non-empty), newest first, then `LIMIT` and `OFFSET` when they are
   * given and non-zero. An `OFFSET` without a `LIMIT` is a syntax error in
   * SQLite (None).
   */
  function ProcessedQuery(rows: seq<Row>, repo: Option<string>, limit: Option<int>, offset: Option<int>): (r: Option<seq<Row>>)
  {
    var hasLimit := limit.Some? && limit.value != 0;
    var hasOffset := offset.Some? && offset.value != 0;
    if hasOffset && !hasLimit then None
    else
      Some(Window(NewestFirst(Kept(rows, repo)), limit, offset))
  }

  /** A listing holds only rows of the table, of the requested repository, newest first, and at most `limit` of them. */
  lemma {:induction false} ProcessedQueryResult(rows: seq<Row>, repo: Option<string>, limit: Option<int>, offset: Option<int>)
    ensures var r := ProcessedQuery(rows, repo, limit, offset);
      && (r == None <==> (offset.Some? && offset.value != 0 && (limit == None || limit.value == 0)))
      && (r.Some? ==> forall i | 0 <= i < |r.value| :: r.value[i] in rows)
      && (r.Some? && repo.Some? && repo.value != "" ==> forall i | 0 <= i < |r.value| :: r.value[i].repo == repo.value)
      && (r.Some? ==> NewestFirstOrder(r.value))
      && (r.Some? && limit.Some? && limit.value > 0 ==> |r.value| <= limit.value)
  {
    var r := ProcessedQuery(rows, repo, limit, offset);
    if r.Some? {
      QueryRows(rows, repo, limit, offset);
      QueryOrder(rows, repo, limit, offset);
    }
  }

  /** `LIMIT ? OFFSET ?` of the query: no limit (or a zero one) keeps every row and ignores the offset. */
  function Window<T>(s: seq<T>, limit: Option<int>, offset: Option<int>): seq<T>
  {
    if limit.Some? && limit.value != 0 then
      SqlLimit(SqlOffset(s, if offset.Some? && offset.value != 0 then offset.value else 0), limit.value)
    else s
  }

  /** A window is a run of consecutive elements. */
  lemma {:induction false} WindowIsSlice<T>(s: seq<T>, limit: Option<int>, offset: Option<int>) returns (lo: nat)
    ensures lo + |Window(s, limit, offset)| <= |s| && Window(s, limit, offset) == s[lo..lo + |Window(s, limit, offset)|]
  {
    if limit.Some? && limit.value != 0 {
      var n := if offset.Some? && offset.value != 0 then offset.value else 0;
      LimitOffsetWindow(s, n, limit.value);
      lo := |s| - |SqlOffset(s, n)|;
    } else {
      WholeWindow(s);
      lo := 0;
    }
  }

  lemma {:induction false} QueryRows(rows: seq<Row>, repo: Option<string>, limit: Option<int>, offset: Option<int>)
    requires ProcessedQuery(rows, repo, limit, offset).Some?
    ensures var w := ProcessedQuery(rows, repo, limit, offset).value;
      forall i | 0 <= i < |w| :: w[i] in rows && (repo.Some? && repo.value != "" ==> w[i].repo == repo.value)
  {
    var w, ordered := ProcessedQuery(rows, repo, limit, offset).value, NewestFirst(Kept(rows, repo));
    var lo := WindowIsSlice(ordered, limit, offset);
    forall i | 0 <= i < |w|
      ensures w[i] in rows && (repo.Some? && repo.value != "" ==> w[i].repo == repo.value)
    {
      assert w[i] == ordered[lo + i];
      assert w[i] in multiset(ordered);
      KeptRow(rows, repo, w[i]);
    }
  }

  lemma {:induction false} QueryOrder(rows: seq<Row>, repo: Option<string>, limit: Option<int>, offset: Option<int>)
    requires ProcessedQuery(rows, repo, limit, offset).Some?
    ensures NewestFirstOrder(ProcessedQuery(rows, repo, limit, offset).value)
  {
    var w, ordered := ProcessedQuery(rows, repo, limit, offset).value, NewestFirst(Kept(rows, repo));
    var lo := WindowIsSlice(ordered, limit, offset);
    NewestFirstIsOrdered(Kept(rows, repo));
    forall i, j | 0 <= i < j < |w|
      ensures w[i].processedAt >= w[j].processedAt
    {
      assert w[i] == ordered[lo + i] && w[j] == ordered[lo + j];
    }
  }

  /** The rows the `WHERE repository = ?` clause keeps, all when no repository is given. */
  function Kept(rows: seq<Row>, repo: Option<string>): seq<Row>
  {
    if repo.Some? && repo.value != "" then Filter(rows, (x: Row) => x.repo == repo.value) else rows
  }

  /** A row of the ordered listing is a row of the table, of the requested repository. */
  lemma {:induction false} KeptRow(rows: seq<Row>, repo: Option<string>, x: Row)
    requires x in multiset(NewestFirst(Kept(rows, repo)))
    ensures x in rows && (repo.Some? && repo.value != "" ==> x.repo == repo.value)
  {
    var kept := Kept(rows, repo);
    assert x in multiset(kept);
    assert x in kept;
  }

  // ------------------------------------------------------------ the manager

  class DatabaseManager {
    /** The processed_commits table, in insertion order. */
    var rows: seq<Row>
    /** The app_settings table. */
    var appSettings: map<string, string>
    /** Whether SQLite can open the database. */
    var available: bool

    ghost predicate Valid()
      reads this
    {
      UniqueTriples(rows)
    }

    /** A freshly initialised database: empty tables. */
    constructor (available: bool)
      ensures Valid() && rows == [] && appSettings == map[] && this.available == available
    {
      rows := [];
      appSettings := map[];
      this.available := available;
    }

    /** `is_commit_processed`: False on an SQLite error. */
    predicate IsCommitProcessed(repo: string, sha: string, kind: string)
      reads this
    {
      available && Processed(rows, repo, sha, kind)
    }

    /** `mark_commit_processed`: the row is inserted or replaced, stamped with `now`. */
    method MarkCommitProcessed(
      repo: string, sha: string, kind: string, entryPath: Option<string>,
      provider: Option<string>, prompt: Option<string>, now: Clock.Time) returns (ok: bool)
      requires Valid()
      modifies this
      ensures Valid() && ok == available
      ensures rows == if ok then Mark(old(rows), Row(repo, sha, kind, now, entryPath, provider, prompt)) else old(rows)
      ensures appSettings == old(appSettings) && available == old(available)
      ensures ok ==> IsCommitProcessed(repo, sha, kind) && IsCommitProcessed(repo, sha, "any")
    {
      if !available {
        return false;
      }
      var row := Row(repo, sha, kind, now, entryPath, provider, prompt);
      MarkKeepsUnique(rows, row);
      MarkedIsProcessed(rows, row);
      rows := Mark(rows, row);
      ok := true;
    }

    /** `mark_commit_unprocessed`. */
    method MarkCommitUnprocessed(repo: string, sha: string, kind: string) returns (ok: bool)
      requires Valid()
      modifies this
      ensures Valid() && ok == available
      ensures rows == if ok then Unmark(old(rows), repo, sha, kind) else old(rows)
      ensures appSettings == old(appSettings) && available == old(available)
    {
      if !available {
        return false;
      }
      if kind == "both" {
        FilterKeepsUnique(rows, (x: Row) => !SameCommit(x, repo, sha));
      } else {
        FilterKeepsUnique(rows, (x: Row) => !(SameCommit(x, repo, sha) && x.kind == kind));
      }
      rows := Unmark(rows, repo, sha, kind);
      ok := true;
    }

    /** `get_processed_commits`: [] on an SQLite error, the rejected statement included. */
    function GetProcessedCommits(repo: Option<string>, limit: Option<int>, offset: Option<int>): seq<Row>
      reads this
    {
      if !available then [] else ProcessedQuery(rows, repo, limit, offset).GetOr([])
    }

    /** `get_unprocessed_commits_count`: a placeholder that answers 0 for every repository. */
    function GetUnprocessedCommitsCount(repo: string): (n: nat)
      ensures n == 0
    {
      0
    }

    /** `set_setting`: insert or replace; an SQLite error is only logged. */
    method SetSetting(key: string, value: string)
      modifies this
      ensures rows == old(rows) && available == old(available)
      ensures appSettings == if available then old(appSettings)[key := value] else old(appSettings)
      ensures available ==> GetSetting(key, "") == value
    {
      if available {
        appSettings := appSettings[key := value];
      }
    }

    /** `get_setting`: the stored value, or the default when absent or on an SQLite error. */
    function GetSetting(key: string, default: string): string
      reads this
    {
      if available && key in appSettings then appSettings[key] else default
    }
  }

  /** An offset without a limit makes the listing empty, however many rows match. */
  lemma {:induction false} OffsetWithoutLimitIsEmpty(db: DatabaseManager, repo: Option<string>, offset: int)
    requires offset != 0
    ensures db.GetProcessedCommits(repo, None, Some(offset)) == []
  {
  }

  /** A commit marked "both" and then unmarked "message" still counts as processed. */
  method UnmarkMessageAfterBoth(repo: string, sha: string) returns (stillProcessed: bool, asMessage: bool)
    ensures stillProcessed && !asMessage
  {
    var db := new DatabaseManager(true);
    var ok := db.MarkCommitProcessed(repo, sha, "both", None, None, None, 0);
    ok := db.MarkCommitUnprocessed(repo, sha, "message");
    UnmarkKeepsOtherTypes(Mark([], Row(repo, sha, "both", 0, None, None, None)), repo, sha, "message", "both");
    UnmarkRemovesType(Mark([], Row(repo, sha, "both", 0, None, None, None)), repo, sha, "message");
    stillProcessed := db.IsCommitProcessed(repo, sha, "any");
    asMessage := db.IsCommitProcessed(repo, sha, "message");
  }
}
