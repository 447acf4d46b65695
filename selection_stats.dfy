// What `BlogGenerator` (`blog/generator.py`) reports about a commit
// selection before generating: its statistics and its warnings.
module SelectionStats {
  import opened Wrappers
  import opened Text
  import opened Clock
  import opened Commits
  import opened Database

  // ------------------------------------------------------ generation statistics

  /** `date_range`: the first and last author dates and the whole days between them. */
  datatype DateRange = DateRange(earliest: Time, latest: Time, spanDays: int)

  /** The dictionary `get_generation_stats` returns for a non-empty selection. */
  datatype GenerationStats = GenerationStats(
    totalCommits: nat, authors: set<string>, filesChanged: set<string>,
    additions: int, deletions: int, dateRange: Option<DateRange>, uniqueFiles: nat)

  /** The name one file entry contributes: none when it is missing or empty. */
  function NameOf(f: FileStat): set<string>
  {
    if f.filename.Some? && f.filename.value != "" then {f.filename.value} else {}
  }

  function NamesOf(files: seq<FileStat>): set<string>
  {
    if files == [] then {} else NamesOf(files[..|files| - 1]) + NameOf(files[|files| - 1])
  }

  function AddedLines(files: seq<FileStat>): int
  {
    if files == [] then 0 else AddedLines(files[..|files| - 1]) + files[|files| - 1].additions
  }

  function DeletedLines(files: seq<FileStat>): int
  {
    if files == [] then 0 else DeletedLines(files[..|files| - 1]) + files[|files| - 1].deletions
  }

  function Authors(commits: seq<Commit>): set<string>
  {
    if commits == [] then {} else Authors(commits[..|commits| - 1]) + {AuthorLabel(commits[|commits| - 1])}
  }

  function FilesChanged(commits: seq<Commit>): set<string>
  {
    if commits == [] then {} else FilesChanged(commits[..|commits| - 1]) + NamesOf(commits[|commits| - 1].files)
  }

  function Additions(commits: seq<Commit>): int
  {
    if commits == [] then 0 else Additions(commits[..|commits| - 1]) + AddedLines(commits[|commits| - 1].files)
  }

  function Deletions(commits: seq<Commit>): int
  {
    if commits == [] then 0 else Deletions(commits[..|commits| - 1]) + DeletedLines(commits[|commits| - 1].files)
  }

  /** One step of the `earliest_date` update: a dated commit earlier than the current one replaces it. */
  function EarlierOf(current: Option<Time>, date: Option<Time>): Option<Time>
  {
    if date.None? then current else if current.None? || date.value < current.value then date else current
  }

  function LaterOf(current: Option<Time>, date: Option<Time>): Option<Time>
  {
    if date.None? then current else if current.None? || date.value > current.value then date else current
  }

  function Earliest(commits: seq<Commit>): Option<Time>
  {
    if commits == [] then None else EarlierOf(Earliest(commits[..|commits| - 1]), commits[|commits| - 1].date)
  }

  function Latest(commits: seq<Commit>): Option<Time>
  {
    if commits == [] then None else LaterOf(Latest(commits[..|commits| - 1]), commits[|commits| - 1].date)
  }

  /** `date_range`: present when both ends are; `timedelta.days` rounds down. */
  function RangeOf(earliest: Option<Time>, latest: Option<Time>): Option<DateRange>
  {
    if earliest.Some? && latest.Some? then
      Some(DateRange(earliest.value, latest.value, (latest.value - earliest.value) / MicrosPerDay))
    else None
  }

  /** `get_generation_stats`: None stands for the empty dictionary returned for no commits. */
  function Stats(commits: seq<Commit>): Option<GenerationStats>
  {
    if commits == [] then None
    else
      var files := FilesChanged(commits);
      Some(GenerationStats(|commits|, Authors(commits), files, Additions(commits), Deletions(commits),
                           RangeOf(Earliest(commits), Latest(commits)), |files|))
  }

  /** `get_generation_stats`, one commit and one file entry at a time. */
  method GetGenerationStats(commits: seq<Commit>) returns (stats: Option<GenerationStats>)
    ensures stats == Stats(commits)
  {
    if commits == [] {
      return None;
    }
    var authors: set<string> := {};
    var files: set<string> := {};
    var additions, deletions := 0, 0;
    var earliest: Option<Time> := None;
    var latest: Option<Time> := None;
    var i := 0;
    while i < |commits|
      invariant 0 <= i <= |commits|
      invariant authors == Authors(commits[..i]) && files == FilesChanged(commits[..i])
      invariant additions == Additions(commits[..i]) && deletions == Deletions(commits[..i])
      invariant earliest == Earliest(commits[..i]) && latest == Latest(commits[..i])
    {
      var c := commits[i];
      assert commits[..i + 1][..i] == commits[..i];
      authors := authors + {AuthorLabel(c)};
      var names, added, deleted := TallyFiles(c.files);
      files := files + names;
      additions := additions + added;
      deletions := deletions + deleted;
      if c.date.Some? {
        if earliest.None? || c.date.value < earliest.value {
          earliest := c.date;
        }
        if latest.None? || c.date.value > latest.value {
          latest := c.date;
        }
      }
      i := i + 1;
    }
    assert commits[..i] == commits;
    var range: Option<DateRange> := None;
    if earliest.Some? && latest.Some? {
      range := Some(DateRange(earliest.value, latest.value, (latest.value - earliest.value) / MicrosPerDay));
    }
    stats := Some(GenerationStats(|commits|, authors, files, additions, deletions, range, |files|));
  }

  /** The inner loop of `get_generation_stats` over one commit's files. */
  method TallyFiles(files: seq<FileStat>) returns (names: set<string>, added: int, deleted: int)
    ensures names == NamesOf(files) && added == AddedLines(files) && deleted == DeletedLines(files)
  {
    names, added, deleted := {}, 0, 0;
    var j := 0;
    while j < |files|
      invariant 0 <= j <= |files|
      invariant names == NamesOf(files[..j]) && added == AddedLines(files[..j]) && deleted == DeletedLines(files[..j])
    {
      var f := files[j];
      assert files[..j + 1][..j] == files[..j];
      if f.filename.Some? && f.filename.value != "" {
        names := names + {f.filename.value};
      }
      added := added + f.additions;
      deleted := deleted + f.deletions;
      j := j + 1;
    }
    assert files[..j] == files;
  }

  /** The authors are exactly the labels of the commits. */
  lemma {:induction false} AuthorsListed(commits: seq<Commit>, a: string)
    ensures a in Authors(commits) <==> exists i :: 0 <= i < |commits| && AuthorLabel(commits[i]) == a
  {
    if commits != [] {
      var init := commits[..|commits| - 1];
      AuthorsListed(init, a);
      if a in Authors(init) {
        var i :| 0 <= i < |init| && AuthorLabel(init[i]) == a;
        assert commits[i] == init[i];
      }
      if exists i :: 0 <= i < |commits| && AuthorLabel(commits[i]) == a {
        var i :| 0 <= i < |commits| && AuthorLabel(commits[i]) == a;
        if i < |init| {
          assert init[i] == commits[i];
        }
      }
    }
  }

  /** A file name is counted exactly when some entry of one commit's files carries it. */
  lemma {:induction false} NamesListed(files: seq<FileStat>, name: string)
    ensures name in NamesOf(files) <==> name != "" && exists j :: 0 <= j < |files| && files[j].filename == Some(name)
  {
    if files != [] {
      var init := files[..|files| - 1];
      NamesListed(init, name);
      if name in NamesOf(init) {
        var j :| 0 <= j < |init| && init[j].filename == Some(name);
        assert files[j] == init[j];
      }
      if name != "" && exists j :: 0 <= j < |files| && files[j].filename == Some(name) {
        var j :| 0 <= j < |files| && files[j].filename == Some(name);
        if j < |init| {
          assert init[j] == files[j];
        }
      }
    }
  }

  /** `files_changed` holds exactly the non-empty names of the commits' file entries. */
  lemma {:induction false} FilesListed(commits: seq<Commit>, name: string)
    ensures name in FilesChanged(commits) <==>
      name != "" && exists i :: 0 <= i < |commits| && name in NamesOf(commits[i].files)
  {
    if commits != [] {
      var init := commits[..|commits| - 1];
      var last := commits[|commits| - 1];
      FilesListed(init, name);
      NamesListed(last.files, name);
      if name in FilesChanged(init) {
        var i :| 0 <= i < |init| && name in NamesOf(init[i].files);
        assert commits[i] == init[i];
      }
      if name != "" && exists i :: 0 <= i < |commits| && name in NamesOf(commits[i].files) {
        var i :| 0 <= i < |commits| && name in NamesOf(commits[i].files);
        if i < |init| {
          assert init[i] == commits[i];
        }
      }
    }
  }

  /** A commit with an author date. */
  predicate DatedAt(commits: seq<Commit>, i: int, t: Time)
  {
    0 <= i < |commits| && commits[i].date == Some(t)
  }

  /**
   * `earliest_date` is present exactly when some commit is dated; it is then
   * the date of one of them and no later than any of them.
   */
  lemma {:induction false} EarliestIsMinimum(commits: seq<Commit>)
    ensures Earliest(commits).Some? <==> exists i, t: Time :: DatedAt(commits, i, t)
    ensures Earliest(commits).Some? ==> exists i :: DatedAt(commits, i, Earliest(commits).value)
    ensures forall i, t: Time :: DatedAt(commits, i, t) ==> Earliest(commits).Some? && Earliest(commits).value <= t
  {
    if commits != [] {
      var init := commits[..|commits| - 1];
      var n := |commits| - 1;
      EarliestIsMinimum(init);
      forall i, t: Time | DatedAt(init, i, t)
        ensures DatedAt(commits, i, t)
      {
        assert commits[i] == init[i];
      }
      forall i, t: Time | DatedAt(commits, i, t) && i < n
        ensures DatedAt(init, i, t)
      {
        assert init[i] == commits[i];
      }
      if commits[n].date.Some? {
        assert DatedAt(commits, n, commits[n].date.value);
      }
    }
  }

  /** `latest_date`: the date of some commit, no earlier than any of them. */
  lemma {:induction false} LatestIsMaximum(commits: seq<Commit>)
    ensures Latest(commits).Some? <==> exists i, t: Time :: DatedAt(commits, i, t)
    ensures Latest(commits).Some? ==> exists i :: DatedAt(commits, i, Latest(commits).value)
    ensures forall i, t: Time :: DatedAt(commits, i, t) ==> Latest(commits).Some? && t <= Latest(commits).value
  {
    if commits != [] {
      var init := commits[..|commits| - 1];
      var n := |commits| - 1;
      LatestIsMaximum(init);
      forall i, t: Time | DatedAt(init, i, t)
        ensures DatedAt(commits, i, t)
      {
        assert commits[i] == init[i];
      }
      forall i, t: Time | DatedAt(commits, i, t) && i < n
        ensures DatedAt(init, i, t)
      {
        assert init[i] == commits[i];
      }
      if commits[n].date.Some? {
        assert DatedAt(commits, n, commits[n].date.value);
      }
    }
  }

  /**
   * The statistics of a selection: None only for no commits; a date range
   * exactly when some commit is dated, with earliest <= latest, both dates
   * of the selection, and a span of whole days that is never negative.
   */
  lemma {:induction false} StatsShape(commits: seq<Commit>)
    ensures Stats(commits).None? <==> commits == []
    ensures Stats(commits).Some? ==> Stats(commits).value.totalCommits == |commits|
    ensures Stats(commits).Some? ==>
      (Stats(commits).value.dateRange.Some? <==> exists i, t: Time :: DatedAt(commits, i, t))
    ensures Stats(commits).Some? && Stats(commits).value.dateRange.Some? ==>
      var r := Stats(commits).value.dateRange.value;
      && r.earliest <= r.latest && r.spanDays >= 0
      && (exists i :: DatedAt(commits, i, r.earliest))
      && (exists i :: DatedAt(commits, i, r.latest))
  {
    EarliestIsMinimum(commits);
    LatestIsMaximum(commits);
  }

  // ------------------------------------------------------ validation of a selection

  const NoCommitsSelected: string := "No commits selected"
  const LargeSelection: string := "Large number of commits selected" + " - generation may be slow"
  const ShortMessages: string := "Many commits have very short messages" + " - blog quality may be affected"

  /** A message under ten characters once stripped. */
  predicate IsShortMessage(c: Commit)
  {
    |Strip(c.message)| < 10
  }

  function ShortCount(commits: seq<Commit>): (n: nat)
    ensures n <= |commits|
  {
    if commits == [] then 0
    else ShortCount(commits[..|commits| - 1]) + (if IsShortMessage(commits[|commits| - 1]) then 1 else 0)
  }

  /** How many of the commits `is_commit_processed(repository, sha)` (type "any") reports. */
  function ProcessedCount(rows: seq<Row>, available: bool, repository: string, commits: seq<Commit>): (n: nat)
    ensures n <= |commits|
  {
    if commits == [] then 0
    else
      ProcessedCount(rows, available, repository, commits[..|commits| - 1])
      + (if available && Processed(rows, repository, commits[|commits| - 1].sha, "any") then 1 else 0)
  }

  /**
   * The warnings of `validate_commits_for_generation` for `total` commits of
   * which `short` have short messages and `processed` are already processed;
   * "more than half" is `short > n * 0.5`.
   */
  function Issues(total: nat, short: nat, processed: nat): seq<string>
  {
    if total == 0 then [NoCommitsSelected]
    else
      (if total > 50 then [LargeSelection] else [])
      + (if 2 * short > total then [ShortMessages] else [])
      + (if processed > 0 then [ProcessedWarning(processed)] else [])
  }

  /** Some commit of the selection is reported processed. */
  predicate SomeProcessed(rows: seq<Row>, available: bool, repository: string, commits: seq<Commit>)
  {
    exists i :: 0 <= i < |commits| && available && Processed(rows, repository, commits[i].sha, "any")
  }

  /** The processed count is positive exactly when some commit of the selection is processed. */
  lemma {:induction false} ProcessedCountPositive(rows: seq<Row>, available: bool, repository: string, commits: seq<Commit>)
    ensures ProcessedCount(rows, available, repository, commits) > 0 <==> SomeProcessed(rows, available, repository, commits)
  {
    if commits != [] {
      var init := commits[..|commits| - 1];
      ProcessedCountPositive(rows, available, repository, init);
      if SomeProcessed(rows, available, repository, init) {
        var i :| 0 <= i < |init| && available && Processed(rows, repository, init[i].sha, "any");
        assert commits[i] == init[i];
      }
      if SomeProcessed(rows, available, repository, commits) {
        var i :| 0 <= i < |commits| && available && Processed(rows, repository, commits[i].sha, "any");
        if i < |init| {
          assert init[i] == commits[i];
        }
      }
    }
  }

  /**
   * The processed check as written asks about repository "", under which no
   * marking by a named repository records anything: while every row names a
   * repository, the count is 0 and the warning never appears.
   */
  lemma {:induction false} UnnamedRepositoryCountsNothing(rows: seq<Row>, available: bool, commits: seq<Commit>)
    requires forall i | 0 <= i < |rows| :: rows[i].repo != ""
    ensures ProcessedCount(rows, available, "", commits) == 0
  {
    ProcessedCountPositive(rows, available, "", commits);
  }

  /** A selection whose every message is short gets the quality warning. */
  lemma {:induction false} AllShortCounted(commits: seq<Commit>)
    requires forall i :: 0 <= i < |commits| ==> IsShortMessage(commits[i])
    ensures ShortCount(commits) == |commits|
  {
    if commits != [] {
      var init := commits[..|commits| - 1];
      assert forall i :: 0 <= i < |init| ==> init[i] == commits[i];
      AllShortCounted(init);
    }
  }

  lemma {:induction false} WarningHeads()
    ensures |LargeSelection| > 0 && LargeSelection[0] == 'L'
    ensures |ShortMessages| > 0 && ShortMessages[0] == 'M'
  {
  }

  /** The processed-commits warning starts with the count's digits. */
  function ProcessedWarning(processed: nat): (r: string)
    ensures |r| > 0 && IsDigit(r[0])
  {
    var r := NatText(processed) + " commits have already been processed";
    assert r[0] == NatText(processed)[0];
    r
  }

  /**
   * What the warnings say: no commits gives exactly the one warning; otherwise
   * the slowness warning comes first exactly for more than 50 commits, the
   * quality warning is present exactly when more than half the messages are
   * short, and the last warning counts the processed commits when there are any.
   */
  lemma {:induction false} IssuesMeaning(total: nat, short: nat, processed: nat)
    ensures total == 0 ==> Issues(total, short, processed) == [NoCommitsSelected]
    ensures total > 0 ==> (total > 50 <==> |Issues(total, short, processed)| > 0 && Issues(total, short, processed)[0] == LargeSelection)
    ensures total > 0 ==> (2 * short > total <==> ShortMessages in Issues(total, short, processed))
    ensures total > 0 && processed > 0 ==>
      Issues(total, short, processed)[|Issues(total, short, processed)| - 1] == ProcessedWarning(processed)
    ensures total > 0 && processed == 0 ==> |Issues(total, short, processed)| <= 2
  {
    if total > 0 {
      WarningHeads();
      var large := if total > 50 then [LargeSelection] else [];
      var shortWarning := if 2 * short > total then [ShortMessages] else [];
      var done := if processed > 0 then [ProcessedWarning(processed)] else [];
      var issues := Issues(total, short, processed);
      assert issues == large + shortWarning + done;
      assert ShortMessages !in large + done;
      if shortWarning != [] {
        assert issues[|large|] == ShortMessages;
      }
      if total <= 50 && |issues| > 0 {
        assert issues[0] == (shortWarning + done)[0];
      }
    }
  }
}
