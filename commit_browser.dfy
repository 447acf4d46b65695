// The commit browser (`CommitBrowser` in gui/commit_browser.py): it filters
// the repository's commits by date window, search term and count, shows one
// line and two check boxes per commit ("message" and "comments", checked when
// the database has the commit processed for that type), and keeps the list of
// selected commits in step with the boxes the user checks.
//
// The widgets are state here: a check box is a boolean in a map keyed by the
// commit's sha, the list box is the sequence of its lines. The filter widgets'
// values, the clock and the commits fetched from GitHub are parameters.
module CommitBrowsing {
  import opened Wrappers
  import opened Text
  import opened Clock
  import opened Lists
  import opened Commits
  import opened Database

  // ------------------------------------------------------------ filters

  /** The date choices: how many days back each window reaches; "All time" and any other text set no window. */
  function WindowDays(dateRange: string): (r: Option<nat>)
    ensures r.Some? <==> dateRange in {"Last 7 days", "Last 30 days", "Last 90 days"}
    ensures r.Some? ==> r.value in {7, 30, 90}
  {
    if dateRange == "Last 7 days" then Some(7)
    else if dateRange == "Last 30 days" then Some(30)
    else if dateRange == "Last 90 days" then Some(90)
    else None
  }

  /** A commit with a date later than `days` days before `now`; a commit without a date is never in a window. */
  predicate InWindow(c: Commit, now: Time, days: nat)
  {
    c.date.Some? && c.date.value > now - days * MicrosPerDay
  }

  /** `_filter_by_date`: the commits of the chosen window, in their order. */
  function ByDate(commits: seq<Commit>, dateRange: string, now: Time): seq<Commit>
  {
    match WindowDays(dateRange)
    case None => commits
    case Some(days) => Filter(commits, (c: Commit) => InWindow(c, now, days))
  }

  /** The search test: the lower-cased term is in the lower-cased message or in the author's non-empty name. */
  predicate Matches(c: Commit, term: string)
  {
    Contains(Lower(c.message), term)
    || (c.authorName.Some? && c.authorName.value != [] && Contains(Lower(c.authorName.value), term))
  }

  /** `_filter_by_search`. */
  function BySearch(commits: seq<Commit>, term: string): seq<Commit>
  {
    Filter(commits, (c: Commit) => Matches(c, term))
  }

  /**
   * What `_apply_filters` computes from the commits and the three filter
   * values: the date window, then the search when the lower-cased term is not
   * empty, then `[:int(max)]` unless the count is "All". `None` when the count
   * is not an integer: `int()` raises, the handler logs it and nothing changes.
   */
  function Filtered(all: seq<Commit>, dateRange: string, maxLabel: string, searchText: string, now: Time): Option<seq<Commit>>
  {
    var dated := ByDate(all, dateRange, now);
    var term := Lower(searchText);
    var found := if term != [] then BySearch(dated, term) else dated;
    if maxLabel == "All" then Some(found)
    else match ParseInt(maxLabel)
      case None => None
      case Some(n) => Some(SlicePrefix(found, n))
  }

  /** The date filter keeps exactly the commits inside the window, and all of them when there is no window. */
  lemma ByDateKeeps(commits: seq<Commit>, dateRange: string, now: Time, c: Commit)
    ensures c in ByDate(commits, dateRange, now) <==>
      c in commits && (WindowDays(dateRange).None? || InWindow(c, now, WindowDays(dateRange).value))
  {
    if WindowDays(dateRange).Some? && c in commits {
      var i :| 0 <= i < |commits| && commits[i] == c;
    }
  }

  /** The search keeps exactly the matching commits. */
  lemma BySearchKeeps(commits: seq<Commit>, term: string, c: Commit)
    ensures c in BySearch(commits, term) <==> c in commits && Matches(c, term)
  {
    if c in commits {
      var i :| 0 <= i < |commits| && commits[i] == c;
    }
  }

  /** The filtered list is the commits with some left out, in their order, and every one it holds passes both filters. */
  lemma {:induction false} FilteredSound(all: seq<Commit>, dateRange: string, maxLabel: string, searchText: string, now: Time)
    requires Filtered(all, dateRange, maxLabel, searchText, now).Some?
    ensures var r := Filtered(all, dateRange, maxLabel, searchText, now).value;
      IsSubsequence(r, all) &&
      forall i | 0 <= i < |r| :: r[i] in all && (WindowDays(dateRange).None? || InWindow(r[i], now, WindowDays(dateRange).value))
        && (Lower(searchText) == [] || Matches(r[i], Lower(searchText)))
  {
    var r := Filtered(all, dateRange, maxLabel, searchText, now).value;
    var dated := ByDate(all, dateRange, now);
    var term := Lower(searchText);
    var found := if term != [] then BySearch(dated, term) else dated;
    assert IsSubsequence(dated, all) by {
      if WindowDays(dateRange).None? { SelfSubsequence(all); }
    }
    assert IsSubsequence(found, all) by {
      if term != [] { SubsequenceTransitive(found, dated, all); }
    }
    assert IsSubsequence(r, found) && r == found[..|r|] by {
      if maxLabel == "All" { SelfSubsequence(found); }
    }
    SubsequenceTransitive(r, found, all);
    forall i | 0 <= i < |r|
      ensures r[i] in all && (WindowDays(dateRange).None? || InWindow(r[i], now, WindowDays(dateRange).value))
        && (term == [] || Matches(r[i], term))
    {
      assert r[i] == found[i];
      if term != [] {
        BySearchKeeps(dated, term, r[i]);
      }
      ByDateKeeps(all, dateRange, now, r[i]);
    }
  }

  /** With the count "All", nothing that passes both filters is left out. */
  lemma {:induction false} FilteredComplete(all: seq<Commit>, dateRange: string, searchText: string, now: Time, c: Commit)
    requires c in all
    requires WindowDays(dateRange).None? || InWindow(c, now, WindowDays(dateRange).value)
    requires Lower(searchText) == [] || Matches(c, Lower(searchText))
    ensures Filtered(all, dateRange, "All", searchText, now).Some?
    ensures c in Filtered(all, dateRange, "All", searchText, now).value
  {
    ByDateKeeps(all, dateRange, now, c);
    if Lower(searchText) != [] {
      BySearchKeeps(ByDate(all, dateRange, now), Lower(searchText), c);
    }
  }

  /** A numeric count `n >= 0` caps the list at `n` commits; a count that is not a number changes nothing. */
  lemma {:induction false} FilteredCount(all: seq<Commit>, dateRange: string, maxLabel: string, searchText: string, now: Time)
    requires maxLabel != "All"
    ensures Filtered(all, dateRange, maxLabel, searchText, now).None? <==> ParseInt(maxLabel).None?
    ensures ParseInt(maxLabel).Some? && ParseInt(maxLabel).value >= 0 ==>
      |Filtered(all, dateRange, maxLabel, searchText, now).value| <= ParseInt(maxLabel).value
  {
  }

  // ------------------------------------------------------------ the list line

  /** A text cut to `width` characters, its last three replaced by "..." when it was longer. */
  function Shorten(s: string, width: nat): (r: string)
    requires width >= 3
    ensures |s| <= width ==> r == s
    ensures |s| > width ==> |r| == width && r[..width - 3] == s[..width - 3] && r[width - 3..] == "..."
  {
    if |s| > width then s[..width - 3] + "..." else s
  }

  /**
   * `_format_commit_display`: the processed mark, the first 8 characters of
   * the sha, the author (at most 20 characters), the author date or
   * "Unknown", and the message's first line (at most 60 characters).
   */
  function CommitDisplay(c: Commit, processed: bool): (r: string)
  {
    var status := if processed then "✓" else " ";
    var date := if c.date.Some? then MonthDayMinuteText(c.date.value) else "Unknown";
    status + " " + Take(c.sha, 8) + " | " + Shorten(AuthorLabel(c), 20) + " | " + date + " | " + Shorten(FirstLine(c.message), 60)
  }

  /** The line is one line and shows at most 8 characters of the sha, 20 of the author and 60 of the message. */
  lemma {:induction false} CommitDisplayBounds(c: Commit, processed: bool)
    ensures var author := Shorten(AuthorLabel(c), 20);
      var message := Shorten(FirstLine(c.message), 60);
      |Take(c.sha, 8)| <= 8 && 0 < |author| <= 20 && |message| <= 60 && '\n' !in message
      && CommitDisplay(c, processed)[0] == (if processed then '✓' else ' ')
      && (AuthorLabel(c) == author <==> |AuthorLabel(c)| <= 20)
  {
    var first := FirstLine(c.message);
    var message := Shorten(first, 60);
    if |first| > 60 {
      forall i | 0 <= i < |message|
        ensures message[i] != '\n'
      {
        if i < 57 {
          assert message[i] == first[i];
        } else {
          assert message[i] == "..."[i - 57];
        }
      }
    }
  }

  // ------------------------------------------------------------ the selection

  /** Each element of `s` occurs in it once. */
  predicate Once<T(==)>(s: seq<T>)
  {
    forall x | x in s :: multiset(s)[x] == 1
  }

  /** `s.remove(x)`: the first occurrence of `x` is dropped. */
  function RemoveFirst<T(==)>(s: seq<T>, x: T): (r: seq<T>)
    ensures multiset(r) == multiset(s) - multiset{x}
  {
    if s == [] then []
    else if s[0] == x then
      assert s == [s[0]] + s[1..];
      s[1..]
    else
      assert s == [s[0]] + s[1..];
      [s[0]] + RemoveFirst(s[1..], x)
  }

  /**
   * The selection step both box handlers share: a commit one of whose boxes
   * is checked is appended unless already there, any other is removed.
   */
  function Reselected(selected: seq<Commit>, c: Commit, keep: bool): seq<Commit>
  {
    if keep then (if c in selected then selected else selected + [c])
    else if c in selected then RemoveFirst(selected, c)
    else selected
  }

  /** The step never lists a commit twice, holds `c` exactly when a box is checked, and keeps every other commit. */
  lemma {:induction false} ReselectedMembership(selected: seq<Commit>, c: Commit, keep: bool)
    requires Once(selected)
    ensures var r := Reselected(selected, c, keep);
      Once(r) && (c in r <==> keep) && forall d | d != c :: d in r <==> d in selected
  {
    var r := Reselected(selected, c, keep);
    if keep && c !in selected {
      assert multiset(r) == multiset(selected) + multiset{c};
      assert multiset(selected)[c] == 0;
    } else if !keep && c in selected {
      assert multiset(r) == multiset(selected) - multiset{c};
      assert multiset(r)[c] == 0;
    }
    forall d | d != c
      ensures d in r <==> d in selected
    {
      assert multiset(r)[d] == multiset(selected)[d];
    }
    forall x | x in r
      ensures multiset(r)[x] == 1
    {
      assert multiset(r)[x] <= multiset(selected)[x] || x == c;
    }
  }

  /** The shas of a list of commits. */
  function Shas(commits: seq<Commit>): (r: set<string>)
    ensures forall i | 0 <= i < |commits| :: commits[i].sha in r
    ensures forall sha | sha in r :: exists i | 0 <= i < |commits| :: commits[i].sha == sha
  {
    set i | 0 <= i < |commits| :: commits[i].sha
  }

  /** The boxes after a "select all": the box of each listed commit that has one takes `on`. */
  function SetBoxes(boxes: map<string, bool>, commits: seq<Commit>, on: bool): map<string, bool>
    decreases |commits|
  {
    if commits == [] then boxes
    else
      var r := SetBoxes(boxes, commits[..|commits| - 1], on);
      var c := commits[|commits| - 1];
      if c.sha in boxes then r[c.sha := on] else r
  }

  /** "Select all" adds and drops no box; the listed commits' boxes take `on`, the others keep their state. */
  lemma {:induction false} SetBoxesHold(boxes: map<string, bool>, commits: seq<Commit>, on: bool)
    ensures SetBoxes(boxes, commits, on).Keys == boxes.Keys
    ensures forall sha | sha in boxes :: SetBoxes(boxes, commits, on)[sha] == if sha in Shas(commits) then on else boxes[sha]
    decreases |commits|
  {
    if commits != [] {
      var init := commits[..|commits| - 1];
      SetBoxesHold(boxes, init, on);
      assert commits == init + [commits[|commits| - 1]];
      assert Shas(commits) == Shas(init) + {commits[|commits| - 1].sha};
    }
  }

  /** Whether one of a commit's two boxes is checked; a commit missing either box counts as unchecked. */
  predicate Ticked(messageBoxes: map<string, bool>, commentBoxes: map<string, bool>, c: Commit)
  {
    c.sha in messageBoxes && c.sha in commentBoxes && (messageBoxes[c.sha] || commentBoxes[c.sha])
  }

  /** The listed commits one of whose boxes is checked, in list order. */
  function Selection(commits: seq<Commit>, messageBoxes: map<string, bool>, commentBoxes: map<string, bool>): seq<Commit>
  {
    Filter(commits, (c: Commit) => Ticked(messageBoxes, commentBoxes, c))
  }

  lemma SelectionSnoc(commits: seq<Commit>, i: nat, messageBoxes: map<string, bool>, commentBoxes: map<string, bool>)
    requires i < |commits|
    ensures Selection(commits[..i + 1], messageBoxes, commentBoxes) ==
      Selection(commits[..i], messageBoxes, commentBoxes) + (if Ticked(messageBoxes, commentBoxes, commits[i]) then [commits[i]] else [])
  {
    FilterSnoc(commits, i, (c: Commit) => Ticked(messageBoxes, commentBoxes, c));
  }

  /**
   * The rows after "select all" on one type: each listed commit that has a box
   * of that type is marked (`on`) or unmarked, in list order, stamped `now`.
   */
  function MarkEach(rows: seq<Row>, repo: string, commits: seq<Commit>, boxes: map<string, bool>, kind: string, on: bool, now: Time): seq<Row>
    decreases |commits|
  {
    if commits == [] then rows
    else
      var rest := MarkEach(rows, repo, commits[..|commits| - 1], boxes, kind, on, now);
      var c := commits[|commits| - 1];
      if c.sha !in boxes then rest
      else if on then Mark(rest, Row(repo, c.sha, kind, now, None, None, None))
      else Unmark(rest, repo, c.sha, kind)
  }

  /** Marking keeps every commit that was processed for a type processed for it. */
  lemma {:induction false} MarkKeepsKind(rows: seq<Row>, row: Row, repo: string, sha: string, kind: string)
    requires Processed(rows, repo, sha, kind)
    ensures Processed(Mark(rows, row), repo, sha, kind)
  {
    var i :| 0 <= i < |rows| && SameCommit(rows[i], repo, sha) && (kind == "any" || rows[i].kind == kind);
    var p := (x: Row) => !(SameCommit(x, row.repo, row.sha) && x.kind == row.kind);
    var r := Mark(rows, row);
    if p(rows[i]) {
      var f := Filter(rows, p);
      var j :| 0 <= j < |f| && f[j] == rows[i];
      assert r[j] == rows[i];
    } else {
      assert r[|r| - 1] == row;
    }
  }

  /** Unmarking never makes a commit processed. */
  lemma {:induction false} UnmarkAddsNothing(rows: seq<Row>, other: string, repo: string, sha: string, kind: string)
    requires !Processed(rows, repo, sha, kind)
    ensures !Processed(Unmark(rows, other, sha, kind), repo, sha, kind)
  {
  }

  /** After "select all" on, every listed commit with a box of the type is processed for it. */
  lemma {:induction false} MarkEachOn(rows: seq<Row>, repo: string, commits: seq<Commit>, boxes: map<string, bool>, kind: string, now: Time, k: nat)
    requires k < |commits| && commits[k].sha in boxes
    ensures Processed(MarkEach(rows, repo, commits, boxes, kind, true, now), repo, commits[k].sha, kind)
    decreases |commits|
  {
    var init := commits[..|commits| - 1];
    var rest := MarkEach(rows, repo, init, boxes, kind, true, now);
    var c := commits[|commits| - 1];
    if k == |commits| - 1 {
      MarkedIsProcessed(rest, Row(repo, c.sha, kind, now, None, None, None));
    } else {
      assert init[k] == commits[k];
      MarkEachOn(rows, repo, init, boxes, kind, now, k);
      if c.sha in boxes {
        MarkKeepsKind(rest, Row(repo, c.sha, kind, now, None, None, None), repo, commits[k].sha, kind);
      }
    }
  }

  /** After "select all" off, no listed commit with a box of the type is processed for it. */
  lemma {:induction false} MarkEachOff(rows: seq<Row>, repo: string, commits: seq<Commit>, boxes: map<string, bool>, kind: string, now: Time, k: nat)
    requires kind != "both" && kind != "any"
    requires k < |commits| && commits[k].sha in boxes
    ensures !Processed(MarkEach(rows, repo, commits, boxes, kind, false, now), repo, commits[k].sha, kind)
    decreases |commits|
  {
    var init := commits[..|commits| - 1];
    var rest := MarkEach(rows, repo, init, boxes, kind, false, now);
    var c := commits[|commits| - 1];
    if k == |commits| - 1 {
      UnmarkRemovesType(rest, repo, c.sha, kind);
    } else {
      assert init[k] == commits[k];
      MarkEachOff(rows, repo, init, boxes, kind, now, k);
      if c.sha in boxes {
        UnmarkAddsNothing(rest, repo, repo, commits[k].sha, kind);
      }
    }
  }

  // ------------------------------------------------------------ the browser

  class CommitBrowser {
    const repository: string
    const database: DatabaseManager
    /** The commits fetched from GitHub. */
    var allCommits: seq<Commit>
    /** The commits the filters let through, as listed. */
    var filteredCommits: seq<Commit>
    /** The commits handed to the window for generation. */
    var selectedCommits: seq<Commit>
    /** The "message" boxes, by sha: checked or not. */
    var messageBoxes: map<string, bool>
    /** The "comments" boxes, by sha. */
    var commentBoxes: map<string, bool>
    /** The list box's lines. */
    var listing: seq<string>

    ghost predicate Valid()
      reads database
    {
      database.Valid()
    }

    /** A browser on a repository: nothing loaded, nothing selected. */
    constructor (repository: string, database: DatabaseManager)
      requires database.Valid()
      ensures Valid() && this.repository == repository && this.database == database
      ensures allCommits == [] && filteredCommits == [] && selectedCommits == []
      ensures messageBoxes == map[] && commentBoxes == map[] && listing == []
    {
      this.repository := repository;
      this.database := database;
      allCommits := [];
      filteredCommits := [];
      selectedCommits := [];
      messageBoxes := map[];
      commentBoxes := map[];
      listing := [];
    }

    /** The states `_update_commit_list` gives the boxes of one type: checked when the database has the commit processed for it. */
    function BoxStates(commits: seq<Commit>, kind: string): map<string, bool>
      reads database
      decreases |commits|
    {
      if commits == [] then map[]
      else
        var c := commits[|commits| - 1];
        BoxStates(commits[..|commits| - 1], kind)[c.sha := database.IsCommitProcessed(repository, c.sha, kind)]
    }

    /** There is one box per listed sha, checked exactly when the commit is processed for the box's type. */
    lemma {:induction false} BoxStatesHold(commits: seq<Commit>, kind: string)
      ensures BoxStates(commits, kind).Keys == Shas(commits)
      ensures forall sha | sha in BoxStates(commits, kind) :: BoxStates(commits, kind)[sha] == database.IsCommitProcessed(repository, sha, kind)
      decreases |commits|
    {
      if commits != [] {
        var init := commits[..|commits| - 1];
        BoxStatesHold(init, kind);
        assert commits == init + [commits[|commits| - 1]];
        assert Shas(commits) == Shas(init) + {commits[|commits| - 1].sha};
      }
    }

    /** The list box's lines for a list of commits, each marked when processed for any type. */
    function Lines(commits: seq<Commit>): (r: seq<string>)
      reads database
      ensures |r| == |commits|
      decreases |commits|
    {
      if commits == [] then []
      else
        var c := commits[|commits| - 1];
        Lines(commits[..|commits| - 1]) + [CommitDisplay(c, database.IsCommitProcessed(repository, c.sha, "any"))]
    }

    /** Line `i` shows commit `i`, marked when the database has it processed for any type. */
    lemma {:induction false} LineOf(commits: seq<Commit>, i: nat)
      requires i < |commits|
      ensures Lines(commits)[i] == CommitDisplay(commits[i], database.IsCommitProcessed(repository, commits[i].sha, "any"))
      decreases |commits|
    {
      if i < |commits| - 1 {
        LineOf(commits[..|commits| - 1], i);
      }
    }

    /** `_update_commit_list`: one line and two boxes per listed commit, or the single line "No commits found". */
    method UpdateCommitList()
      requires Valid()
      modifies this
      ensures Valid()
      ensures messageBoxes == BoxStates(filteredCommits, "message")
      ensures commentBoxes == BoxStates(filteredCommits, "comments")
      ensures listing == if filteredCommits == [] then ["No commits found"] else Lines(filteredCommits)
      ensures allCommits == old(allCommits) && filteredCommits == old(filteredCommits) && selectedCommits == old(selectedCommits)
    {
      if filteredCommits == [] {
        messageBoxes, commentBoxes, listing := map[], map[], ["No commits found"];
        return;
      }
      var mb, cb, lines := ListCommits(filteredCommits);
      messageBoxes, commentBoxes, listing := mb, cb, lines;
    }

    /** The loop of `_update_commit_list`: a line and the two box states for each commit. */
    method ListCommits(commits: seq<Commit>) returns (mb: map<string, bool>, cb: map<string, bool>, lines: seq<string>)
      ensures mb == BoxStates(commits, "message") && cb == BoxStates(commits, "comments")
      ensures lines == Lines(commits)
    {
      mb, cb, lines := map[], map[], [];
      var i := 0;
      while i < |commits|
        invariant 0 <= i <= |commits|
        invariant mb == BoxStates(commits[..i], "message")
        invariant cb == BoxStates(commits[..i], "comments")
        invariant lines == Lines(commits[..i])
      {
        var c := commits[i];
        assert commits[..i + 1][..i] == commits[..i];
        lines := lines + [CommitDisplay(c, database.IsCommitProcessed(repository, c.sha, "any"))];
        mb := mb[c.sha := database.IsCommitProcessed(repository, c.sha, "message")];
        cb := cb[c.sha := database.IsCommitProcessed(repository, c.sha, "comments")];
        i := i + 1;
      }
      assert commits[..i] == commits;
    }

    /** `_filter_by_date`, the loop over the commits. */
    method FilterByDate(commits: seq<Commit>, dateRange: string, now: Time) returns (r: seq<Commit>)
      ensures r == ByDate(commits, dateRange, now)
    {
      if WindowDays(dateRange).None? {
        return commits;
      }
      var days := WindowDays(dateRange).value;
      var p := (c: Commit) => InWindow(c, now, days);
      r := [];
      var i := 0;
      while i < |commits|
        invariant 0 <= i <= |commits|
        invariant r == Filter(commits[..i], p)
      {
        FilterSnoc(commits, i, p);
        if commits[i].date.Some? && commits[i].date.value > now - days * MicrosPerDay {
          r := r + [commits[i]];
        }
        i := i + 1;
      }
      assert commits[..i] == commits;
    }

    /** `_filter_by_search`, the loop over the commits. */
    method FilterBySearch(commits: seq<Commit>, term: string) returns (r: seq<Commit>)
      ensures r == BySearch(commits, term)
    {
      var p := (c: Commit) => Matches(c, term);
      r := [];
      var i := 0;
      while i < |commits|
        invariant 0 <= i <= |commits|
        invariant r == Filter(commits[..i], p)
      {
        FilterSnoc(commits, i, p);
        var c := commits[i];
        var messageMatch := Contains(Lower(c.message), term);
        var authorMatch := c.authorName.Some? && c.authorName.value != [] && Contains(Lower(c.authorName.value), term);
        if messageMatch || authorMatch {
          r := r + [c];
        }
        i := i + 1;
      }
      assert commits[..i] == commits;
    }

    /**
     * `_apply_filters`: nothing happens before commits are loaded or when the
     * count is not a number; otherwise the list becomes the filtered commits
     * and is redrawn. The selection is left as it was.
     */
    method ApplyFilters(dateRange: string, maxLabel: string, searchText: string, now: Time)
      requires Valid()
      modifies this
      ensures Valid()
      ensures var f := Filtered(old(allCommits), dateRange, maxLabel, searchText, now);
        if old(allCommits) != [] && f.Some? then
          filteredCommits == f.value && messageBoxes == BoxStates(filteredCommits, "message")
          && commentBoxes == BoxStates(filteredCommits, "comments")
          && listing == (if filteredCommits == [] then ["No commits found"] else Lines(filteredCommits))
        else
          filteredCommits == old(filteredCommits) && messageBoxes == old(messageBoxes)
          && commentBoxes == old(commentBoxes) && listing == old(listing)
      ensures allCommits == old(allCommits) && selectedCommits == old(selectedCommits)
    {
      if allCommits == [] {
        return;
      }
      var filtered := FilterByDate(allCommits, dateRange, now);
      var term := Lower(searchText);
      if term != [] {
        filtered := FilterBySearch(filtered, term);
      }
      if maxLabel != "All" {
        var n := ParseInt(maxLabel);
        if n.None? {
          return;
        }
        filtered := SlicePrefix(filtered, n.value);
      }
      filteredCommits := filtered;
      UpdateCommitList();
    }

    /** The end of `_load_commits`: the fetched commits are stored and the filters applied to them. */
    method LoadCommits(commits: seq<Commit>, dateRange: string, maxLabel: string, searchText: string, now: Time)
      requires Valid()
      modifies this
      ensures Valid() && allCommits == commits && selectedCommits == old(selectedCommits)
      ensures var f := Filtered(commits, dateRange, maxLabel, searchText, now);
        if commits != [] && f.Some? then
          filteredCommits == f.value && messageBoxes == BoxStates(filteredCommits, "message")
          && commentBoxes == BoxStates(filteredCommits, "comments")
          && listing == (if filteredCommits == [] then ["No commits found"] else Lines(filteredCommits))
        else
          filteredCommits == old(filteredCommits) && messageBoxes == old(messageBoxes)
          && commentBoxes == old(commentBoxes) && listing == old(listing)
    {
      allCommits := commits;
      ApplyFilters(dateRange, maxLabel, searchText, now);
    }

    /** The shared tail of the two box handlers: the selection takes or drops `c`. */
    method Reselect(c: Commit)
      requires c.sha in messageBoxes && c.sha in commentBoxes
      modifies this
      ensures selectedCommits == Reselected(old(selectedCommits), c, Ticked(messageBoxes, commentBoxes, c))
      ensures allCommits == old(allCommits) && filteredCommits == old(filteredCommits)
      ensures messageBoxes == old(messageBoxes) && commentBoxes == old(commentBoxes) && listing == old(listing)
    {
      if messageBoxes[c.sha] || commentBoxes[c.sha] {
        if c !in selectedCommits {
          selectedCommits := selectedCommits + [c];
        }
      } else {
        if c in selectedCommits {
          selectedCommits := RemoveFirst(selectedCommits, c);
        }
      }
    }

    /**
     * `_on_message_checkbox_changed`, run after the user has flipped the
     * commit's "message" box: nothing unless the commit has both boxes; then
     * the commit is marked or unmarked as processed for "message", as the box
     * now says, and the selection takes or drops it.
     */
    method OnMessageCheckboxChanged(c: Commit, now: Time)
      requires Valid()
      modifies this, database
      ensures Valid()
      ensures if c.sha in messageBoxes && c.sha in commentBoxes then
          database.rows == (if !database.available then old(database.rows)
            else if messageBoxes[c.sha] then Mark(old(database.rows), Row(repository, c.sha, "message", now, None, None, None))
            else Unmark(old(database.rows), repository, c.sha, "message"))
          && selectedCommits == Reselected(old(selectedCommits), c, Ticked(messageBoxes, commentBoxes, c))
        else database.rows == old(database.rows) && selectedCommits == old(selectedCommits)
      ensures database.available == old(database.available) && database.appSettings == old(database.appSettings)
      ensures allCommits == old(allCommits) && filteredCommits == old(filteredCommits)
      ensures messageBoxes == old(messageBoxes) && commentBoxes == old(commentBoxes) && listing == old(listing)
    {
      if c.sha !in messageBoxes || c.sha !in commentBoxes {
        return;
      }
      var ok;
      if messageBoxes[c.sha] {
        ok := database.MarkCommitProcessed(repository, c.sha, "message", None, None, None, now);
      } else {
        ok := database.MarkCommitUnprocessed(repository, c.sha, "message");
      }
      Reselect(c);
    }

    /** `_on_comments_checkbox_changed`: the same for the "comments" box. */
    method OnCommentsCheckboxChanged(c: Commit, now: Time)
      requires Valid()
      modifies this, database
      ensures Valid()
      ensures if c.sha in messageBoxes && c.sha in commentBoxes then
          database.rows == (if !database.available then old(database.rows)
            else if commentBoxes[c.sha] then Mark(old(database.rows), Row(repository, c.sha, "comments", now, None, None, None))
            else Unmark(old(database.rows), repository, c.sha, "comments"))
          && selectedCommits == Reselected(old(selectedCommits), c, Ticked(messageBoxes, commentBoxes, c))
        else database.rows == old(database.rows) && selectedCommits == old(selectedCommits)
      ensures database.available == old(database.available) && database.appSettings == old(database.appSettings)
      ensures allCommits == old(allCommits) && filteredCommits == old(filteredCommits)
      ensures messageBoxes == old(messageBoxes) && commentBoxes == old(commentBoxes) && listing == old(listing)
    {
      if c.sha !in messageBoxes || c.sha !in commentBoxes {
        return;
      }
      var ok;
      if commentBoxes[c.sha] {
        ok := database.MarkCommitProcessed(repository, c.sha, "comments", None, None, None, now);
      } else {
        ok := database.MarkCommitUnprocessed(repository, c.sha, "comments");
      }
      Reselect(c);
    }

    /**
     * The loop of the two "select all" handlers: each listed commit that has a
     * box of `kind` gets the box set to `on` and is marked or unmarked for `kind`.
     */
    method SetAllBoxes(boxes: map<string, bool>, kind: string, on: bool, now: Time) returns (r: map<string, bool>)
      requires Valid()
      modifies database
      ensures Valid()
      ensures r == SetBoxes(boxes, filteredCommits, on)
      ensures database.rows == if database.available then MarkEach(old(database.rows), repository, filteredCommits, boxes, kind, on, now) else old(database.rows)
      ensures database.available == old(database.available) && database.appSettings == old(database.appSettings)
    {
      r := boxes;
      var i := 0;
      while i < |filteredCommits|
        invariant 0 <= i <= |filteredCommits|
        invariant database.Valid()
        invariant r == SetBoxes(boxes, filteredCommits[..i], on)
        invariant database.rows == if database.available then MarkEach(old(database.rows), repository, filteredCommits[..i], boxes, kind, on, now) else old(database.rows)
        invariant database.available == old(database.available) && database.appSettings == old(database.appSettings)
      {
        var c := filteredCommits[i];
        assert filteredCommits[..i + 1][..i] == filteredCommits[..i];
        if c.sha in boxes {
          r := r[c.sha := on];
          var ok;
          if on {
            ok := database.MarkCommitProcessed(repository, c.sha, kind, None, None, None, now);
          } else {
            ok := database.MarkCommitUnprocessed(repository, c.sha, kind);
          }
        }
        i := i + 1;
      }
      assert filteredCommits[..i] == filteredCommits;
    }

    /**
     * `_update_selection_from_checkboxes`: the selection becomes the listed
     * commits one of whose boxes is checked, in list order.
     */
    method UpdateSelectionFromCheckboxes()
      modifies this`selectedCommits
      ensures selectedCommits == Selection(filteredCommits, messageBoxes, commentBoxes)
      ensures allCommits == old(allCommits) && filteredCommits == old(filteredCommits)
      ensures messageBoxes == old(messageBoxes) && commentBoxes == old(commentBoxes) && listing == old(listing)
    {
      var commits, mb, cb := filteredCommits, messageBoxes, commentBoxes;
      var selection := [];
      var i := 0;
      while i < |commits|
        modifies {}
        invariant 0 <= i <= |commits|
        invariant selection == Selection(commits[..i], mb, cb)
      {
        var c := commits[i];
        ghost var before := selection;
        if c.sha in mb && c.sha in cb && (mb[c.sha] || cb[c.sha]) {
          selection := selection + [c];
        }
        assert selection == before + if Ticked(mb, cb, c) then [c] else [];
        SelectionSnoc(commits, i, mb, cb);
        i := i + 1;
      }
      assert commits[..i] == commits;
      selectedCommits := selection;
    }

    /** `_toggle_select_all_messages`, with the "select all" box's new state `on`. */
    method ToggleSelectAllMessages(on: bool, now: Time)
      requires Valid()
      modifies this, database
      ensures Valid()
      ensures messageBoxes == SetBoxes(old(messageBoxes), filteredCommits, on) && commentBoxes == old(commentBoxes)
      ensures database.rows == if database.available then MarkEach(old(database.rows), repository, filteredCommits, old(messageBoxes), "message", on, now) else old(database.rows)
      ensures database.available == old(database.available) && database.appSettings == old(database.appSettings)
      ensures selectedCommits == Selection(filteredCommits, messageBoxes, commentBoxes)
      ensures allCommits == old(allCommits) && filteredCommits == old(filteredCommits) && listing == old(listing)
    {
      var boxes := SetAllBoxes(messageBoxes, "message", on, now);
      messageBoxes := boxes;
      UpdateSelectionFromCheckboxes();
    }

    /** `_toggle_select_all_comments`, with the "select all" box's new state `on`. */
    method ToggleSelectAllComments(on: bool, now: Time)
      requires Valid()
      modifies this, database
      ensures Valid()
      ensures commentBoxes == SetBoxes(old(commentBoxes), filteredCommits, on) && messageBoxes == old(messageBoxes)
      ensures database.rows == if database.available then MarkEach(old(database.rows), repository, filteredCommits, old(commentBoxes), "comments", on, now) else old(database.rows)
      ensures database.available == old(database.available) && database.appSettings == old(database.appSettings)
      ensures selectedCommits == Selection(filteredCommits, messageBoxes, commentBoxes)
      ensures allCommits == old(allCommits) && filteredCommits == old(filteredCommits) && listing == old(listing)
    {
      var boxes := SetAllBoxes(commentBoxes, "comments", on, now);
      commentBoxes := boxes;
      UpdateSelectionFromCheckboxes();
    }

    /** `get_selected_commits`: a copy of the selection. */
    function GetSelectedCommits(): (r: seq<Commit>)
      reads this
    {
      selectedCommits
    }

    /**
     * `clear_selection` as written: the selection is emptied, then the read of
     * `select_all_var`, which this class never creates, raises
     * AttributeError, so no box is unchecked and the window is not told.
     */
    method ClearSelection() returns (r: Result<()>)
      modifies this
      ensures r == Failure("'CommitBrowser' object has no attribute 'select_all_var'")
      ensures selectedCommits == []
      ensures allCommits == old(allCommits) && filteredCommits == old(filteredCommits)
      ensures messageBoxes == old(messageBoxes) && commentBoxes == old(commentBoxes) && listing == old(listing)
    {
      selectedCommits := [];
      r := Failure("'CommitBrowser' object has no attribute 'select_all_var'");
    }
  }
}
