// The texts `BlogGenerator` (`blog/generator.py`) builds from a commit
// selection: the summary sent to the model and the references appended
// to the entry.
module CommitSummary {
  import opened Wrappers
  import opened Text
  import opened Clock
  import opened Commits

  function Min(a: nat, b: nat): nat { if a < b then a else b }

  // ------------------------------------------------------ the commit summary

  /** `file_info.get(key, 'Unknown')`. */
  function OrUnknown(x: Option<string>): string
  {
    if x.Some? then x.value else "Unknown"
  }

  /** One file of a commit: status and name, then the line counts that are not zero. */
  function FileLine(f: FileStat): (r: string)
    ensures StartsWith(r, "  " + OrUnknown(f.status) + " " + OrUnknown(f.filename))
    ensures f.additions == 0 && f.deletions == 0 ==> r == "  " + OrUnknown(f.status) + " " + OrUnknown(f.filename)
    ensures f.additions != 0 && f.deletions == 0 ==>
      r == "  " + OrUnknown(f.status) + " " + OrUnknown(f.filename) + " (+" + IntText(f.additions) + ")"
  {
    "  " + OrUnknown(f.status) + " " + OrUnknown(f.filename)
      + (if f.additions != 0 then " (+" + IntText(f.additions) + ")" else "")
      + (if f.deletions != 0 then " (-" + IntText(f.deletions) + ")" else "")
  }

  function FileLines(files: seq<FileStat>): (r: seq<string>)
    ensures |r| == |files| && forall k | 0 <= k < |files| :: r[k] == FileLine(files[k])
  {
    seq(|files|, k requires 0 <= k < |files| => FileLine(files[k]))
  }

  function MoreFiles(n: nat): string
  {
    "  ... and " + NatText(n) + " more files"
  }

  /**
   * The file block of one commit: nothing without files; otherwise a
   * heading, the first `cap` files, and a count of the rest if there are any.
   */
  function FileSection(files: seq<FileStat>, cap: nat): (r: seq<string>)
    ensures files == [] <==> r == []
    ensures files != [] ==> r[0] == "Files Changed:"
    ensures |r| == if files == [] then 0 else 1 + Min(|files|, cap) + (if |files| > cap then 1 else 0)
    ensures forall k | 0 <= k < Min(|files|, cap) :: r[1 + k] == FileLine(files[k])
    ensures |files| > cap ==> r[|r| - 1] == MoreFiles(|files| - cap)
  {
    if files == [] then []
    else
      ["Files Changed:"] + FileLines(files[..Min(|files|, cap)])
        + (if |files| > cap then [MoreFiles(|files| - cap)] else [])
  }

  /** The file block of one commit, built one file line at a time. */
  method BuildFileSection(files: seq<FileStat>, cap: nat) returns (block: seq<string>)
    ensures block == FileSection(files, cap)
  {
    if files == [] {
      return [];
    }
    block := ["Files Changed:"];
    var shown := files[..Min(|files|, cap)];
    var i := 0;
    while i < |shown|
      invariant 0 <= i <= |shown|
      invariant block == ["Files Changed:"] + FileLines(shown[..i])
    {
      assert FileLines(shown[..i + 1]) == FileLines(shown[..i]) + [FileLine(shown[i])];
      block := block + [FileLine(shown[i])];
      i := i + 1;
    }
    assert shown[..i] == shown;
    if |files| > cap {
      block := block + [MoreFiles(|files| - cap)];
    }
  }

  /** `commit.date.strftime(...) if commit.date else 'Unknown'`. */
  function DateOr(d: Option<Time>, format: Time -> string): string
  {
    if d.Some? then format(d.value) else "Unknown"
  }

  function SectionTitle(n: nat): string
  {
    "--- Commit " + NatText(n) + " ---"
  }

  /** The five lines that open the section of the `n`-th commit. */
  function SectionTop(n: nat, c: Commit): (r: seq<string>)
    ensures |r| == 5
    ensures r[0] == SectionTitle(n) && r[1] == "SHA: " + c.sha && r[2] == "Author: " + AuthorLabel(c)
    ensures c.date.Some? ==> r[3] == "Date: " + DateTimeText(c.date.value)
    ensures c.date.None? ==> r[3] == "Date: Unknown"
    ensures r[4] == "Message: " + c.message
  {
    [SectionTitle(n), "SHA: " + c.sha, "Author: " + AuthorLabel(c),
     "Date: " + DateOr(c.date, DateTimeText), "Message: " + c.message]
  }

  /** The lines describing the `n`-th commit (counting from 1). */
  function CommitSection(n: nat, c: Commit): (r: seq<string>)
    ensures |r| >= 6 && r[|r| - 1] == ""
  {
    SectionTop(n, c) + FileSection(c.files, 10) + [""]
  }

  /** The summary's opening lines: the repository and how many commits follow. */
  function DataHeader(repository: string, count: nat): (r: seq<string>)
    ensures |r| == 3
  {
    ["Repository: " + repository, "Total Commits: " + NatText(count), ""]
  }

  /**
   * The summary lines for `total` commits once the first |commits| of
   * them are written: the header, then their sections numbered from 1.
   */
  function SummaryLines(commits: seq<Commit>, repository: string, total: nat): (r: seq<string>)
    ensures |r| >= 3 + |commits|
  {
    if commits == [] then DataHeader(repository, total)
    else SummaryLines(commits[..|commits| - 1], repository, total) + CommitSection(|commits|, commits[|commits| - 1])
  }

  /** `_prepare_commit_data`: the summary the model is given. */
  function CommitData(commits: seq<Commit>, repository: string): string
  {
    Join(SummaryLines(commits, repository, |commits|), "\n")
  }

  /** `_prepare_commit_data`, appending the lines commit by commit and file by file. */
  method PrepareCommitData(commits: seq<Commit>, repository: string) returns (data: string)
    ensures data == CommitData(commits, repository)
  {
    var sections := DataHeader(repository, |commits|);
    var i := 0;
    while i < |commits|
      invariant 0 <= i <= |commits|
      invariant sections == SummaryLines(commits[..i], repository, |commits|)
    {
      var c := commits[i];
      var files := BuildFileSection(c.files, 10);
      SummarySnoc(commits, repository, |commits|, i);
      sections := sections + (SectionTop(i + 1, c) + files + [""]);
      i := i + 1;
    }
    assert commits[..i] == commits;
    data := Join(sections, "\n");
  }

  lemma {:induction false} SummarySnoc(commits: seq<Commit>, repository: string, total: nat, i: nat)
    requires i < |commits|
    ensures SummaryLines(commits[..i + 1], repository, total)
      == SummaryLines(commits[..i], repository, total) + CommitSection(i + 1, commits[i])
  {
    assert commits[..i + 1][..i] == commits[..i];
  }

  /** The summary opens with the repository and the number of commits. */
  lemma {:induction false} SummaryOpens(commits: seq<Commit>, repository: string, total: nat)
    ensures SummaryLines(commits, repository, total)[0] == "Repository: " + repository
    ensures SummaryLines(commits, repository, total)[1] == "Total Commits: " + NatText(total)
  {
    if commits != [] {
      SummaryOpens(commits[..|commits| - 1], repository, total);
    }
  }

  /** A commit's section opens with its number, sha, author and message. */
  lemma {:induction false} SectionOpens(n: nat, c: Commit)
    ensures CommitSection(n, c)[0] == SectionTitle(n)
    ensures CommitSection(n, c)[1] == "SHA: " + c.sha
    ensures CommitSection(n, c)[2] == "Author: " + AuthorLabel(c)
    ensures CommitSection(n, c)[4] == "Message: " + c.message
  {
    var top := SectionTop(n, c);
    assert CommitSection(n, c) == top + (FileSection(c.files, 10) + [""]);
  }

  /** Lines `j` to `j + 4` of `lines` open the section of commit `c`, the `k`-th from 0. */
  predicate SectionAt(lines: seq<string>, j: nat, k: nat, c: Commit)
  {
    && j + 4 < |lines|
    && lines[j] == SectionTitle(k + 1)
    && lines[j + 1] == "SHA: " + c.sha
    && lines[j + 2] == "Author: " + AuthorLabel(c)
    && lines[j + 4] == "Message: " + c.message
  }

  /**
   * Every commit has its own numbered section: the `k`-th commit (from 0)
   * is introduced as commit k + 1 and followed by its sha, author and message.
   */
  lemma {:induction false} CommitListed(commits: seq<Commit>, repository: string, total: nat, k: nat)
    requires k < |commits|
    ensures exists j: nat :: SectionAt(SummaryLines(commits, repository, total), j, k, commits[k])
  {
    var init := commits[..|commits| - 1];
    var before := SummaryLines(init, repository, total);
    var all := SummaryLines(commits, repository, total);
    assert all == before + CommitSection(|commits|, commits[|commits| - 1]);
    if k == |commits| - 1 {
      SectionOpens(|commits|, commits[k]);
      assert SectionAt(all, |before|, k, commits[k]);
    } else {
      CommitListed(init, repository, total, k);
      var j: nat :| SectionAt(before, j, k, init[k]);
      assert SectionAt(all, j, k, commits[k]);
    }
  }

  // --------------------------------------------------- the commit references

  /** One line of the reference list: short sha, author, date to the minute, first message line. */
  function ReferenceLine(c: Commit): (r: string)
    ensures StartsWith(r, "- **" + Take(c.sha, 8) + "** by ")
  {
    "- **" + Take(c.sha, 8) + "** by " + AuthorLabel(c) + " on " + DateOr(c.date, DateMinuteText)
      + ": " + FirstLine(c.message)
  }

  function ReferenceLines(commits: seq<Commit>): (r: seq<string>)
    ensures |r| == |commits| && forall k | 0 <= k < |commits| :: r[k] == ReferenceLine(commits[k])
  {
    seq(|commits|, k requires 0 <= k < |commits| => ReferenceLine(commits[k]))
  }

  const ReferencesHeading: seq<string> :=
    ["", "## Commit Details", "", "The following commits were included in this update:", ""]

  /** `_generate_commit_references`: nothing for no commits. */
  function CommitReferences(commits: seq<Commit>): (r: string)
    ensures commits == [] ==> r == ""
  {
    if commits == [] then "" else Join(ReferencesHeading + ReferenceLines(commits) + [""], "\n")
  }

  /** `_generate_commit_references`, one line per commit. */
  method GenerateCommitReferences(commits: seq<Commit>) returns (r: string)
    ensures r == CommitReferences(commits)
  {
    if commits == [] {
      return "";
    }
    var references := ReferencesHeading;
    var i := 0;
    while i < |commits|
      invariant 0 <= i <= |commits|
      invariant references == ReferencesHeading + ReferenceLines(commits[..i])
    {
      assert ReferenceLines(commits[..i + 1]) == ReferenceLines(commits[..i]) + [ReferenceLine(commits[i])];
      references := references + [ReferenceLine(commits[i])];
      i := i + 1;
    }
    assert commits[..i] == commits;
    r := Join(references + [""], "\n");
  }

  /** Joining two non-empty runs of lines puts one separator between them. */
  lemma {:induction false} JoinConcat(a: seq<string>, b: seq<string>, sep: string)
    requires a != [] && b != []
    ensures Join(a + b, sep) == Join(a, sep) + sep + Join(b, sep)
    decreases |a|
  {
    if |a| == 1 {
      assert (a + b)[1..] == b;
    } else {
      assert (a + b)[1..] == a[1..] + b;
      JoinConcat(a[1..], b, sep);
    }
  }

  /**
   * The reference section of a non-empty selection: the heading, then one
   * line per commit, then a final newline.
   */
  lemma {:induction false} ReferencesLayout(commits: seq<Commit>)
    requires commits != []
    ensures CommitReferences(commits) ==
      Join(ReferencesHeading, "\n") + "\n" + Join(ReferenceLines(commits), "\n") + "\n"
  {
    JoinClosed(ReferencesHeading, ReferenceLines(commits), "\n");
  }

  /** Joining two non-empty lists and a final empty piece ends with the separator. */
  lemma {:induction false} JoinClosed(a: seq<string>, b: seq<string>, sep: string)
    requires a != [] && b != []
    ensures Join(a + b + [""], sep) == Join(a, sep) + sep + Join(b, sep) + sep
  {
    assert a + b + [""] == a + (b + [""]);
    JoinConcat(a, b + [""], sep);
    JoinConcat(b, [""], sep);
    assert Join([""], sep) == "";
  }
}
