// The commits the generator and the commit browser work on: a GitHub commit
// with its fields typed, as the application reads them.
module Commits {
  import opened Wrappers
  import opened Clock

  /**
   * One entry of a commit's `files` list, a dictionary: the name and status
   * when present, and the line counts (a missing count reads as 0).
   */
  datatype FileStat = FileStat(filename: Option<string>, status: Option<string>, additions: int, deletions: int)

  /**
   * A commit: its sha and message, its author's name (`None` when the API
   * gives none) and login, its author date (`None` when the API gives none)
   * and its changed files (an absent list reads as no files).
   */
  datatype Commit = Commit(
    sha: string, message: string, authorName: Option<string>, authorLogin: string,
    date: Option<Time>, files: seq<FileStat>)

  /** `commit.author.name or commit.author.login or "Unknown"`: the first non-empty of the three. */
  function AuthorLabel(c: Commit): (r: string)
    ensures r != []
  {
    if c.authorName.Some? && c.authorName.value != [] then c.authorName.value
    else if c.authorLogin != [] then c.authorLogin
    else "Unknown"
  }
}
