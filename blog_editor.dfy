// The blog editor (`BlogEditor` in gui/blog_editor.py): it checks that there
// are commits, a provider and a prompt, asks the AI manager for an entry on a
// worker thread, shows the text, and saves it with a small frontmatter block
// to the generated-entries directory.
//
// The worker thread is split in two: `GenerateBlogEntry` and
// `RegenerateWithDifferentProvider` run up to the thread's start and record
// what the thread was started with; the `Finish…` methods apply what the
// thread's callbacks do with its result. What the service answers, the clock
// and a failing directory creation or write are parameters.
module BlogEditing {
  import opened Wrappers
  import opened Text
  import opened Clock
  import opened Commits
  import opened CommitSummary
  import opened Files
  import opened AiProviders
  import opened AiManager
  import Settings
  import G = Generation

  // ------------------------------------------------------------ the request

  /** The lines of a block, each followed by a newline. */
  function Terminated(lines: seq<string>): string
  {
    if lines == [] then [] else lines[0] + "\n" + Terminated(lines[1..])
  }

  /** `commit.date.strftime('%Y-%m-%d %H:%M:%S') if commit.date else 'Unknown'`. */
  function DateTextOr(d: Option<Time>): string
  {
    if d.Some? then DateTimeText(d.value) else "Unknown"
  }

  /** The head of a commit's block in the request: sha, author, date and the whole message. */
  function CommitHead(c: Commit): string
  {
    "Commit: " + c.sha + "\nAuthor: " + AuthorLabel(c) + "\nDate: " + DateTextOr(c.date) + "\nMessage: " + c.message
  }

  /** One commit's block of `_prepare_commit_data`: the head, a blank line, then up to five files and a count of the rest. */
  function CommitBlock(c: Commit): string
  {
    "\n" + CommitHead(c) + "\n\n" + Terminated(FileSection(c.files, 5))
  }

  /** The blocks of a list of commits, in order. */
  function Blocks(commits: seq<Commit>): (r: seq<string>)
    ensures |r| == |commits| && forall k | 0 <= k < |commits| :: r[k] == CommitBlock(commits[k])
  {
    seq(|commits|, k requires 0 <= k < |commits| => CommitBlock(commits[k]))
  }

  lemma {:induction false} BlocksStep(commits: seq<Commit>, i: nat)
    requires i < |commits|
    ensures Blocks(commits[..i + 1]) == Blocks(commits[..i]) + [CommitBlock(commits[i])]
  {
    var a, b := Blocks(commits[..i + 1]), Blocks(commits[..i]) + [CommitBlock(commits[i])];
    assert |a| == |b|;
    forall k | 0 <= k < |a|
      ensures a[k] == b[k]
    {
      assert commits[..i + 1][k] == commits[k];
    }
  }

  /** `_prepare_commit_data`: the commits' blocks joined by newlines. */
  function EditorCommitData(commits: seq<Commit>): string
  {
    Join(Blocks(commits), "\n")
  }

  /** The text the worker thread sends: the prompt (stripped when the button was pressed), then the commit data under its heading. */
  function GenerationRequest(prompt: string, commits: seq<Commit>): string
  {
    prompt + "\n\nCommit Data:\n" + EditorCommitData(commits)
  }

  /** A text occurs at the start of any text it begins. */
  lemma {:induction false} OccursAtStart(a: string, b: string)
    ensures OccursAt(a + b, a, 0)
  {
    assert (a + b)[0..|a|] == a;
  }

  /** An occurrence in a tail is an occurrence in the whole, shifted by the head. */
  lemma {:induction false} OccursShifted(a: string, b: string, u: string, j: int)
    requires OccursAt(b, u, j)
    ensures OccursAt(a + b, u, |a| + j)
  {
    assert (a + b)[|a| + j..|a| + j + |u|] == b[j..j + |u|];
  }

  /** An occurrence inside an occurrence is an occurrence. */
  lemma {:induction false} OccursWithin(s: string, t: string, u: string, i: int, j: int)
    requires OccursAt(s, t, i) && OccursAt(t, u, j)
    ensures OccursAt(s, u, i + j)
  {
    assert s[i..i + |t|] == t;
    forall m | 0 <= m < |u|
      ensures s[i + j..i + j + |u|][m] == u[m]
    {
      assert s[i + j + m] == s[i..i + |t|][j + m] == t[j + m] == t[j..j + |u|][m];
    }
    assert s[i + j..i + j + |u|] == u;
  }

  /** Each part of a joined text occurs in it. */
  lemma {:induction false} JoinHasPart(parts: seq<string>, sep: string, k: nat) returns (i: nat)
    requires k < |parts|
    ensures OccursAt(Join(parts, sep), parts[k], i)
    decreases |parts|
  {
    if |parts| == 1 {
      OccursAtStart(parts[0], []);
      assert parts[0] + [] == parts[0] == Join(parts, sep);
      i := 0;
    } else {
      var rest := Join(parts[1..], sep);
      assert Join(parts, sep) == parts[0] + sep + rest;
      if k == 0 {
        OccursAtStart(parts[0], sep + rest);
        assert parts[0] + (sep + rest) == parts[0] + sep + rest;
        i := 0;
      } else {
        var j := JoinHasPart(parts[1..], sep, k - 1);
        assert parts[1..][k - 1] == parts[k];
        OccursShifted(parts[0] + sep, rest, parts[k], j);
        i := |parts[0] + sep| + j;
      }
    }
  }

  /** A piece of one part of a joined text, behind a heading, is in the whole. */
  lemma {:induction false} PieceOfPartIn(head: string, parts: seq<string>, sep: string, k: nat, pre: string, h: string, tail: string)
    requires k < |parts| && parts[k] == pre + h + tail
    ensures Contains(head + Join(parts, sep), h)
  {
    var data := Join(parts, sep);
    var j := JoinHasPart(parts, sep, k);
    OccursAtStart(h, tail);
    OccursShifted(pre, h + tail, h, 0);
    assert pre + (h + tail) == parts[k];
    OccursWithin(data, parts[k], h, j, |pre|);
    OccursShifted(head, data, h, j + |pre|);
    ContainsOccurs(head + data, h);
  }

  /** A commit's block is a newline, its head, then the rest. */
  lemma {:induction false} BlockOpensWithHead(commits: seq<Commit>, k: nat)
    requires k < |commits|
    ensures Blocks(commits)[k] == "\n" + CommitHead(commits[k]) + ("\n\n" + Terminated(FileSection(commits[k].files, 5)))
  {
  }

  /** Every commit's head, with its sha, author, date and message, is in the request. */
  lemma {:induction false} CommitInRequest(prompt: string, commits: seq<Commit>, k: nat)
    requires k < |commits|
    ensures Contains(GenerationRequest(prompt, commits), CommitHead(commits[k]))
  {
    BlockOpensWithHead(commits, k);
    PieceOfPartIn(prompt + "\n\nCommit Data:\n", Blocks(commits), "\n", k, "\n", CommitHead(commits[k]), "\n\n" + Terminated(FileSection(commits[k].files, 5)));
  }

  /** The request opens with the prompt and the commit-data heading. */
  lemma {:induction false} RequestOpensWithPrompt(prompt: string, commits: seq<Commit>)
    ensures StartsWith(GenerationRequest(prompt, commits), prompt + "\n\nCommit Data:\n")
  {
    OccursAtStart(prompt + "\n\nCommit Data:\n", EditorCommitData(commits));
  }

  // ------------------------------------------------------------ what the thread shows

  /** The parts of the editor a finished generation changes: the text, the info line and the save button. */
  datatype View = View(content: string, info: string, saveEnabled: bool)

  /**
   * The callbacks a finished thread schedules, as evidently intended. `None`
   * is the thread of the code as written: it never ran the generation (see
   * `FinishGenerationAsWritten`), and reading `.text` of what it got raises
   * inside the callback before anything changes. A success shows the text,
   * sets the info line and enables saving; a failure only reports it on the
   * info line, with the error text bound before the callback is scheduled.
   */
  function AfterGeneration(v: View, d: Option<Dispatch>, successInfo: string): (r: View)
  {
    match d
    case None => v
    case Some(dispatch) =>
      match dispatch.result
      case Success(response) => View(response.text, successInfo, true)
      case Failure(e) => v.(info := "Generation failed: " + e)
  }

  /** A success shows exactly the generated text and enables saving; a failure keeps the text and the button. */
  lemma {:induction false} AfterGenerationShows(v: View, d: Dispatch, successInfo: string)
    ensures d.result.Success? ==>
      AfterGeneration(v, Some(d), successInfo) == View(d.result.value.text, successInfo, true)
    ensures d.result.Failure? ==>
      AfterGeneration(v, Some(d), successInfo).content == v.content
      && AfterGeneration(v, Some(d), successInfo).saveEnabled == v.saveEnabled
      && StartsWith(AfterGeneration(v, Some(d), successInfo).info, "Generation failed: ")
  {
  }

  /**
   * The callbacks of a thread that did run the generation, as the `except`
   * clause is written: its callback is a lambda reading the clause's `e`,
   * which Python unbinds when the clause ends, so when Tk runs the callback
   * it raises NameError before the message box or the info line changes.
   */
  function AfterGenerationAsWritten(v: View, d: Dispatch, successInfo: string): (r: View)
    ensures d.result.Success? ==> r == AfterGeneration(v, Some(d), successInfo)
  {
    match d.result
    case Success(response) => View(response.text, successInfo, true)
    case Failure(_) => v
  }

  /**
   * The discrepancy of the error callback: a failed generation is reported
   * on the info line when the error text is bound first, and leaves the
   * editor exactly as it was as written.
   */
  lemma {:induction false} LostErrorReport(v: View, d: Dispatch, successInfo: string)
    requires d.result.Failure? && !StartsWith(v.info, "Generation failed: ")
    ensures AfterGenerationAsWritten(v, d, successInfo) == v
    ensures AfterGeneration(v, Some(d), successInfo) != v
  {
    var r := AfterGeneration(v, Some(d), successInfo);
    assert r.info[..|"Generation failed: "|] == "Generation failed: ";
  }

  /**
   * The discrepancy of the code as written: whatever the service would have
   * answered, the un-run generation leaves the editor as it was, while running
   * it shows a new answer.
   */
  lemma {:induction false} UnawaitedGenerationShowsNothing(v: View, d: Dispatch, successInfo: string)
    requires d.result.Success? && d.result.value.text != v.content
    ensures AfterGeneration(v, None, successInfo) == v
    ensures AfterGeneration(v, Some(d), successInfo) != v
  {
  }

  /** `str(self.selected_provider)`. */
  function ProviderText(p: Option<string>): string
  {
    if p.Some? then p.value else "None"
  }

  // ------------------------------------------------------------ saving

  /** The file name `_save_blog_entry` uses: the repository with `/` made `_`, the time stamp, `.md`. */
  function EditorFileName(repository: string, now: Time): (r: string)
    ensures '/' !in r && EndsWith(r, ".md")
  {
    var name := ReplaceChar(repository, '/', '_') + "_" + Stamp(now) + ".md";
    assert name[|name| - 3..] == ".md";
    assert '/' !in Stamp(now) by {
      assert Stamp(now) == CompactDateText(now) + "_" + ClockDigits(now);
      assert ClockDigits(now) == Pad(Hour(now), 2) + Pad(Minute(now), 2) + Pad(Second(now), 2);
    }
    name
  }

  /** The lines between the frontmatter's fences: title, date, repository, commit count and provider. */
  function FrontmatterFields(repository: string, now: Time, count: nat, provider: Option<string>): string
  {
    "title: Development Blog Entry - " + ReplaceChar(repository, '/', '_') + "\n"
      + "date: " + DateTimeText(now) + "\n"
      + "repository: " + repository + "\n"
      + "commits: " + NatText(count) + "\n"
      + "generated_by: " + ProviderText(provider) + "\n"
  }

  /** The frontmatter block `_save_blog_entry` writes before the text: the fields between `---` fences, then a blank line. */
  function EditorFrontmatter(repository: string, now: Time, count: nat, provider: Option<string>): (r: string)
    ensures StartsWith(r, "---\n") && EndsWith(r, "---\n\n")
    ensures |r| == |FrontmatterFields(repository, now, count, provider)| + 9
    ensures r[4..|r| - 5] == FrontmatterFields(repository, now, count, provider)
  {
    var fields := FrontmatterFields(repository, now, count, provider);
    var r := "---\n" + fields + "---\n\n";
    assert r[..4] == "---\n";
    assert r[|r| - 5..] == "---\n\n";
    assert r[4..|r| - 5] == fields;
    r
  }

  /** The saved file lies directly in the directory and matches `*.md`, so the storage's listing of the directory finds it. */
  lemma {:induction false} EditorFileListed(dir: string, repository: string, now: Time)
    ensures IsMarkdownIn(dir, G.EntryPath(dir, EditorFileName(repository, now)))
  {
    var name := EditorFileName(repository, now);
    var path := G.EntryPath(dir, name);
    assert path == (dir + "/") + name;
    assert path[..|dir| + 1] == dir + "/";
    assert path[|dir| + 1..] == name;
    assert path[|path| - 3..] == name[|name| - 3..];
  }

  /** What the save button did. */
  datatype SaveOutcome = NoContent | Saved(path: string) | SaveError(message: string)

  /** What the generate and regenerate buttons did. */
  datatype Start = Ignored | Warning(title: string, message: string) | Started(prompt: string)

  /** A running worker thread: the stripped prompt it was given, and for a regeneration the provider name it reports. */
  datatype Pending = Pending(prompt: string, regeneratedWith: Option<string>)

  /** The default prompt the settings hold, when it is a non-empty text. */
  function PromptOf(v: Settings.Value): Option<string>
  {
    if v.Leaf? && v.atom.AStr? && v.atom.s != [] then Some(v.atom.s) else None
  }

  /**
   * What the generate button does: nothing while a generation runs, then a
   * warning for no commits, no provider chosen or a blank prompt, in that
   * order; otherwise a generation with the stripped prompt.
   */
  function GenerateStart(inProgress: bool, commits: seq<Commit>, selected: Option<string>, prompt: string): (r: Start)
    ensures inProgress ==> r == Ignored
    ensures r.Started? <==> !inProgress && commits != [] && selected.Some? && selected.value != [] && Strip(prompt) != []
    ensures r.Started? ==> r.prompt == Strip(prompt) && r.prompt != []
    ensures r.Warning? && commits == [] ==> r.title == "No Commits"
    ensures r.Warning? && commits != [] && selected.Some? && selected.value != [] ==> r.title == "No Prompt"
  {
    if inProgress then Ignored
    else if commits == [] then Warning("No Commits", "No commits selected for blog generation.")
    else if selected.None? || selected.value == [] then Warning("No Provider", "Please select an AI provider.")
    else if Strip(prompt) == [] then Warning("No Prompt", "Please enter a prompt for blog generation.")
    else Started(Strip(prompt))
  }

  /**
   * What a regeneration with a named provider does: a warning for no
   * commits, a blank prompt, or a provider that is unknown or not configured,
   * in that order; otherwise a generation with the stripped prompt. Unlike the
   * generate button it is never ignored, even while a generation runs.
   */
  function RegenerateStart(commits: seq<Commit>, prompt: string, name: string, available: bool): (r: Start)
    ensures !r.Ignored?
    ensures r.Started? <==> commits != [] && Strip(prompt) != [] && available
    ensures r.Started? ==> r.prompt == Strip(prompt) && r.prompt != []
    ensures commits != [] && Strip(prompt) != [] && !available ==>
      r == Warning("Provider Not Available", "Provider " + name + " is not configured.")
  {
    if commits == [] then Warning("No Commits", "No commits available for regeneration.")
    else if Strip(prompt) == [] then Warning("No Prompt", "Please enter a prompt for blog generation.")
    else if !available then Warning("Provider Not Available", "Provider " + name + " is not configured.")
    else Started(Strip(prompt))
  }

  /** One commit's summary, with the file lines built one at a time. */
  method BuildCommitBlock(c: Commit) returns (block: string)
    ensures block == CommitBlock(c)
  {
    var files := BuildFileSection(c.files, 5);
    block := "\n" + CommitHead(c) + "\n\n" + Terminated(files);
  }

  /** `_prepare_commit_data`, the loop over the commits. */
  method PrepareCommitData(commits: seq<Commit>) returns (data: string)
    ensures data == EditorCommitData(commits)
  {
    var blocks: seq<string> := [];
    var i := 0;
    while i < |commits|
      invariant 0 <= i <= |commits|
      invariant blocks == Blocks(commits[..i])
    {
      var block := BuildCommitBlock(commits[i]);
      BlocksStep(commits, i);
      blocks := blocks + [block];
      i := i + 1;
    }
    assert commits[..i] == commits;
    data := Join(blocks, "\n");
  }

  /** The text the worker thread builds and sends. */
  method RequestText(prompt: string, commits: seq<Commit>) returns (request: string)
    ensures request == GenerationRequest(prompt, commits)
  {
    var data := PrepareCommitData(commits);
    request := prompt + "\n\nCommit Data:\n" + data;
  }

  /** `get_provider(name)` found a provider and it `is_configured()`. */
  predicate Available(m: ProviderManager, name: string)
    reads m, m.providers.Values
  {
    name in m.providers && m.providers[name].IsConfigured()
  }

  /**
   * What a generation by the named provider returns: that provider's
   * generation when it is registered and configured, otherwise the error
   * `regenerate_with_different_provider`'s check reports.
   */
  function ChosenDispatch(m: ProviderManager, name: string, request: string, reply: Reply): (d: Dispatch)
    requires m.Valid()
    reads m, m.settings, m.providers.Values
    ensures d.result.Success? ==> name in m.providers && d.result.value.provider == name
    ensures d.sent.Some? ==>
      && name in m.providers && m.providers[name].IsConfigured()
      && d.sent.value == m.providers[name].RequestFor(request, Some(2000), Some(0.7))
  {
    if name in m.providers && m.providers[name].IsConfigured() then
      m.providers[name].GenerateText(request, Some(2000), Some(0.7), reply)
    else Dispatch(None, Failure("Provider " + name + " is not configured"))
  }

  /** The info line a success shows: the time and the provider the thread reports (the selected one for a generation). */
  function SuccessInfo(p: Pending, selected: Option<string>, now: Time): string
  {
    if p.regeneratedWith.Some? then "Regenerated on " + DateTimeText(now) + " using " + p.regeneratedWith.value
    else "Generated on " + DateTimeText(now) + " using " + ProviderText(selected)
  }

  // ------------------------------------------------------------ the editor

  class BlogEditor {
    const aiManager: ProviderManager
    const settings: Settings.Settings
    const commits: seq<Commit>
    const repository: string
    var generationInProgress: bool
    /** `current_blog_content`, the info line and the save button's state. */
    var view: View
    var selectedProvider: Option<string>
    /** The prompt box's text. */
    var prompt: string
    var pending: Option<Pending>

    ghost predicate Valid()
      reads aiManager, aiManager.settings, aiManager.providers.Values, settings
    {
      aiManager.Valid() && settings.Valid()
    }

    /** `__init__` with `_load_initial_content`: the active provider selected and the default prompt filled in. */
    constructor (aiManager: ProviderManager, settings: Settings.Settings, commits: seq<Commit>, repository: string)
      requires aiManager.Valid() && settings.Valid()
      ensures Valid() && this.aiManager == aiManager && this.settings == settings
      ensures this.commits == commits && this.repository == repository
      ensures !generationInProgress && pending.None?
      ensures view == View("", "Ready to generate blog entry", false)
      ensures selectedProvider == if aiManager.GetActiveProvider().Some? then Some(aiManager.GetActiveProvider().value.name) else None
      ensures prompt == PromptOf(settings.ValueUnder(["ui", "default_prompt"], Settings.S(""))).GetOr("")
    {
      this.aiManager := aiManager;
      this.settings := settings;
      this.commits := commits;
      this.repository := repository;
      generationInProgress := false;
      view := View("", "Ready to generate blog entry", false);
      pending := None;
      var active := aiManager.GetActiveProvider();
      selectedProvider := if active.Some? then Some(active.value.name) else None;
      var v := settings.GetDefaultPrompt();
      prompt := PromptOf(v).GetOr("");
    }

    /**
     * `_generate_blog_entry` up to the thread's start (see `GenerateStart`);
     * a started generation shows that it is generating and records the
     * prompt its thread was started with.
     */
    method GenerateBlogEntry() returns (o: Start)
      modifies this`generationInProgress, this`view, this`pending
      ensures o == GenerateStart(old(generationInProgress), commits, old(selectedProvider), old(prompt))
      ensures o.Started? ==>
        generationInProgress && pending == Some(Pending(o.prompt, None))
        && view == old(view).(info := "Generating blog entry...")
      ensures !o.Started? ==> generationInProgress == old(generationInProgress) && view == old(view) && pending == old(pending)
    {
      o := GenerateStart(generationInProgress, commits, selectedProvider, prompt);
      if o.Started? {
        generationInProgress := true;
        view := view.(info := "Generating blog entry...");
        pending := Some(Pending(o.prompt, None));
      }
    }

    /**
     * `regenerate_with_different_provider` up to the thread's start (see
     * `RegenerateStart`); a started regeneration makes the named provider the
     * selected one.
     */
    method RegenerateWithDifferentProvider(name: string) returns (o: Start)
      modifies this`selectedProvider, this`generationInProgress, this`view, this`pending
      ensures o == RegenerateStart(commits, old(prompt), name, old(Available(aiManager, name)))
      ensures o.Started? ==>
        generationInProgress && selectedProvider == Some(name)
        && pending == Some(Pending(o.prompt, Some(name))) && view == old(view).(info := "Generating blog entry...")
      ensures !o.Started? ==>
        generationInProgress == old(generationInProgress) && selectedProvider == old(selectedProvider)
        && view == old(view) && pending == old(pending)
    {
      var available := Available(aiManager, name);
      o := RegenerateStart(commits, prompt, name, available);
      if o.Started? {
        selectedProvider := Some(name);
        generationInProgress := true;
        view := view.(info := "Generating blog entry...");
        pending := Some(Pending(o.prompt, Some(name)));
      }
    }

    /**
     * The worker thread as written: it calls `generate_with_active`, an
     * `async def`, without awaiting it, so no provider is asked; the callback
     * then reads `.text` of the coroutine, raises AttributeError and changes
     * nothing, and the `finally` clears the running flag.
     */
    method FinishGenerationAsWritten(now: Time)
      requires pending.Some?
      modifies this`generationInProgress, this`pending
      ensures view == old(view)
      ensures !generationInProgress && pending.None?
    {
      generationInProgress := false;
      pending := None;
    }

    /**
     * The worker thread as evidently intended: the generation is run, with
     * `max_tokens=2000` and `temperature=0.7`, by the selected provider (the
     * one a regeneration named), and its result is shown.
     */
    method FinishGeneration(reply: Reply, now: Time) returns (d: Dispatch)
      requires Valid() && pending.Some?
      modifies this`generationInProgress, this`view, this`pending
      ensures d == old(ChosenDispatch(aiManager, ProviderText(selectedProvider), GenerationRequest(pending.value.prompt, commits), reply))
      ensures view == AfterGeneration(old(view), Some(d), SuccessInfo(old(pending).value, old(selectedProvider), now))
      ensures !generationInProgress && pending.None?
    {
      var p := pending.value;
      var request := RequestText(p.prompt, commits);
      d := ChosenDispatch(aiManager, ProviderText(selectedProvider), request, reply);
      view := AfterGeneration(view, Some(d), SuccessInfo(p, selectedProvider, now));
      generationInProgress := false;
      pending := None;
    }

    /** The directory `get_generated_entries_dir` names, when the setting holds text. */
    function EntriesDir(): Option<string>
      reads settings
    {
      G.EntriesDirOf(settings.ValueUnder(["paths", "generated_entries"], Settings.S("Generated_entries")))
    }

    /**
     * `_save_blog_entry`: nothing to save without text; otherwise the
     * frontmatter and the text written to `<dir>/<repo>_<stamp>.md`, or the
     * error the directory or the write raised.  The clock is read twice:
     * `now` for the file name's stamp, `dated` for the `date:` line.
     */
    method SaveBlogEntry(disk: Disk, now: Time, dated: Time, failure: Option<string>) returns (o: SaveOutcome)
      requires Valid() && disk.Valid()
      modifies disk
      ensures disk.Valid()
      ensures view.content == [] <==> o == NoContent
      ensures o.Saved? <==> view.content != [] && EntriesDir().Some? && failure.None?
      ensures o.Saved? ==>
        && o.path == G.EntryPath(EntriesDir().value, EditorFileName(repository, now))
        && IsMarkdownIn(EntriesDir().value, o.path)
        && disk.contents == old(disk.contents)[o.path := EditorFrontmatter(repository, dated, |commits|, selectedProvider) + view.content]
        && disk.paths == if o.path in old(disk.paths) then old(disk.paths) else old(disk.paths) + [o.path]
      ensures !o.Saved? ==> disk.contents == old(disk.contents) && disk.paths == old(disk.paths)
      ensures o.SaveError? ==> o.message == G.SaveFailed(if EntriesDir().None? then G.NotAPath else failure.value)
    {
      if view.content == [] {
        return NoContent;
      }
      var v := settings.GetGeneratedEntriesDir();
      var dir := G.EntriesDirOf(v);
      if dir.None? {
        return SaveError(G.SaveFailed(G.NotAPath));
      }
      if failure.Some? {
        return SaveError(G.SaveFailed(failure.value));
      }
      var name := EditorFileName(repository, now);
      var path := G.EntryPath(dir.value, name);
      EditorFileListed(dir.value, repository, now);
      disk.Write(path, EditorFrontmatter(repository, dated, |commits|, selectedProvider) + view.content);
      o := Saved(path);
    }

    /** `_reset_editor`: the text cleared, saving disabled, the prompt back to the default when there is one. */
    method ResetEditor()
      requires settings.Valid()
      modifies this`view, this`prompt
      ensures view == View("", "Ready to generate blog entry", false)
      ensures prompt == old(PromptOf(settings.ValueUnder(["ui", "default_prompt"], Settings.S(""))).GetOr(prompt))
    {
      view := View("", "Ready to generate blog entry", false);
      var v := settings.GetDefaultPrompt();
      var d := PromptOf(v);
      if d.Some? {
        prompt := d.value;
      }
    }

    /** `get_blog_content`. */
    function GetBlogContent(): string
      reads this
    {
      view.content
    }

    /** `set_blog_content`: the text shown and saving enabled. */
    method SetBlogContent(content: string, now: Time)
      modifies this`view
      ensures view == View(content, "Content loaded on " + DateTimeText(now), true)
      ensures GetBlogContent() == content
    {
      view := View(content, "Content loaded on " + DateTimeText(now), true);
    }
  }

}
