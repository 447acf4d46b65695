// The blog generation engine (`BlogGenerator` in `blog/generator.py`): the
// checks before generating, the generation call, marking the commits
// processed, validating a selection and saving an entry.
module Generation {
  import opened Wrappers
  import opened Text
  import opened Clock
  import opened Commits
  import opened CommitSummary
  import opened EntryFormat
  import opened SelectionStats
  import opened BlogEntries
  import opened Database
  import opened AiProviders
  import opened AiManager
  import Settings
  import opened Files

  // ------------------------------------------------------ the generation call

  /** `_get_default_prompt`. */
  const BuiltInPrompt: string :=
    "Write a concise, " + "informative, and interesting development blog entry "
    + "based on the provided commit information. Focus on the most significant "
    + "changes and improvements. Write in first person as if you are the "
    + "developer describing your work. Keep the tone professional but engaging. "
    + "Highlight technical achievements, challenges overcome, and the impact "
    + "of the changes. Structure the post with a clear introduction, main content "
    + "describing the key changes, and a conclusion if appropriate."

  /**
   * The prompt `generate_blog_entry` uses: the argument unless empty, then the
   * settings' `ui.default_prompt` unless empty, then the built-in text.
   */
  function ChosenPrompt(prompt: Option<string>, configured: Settings.Value): (r: string)
    ensures r != []
    ensures prompt.Some? && prompt.value != [] ==> r == prompt.value
    ensures (prompt.None? || prompt.value == []) && configured == Settings.S([]) ==> r == BuiltInPrompt
  {
    if prompt.Some? && prompt.value != [] then prompt.value
    else if configured.Leaf? && configured.atom.AStr? && configured.atom.s != [] then configured.atom.s
    else
      assert BuiltInPrompt[0] == 'W';
      BuiltInPrompt
  }

  /** The `metadata` of a successful generation; `generated_at` stands for the time of the call. */
  datatype EntryMetadata = EntryMetadata(
    repository: string, commitCount: nat, provider: string, model: string,
    tokensUsed: Option<int>, generatedAt: Time)

  /** The `{"success": True, "content": …, "metadata": …}` result. */
  datatype Generated = Generated(content: string, metadata: EntryMetadata)

  /**
   * A call of `generate_blog_entry`: the request sent to the provider, if
   * any, and the result or the message of the BlogGenerationError raised.
   */
  datatype GenerationAttempt = GenerationAttempt(sent: Option<Request>, answer: Option<AIResponse>, result: Result<Generated>)

  /** A check that failed before any request. */
  function Refused(message: string): GenerationAttempt
  {
    GenerationAttempt(None, None, Failure(message))
  }

  /**
   * The `try` block of `generate_blog_entry` with provider `p` registered
   * as `name`: one request, then the entry built from the answer and
   * marked with the provider's name and the answer's model.
   */
  function Call(p: Provider, name: string, prompt: string, commits: seq<Commit>, repository: string,
                maxArg: Option<int>, tempArg: Option<real>, reply: Reply, now: Time): (a: GenerationAttempt)
    reads p
  {
    var d := p.GenerateText(prompt + "\n\n" + CommitData(commits, repository), maxArg, tempArg, reply);
    match d.result
    case Failure(e) =>
      GenerationAttempt(d.sent, None, Failure("Failed to generate blog entry: " + e))
    case Success(response) =>
      GenerationAttempt(d.sent, Some(response), Success(Generated(
        FormatBlogEntry(response.text, commits, repository, name, response.model, now),
        EntryMetadata(repository, |commits|, name, response.model, response.tokensUsed, now))))
  }

  /**
   * The call sends the request `generate_text` builds, or fails before
   * sending; a failure is wrapped with the generator's prefix; a success
   * carries the entry formatted from the answer's text, named after the
   * provider and its configured model.
   */
  lemma {:induction false} CallOutcome(p: Provider, name: string, prompt: string, commits: seq<Commit>, repository: string,
                    maxArg: Option<int>, tempArg: Option<real>, reply: Reply, now: Time)
    ensures var a := Call(p, name, prompt, commits, repository, maxArg, tempArg, reply, now);
      && a.sent == p.GenerateText(prompt + "\n\n" + CommitData(commits, repository), maxArg, tempArg, reply).sent
      && (a.result.Failure? ==> StartsWith(a.result.error, "Failed to generate blog entry: "))
      && (a.result.Success? <==> a.answer.Some?)
      && (a.answer.Some? ==>
        && a.sent.Some? && a.answer.value.model == p.model
        && a.result.value.content == FormatBlogEntry(a.answer.value.text, commits, repository, name, p.model, now)
        && a.result.value.metadata == EntryMetadata(repository, |commits|, name, p.model, a.answer.value.tokensUsed, now))
  {
    var d := p.GenerateText(prompt + "\n\n" + CommitData(commits, repository), maxArg, tempArg, reply);
    if d.result.Failure? {
      assert StartsWith("Failed to generate blog entry: " + d.result.error, "Failed to generate blog entry: ");
    }
  }

  /** A successful call's metadata names the provider it was made for. */
  lemma {:induction false} CallNamesProvider(p: Provider, name: string, prompt: string, commits: seq<Commit>, repository: string,
                                             maxArg: Option<int>, tempArg: Option<real>, reply: Reply, now: Time)
    ensures var a := Call(p, name, prompt, commits, repository, maxArg, tempArg, reply, now);
      a.result.Success? ==> a.result.value.metadata.provider == name
  {
  }

  /**
   * `_mark_commits_processed`: each commit in turn marked with type "both"
   * and the provider's name.
   */
  function MarkedAll(rows: seq<Row>, commits: seq<Commit>, repository: string, provider: string, now: Time): seq<Row>
  {
    if commits == [] then rows
    else
      Mark(MarkedAll(rows, commits[..|commits| - 1], repository, provider, now),
           Row(repository, commits[|commits| - 1].sha, "both", now, None, Some(provider), None))
  }

  lemma {:induction false} MarkedAllSnoc(rows: seq<Row>, commits: seq<Commit>, k: nat, repository: string, provider: string, now: Time)
    requires k < |commits|
    ensures MarkedAll(rows, commits[..k + 1], repository, provider, now)
      == Mark(MarkedAll(rows, commits[..k], repository, provider, now), Row(repository, commits[k].sha, "both", now, None, Some(provider), None))
  {
    assert commits[..k + 1][..k] == commits[..k];
  }

  /** Marking keeps every commit that was processed before processed. */
  lemma {:induction false} MarkedAllKeeps(rows: seq<Row>, commits: seq<Commit>, repository: string, provider: string, now: Time,
                                         repo: string, sha: string)
    requires Processed(rows, repo, sha, "any")
    ensures Processed(MarkedAll(rows, commits, repository, provider, now), repo, sha, "any")
  {
    if commits != [] {
      var init := commits[..|commits| - 1];
      MarkedAllKeeps(rows, init, repository, provider, now, repo, sha);
      MarkKeepsProcessed(MarkedAll(rows, init, repository, provider, now),
                         Row(repository, commits[|commits| - 1].sha, "both", now, None, Some(provider), None), repo, sha);
    }
  }

  /** After marking, every commit of the selection is processed. */
  lemma {:induction false} MarkedAllProcessed(rows: seq<Row>, commits: seq<Commit>, repository: string, provider: string, now: Time,
                                              i: nat)
    requires i < |commits|
    ensures Processed(MarkedAll(rows, commits, repository, provider, now), repository, commits[i].sha, "any")
  {
    var init := commits[..|commits| - 1];
    var before := MarkedAll(rows, init, repository, provider, now);
    var row := Row(repository, commits[|commits| - 1].sha, "both", now, None, Some(provider), None);
    if i == |commits| - 1 {
      MarkedIsProcessed(before, row);
    } else {
      MarkedAllProcessed(rows, init, repository, provider, now, i);
      assert init[i] == commits[i];
      MarkKeepsProcessed(before, row, repository, commits[i].sha);
    }
  }

  /** The name `save_blog_entry` gives the file: the custom name with `.md` added if missing, else repository and time. */
  function EntryFileName(repository: string, custom: Option<string>, now: Time): (r: string)
    ensures EndsWith(r, ".md")
    ensures custom.Some? && custom.value != [] ==> StartsWith(r, custom.value)
  {
    if custom.Some? && custom.value != [] then
      if EndsWith(custom.value, ".md") then custom.value else custom.value + ".md"
    else ReplaceChar(repository, '/', '_') + "_" + Stamp(now) + ".md"
  }

  /** Saving again under the name a save produced keeps that name. */
  lemma {:induction false} FileNameIdempotent(repository: string, custom: Option<string>, now: Time, later: Time)
    ensures var name := EntryFileName(repository, custom, now);
      EntryFileName(repository, Some(name), later) == name
  {
    var name := EntryFileName(repository, custom, now);
    assert name != [] by {
      assert EndsWith(name, ".md");
    }
  }

  /** Two saves without a custom name for one repository in the same second write the same file. */
  lemma {:induction false} SameSecondSameFile(repository: string, t1: Time, t2: Time)
    requires Seconds(t1) == Seconds(t2)
    ensures EntryFileName(repository, None, t1) == EntryFileName(repository, None, t2)
  {
    StampIgnoresMicroseconds(t1, t2);
  }

  const SaveFailure := "Failed to save blog entry: "

  /** The message of the BlogGenerationError `save_blog_entry` raises. */
  function SaveFailed(reason: string): (m: string)
    ensures StartsWith(m, SaveFailure) && m[|SaveFailure|..] == reason
  {
    SaveFailure + reason
  }

  /** The TypeError `Path()` raises on a value that is not text. */
  const NotAPath := "expected str, bytes or os.PathLike object"

  /** `Path(dir) / name`. */
  function EntryPath(dir: string, name: string): string
  {
    dir + "/" + name
  }

  /** `get_generated_entries_dir`: a text value names the directory; any other value makes `Path()` raise TypeError. */
  function EntriesDirOf(v: Settings.Value): Option<string>
  {
    if v.Leaf? && v.atom.AStr? then Some(v.atom.s) else None
  }

  class BlogGenerator {
    const aiManager: ProviderManager
    const settings: Settings.Settings
    const database: DatabaseManager

    ghost predicate Valid()
      reads this, aiManager, aiManager.settings, aiManager.providers.Values, settings, database
    {
      Ready() && database.Valid()
    }

    /** The registry and the settings are consistent; what the generation reads besides the database. */
    ghost predicate Ready()
      reads this, aiManager, aiManager.settings, aiManager.providers.Values, settings
    {
      aiManager.Valid() && settings.Valid()
    }

    constructor (aiManager: ProviderManager, settings: Settings.Settings, database: DatabaseManager)
      requires aiManager.Valid() && settings.Valid() && database.Valid()
      ensures Valid() && this.aiManager == aiManager && this.settings == settings && this.database == database
    {
      this.aiManager := aiManager;
      this.settings := settings;
      this.database := database;
    }

    /** The provider name `generate_blog_entry` uses: the argument unless empty, else the active provider's. */
    function ChosenProvider(provider: Option<string>): (r: Result<string>)
      requires Ready()
      reads this, aiManager, aiManager.settings, aiManager.providers.Values, settings
      ensures provider.Some? && provider.value != [] ==> r == Success(provider.value)
      ensures (provider.None? || provider.value == []) ==>
        (r.Failure? <==> aiManager.GetActiveProvider().None?)
      ensures (provider.None? || provider.value == []) && r.Success? ==>
        aiManager.active == Some(r.value) && r.value in aiManager.providers
    {
      if provider.Some? && provider.value != [] then Success(provider.value)
      else
        match aiManager.GetActiveProvider()
        case None => Failure("No AI provider available")
        case Some(p) => Success(p.name)
    }

    /**
     * The checks of `generate_blog_entry` before its `try` block, in order:
     * the prompt and the provider name to use, or the message of the
     * BlogGenerationError raised.
     */
    function Precheck(commits: seq<Commit>, repository: string, prompt: Option<string>, provider: Option<string>)
      : (c: Result<(string, string)>)
      requires Ready()
      reads this, aiManager, aiManager.settings, aiManager.providers.Values, settings
    {
      if commits == [] then Failure("No commits provided for blog generation")
      else if repository == [] then Failure("Repository name is required")
      else
        var text := ChosenPrompt(prompt, settings.ValueUnder(["ui", "default_prompt"], Settings.S([])));
        match ChosenProvider(provider)
        case Failure(e) => Failure(e)
        case Success(name) =>
          match aiManager.GetProvider(name)
          case None => Failure("AI provider '" + name + "' is not configured")
          case Some(p) =>
            if !p.IsConfigured() then Failure("AI provider '" + name + "' is not configured")
            else Success((text, name))
    }

    /**
     * What `generate_blog_entry` does with the state it reads, `reply` being
     * the model's answer: a failed check raises before any request is sent;
     * otherwise the call is made.
     */
    function Attempt(commits: seq<Commit>, repository: string, prompt: Option<string>, provider: Option<string>,
                     maxArg: Option<int>, tempArg: Option<real>, reply: Reply, now: Time): (a: GenerationAttempt)
      requires Ready()
      reads this, aiManager, aiManager.settings, aiManager.providers.Values, settings
    {
      match Precheck(commits, repository, prompt, provider)
      case Failure(e) => Refused(e)
      case Success((text, name)) => Call(aiManager.providers[name], name, text, commits, repository, maxArg, tempArg, reply, now)
    }

    /**
     * The checks of `generate_blog_entry` fail in order: no commits, no
     * repository, no provider to use, a provider that is not registered and
     * configured; otherwise they yield the prompt and the provider's name.
     */
    lemma {:induction false} PrecheckOutcome(commits: seq<Commit>, repository: string, prompt: Option<string>, provider: Option<string>)
      requires Ready()
      ensures var c := Precheck(commits, repository, prompt, provider);
        && (commits == [] ==> c == Failure("No commits provided for blog generation"))
        && (commits != [] && repository == [] ==> c == Failure("Repository name is required"))
        && (commits != [] && repository != [] && ChosenProvider(provider).Failure? ==> c == Failure("No AI provider available"))
        && (commits != [] && repository != [] && ChosenProvider(provider).Success? && !Usable(ChosenProvider(provider).value) ==>
              c == Failure("AI provider '" + ChosenProvider(provider).value + "' is not configured"))
        && (c.Success? <==>
              commits != [] && repository != [] && ChosenProvider(provider).Success? && Usable(ChosenProvider(provider).value))
        && (c.Success? ==>
              c.value == (ChosenPrompt(prompt, settings.ValueUnder(["ui", "default_prompt"], Settings.S([]))), ChosenProvider(provider).value))
    {
      var c := Precheck(commits, repository, prompt, provider);
      if commits != [] && repository != [] && ChosenProvider(provider).Success? {
        var name := ChosenProvider(provider).value;
        assert Usable(name) <==> aiManager.GetProvider(name).Some? && aiManager.GetProvider(name).value.IsConfigured();
      }
    }

    /** A failed check refuses before any request is sent; a request, an answer or a success means the checks passed. */
    lemma {:induction false} AttemptChecksFirst(commits: seq<Commit>, repository: string, prompt: Option<string>, provider: Option<string>,
                                                maxArg: Option<int>, tempArg: Option<real>, reply: Reply, now: Time)
      requires Ready()
      ensures var a := Attempt(commits, repository, prompt, provider, maxArg, tempArg, reply, now);
        && (Precheck(commits, repository, prompt, provider).Failure? ==>
              a == Refused(Precheck(commits, repository, prompt, provider).error))
        && (a.sent.Some? || a.answer.Some? || a.result.Success? ==> Precheck(commits, repository, prompt, provider).Success?)
    {
    }

    /** A successful generation is stamped with the repository, the number of commits, the provider chosen and the time of the call. */
    lemma {:induction false} AttemptMetadata(commits: seq<Commit>, repository: string, prompt: Option<string>, provider: Option<string>,
                                             maxArg: Option<int>, tempArg: Option<real>, reply: Reply, now: Time)
      requires Ready()
      ensures var a := Attempt(commits, repository, prompt, provider, maxArg, tempArg, reply, now).result;
        a.Success? ==>
          && Precheck(commits, repository, prompt, provider).Success?
          && a.value.metadata.repository == repository && a.value.metadata.commitCount == |commits|
          && a.value.metadata.provider == Precheck(commits, repository, prompt, provider).value.1
          && a.value.metadata.generatedAt == now
    {
      var c := Precheck(commits, repository, prompt, provider);
      if c.Success? {
        var name := c.value.1;
        AttemptIsCall(commits, repository, prompt, provider, maxArg, tempArg, reply, now, c.value.0, name);
        CallOutcome(aiManager.providers[name], name, c.value.0, commits, repository, maxArg, tempArg, reply, now);
      }
    }

    /** A successful generation is stamped with the time of the call. */
    lemma {:induction false} AttemptStamp(commits: seq<Commit>, repository: string, prompt: Option<string>, provider: Option<string>,
                                          maxArg: Option<int>, tempArg: Option<real>, reply: Reply, now: Time)
      requires Ready()
      ensures var a := Attempt(commits, repository, prompt, provider, maxArg, tempArg, reply, now).result;
        a.Success? ==>
          a.value.metadata.repository == repository && a.value.metadata.commitCount == |commits| && a.value.metadata.generatedAt == now
    {
      AttemptMetadata(commits, repository, prompt, provider, maxArg, tempArg, reply, now);
    }

    /** When a check fails, the generation fails with that check's message. */
    lemma {:induction false} AttemptRefused(commits: seq<Commit>, repository: string, prompt: Option<string>, provider: Option<string>,
                                            maxArg: Option<int>, tempArg: Option<real>, reply: Reply, now: Time)
      requires Ready() && Precheck(commits, repository, prompt, provider).Failure?
      ensures Attempt(commits, repository, prompt, provider, maxArg, tempArg, reply, now).result
        == Failure(Precheck(commits, repository, prompt, provider).error)
    {
    }

    /** Once the checks pass, the generation is the call to the provider they chose. */
    lemma {:induction false} AttemptIsCall(commits: seq<Commit>, repository: string, prompt: Option<string>, provider: Option<string>,
                                           maxArg: Option<int>, tempArg: Option<real>, reply: Reply, now: Time, text: string, name: string)
      requires Ready() && Precheck(commits, repository, prompt, provider) == Success((text, name))
      ensures Usable(name)
      ensures Attempt(commits, repository, prompt, provider, maxArg, tempArg, reply, now)
        == Call(aiManager.providers[name], name, text, commits, repository, maxArg, tempArg, reply, now)
    {
    }

    /** A registered and configured provider. */
    predicate Usable(name: string)
      requires Ready()
      reads this, aiManager, aiManager.settings, aiManager.providers.Values, settings
    {
      name in aiManager.providers && aiManager.providers[name].IsConfigured()
    }

    /**
     * `generate_blog_entry`: the result of `Attempt`; after a successful
     * generation every commit is marked processed, and a marking the
     * database refuses is passed over.
     */
    method GenerateBlogEntry(commits: seq<Commit>, repository: string, prompt: Option<string>, provider: Option<string>,
                             maxArg: Option<int>, tempArg: Option<real>, reply: Reply, now: Time)
      returns (r: Result<Generated>)
      requires Valid()
      modifies database
      ensures Valid()
      ensures r == old(Attempt(commits, repository, prompt, provider, maxArg, tempArg, reply, now).result)
      ensures database.available == old(database.available) && database.appSettings == old(database.appSettings)
      ensures database.rows ==
        if r.Success? && database.available then MarkedAll(old(database.rows), commits, repository, r.value.metadata.provider, now)
        else old(database.rows)
    {
      var checked := Checks(commits, repository, prompt, provider);
      assert unchanged(this, aiManager, aiManager.settings, settings) && unchanged(aiManager.providers.Values);
      if checked.Failure? {
        AttemptRefused(commits, repository, prompt, provider, maxArg, tempArg, reply, now);
        return Failure(checked.error);
      }
      r := GenerateFor(commits, repository, prompt, provider, maxArg, tempArg, reply, now, checked.value.0, checked.value.1);
    }

    /** `generate_blog_entry` once its checks have chosen the prompt `text` and the provider `name`. */
    method GenerateFor(commits: seq<Commit>, repository: string, prompt: Option<string>, provider: Option<string>,
                       maxArg: Option<int>, tempArg: Option<real>, reply: Reply, now: Time, text: string, name: string)
      returns (r: Result<Generated>)
      requires Valid() && Precheck(commits, repository, prompt, provider) == Success((text, name))
      modifies database
      ensures Valid()
      ensures r == old(Attempt(commits, repository, prompt, provider, maxArg, tempArg, reply, now).result)
      ensures database.available == old(database.available) && database.appSettings == old(database.appSettings)
      ensures database.rows ==
        if r.Success? && database.available then MarkedAll(old(database.rows), commits, repository, r.value.metadata.provider, now)
        else old(database.rows)
    {
      AttemptIsCall(commits, repository, prompt, provider, maxArg, tempArg, reply, now, text, name);
      var p := aiManager.providers[name];
      CallNamesProvider(p, name, text, commits, repository, maxArg, tempArg, reply, now);
      r := GenerateChecked(p, text, name, commits, repository, maxArg, tempArg, reply, now);
    }

    /** The `try` block of `generate_blog_entry` once the checks have passed. */
    method GenerateChecked(p: Provider, text: string, name: string, commits: seq<Commit>, repository: string,
                           maxArg: Option<int>, tempArg: Option<real>, reply: Reply, now: Time)
      returns (r: Result<Generated>)
      requires Valid() && Usable(name) && p == aiManager.providers[name]
      modifies database
      ensures Valid()
      ensures r == old(Call(p, name, text, commits, repository, maxArg, tempArg, reply, now).result)
      ensures database.available == old(database.available) && database.appSettings == old(database.appSettings)
      ensures database.rows ==
        if r.Success? && database.available then MarkedAll(old(database.rows), commits, repository, name, now)
        else old(database.rows)
    {
      r := Produce(p, name, text, commits, repository, maxArg, tempArg, reply, now);
      assert unchanged(this, aiManager, aiManager.settings, settings, database) && unchanged(aiManager.providers.Values);
      if r.Success? {
        MarkCommitsProcessed(commits, repository, name, now);
      }
    }

    /** The checks of `generate_blog_entry`, evaluated in turn. */
    method Checks(commits: seq<Commit>, repository: string, prompt: Option<string>, provider: Option<string>)
      returns (checked: Result<(string, string)>)
      requires Ready()
      ensures checked == Precheck(commits, repository, prompt, provider)
    {
      if commits == [] {
        return Failure("No commits provided for blog generation");
      }
      if repository == [] {
        return Failure("Repository name is required");
      }
      var configured := settings.GetDefaultPrompt();
      var text := ChosenPrompt(prompt, configured);
      var name: string;
      if provider.Some? && provider.value != [] {
        name := provider.value;
      } else {
        var active := aiManager.GetActiveProvider();
        if active.None? {
          return Failure("No AI provider available");
        }
        name := active.value.name;
      }
      var found := aiManager.GetProvider(name);
      if found.None? || !found.value.IsConfigured() {
        return Failure("AI provider '" + name + "' is not configured");
      }
      checked := Success((text, name));
    }

    /** The `try` block of `generate_blog_entry` up to the marking: the request, then the entry built from the answer. */
    method Produce(p: Provider, name: string, text: string, commits: seq<Commit>, repository: string,
                   maxArg: Option<int>, tempArg: Option<real>, reply: Reply, now: Time) returns (r: Result<Generated>)
      ensures r == Call(p, name, text, commits, repository, maxArg, tempArg, reply, now).result
    {
      var data := PrepareCommitData(commits, repository);
      var d := p.GenerateText(text + "\n\n" + data, maxArg, tempArg, reply);
      if d.result.Failure? {
        return Failure("Failed to generate blog entry: " + d.result.error);
      }
      var response := d.result.value;
      var content := FormatBlogEntry(response.text, commits, repository, name, response.model, now);
      r := Success(Generated(content, EntryMetadata(repository, |commits|, name, response.model, response.tokensUsed, now)));
    }

    /** `_mark_commits_processed`. */
    method MarkCommitsProcessed(commits: seq<Commit>, repository: string, provider: string, now: Time)
      requires Valid()
      modifies database
      ensures Valid()
      ensures database.available == old(database.available) && database.appSettings == old(database.appSettings)
      ensures database.rows ==
        if database.available then MarkedAll(old(database.rows), commits, repository, provider, now) else old(database.rows)
    {
      var k := 0;
      while k < |commits|
        invariant 0 <= k <= |commits|
        invariant Valid()
        invariant database.available == old(database.available) && database.appSettings == old(database.appSettings)
        invariant database.rows ==
          if database.available then MarkedAll(old(database.rows), commits[..k], repository, provider, now) else old(database.rows)
      {
        MarkedAllSnoc(old(database.rows), commits, k, repository, provider, now);
        var _ := database.MarkCommitProcessed(repository, commits[k].sha, "both", None, Some(provider), None, now);
        k := k + 1;
      }
      assert commits[..k] == commits;
    }

    /** How many of the commits the database reports processed for `repository`, one commit at a time. */
    method CountProcessed(commits: seq<Commit>, repository: string) returns (n: nat)
      ensures n == ProcessedCount(database.rows, database.available, repository, commits)
    {
      n := 0;
      var i := 0;
      while i < |commits|
        invariant 0 <= i <= |commits|
        invariant n == ProcessedCount(database.rows, database.available, repository, commits[..i])
      {
        assert commits[..i + 1][..i] == commits[..i];
        if database.IsCommitProcessed(repository, commits[i].sha, "any") {
          n := n + 1;
        }
        i := i + 1;
      }
      assert commits[..i] == commits;
    }

    /** The short-message count of `validate_commits_for_generation`. */
    method CountShort(commits: seq<Commit>) returns (n: nat)
      ensures n == ShortCount(commits)
    {
      n := 0;
      var i := 0;
      while i < |commits|
        invariant 0 <= i <= |commits|
        invariant n == ShortCount(commits[..i])
      {
        assert commits[..i + 1][..i] == commits[..i];
        if |Strip(commits[i].message)| < 10 {
          n := n + 1;
        }
        i := i + 1;
      }
      assert commits[..i] == commits;
    }

    /**
     * `validate_commits_for_generation` as written: commits carry no
     * repository, so the processed check always asks about repository "".
     */
    method ValidateCommitsAsWritten(commits: seq<Commit>) returns (issues: seq<string>)
      ensures issues == Issues(|commits|, ShortCount(commits), ProcessedCount(database.rows, database.available, "", commits))
    {
      issues := ValidateCommits(commits, "");
    }

    /** `validate_commits_for_generation`, the processed check asking about the selection's repository. */
    method ValidateCommits(commits: seq<Commit>, repository: string) returns (issues: seq<string>)
      ensures issues == Issues(|commits|, ShortCount(commits), ProcessedCount(database.rows, database.available, repository, commits))
    {
      if commits == [] {
        return [NoCommitsSelected];
      }
      var short := CountShort(commits);
      var processed := CountProcessed(commits, repository);
      issues := Issues(|commits|, short, processed);
    }

    /**
     * `save_blog_entry`: the entry written to the generated-entries directory
     * under `EntryFileName`; `failure` is the error the directory creation or
     * the write raises, if any.  Returns the path.
     */
    method SaveBlogEntry(disk: Disk, content: string, repository: string, custom: Option<string>, now: Time,
                         failure: Option<string>) returns (r: Result<string>)
      requires Ready() && disk.Valid()
      modifies disk
      ensures disk.Valid()
      ensures r.Success? ==>
        && EntriesDir().Some? && failure.None?
        && r.value == EntryPath(EntriesDir().value, EntryFileName(repository, custom, now))
        && disk.contents == old(disk.contents)[r.value := content]
        && disk.paths == if r.value in old(disk.paths) then old(disk.paths) else old(disk.paths) + [r.value]
      ensures r.Failure? <==> failure.Some? || EntriesDir().None?
      ensures r.Failure? ==>
        && r.error == SaveFailed(if EntriesDir().None? then NotAPath else failure.value)
        && disk.contents == old(disk.contents) && disk.paths == old(disk.paths)
    {
      var name := EntryFileName(repository, custom, now);
      var v := settings.GetGeneratedEntriesDir();
      var dir := EntriesDirOf(v);
      if dir.None? {
        return Failure(SaveFailed(NotAPath));
      }
      if failure.Some? {
        return Failure(SaveFailed(failure.value));
      }
      var path := EntryPath(dir.value, name);
      disk.Write(path, content);
      r := Success(path);
    }

    /** The directory `get_generated_entries_dir` names, if the setting holds text. */
    function EntriesDir(): Option<string>
      requires Ready()
      reads this, aiManager, aiManager.settings, aiManager.providers.Values, settings
    {
      EntriesDirOf(settings.ValueUnder(["paths", "generated_entries"], Settings.S("Generated_entries")))
    }

    /**
     * `regenerate_blog_entry`: a new generation with the given provider; the
     * `max_tokens` and `temperature` read from the old entry's frontmatter are
     * absent from every entry this generator writes (`GeneratedEntryHasNoSampling`),
     * so none are passed on.
     */
    method RegenerateBlogEntry(commits: seq<Commit>, repository: string, originalContent: string, newProvider: string,
                               prompt: Option<string>, reply: Reply, now: Time) returns (r: Result<Generated>)
      requires Valid()
      requires "max_tokens" !in ExtractMetadata(originalContent) && "temperature" !in ExtractMetadata(originalContent)
      modifies database
      ensures Valid()
      ensures r == old(Attempt(commits, repository, prompt, Some(newProvider), None, None, reply, now).result)
      ensures database.available == old(database.available) && database.appSettings == old(database.appSettings)
      ensures database.rows ==
        if r.Success? && database.available then MarkedAll(old(database.rows), commits, repository, r.value.metadata.provider, now)
        else old(database.rows)
    {
      r := GenerateBlogEntry(commits, repository, prompt, Some(newProvider), None, None, reply, now);
    }
  }
}
