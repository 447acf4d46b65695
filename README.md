# devBlogger core, modelled in Dafny

devBlogger is a desktop tool that turns a GitHub repository's commits into
development blog entries. The user signs in to GitHub, browses and selects
commits, and asks one of three AI services (OpenAI's ChatGPT, Google Gemini
or a local Ollama server) to write an entry. The entry is saved as a Markdown
file with a YAML-like frontmatter and indexed in a JSON file.

This project models the program's core and proves properties of the model.
It covers:

- the blog index (`BlogEntry` and `BlogStorageManager`);
- the generation pipeline and the blog manager;
- the AI provider registry and the three clients;
- the commit browser's filters and selection, and the blog editor's guards;
- the nested settings dictionary and the processed-commit database;
- the GitHub record decoders and the OAuth sign-in.

## How the model is laid out

There is one module per source file:

- `Storage`, `BlogEntries`, `EntryFormat`, `Generation`, `CommitSummary`,
  `ContentCleaning`, `SelectionStats` and `BlogManagement` cover `blog/`.
- `AiProviders` and `AiManager` cover `ai/`.
- `CommitBrowsing` and `BlogEditing` cover `gui/`.
- `Settings` and `Database` cover `config/`.
- `GitHubModels`, `GitHubAuthentication` and `UrlEncoding` cover `github/`.

Small helper modules model Python built-ins:

- `Text` covers string methods;
- `Lists` covers comprehensions, slices and SQL paging;
- `Sorting` covers stable `sort(reverse=True)`;
- `Clock` covers the Gregorian calendar, the `strftime` patterns the program uses, `isoformat`, and `fromisoformat` on texts without a UTC offset;
- `Files` covers the directory the entries live in;
- `JsonData` covers JSON values and the object `json.load` builds from a document that may repeat a key;
- `Wrappers` covers `Option` and `Result`.

How the source's mutable state is modelled:

- Objects whose fields the source updates are classes with those fields:
  - `BlogStorage`, `BlogGenerator`, `BlogManager`;
  - `Provider`, `ProviderManager`;
  - `Settings`, `DatabaseManager`;
  - `CommitBrowser`, `BlogEditor`, `GitHubAuth`;
  - `Disk`.
- The settings dictionaries live in a heap of numbered dictionaries. This
  lets `reset_to_defaults` and `set` show the aliasing of the source's
  shallow copy.

How outside inputs are modelled:

- Every exception the source raises or catches is a `Failure` value or an
  explicit error outcome.
- These outside answers are parameters of the operation that consumes them:
  - the answer of the AI service;
  - GitHub's HTTP answers;
  - the current time;
  - the random state token;
  - whether a port can be bound;
  - whether a file write fails.
- A provider is a record of what its SDK and service would do. A provider
  that is not a client of the three kinds is not modelled.

## Model

| member | source | states |
|---|---|---|
| Settings.Merge | devblogger/src/config/settings.py:111-119 | the merged dictionary holds exactly the keys of the base and the override |
| Settings.MergeOverrideWins | devblogger/src/config/settings.py:111-119 | a plain value the override holds along a path is what the merged settings hold there |
| Settings.MergeKeepsUntouched | devblogger/src/config/settings.py:111-119 | a path whose first key the override does not mention reads as in the base |
| Settings.SetIntoExistingParent | devblogger/src/config/settings.py:140-148 | when the parent dictionary of the key exists, `set` is one write into it |
| Settings.SetWritesThroughSharedParent | devblogger/src/config/settings.py:140-148 | after a `set` into an existing parent, the key reads back as the value from every root that reaches that parent |
| Settings.SetFromEmptySucceeds | devblogger/src/config/settings.py:140-148 | a `set` whose walk starts at an empty dictionary only creates dictionaries and succeeds |
| Settings.Resolve | devblogger/src/config/settings.py:129-138 | `get`'s walk down the dotted key; `ResolveAppend` and `SetThenGet` state it |
| Settings.ResolveAppend | devblogger/src/config/settings.py:129-138 | a walk along `p + q` is the walk along `p`, then along `q` from where it ended |
| Settings.SetPath | devblogger/src/config/settings.py:140-149 | `set`'s walk on the heap of dictionaries; `SetSucceedsIffOpenPath`, `SetKeepsOtherEntries` and `SetThenGet` state it |
| Settings.SetPathCreates | devblogger/src/config/settings.py:140-149 | a missing key on the way is a new empty dictionary linked under it, and the walk goes on inside it |
| Settings.SetSucceedsIffOpenPath | devblogger/src/config/settings.py:140-148 | `set` raises (TypeError) exactly when its walk meets a plain value before the last key |
| Settings.SameEntriesSameLookup | devblogger/src/config/settings.py:129-138 | two dictionaries with the same entries answer every non-empty dotted key alike |
| Settings.FreshNodeInvisible | devblogger/src/config/settings.py:144-147 | a dictionary `set` creates is not seen by any lookup before it is linked in |
| Settings.SetKeepsOtherEntries | devblogger/src/config/settings.py:140-148 | `set` only adds dictionaries and entries and changes no existing entry except under its last key |
| Settings.ResolveUnderExtends | devblogger/src/config/settings.py:129-148 | a lookup that succeeded keeps its answer after a `set` under a different last key |
| Settings.SetThenGet | devblogger/src/config/settings.py:129-148 | after a successful `set`, `get` of the same key gives the stored value |
| Settings.WriteAlongPath | devblogger/src/config/settings.py:142-148 | the loop of `set` creates the missing dictionaries and stores the value, as `SetPath` specifies |
| Settings.StageFromLookup | devblogger/src/config/settings.py:207-210 | the value `get("ai.providers", {})` gives decides how the configuration is staged: a plain value raises, the default `{}` is a new dictionary, an existing one is written into |
| Settings.SetPathTwoKeys | devblogger/src/config/settings.py:140-148 | `set` on a two-part key creates the missing parent, writes into the existing one, or raises on a plain value |
| Settings.FinalSetKeepsConfig | devblogger/src/config/settings.py:211 | the final `set("ai.providers", providers)` keeps the configuration reachable under the provider |
| Settings.ProviderConfigReadsBack | devblogger/src/config/settings.py:202-211 | `set_ai_provider_config` followed by `get_ai_provider_config` gives the stored configuration |
| Settings.Lookup | devblogger/src/config/settings.py:129-138 | the loop of `get` answers the value at the key, or the default when a key is missing or a plain value is indexed |
| Settings.StoreConfig | devblogger/src/config/settings.py:207-211 | the steps of `set_ai_provider_config`, as `StoreProviderConfig` specifies |
| Settings.DefaultsReadInitially | devblogger/src/config/settings.py:30-90 | the initial settings read the built-in defaults under every key the model uses |
| Settings.DefaultProviderConfigs | devblogger/src/config/settings.py:50-71 | the defaults hold a provider configuration for exactly chatgpt, gemini and ollama |
| Settings.NestedSetReachesDefaults | devblogger/src/config/settings.py:92-149 | while the live settings are a shallow copy of the defaults, a `set` on an existing two-part key changes the defaults too |
| Settings.ResetKeepsNestedChange | devblogger/src/config/settings.py:197-223 | a window width set before `reset_to_defaults` is still read after it, since the copy is shallow |
| Settings.Settings.constructor | devblogger/src/config/settings.py:15-104 | the settings start as the defaults and the live settings as a shallow copy of them |
| Settings.Settings.Get | devblogger/src/config/settings.py:129-138 | `get(key, default)` answers the value along the dotted key, or the default |
| Settings.Settings.Set | devblogger/src/config/settings.py:140-148 | `set(key, value)` is the walk `SetPath` specifies; false where the source raises TypeError |
| Settings.Settings.ResetToDefaults | devblogger/src/config/settings.py:221-223 | the live settings become a new shallow copy of the defaults; the defaults are unchanged |
| Settings.Settings.GetWindowSize | devblogger/src/config/settings.py:191-195 | the width and height, 1200 and 800 when missing |
| Settings.Settings.SetWindowSize | devblogger/src/config/settings.py:197-200 | both values read back, unless a plain `ui` value makes the first `set` raise |
| Settings.Settings.GetActiveProvider | devblogger/src/config/settings.py:213-215 | `ai.default_provider`, "chatgpt" when missing |
| Settings.Settings.SetActiveProvider | devblogger/src/config/settings.py:217-219 | afterwards the active provider reads back as the one set, unless a plain `ai` value makes it raise |
| Settings.Settings.GetDefaultPrompt | devblogger/src/config/settings.py:183-185 | `ui.default_prompt`, "" when missing |
| Settings.Settings.GetGeneratedEntriesDir | devblogger/src/config/settings.py:151-153 | `paths.generated_entries`, "Generated_entries" when missing |
| Settings.Settings.GetProviderConfig | devblogger/src/config/settings.py:202-205 | the provider's configuration under `ai.providers`, `{}` when missing |
| Settings.Settings.SetProviderConfig | devblogger/src/config/settings.py:207-211 | the configuration is stored under the provider in `ai.providers`, as `StoreProviderConfig` specifies |
| Settings.TwoSetsUnderOneParent | devblogger/src/config/settings.py:197-200 | once the first of two `set` calls under one parent succeeds, the second does too and both values read back |
| Database.Mark | devblogger/src/config/database.py:127-149 | the INSERT OR REPLACE of `mark_commit_processed`; `MarkedIsProcessed`, `MarkKeepsProcessed`, `MarkKeepsUnique` and `MarkIdempotent` state it |
| Database.MarkedIsProcessed | devblogger/src/config/database.py:106-149 | after `mark_commit_processed` the commit is processed for its type and for "any" |
| Database.MarkKeepsProcessed | devblogger/src/config/database.py:127-149 | marking never makes a processed commit unprocessed |
| Database.MarkKeepsUnique | devblogger/src/config/database.py:139-143 | INSERT OR REPLACE keeps the UNIQUE(repo_name, commit_sha, process_type) constraint and adds at most one row |
| Database.FilterKeepsUnique | devblogger/src/config/database.py:151-174 | deleting rows keeps the UNIQUE constraint |
| Database.MarkIdempotent | devblogger/src/config/database.py:139-143 | marking the same triple again only replaces its row; the processed triples stay the same |
| Database.Unmark | devblogger/src/config/database.py:151-175 | the DELETE of `mark_commit_unprocessed`; `UnmarkBothClears`, `UnmarkRemovesType` and `UnmarkKeepsOtherTypes` state it |
| Database.UnmarkBothClears | devblogger/src/config/database.py:158-163 | after unmarking "both" the commit is processed for no type |
| Database.UnmarkRemovesType | devblogger/src/config/database.py:164-169 | unmarking one type removes that type |
| Database.UnmarkKeepsOtherTypes | devblogger/src/config/database.py:164-169 | unmarking one type leaves every other type as it was |
| Database.InsertByTime | devblogger/src/config/database.py:248 | inserting a row into the newest-first listing keeps the same rows plus that one |
| Database.NewestFirst | devblogger/src/config/database.py:248 | the `ORDER BY processed_at DESC` listing is a permutation of the rows |
| Database.InsertKeepsOrder | devblogger/src/config/database.py:248 | inserting by time keeps the listing newest first |
| Database.NewestFirstIsOrdered | devblogger/src/config/database.py:248 | the listing is newest first |
| Database.ProcessedQuery | devblogger/src/config/database.py:230-266 | the SELECT of `get_processed_commits`; `ProcessedQueryResult` states it |
| Database.ProcessedQueryResult | devblogger/src/config/database.py:230-266 | `get_processed_commits`: rows of the table only, of the repository asked for when one is given, newest first, at most `limit`; an offset without a limit is an SQL error and the answer is empty |
| Database.DatabaseManager.constructor | devblogger/src/config/database.py:17-104 | a fresh database has empty tables |
| Database.DatabaseManager.MarkCommitProcessed | devblogger/src/config/database.py:127-149 | the row is inserted or replaced; the commit is then processed for its type and "any"; an unavailable database changes nothing and answers False |
| Database.DatabaseManager.MarkCommitUnprocessed | devblogger/src/config/database.py:151-174 | "both" deletes every row of the commit, another type only that type's row; False when the database is unavailable |
| Database.DatabaseManager.GetUnprocessedCommitsCount | devblogger/src/config/database.py:268-272 | always 0 |
| Database.DatabaseManager.SetSetting | devblogger/src/config/database.py:274-297 | insert or replace, after which `get_setting` reads the value back; an SQLite error is only logged |
| Database.OffsetWithoutLimitIsEmpty | devblogger/src/config/database.py:250-266 | an offset without a limit makes the listing empty, however many rows match |
| Database.UnmarkMessageAfterBoth | devblogger/src/config/database.py:106-174 | a commit marked "both" and then unmarked "message" is still processed for "any" but not as "message" |
| GitHubModels.UserFromApi | devblogger/src/github/models.py:27-43 | `GitHubUser.from_api_response`: each field from its own key with its default; `UserRoundTrip` and `UserDefaults` state it |
| GitHubModels.UserRoundTrip | devblogger/src/github/models.py:27-43 | decoding the API document of a user gives the user back: every field comes from its own key |
| GitHubModels.UserDefaults | devblogger/src/github/models.py:27-43 | missing keys: login "", id 0, counters 0, every optional field None |
| GitHubModels.ReplaceZ | devblogger/src/github/models.py:85 | `replace('Z', '+00:00')` leaves no 'Z' and changes nothing without one |
| GitHubModels.DateField | devblogger/src/github/models.py:84-89 | an absent or falsy timestamp reads as None |
| GitHubModels.RepositoryCounters | devblogger/src/github/models.py:103-111 | the four counters come from GitHub's `*_count` keys and the default branch from its own key; every other field keeps its default |
| GitHubModels.RepositoryFromApi | devblogger/src/github/models.py:73-115 | `GitHubRepository.from_api_response`: fields from their keys with their defaults, failing where the owner is not an object or a date does not parse; `RepositoryDefaults`, `RepositoryCounters` and `RepositoryLicense` state it |
| GitHubModels.RepositoryDefaults | devblogger/src/github/models.py:73-115 | an empty document decodes: owner from `{}`, branch "main", counters 0, flags False, no dates, no license |
| GitHubModels.RepositoryLicense | devblogger/src/github/models.py:114 | the license is None exactly when the document's license is falsy, and its `name` when it is an object |
| GitHubModels.ShasOf | devblogger/src/github/models.py:164 | one sha per parent |
| GitHubModels.CommitAsWrittenAlwaysFails | devblogger/src/github/models.py:145-155 | as written, no document decodes into a commit: `GitHubUser` is built without its required `id` |
| GitHubModels.ParentsToApi | devblogger/src/github/models.py:164 | one parent document per sha |
| GitHubModels.ParentsRoundTrip | devblogger/src/github/models.py:164 | reading the shas back from the parent documents gives the shas |
| GitHubModels.CommitFromApi | devblogger/src/github/models.py:131-167 | the corrected `GitHubCommit.from_api_response`; `CommitRoundTrip` states it gives a commit back from its document |
| GitHubModels.CommitRoundTrip | devblogger/src/github/models.py:131-167 | with the author's id supplied, decoding the document of a commit gives the commit back, dated `now` when no author date is given |
| GitHubModels.BranchAsWrittenAlwaysFails | devblogger/src/github/models.py:202-212 | as written, no branch decodes, since its commit decoder always raises |
| GitHubModels.BranchFromApi | devblogger/src/github/models.py:202-212 | `GitHubBranch.from_api_response` over the corrected commit decoder; `BranchOfBareCommit` states it |
| GitHubModels.BranchOfBareCommit | devblogger/src/github/models.py:202-212 | with the corrected commit decoder, a branch whose commit has only a sha and a message decodes: name and protected default, the commit keeps sha and message, has no parents and is dated `now` |
| GitHubModels.FileChangeFromApi | devblogger/src/github/models.py:181-192 | `GitHubFileChange.from_api_response`; `FileChangeRoundTrip` and `FileChangeDefaults` state it |
| GitHubModels.FileChangeRoundTrip | devblogger/src/github/models.py:181-192 | decoding the document of a file change gives it back |
| GitHubModels.FileChangeDefaults | devblogger/src/github/models.py:181-192 | missing keys: filename and status "", counts 0, patch and previous name None |
| GitHubModels.RateLimitFromHeaders | devblogger/src/github/models.py:224-235 | `GitHubRateLimit.from_headers`: the reset is read and converted first, then the counts; `RateLimitRoundTrip`, `RateLimitDefaults` and `RateLimitResetOutOfRange` state it |
| GitHubModels.RateLimitRoundTrip | devblogger/src/github/models.py:224-235 | reading the headers of a rate limit gives it back: each count from its decimal text, the resource as sent, and the reset as `datetime.fromtimestamp` reads the UTC timestamp in a zone `offset` seconds ahead, for every reset a `datetime` can hold |
| GitHubModels.RateLimitReadBack | devblogger/src/github/models.py:224-235 | headers holding the decimal texts of a rate limit's fields read back as that rate limit |
| GitHubModels.RateLimitResetOutOfRange | devblogger/src/github/models.py:227 | a reset timestamp whose local reading falls outside the years 1 to 9999 makes `from_headers` fail, as `datetime.fromtimestamp` raises |
| GitHubModels.IntHeaderOfText | devblogger/src/github/models.py:227-233 | `int(headers.get(key, 0))` of the decimal text of `n` is `n` |
| GitHubModels.RateLimitDefaults | devblogger/src/github/models.py:224-235 | without rate-limit headers every count is 0, the resource "" and the reset the epoch read in the local zone |
| GitHubModels.ErrorDefaults | devblogger/src/github/models.py:245-252 | missing keys: message "", no documentation link, no errors |
| GitHubModels.ErrorFromApi | devblogger/src/github/models.py:245-252 | `GitHubError.from_api_response`; `ErrorRoundTrip` and `ErrorDefaults` state it |
| GitHubModels.ErrorRoundTrip | devblogger/src/github/models.py:245-252 | decoding the document of an error gives it back |
| BlogEntries.NewEntry | devblogger/src/blog/storage.py:24-43 | the title is the one given when non-empty, else "Development Update - " and the last '/' segment of the repository; the tags default to [] |
| BlogEntries.FrontmatterBlock | devblogger/src/blog/storage.py:71-75 | the block found lies between a leading "---\n" and the first "\n---\n" after it; none when the content does not open that way or never closes |
| BlogEntries.CleanItem | devblogger/src/blog/storage.py:90 | a list item is stripped of spaces and of quotes at both ends |
| BlogEntries.ListItems | devblogger/src/blog/storage.py:89-91 | the items of "[a, b]" are cleaned and the empty ones dropped |
| BlogEntries.Classify | devblogger/src/blog/storage.py:84-94 | the typing of a frontmatter value; `ClassifyMeaning` states it |
| BlogEntries.ClassifyMeaning | devblogger/src/blog/storage.py:84-94 | "true"/"false" in any case become booleans, all-digit values integers, "[...]" lists, and every other value stays text |
| BlogEntries.ParseLine | devblogger/src/blog/storage.py:80-82 | a line yields a key and a value exactly when it holds a ':' |
| BlogEntries.Frontmatter | devblogger/src/blog/storage.py:67-96 | no frontmatter block gives `{}` |
| BlogEntries.ExtractFrontmatter | devblogger/src/blog/storage.py:67-96 | the loop over the block's lines builds the map `Frontmatter` specifies |
| BlogEntries.ParseLines | devblogger/src/blog/storage.py:78-94 | the line loop of `_extract_frontmatter`; `ParseLinesSnoc`, `ParsedKeys` and `LastLineWins` state it |
| BlogEntries.ParseLinesSnoc | devblogger/src/blog/storage.py:78-94 | one more line sets its key to its value, or changes nothing when it has no ':' |
| BlogEntries.ParsedKeys | devblogger/src/blog/storage.py:79-82 | a key is read exactly when some line with a ':' carries it |
| BlogEntries.LastLineWins | devblogger/src/blog/storage.py:79-94 | of several lines with one key the last one gives the value |
| BlogEntries.ParseKeyValueLine | devblogger/src/blog/storage.py:80-94 | the line "key: value" reads as that key with the classified value |
| BlogEntries.GeneratedByRoundTrip | devblogger/src/blog/storage.py:57-58 | "p (m)" splits back into provider p and model m when p has no '(' and m has none and does not end in ')' |
| BlogEntries.EntryFromFile | devblogger/src/blog/storage.py:46-65 | a missing file fails to load; a loaded entry records the path and has a title |
| BlogEntries.FromDict | devblogger/src/blog/storage.py:112-123 | an entry read from a dictionary records its path as a path and has a title |
| BlogEntries.StringsRoundTrip | devblogger/src/blog/storage.py:107-122 | a list of tags written as JSON strings reads back as the same list |
| BlogEntries.DictFieldsRoundTrip | devblogger/src/blog/storage.py:98-123 | `from_dict(to_dict(e))` rebuilds the entry from the same fields, its path read as a path |
| BlogEntries.ToDict | devblogger/src/blog/storage.py:98-109 | `BlogEntry.to_dict`; `DictRoundTrip` states that `from_dict` reads it back |
| BlogEntries.DictRoundTrip | devblogger/src/blog/storage.py:98-123 | for an entry with a title, `from_dict(to_dict(e))` is `e` with its path as a path |
| BlogEntries.EmptyTitleReadsAsDefault | devblogger/src/blog/storage.py:112-123 | an empty title reads back as the default title |
| EntryFormat.BlockFound | devblogger/src/blog/storage.py:71-75 | a block whose lines do not begin with "---" is found whole as the frontmatter of content it opens |
| EntryFormat.FieldsAreLines | devblogger/src/blog/generator.py:186-193 | each frontmatter field is one line, when repository, provider and model hold no newline |
| EntryFormat.EntryReadsBack | devblogger/src/blog/generator.py:172-203 | the frontmatter of a formatted entry reads back: commit_count is the number of commits and `generated_by` splits back into the provider and the model, as read by `from_file` (blog/storage.py lines 46-96) |
| EntryFormat.EntryFrontmatter | devblogger/src/blog/generator.py:186-203 | the frontmatter read from a formatted entry is exactly its six field lines parsed, as read by `_extract_frontmatter` (blog/storage.py lines 67-96) |
| EntryFormat.FormatBlogEntry | devblogger/src/blog/generator.py:172-203 | `_format_blog_entry`; `EntryLayout`, `EntryFrontmatter` and `EntryReadsBack` state its layout and that it reads back |
| EntryFormat.EntryLayout | devblogger/src/blog/generator.py:172-203 | a formatted entry is "---", the field lines, "---", a blank line, the cleaned content and the commit references |
| EntryFormat.BlockFrontmatter | devblogger/src/blog/storage.py:67-96 | content that opens with the fields between "---" lines reads as those fields parsed |
| EntryFormat.FieldsRead | devblogger/src/blog/generator.py:186-193 | the parsed fields hold commit_count as an integer and `generated_by` naming the provider and model, as read by `from_file` (blog/storage.py lines 57-58) |
| EntryFormat.CountLine | devblogger/src/blog/generator.py:190 | the commit_count line reads back as the integer, as read by `_extract_frontmatter` (blog/storage.py lines 86-87) |
| EntryFormat.GeneratedByLine | devblogger/src/blog/generator.py:191 | the `generated_by` line reads back as text, as read by `_extract_frontmatter` (blog/storage.py lines 93-94) |
| EntryFormat.KeyLine | devblogger/src/blog/storage.py:80-82 | a field line "key: value" reads back under its key |
| EntryFormat.MetadataLine | devblogger/src/blog/generator.py:326-328 | `_extract_metadata_from_content` takes a key and a text value from a line exactly when it holds a ':' |
| EntryFormat.ExtractMetadata | devblogger/src/blog/generator.py:317-330 | no frontmatter block gives `{}` |
| EntryFormat.MetadataTyped | devblogger/src/blog/generator.py:317-330 | the generator's text metadata has the same keys as the storage's frontmatter, whose values are the text values classified, as read by `_extract_frontmatter` (blog/storage.py lines 67-96) |
| EntryFormat.SamplingKeysAbsent | devblogger/src/blog/generator.py:186-193 | no field the generator writes is `max_tokens` or `temperature` |
| EntryFormat.GeneratedEntryHasNoSampling | devblogger/src/blog/generator.py:172-203 | an entry this generator wrote carries no `max_tokens` or `temperature`, so a regeneration of it passes neither |
| ContentCleaning.CollapseNewlines | devblogger/src/blog/generator.py:211 | collapsing newline runs keeps the first character of text that does not open with a newline |
| ContentCleaning.CollapseLeavesNoTriple | devblogger/src/blog/generator.py:211 | after `re.sub(r'\n{3,}', '\n\n', …)` no three newlines remain in a row |
| ContentCleaning.CollapseKeepsVisible | devblogger/src/blog/generator.py:211 | collapsing newline runs removes only newlines: the non-whitespace characters stay, in order |
| ContentCleaning.CollapseKeepsShortRuns | devblogger/src/blog/generator.py:211 | text without three newlines in a row is left unchanged |
| ContentCleaning.SpaceHeadersKeepsVisible | devblogger/src/blog/generator.py:214 | the newline added after header lines changes no non-whitespace character |
| ContentCleaning.SpaceHeadersByLines | devblogger/src/blog/generator.py:214 | line by line, a `#`–`######` header line gains one newline and every other line is copied |
| ContentCleaning.HeaderLineSpaced | devblogger/src/blog/generator.py:214 | a header line is followed by an added newline |
| ContentCleaning.PlainLineCopied | devblogger/src/blog/generator.py:214 | a line that is not a header is copied as it is |
| ContentCleaning.FixMarkersKeepsVisible | devblogger/src/blog/generator.py:217-219 | rewriting the whitespace after a list marker to one space changes no non-whitespace character |
| ContentCleaning.FixMarkersMark | devblogger/src/blog/generator.py:217-219 | at the start of a line, a marker and the whitespace after it (newlines included) become the marker and exactly one space |
| ContentCleaning.FixMarkersByLines | devblogger/src/blog/generator.py:217-219 | lines that open with no marker are left unchanged |
| ContentCleaning.CleanAiContent | devblogger/src/blog/generator.py:205-225 | empty content cleans to "" |
| ContentCleaning.CleanIsStripped | devblogger/src/blog/generator.py:222-225 | the cleaned content has no leading or trailing whitespace |
| ContentCleaning.CleanKeepsVisible | devblogger/src/blog/generator.py:205-225 | cleaning changes only whitespace: the non-whitespace characters stay, in order |
| ContentCleaning.CleanPlainText | devblogger/src/blog/generator.py:205-225 | text of plain lines with no newline runs over two and no surrounding whitespace is returned unchanged |
| ContentCleaning.CollapseFiveNewlines | devblogger/src/blog/generator.py:211 | five newlines between two lines collapse to two |
| ContentCleaning.CleanExcessNewlines | devblogger/src/blog/generator.py:205-225 | "Line 1\n\n\n\n\nLine 2" cleans to "Line 1\n\nLine 2", and so does any pair of plain lines |
| CommitSummary.FileLine | devblogger/src/blog/generator.py:153-162 | a file line is "  status filename", with " (+a)" only when a is non-zero and " (-d)" only when d is non-zero |
| CommitSummary.FileLines | devblogger/src/blog/generator.py:152-162 | one line per file, in order |
| CommitSummary.FileSection | devblogger/src/blog/generator.py:150-166 | no files, no section; otherwise "Files Changed:", the first ten file lines, and "  ... and k more files" exactly when k = files − 10 > 0 |
| CommitSummary.BuildFileSection | devblogger/src/blog/generator.py:150-166 | the loop builds the section `FileSection` specifies |
| CommitSummary.SectionTop | devblogger/src/blog/generator.py:143-147 | a commit section opens "--- Commit n ---", the sha, the author (name, login or "Unknown"), the date as `%Y-%m-%d %H:%M:%S` of its calendar date or "Unknown" when it has none, and the message |
| CommitSummary.CommitSection | devblogger/src/blog/generator.py:143-168 | a commit section is at least six lines and ends with an empty line |
| CommitSummary.SummaryLines | devblogger/src/blog/generator.py:134-168 | the summary has the three header lines and at least one line per commit |
| CommitSummary.PrepareCommitData | devblogger/src/blog/generator.py:132-170 | the loop builds the text `CommitData` specifies |
| CommitSummary.SummarySnoc | devblogger/src/blog/generator.py:142-168 | each commit appends its own section, numbered from 1 |
| CommitSummary.SummaryOpens | devblogger/src/blog/generator.py:137-138 | the summary opens "Repository: r" and "Total Commits: n" |
| CommitSummary.SectionOpens | devblogger/src/blog/generator.py:143-147 | the section of commit n carries its number, sha, author and message |
| CommitSummary.CommitListed | devblogger/src/blog/generator.py:142-168 | every commit has its own section in the summary |
| CommitSummary.ReferenceLine | devblogger/src/blog/generator.py:238-244 | a reference line opens "- **" + the first 8 characters of the sha + "** by " |
| CommitSummary.ReferenceLines | devblogger/src/blog/generator.py:237-244 | one reference line per commit, in order |
| CommitSummary.CommitReferences | devblogger/src/blog/generator.py:229-230 | no commits give "" |
| CommitSummary.GenerateCommitReferences | devblogger/src/blog/generator.py:227-249 | the loop builds the text `CommitReferences` specifies |
| CommitSummary.ReferencesLayout | devblogger/src/blog/generator.py:232-249 | with commits: the heading lines, one line per commit and a final newline |
| SelectionStats.GetGenerationStats | devblogger/src/blog/generator.py:332-383 | the loop builds the statistics `Stats` specifies |
| SelectionStats.TallyFiles | devblogger/src/blog/generator.py:351-360 | the inner loop collects the non-empty file names and sums the additions and deletions |
| SelectionStats.AuthorsListed | devblogger/src/blog/generator.py:348-350 | the authors are exactly the names (name, login or "Unknown") of the commits |
| SelectionStats.NamesListed | devblogger/src/blog/generator.py:353-356 | a file name is collected exactly when it is non-empty and some file carries it |
| SelectionStats.FilesListed | devblogger/src/blog/generator.py:351-356 | the files changed are exactly the non-empty names of some commit's files |
| SelectionStats.EarliestIsMinimum | devblogger/src/blog/generator.py:363-366 | the earliest date exists exactly when some commit is dated; it is a commit's date and no commit is dated before it |
| SelectionStats.LatestIsMaximum | devblogger/src/blog/generator.py:363-368 | the latest date exists exactly when some commit is dated; it is a commit's date and no commit is dated after it |
| SelectionStats.Stats | devblogger/src/blog/generator.py:332-383 | the statistics of `get_generation_stats`; `StatsShape` states them |
| SelectionStats.StatsShape | devblogger/src/blog/generator.py:332-383 | no commits give `{}`; otherwise total_commits is the number of commits, and the date range exists exactly when some commit is dated, with earliest ≤ latest and both commit dates |
| SelectionStats.ShortCount | devblogger/src/blog/generator.py:395-398 | at most one short message per commit |
| SelectionStats.ProcessedCount | devblogger/src/blog/generator.py:404-409 | at most one processed commit per commit |
| SelectionStats.ProcessedCountPositive | devblogger/src/blog/generator.py:404-412 | the processed count is positive exactly when some commit is processed under the repository used |
| SelectionStats.AllShortCounted | devblogger/src/blog/generator.py:395-398 | when every message is short, every commit is counted |
| SelectionStats.ProcessedWarning | devblogger/src/blog/generator.py:411-412 | the processed warning opens with the count |
| SelectionStats.Issues | devblogger/src/blog/generator.py:385-416 | the issues of `validate_commits`; `IssuesMeaning` states each |
| SelectionStats.IssuesMeaning | devblogger/src/blog/generator.py:385-416 | no commits give exactly ["No commits selected"]; over 50 commits put the slowness warning first; the quality warning appears exactly when more than half the messages are short; the processed warning comes last when there is one |
| Storage.EntryId | devblogger/src/blog/storage.py:179 | the id is the `%Y%m%d_%H%M%S` stamp of the calendar date and time, '_', and the repository with '/' replaced by '_' |
| Storage.SameSecondSameId | devblogger/src/blog/storage.py:179 | two instants in the same second give one repository the same id |
| Storage.EntryIdDetermines | devblogger/src/blog/storage.py:179 | equal ids mean the same second and the same repository up to '/' and '_' |
| Storage.InOrder | devblogger/src/blog/storage.py:206-208 | `entries.values()` in insertion order |
| Storage.Put | devblogger/src/blog/storage.py:182-190 | storing under an id keeps the order of insertion: an existing id keeps its place, a new one goes last |
| Storage.Loaded | devblogger/src/blog/storage.py:145-159 | the loaded index lists each id once and has an entry for each |
| Storage.LoadedIds | devblogger/src/blog/storage.py:145-159 | the loaded ids are those of the members of the object `json.load` builds that `from_dict` accepts, in that object's order |
| Storage.Decoded | devblogger/src/blog/storage.py:153-157 | the decode loop of `_load_index`: the ids kept are distinct and are the keys of the entries; `DecodedIds` states which they are |
| Storage.DecodedIds | devblogger/src/blog/storage.py:153-157 | over members without a repeated id, the loop keeps exactly the ids that decode, in order |
| Storage.RepeatedIdLastValueDecides | devblogger/src/blog/storage.py:150-156 | a repeated id is decoded from its last value only, so a last value that does not decode loses the id |
| Storage.RepeatedIdKeepsFirstPlace | devblogger/src/blog/storage.py:150-156 | a repeated id keeps the place of its first occurrence and takes its last value |
| Storage.LoadIndex | devblogger/src/blog/storage.py:145-159 | `json.load` first, then the loop over the loaded object's members gives the entries `Loaded` specifies |
| JsonData.LoadObject | devblogger/src/blog/storage.py:150-151 | `json.load` of an object: no key twice; `LoadObjectDistinct` and `LoadObjectLastWins` state where each key goes |
| JsonData.LoadObjectDistinct | devblogger/src/blog/storage.py:150-151 | a document that repeats no key loads as written, members in document order |
| JsonData.LoadObjectLastWins | devblogger/src/blog/storage.py:150-151 | a member whose key does not occur again is in the loaded object with its value |
| JsonData.AssignNew | devblogger/src/blog/storage.py:150-151 | assigning a new key puts it last |
| JsonData.AssignValues | devblogger/src/blog/storage.py:150-151 | assigning a present key keeps its place and replaces its value; every other member stays |
| Storage.IndexDocument | devblogger/src/blog/storage.py:161-170 | the saved index holds `to_dict` of every entry, in order |
| Storage.Reload | devblogger/src/blog/storage.py:98-123 | an entry written to the index reads back as itself |
| Storage.SaveThenLoad | devblogger/src/blog/storage.py:145-170 | loading a saved index gives back the same ids, in order, and the same entries |
| Storage.Added | devblogger/src/blog/storage.py:175-196 | adding keeps each id listed once with an entry |
| Storage.AddedEntry | devblogger/src/blog/storage.py:175-196 | a new id is inserted last; an existing id keeps its place and only its filepath, title and tags are overwritten; no other entry changes |
| Storage.SameSecondAddsCollide | devblogger/src/blog/storage.py:179-190 | two adds for one repository in the same second leave one entry: the first one's fields with the second one's filepath, title and tags |
| Storage.SearchResults | devblogger/src/blog/storage.py:225-236 | the results are the entries whose lower-cased title, repository or some tag contains the lower-cased query, in index order |
| Storage.Search | devblogger/src/blog/storage.py:225-236 | the loop collects the results `SearchResults` specifies |
| Storage.EmptyQueryFindsAll | devblogger/src/blog/storage.py:225-236 | an empty query returns every entry |
| Storage.SearchIgnoresQueryCase | devblogger/src/blog/storage.py:227 | queries that lower-case alike find the same entries |
| Storage.Apply | devblogger/src/blog/storage.py:247-249 | an update sets its own attribute and leaves every other attribute unchanged |
| Storage.ApplyAll | devblogger/src/blog/storage.py:247-249 | attributes no update names are unchanged |
| Storage.LastTitleWins | devblogger/src/blog/storage.py:247-249 | of several title updates the last one wins |
| Storage.TallyCounts | devblogger/src/blog/storage.py:299-305 | a key is counted exactly when it occurs, as many times as it occurs |
| Storage.StatsCountRepositories | devblogger/src/blog/storage.py:284-311 | total_entries is the number of entries and each repository is counted by its number of entries |
| Storage.RepositoryListed | devblogger/src/blog/storage.py:299-301 | a repository is counted exactly when some entry has it |
| Storage.MissingMeans | devblogger/src/blog/storage.py:409-415 | a missing file is reported exactly for an entry whose file does not exist |
| Storage.Orphans | devblogger/src/blog/storage.py:417-429 | the orphaned files are the `*.md` files equal to no entry's path, in listing order |
| Storage.Validation | devblogger/src/blog/storage.py:400-436 | total_issues is the sum of the two lists; when a text path makes the scan raise, the error is recorded |
| Storage.OlderThan | devblogger/src/blog/storage.py:384-387 | the stale ids are exactly the entries generated before the cutoff, in index order |
| Storage.SurvivingStep | devblogger/src/blog/storage.py:389-391 | deleting one more stale id removes it when it is present with a path |
| Storage.CleanupKeepsUnexpired | devblogger/src/blog/storage.py:378-398 | after the corrected cleanup, exactly the unexpired entries remain, unchanged |
| Storage.RemoveFiles | devblogger/src/blog/storage.py:448-454 | every orphan is removed, or reported as "Failed to remove <path>: " followed by the FileNotFoundError text; exactly the listed files leave the disk |
| Storage.RemoveFilesStep | devblogger/src/blog/storage.py:448-454 | one turn of the loop: a present file is unlinked with no error, a missing one gives its error, and the remaining errors follow |
| Storage.RemoveErrorsOfPresent | devblogger/src/blog/storage.py:448-454 | files listed once each that all exist are all removed without an error |
| Storage.RemoveErrorsOfRepeat | devblogger/src/blog/storage.py:448-454 | a file listed twice is removed on its first turn and reported on its second |
| Storage.RepairLeavesNoOrphans | devblogger/src/blog/storage.py:438-462 | once the orphans are removed, a new validation finds none |
| Storage.BlogStorage.constructor | devblogger/src/blog/storage.py:128-143 | the storage starts with the index loaded from its directory |
| Storage.BlogStorage.Values | devblogger/src/blog/storage.py:206-208 | the entries in index order |
| Storage.BlogStorage.AddEntry | devblogger/src/blog/storage.py:175-196 | returns the stamp-and-repository id and stores the entry as `Added` specifies |
| Storage.BlogStorage.GetEntry | devblogger/src/blog/storage.py:202-204 | the entry under the id, None when there is none |
| Storage.BlogStorage.EntriesByRepository | devblogger/src/blog/storage.py:210-212 | the entries of the repository, in index order |
| Storage.BlogStorage.EntriesByProvider | devblogger/src/blog/storage.py:214-216 | the entries of the provider, in index order |
| Storage.BlogStorage.EntriesByDateRange | devblogger/src/blog/storage.py:218-223 | the entries generated within the range, both ends included, in index order |
| Storage.BlogStorage.SearchEntries | devblogger/src/blog/storage.py:225-236 | the results `SearchResults` specifies |
| Storage.BlogStorage.UpdateEntry | devblogger/src/blog/storage.py:238-259 | an unknown id answers False and changes nothing; otherwise the updates are applied to that entry alone |
| Storage.BlogStorage.DeleteEntry | devblogger/src/blog/storage.py:261-282 | a known id with a path loses its entry and file; an unknown id, or a text path that raises on `exists`, answers False and changes nothing |
| Storage.BlogStorage.GetStorageStats | devblogger/src/blog/storage.py:284-316 | the statistics `StatsOf` specifies |
| Storage.BlogStorage.ValidateStorage | devblogger/src/blog/storage.py:400-436 | the issues `Validation` specifies |
| Storage.BlogStorage.RepairStorage | devblogger/src/blog/storage.py:438-462 | the orphaned files found by validation are removed or reported; repaired_missing_files is always 0 |
| Storage.BlogStorage.CleanupOldEntriesAsWritten | devblogger/src/blog/storage.py:378-398 | as written, always 0: `datetime.timedelta` raises and the handler answers 0 |
| Storage.BlogStorage.CleanupOldEntries | devblogger/src/blog/storage.py:378-398 | with `timedelta`, the entries generated before the cutoff are deleted from the index, their files are unlinked, and the count is the number of entries removed |
| Storage.BlogStorage.DeleteEach | devblogger/src/blog/storage.py:389-391 | the loop deletes the stale ids one by one: the index keeps what `Surviving` specifies, and the disk loses exactly the files of the deleted entries |
| Storage.DeleteEachStep | devblogger/src/blog/storage.py:389-391 | one `delete_entry` of the loop keeps the index at `Surviving` and the disk at the files left |
| Storage.CollectStats | devblogger/src/blog/storage.py:284-316 | the loop builds the statistics `StatsOf` specifies |
| Storage.ScanMissing | devblogger/src/blog/storage.py:409-415 | the loop builds the missing-file list `MissingScan` specifies |
| Storage.FindOrphans | devblogger/src/blog/storage.py:417-429 | the loop builds the orphan list `Orphans` specifies |
| Storage.IsIndexed | devblogger/src/blog/storage.py:421-426 | the inner loop answers whether some entry's path is the file |
| SelectionStats.UnnamedRepositoryCountsNothing | devblogger/src/blog/generator.py:404-409 | as written the processed check asks about repository "", so while every marked row names a repository the count is 0 |
| AiProviders.KindNameInjective | devblogger/src/ai/manager.py:28-47 | the three clients are registered under three different names |
| AiProviders.NewResponse | devblogger/src/ai/base.py:13-25 | metadata not given becomes the empty dictionary; every other field is kept as given |
| AiProviders.ValidOpenAiKey | devblogger/src/ai/openai_client.py:178-184 | a key is valid exactly when it is longer than 20 characters and starts with "sk-"; the empty key never is |
| AiProviders.ValidGeminiKey | devblogger/src/ai/gemini_client.py:224-230 | a key is valid exactly when it has 39 characters and starts with "AIza"; the empty key never is |
| AiProviders.FirstOf | devblogger/src/ai/ollama_client.py:195-206 | the first index of a character of the set, or the length when none occurs |
| AiProviders.UrlSplit | devblogger/src/ai/ollama_client.py:195-206 | `urlparse`, through `urlsplit`: the tab, CR and LF characters are deleted, then the scheme and network location are split; `CleanBaseUrlSplits` and `UnsafeCharsIgnored` state it |
| AiProviders.CleanBaseUrlSplits | devblogger/src/ai/ollama_client.py:195-206 | a letter scheme, "://", a host and a path split into the lower-cased scheme and the host |
| AiProviders.ValidBaseUrl | devblogger/src/ai/ollama_client.py:195-206 | the empty string is never a valid base URL; a URL is judged after `urlsplit` deletes its tab, CR and LF characters |
| AiProviders.UnsafeCharsIgnored | devblogger/src/ai/ollama_client.py:195-206 | a URL is valid exactly when it is still non-empty and valid once its tab, CR and LF characters are deleted |
| AiProviders.LeadingTabIgnored | devblogger/src/ai/ollama_client.py:195-206 | "\thttp://localhost:11434" is a valid base URL |
| AiProviders.FirstOfIs | devblogger/src/ai/ollama_client.py:195-206 | the search stops at the first matching index |
| AiProviders.NetlocOfHost | devblogger/src/ai/ollama_client.py:195-206 | the network location of "//host/path" is the host |
| AiProviders.BaseUrlAccepted | devblogger/src/ai/ollama_client.py:195-206 | every URL made of a letter scheme, "://", a host and an optional path is accepted |
| AiProviders.DefaultBaseUrlValid | devblogger/src/ai/ollama_client.py:31-40 | the default address http://localhost:11434 is itself a valid base URL |
| AiProviders.OpenAiModelInfo | devblogger/src/ai/openai_client.py:147-156 | max_tokens 4096; a context of 8192 for gpt-3.5 models and 128000 otherwise |
| AiProviders.GeminiModelInfo | devblogger/src/ai/gemini_client.py:174-202 | max_tokens 2048; gemini-pro-vision is multimodal with a context of 16384, every other model a chat model with 30720 |
| AiProviders.OllamaModelInfo | devblogger/src/ai/ollama_client.py:168-177 | the configured max_tokens and a context of 4096 |
| AiProviders.EffectiveMaxTokens | devblogger/src/ai/openai_client.py:218-219 | None and 0 fall back to the configured max_tokens; any other value is used |
| AiProviders.EffectiveTemperature | devblogger/src/ai/openai_client.py:220 | only None falls back to the configured temperature |
| AiProviders.ZeroArguments | devblogger/src/ai/openai_client.py:218-220 | an explicit max_tokens of 0 is replaced while an explicit temperature of 0.0 is sent |
| AiProviders.Provider.constructor | devblogger/src/ai/openai_client.py:27-50 | the key (or Ollama's base URL), model, max_tokens and temperature are the configured ones; the SDK objects exist exactly when the SDK imported and the key is non-empty |
| AiProviders.Provider.IsConfigured | devblogger/src/ai/openai_client.py:52-54 | `is_configured`; `WorkingIsConfigured` and `AiManager.ProviderManager.ConfiguredIn` state it |
| AiProviders.Provider.TestConnection | devblogger/src/ai/openai_client.py:56-66 | `test_connection`; `WorkingIsConfigured` and `AiManager.ProviderManager.TestAll` state it |
| AiProviders.Provider.WorkingIsConfigured | devblogger/src/ai/openai_client.py:52-66 | a passing connection test implies a configured client; for ChatGPT the test passes exactly for a configured client with a well-formed key |
| AiProviders.Provider.ValidateConfig | devblogger/src/ai/base.py:101-106 | no issues exactly when the client is configured, else the single "not configured" issue |
| AiProviders.Provider.ModelInfoFor | devblogger/src/ai/ollama_client.py:168-177 | the information is about the model asked for, and every context is at least 4096 |
| AiProviders.Provider.OpenAiUsageInfo | devblogger/src/ai/openai_client.py:186-198 | without a client only configured = False; with one, api_key_valid is the key check |
| AiProviders.Provider.GeminiAvailableModels | devblogger/src/ai/gemini_client.py:154-172 | nothing without the SDK; the two known models when listing fails; otherwise no more names than were listed |
| AiProviders.Provider.RequestFor | devblogger/src/ai/openai_client.py:214-240 | the request carries the configured model, the prompt and the defaulted max_tokens and temperature |
| AiProviders.Provider.GenerateText | devblogger/src/ai/openai_client.py:214-267 | a request is sent exactly when the client can send; the guards answer their ValueError; a service error is a failure; a success carries this client's name and model and stripped text |
| AiProviders.Provider.Answer | devblogger/src/ai/ollama_client.py:281-342 | a service error becomes the client's prefixed error; Ollama's answer is the stripped text with word counts as tokens, tokens_used their sum |
| AiProviders.Provider.UpdateConfig | devblogger/src/ai/openai_client.py:158-176 | the corrected update: key (or base URL) and model set, the configuration persisted with unchanged max_tokens and temperature, both OpenAI clients rebuilt, so a configured ChatGPT client can send |
| AiProviders.Provider.UpdateConfigAsWritten | devblogger/src/ai/openai_client.py:158-176 | as written: the same update, but the synchronous OpenAI client keeps its old state |
| AiProviders.Provider.Store | devblogger/src/ai/gemini_client.py:204-222 | the fields are set and the configuration dictionary written under the provider's name, or the write fails |
| AiProviders.Persisted | devblogger/src/ai/ollama_client.py:179-193 | the persisted dictionary has exactly the credential, model, max_tokens and temperature keys, with the new credential and model |
| AiProviders.SdkResponse | devblogger/src/ai/gemini_client.py:280-304 | tokens_used is OpenAI's total or Gemini's prompt plus candidate counts, and absent without usage |
| AiProviders.OllamaResponse | devblogger/src/ai/ollama_client.py:310-335 | the text is kept; the metadata holds the prompt and completion word counts and the server's `total_duration`, `load_duration`, `eval_duration` and `eval_count` (None when missing); tokens_used is the sum of the two counts |
| AiProviders.LastSegments | devblogger/src/ai/gemini_client.py:160-166 | no more names than listed, none containing '/' |
| AiProviders.LastSegment | devblogger/src/ai/gemini_client.py:164 | a suffix of the name with no '/', preceded by '/' when shorter than the name |
| AiProviders.StaleSyncClientAfterUpdate | devblogger/src/ai/openai_client.py:158-176 | as written, a ChatGPT client started without a key and given a valid one reports configured and working, yet every generation answers "OpenAI client not initialized" |
| AiProviders.SyncClientRebuiltAfterUpdate | devblogger/src/ai/openai_client.py:158-176 | with the corrected update the same sequence sends the request and succeeds |
| AiManager.DefaultChoice | devblogger/src/ai/manager.py:49-67 | the configured default when it is registered; otherwise the first configured provider; otherwise the previous choice |
| AiManager.ProviderManager.constructor | devblogger/src/ai/manager.py:19-47 | chatgpt, gemini and ollama registered in that order, then the default active provider chosen |
| AiManager.ProviderManager.RegisterProviders | devblogger/src/ai/manager.py:28-47 | the three clients registered in order |
| AiManager.ProviderManager.Register | devblogger/src/ai/base.py:128-131 | keyed by name; a new name is appended to the order, a repeated one keeps its place |
| AiManager.ProviderManager.GetProvider | devblogger/src/ai/base.py:133-135 | None exactly for an unregistered name, otherwise the provider of that name |
| AiManager.ProviderManager.SetActiveProvider | devblogger/src/ai/base.py:137-143 | a registered name becomes active; an unknown one is refused with its message and changes nothing |
| AiManager.ProviderManager.GetActiveProvider | devblogger/src/ai/base.py:145-149 | None without an active name; otherwise the registered provider of that name |
| AiManager.ProviderManager.GetAllProviders | devblogger/src/ai/base.py:151-153 | a copy of the registry, each provider under its own name |
| AiManager.ProviderManager.ConfiguredIn | devblogger/src/ai/base.py:193-198 | exactly the configured providers, in registration order |
| AiManager.ProviderManager.WorkingIn | devblogger/src/ai/base.py:200-205 | exactly the configured providers whose test passes, in registration order |
| AiManager.ProviderManager.WorkingWithinConfigured | devblogger/src/ai/base.py:193-205 | every working provider is configured |
| AiManager.ProviderManager.OrderCountsProviders | devblogger/src/ai/base.py:128-131 | one order entry per registered provider |
| AiManager.ProviderManager.GenerateWithActive | devblogger/src/ai/base.py:176-191 | no active provider, or an unconfigured one, raise their errors; otherwise exactly that provider's generation |
| AiManager.ProviderManager.SetDefaultActiveProvider | devblogger/src/ai/manager.py:49-67 | the active provider becomes the default choice |
| AiManager.ProviderManager.DefaultChoiceRegistered | devblogger/src/ai/manager.py:49-67 | a new choice is always registered, and configured unless the settings named it |
| AiManager.ProviderManager.StatusSummary | devblogger/src/ai/manager.py:69-81 | total counts the providers; working ≤ configured ≤ total |
| AiManager.ProviderManager.ValidateAll | devblogger/src/ai/manager.py:83-92 | an entry exactly for each unconfigured provider, with its issue |
| AiManager.ProviderManager.Recommended | devblogger/src/ai/manager.py:94-111 | always a configured provider; None exactly when none is configured; a working one when any works; the active one when it works |
| AiManager.ProviderManager.SwitchToBest | devblogger/src/ai/manager.py:113-126 | switches, answering True, exactly when a recommendation exists and differs from the active provider |
| AiManager.ProviderManager.TestAll | devblogger/src/ai/manager.py:188-199 | one entry per provider, its connection test |
| AiManager.ProviderManager.Reconfigure | devblogger/src/ai/manager.py:158-186 | the named provider's update as written; nothing else in the registry changes; `ok` is false exactly when the settings write `StoreProviderConfig` specifies raises, and a true `ok` leaves the persisted configuration readable under the provider's name |
| AiManager.ProviderManager.UpdateProviderConfig | devblogger/src/ai/manager.py:158-186 | False for an unknown name, with nothing changed; otherwise only the named provider changes: its credential and model come from the dictionary with their defaults, the configuration is persisted as `StoreProviderConfig` specifies, and the answer is True exactly when that write does not raise |
| AiManager.ProviderManager.ResetProviderConfig | devblogger/src/ai/manager.py:220-240 | False for an unknown name, with nothing changed; otherwise only the named provider changes: it is back at its default credential and model, that configuration is persisted as `StoreProviderConfig` specifies, and the answer is True exactly when that write does not raise |
| AiManager.ResetLeavesDefaults | devblogger/src/ai/manager.py:220-240 | after a reset only Ollama is configured |
| Generation.ChosenPrompt | devblogger/src/blog/generator.py:50-54 | the prompt is never empty: the argument when given, else the settings' default prompt, else the built-in text |
| Generation.Call | devblogger/src/blog/generator.py:68-130 | the provider call and formatting of `generate_blog_entry`; `CallOutcome` states it |
| Generation.CallOutcome | devblogger/src/blog/generator.py:68-130 | the call sends the provider's request for the prompt and commit data; a failure carries "Failed to generate blog entry: "; a success is exactly an answer, formatted from its text with metadata holding the commit count, provider, model and tokens |
| Generation.MarkedAllSnoc | devblogger/src/blog/generator.py:251-262 | marking one more commit is one more `mark_commit_processed` |
| Generation.MarkedAllKeeps | devblogger/src/blog/generator.py:251-262 | marking keeps every commit processed that was processed before |
| Generation.MarkedAllProcessed | devblogger/src/blog/generator.py:251-262 | after marking every selected commit is processed for the repository |
| Generation.EntryFileName | devblogger/src/blog/generator.py:267-275 | the name always ends in ".md" and starts with the custom name when one is given |
| Generation.FileNameIdempotent | devblogger/src/blog/generator.py:267-275 | saving again under the produced name keeps that name |
| Generation.SameSecondSameFile | devblogger/src/blog/generator.py:272-275 | two saves without a custom name in the same second write the same file |
| Generation.SaveFailed | devblogger/src/blog/generator.py:291-293 | the message is "Failed to save blog entry: " followed by the reason |
| Generation.BlogGenerator.constructor | devblogger/src/blog/generator.py:27-32 | the generator holds the AI manager, settings and database it was given |
| Generation.BlogGenerator.ChosenProvider | devblogger/src/blog/generator.py:56-61 | a given provider name is used; otherwise it fails exactly when there is no active provider, and else is the active provider's registered name |
| Generation.BlogGenerator.PrecheckOutcome | devblogger/src/blog/generator.py:44-66 | the four checks fail in order with their messages, and pass exactly when commits and repository are non-empty and the chosen provider is registered and configured; then they yield the chosen prompt and provider |
| Generation.BlogGenerator.Attempt | devblogger/src/blog/generator.py:34-130 | `generate_blog_entry`: the checks, then the call; `AttemptChecksFirst`, `AttemptIsCall`, `AttemptStamp` and `AttemptMetadata` state it |
| Generation.BlogGenerator.AttemptChecksFirst | devblogger/src/blog/generator.py:44-68 | a failed check refuses with its message before anything is sent; any request, answer or success means the checks passed |
| Generation.BlogGenerator.AttemptIsCall | devblogger/src/blog/generator.py:68-130 | once the checks pass, the attempt is the call of the provider they chose |
| Generation.BlogGenerator.AttemptMetadata | devblogger/src/blog/generator.py:115-126 | a success is stamped with the repository, the commit count, the provider chosen by the checks and the time of the call |
| Generation.BlogGenerator.AttemptStamp | devblogger/src/blog/generator.py:115-126 | a success is stamped with the repository, the number of commits and the time of the call |
| Generation.BlogGenerator.GenerateBlogEntry | devblogger/src/blog/generator.py:34-130 | the result is the attempt's; the commits are marked processed exactly after a success, when the database is available; nothing else in the database changes |
| Generation.BlogGenerator.GenerateChecked | devblogger/src/blog/generator.py:68-130 | once the checks pass: the call's result, and the commits marked processed after a success |
| Generation.BlogGenerator.Checks | devblogger/src/blog/generator.py:44-66 | the checks evaluated in turn give `Precheck` |
| Generation.BlogGenerator.Produce | devblogger/src/blog/generator.py:68-110 | the request and the entry built from the answer give the call's result |
| Generation.BlogGenerator.MarkCommitsProcessed | devblogger/src/blog/generator.py:251-262 | every commit marked for the repository and provider; an unavailable database changes nothing |
| Generation.BlogGenerator.CountProcessed | devblogger/src/blog/generator.py:404-409 | the number of commits the database reports processed for the repository |
| Generation.BlogGenerator.CountShort | devblogger/src/blog/generator.py:395-398 | the number of messages shorter than 10 characters once stripped |
| Generation.BlogGenerator.ValidateCommitsAsWritten | devblogger/src/blog/generator.py:385-416 | as written: the processed check asks about repository "" |
| Generation.BlogGenerator.ValidateCommits | devblogger/src/blog/generator.py:385-416 | the issues for the selection, the processed check asking about its repository |
| Generation.BlogGenerator.SaveBlogEntry | devblogger/src/blog/generator.py:264-293 | a success writes the content at the entries directory under `EntryFileName` and returns that path; it fails exactly when the directory is not a path or the write raises, and then nothing is written |
| Generation.BlogGenerator.RegenerateBlogEntry | devblogger/src/blog/generator.py:295-315 | a new attempt with the new provider and no sampling arguments, marking the commits after a success |
| BlogManagement.RFind | devblogger/src/blog/manager.py:155 | the last index holding the character, None when it does not occur |
| BlogManagement.BaseName | devblogger/src/blog/manager.py:155 | the name after the last '/', containing none |
| BlogManagement.Stem | devblogger/src/blog/manager.py:155 | the name without its last suffix; a leading or trailing dot begins no suffix |
| BlogManagement.RFindLast | devblogger/src/blog/manager.py:155 | the last '/' is the one followed by a tail free of '/' |
| BlogManagement.RegenerationOverwrites | devblogger/src/blog/manager.py:152-156 | regenerating an entry saved as `dir/s.md` saves again as `s.md`, overwriting the file, whenever `s` is non-empty, has no '/' and does not end in ".md" |
| BlogManagement.StampChars | devblogger/src/blog/generator.py:273 | a timestamp is digits around one '_' and ends in a digit |
| BlogManagement.DefaultNameOverwritten | devblogger/src/blog/manager.py:152-156 | a file saved under the default name is overwritten by a regeneration |
| BlogManagement.Matching | devblogger/src/blog/manager.py:193-198 | exactly the entries of the repository and provider when given, in index order |
| BlogManagement.Listing | devblogger/src/blog/manager.py:182-214 | `get_blog_entries`: the indexed entries filtered by repository and provider, newest first, then cut by offset and limit; `ListingWindow`, `ListingMembers`, `ListingNewestFirst`, `ListingComplete` and `ListingPage` state what it holds |
| BlogManagement.ListingWindow | devblogger/src/blog/manager.py:182-214 | a listing is a run of consecutive entries of the sorted, filtered entries |
| BlogManagement.ListingMembers | devblogger/src/blog/manager.py:182-214 | every listed entry is indexed and passes the filters |
| BlogManagement.ListingNewestFirst | devblogger/src/blog/manager.py:200-201 | the listing has the newest entries first |
| BlogManagement.ListingComplete | devblogger/src/blog/manager.py:182-214 | without paging, every matching entry is listed as often as indexed, and equal dates keep index order |
| BlogManagement.ListingPage | devblogger/src/blog/manager.py:203-208 | a positive limit and an offset give at most `limit` entries starting `offset` into the sorted listing |
| BlogManagement.RecentEntries | devblogger/src/blog/manager.py:331-334 | `get_recent_entries`: the first `limit` entries of the newest-first listing; `RecentAreNewest` states they are the newest ones |
| BlogManagement.RecentAreNewest | devblogger/src/blog/manager.py:331-334 | at most `limit` entries, the newest ones, all of them when fewer are indexed |
| BlogManagement.FirstSeen | devblogger/src/blog/storage.py:299-305 | each key once, in the order it first occurs |
| BlogManagement.Items | devblogger/src/blog/manager.py:340-342 | one pair per key, with its count, in insertion order |
| BlogManagement.CountedOnce | devblogger/src/blog/manager.py:336-343 | an element of a list without repeats occurs in it once |
| BlogManagement.CountedTwice | devblogger/src/blog/manager.py:336-343 | an element at two positions occurs at least twice |
| BlogManagement.ItemsOfTally | devblogger/src/blog/manager.py:336-343 | the items of the repository tally are distinct, each with its number of entries, and cover every repository |
| BlogManagement.PermutedItems | devblogger/src/blog/manager.py:342 | sorting keeps the items distinct, counted and covering |
| BlogManagement.PrefixOfRanking | devblogger/src/blog/manager.py:343 | cutting the ranking to `limit` keeps it sorted, distinct and counted, and what it leaves out comes later |
| BlogManagement.TopRanking | devblogger/src/blog/manager.py:336-343 | the ranking cut to `limit` is sorted by count, distinct and counted |
| BlogManagement.PopularRepositories | devblogger/src/blog/manager.py:336-343 | `get_popular_repositories`: the storage statistics' repositories with their entry counts, most entries first, at most `limit`, and none when the statistics report an error; `PopularRanking` states the ranking |
| BlogManagement.PopularRanking | devblogger/src/blog/manager.py:336-343 | at most `limit` distinct indexed repositories, each with its number of entries, largest first; one left out has no more entries than any listed one, and only when the list is full |
| BlogManagement.AddedKeepsKeyed | devblogger/src/blog/storage.py:175-196 | adding keeps every entry under the id its date and repository give |
| BlogManagement.HistoryItemOf | devblogger/src/blog/manager.py:358-375 | one item of `get_generation_history`: the id worked out from the entry's date and repository, its title, repository, provider, model, commit count, `generated_at` in ISO form and path; `HistoryIdFindsEntry` states the id finds the entry |
| BlogManagement.HistoryIdFindsEntry | devblogger/src/blog/manager.py:358-375 | while entries are keyed by their date and repository, a history item's id is the id it is stored under |
| BlogManagement.Moved | devblogger/src/blog/manager.py:159-167 | the entry gets the new file, provider and time; nothing else changes |
| BlogManagement.RegenerationMovesHistoryId | devblogger/src/blog/manager.py:161-167 | after a regeneration in another second, the history reports an id under which the index does not keep the entry |
| BlogManagement.IndexedEntry | devblogger/src/blog/manager.py:84-94 | the indexed entry has the file, repository, commit count and metadata, with the default title and no tags |
| BlogManagement.Reported | devblogger/src/blog/manager.py:45-117 | the result dictionary of `generate_blog_from_commits`; `ReportedMeaning` states what a created result and a failure carry |
| BlogManagement.ReportedMeaning | devblogger/src/blog/manager.py:76-117 | a created result names the content and the file written, and its id finds the entry pointing at that file; every failure carries the repository and commit count |
| BlogManagement.RegenSource | devblogger/src/blog/manager.py:128-139 | the entry's file is read, or the error for an unknown id, a text path or a missing file |
| BlogManagement.RegenReported | devblogger/src/blog/manager.py:119-180 | the result dictionary of `regenerate_blog_entry`; `RegenReportedMeaning` states when it succeeds and what it carries |
| BlogManagement.RegenReportedMeaning | devblogger/src/blog/manager.py:141-180 | success exactly when the file was read, the generation succeeded and the save went through; every answer carries the id; the file is overwritten in place under an explicit ".md" name |
| BlogManagement.Recorded | devblogger/src/blog/manager.py:159-164 | the recorded path, as a path or as its text |
| BlogManagement.TextPathBreaksEntry | devblogger/src/blog/manager.py:163-167 | once the path is recorded as text, the next regeneration and the storage statistics fail |
| BlogManagement.PathMoveKeepsEntry | devblogger/src/blog/manager.py:159-167 | recording the path as a path keeps the statistics working and the next regeneration finding the file |
| BlogManagement.Names | devblogger/src/blog/manager.py:299 | the repository names of the bulk items, in order |
| BlogManagement.Successes | devblogger/src/blog/manager.py:309-314 | the number of named results that are created entries |
| BlogManagement.BulkStep | devblogger/src/blog/manager.py:299-327 | storing one more repository's result and counting it keeps the bulk bookkeeping |
| BlogManagement.NextNameIsNew | devblogger/src/blog/manager.py:299 | a repository of a list without repeats is not among the names before it |
| BlogManagement.BulkKeysStep | devblogger/src/blog/manager.py:307-314 | the next result adds its name and counts once if it is a success |
| BlogManagement.BulkOutcomesStep | devblogger/src/blog/manager.py:299-327 | the next outcome joins the earlier ones without disturbing them |
| BlogManagement.SuccessesIgnoreOthers | devblogger/src/blog/manager.py:309-314 | results under other names do not change the count |
| BlogManagement.BlogManager.constructor | devblogger/src/blog/manager.py:23-43 | a generator over the AI manager, settings and database, and the index read from the directory |
| BlogManagement.BlogManager.GenerateBlogFromCommits | devblogger/src/blog/manager.py:45-117 | the generation, then the save, then the indexed entry, as `Reported` specifies; a failed save leaves the commits marked |
| BlogManagement.BlogManager.SaveAndIndex | devblogger/src/blog/manager.py:76-104 | the generated content saved, then indexed with its metadata |
| BlogManagement.BlogManager.RegenerateBlogEntry | devblogger/src/blog/manager.py:119-180 | the corrected regeneration: the file read, the new content saved under the old stem, the entry moved with its path kept a path, its `generated_at` the later clock reading `movedAt` |
| BlogManagement.BlogManager.RegenerateBlogEntryAsWritten | devblogger/src/blog/manager.py:119-180 | as written: the same, but the entry ends up with its path as text |
| BlogManagement.BlogManager.RegenerateFrom | devblogger/src/blog/manager.py:141-172 | once the file is found: the new generation (at `now`) from its content, then the save and the move (at `movedAt`) |
| BlogManagement.BlogManager.SaveAndMove | devblogger/src/blog/manager.py:150-170 | the content saved under the old stem, then the entry moved to the new file, provider and `movedAt` |
| BlogManagement.BlogManager.MoveEntry | devblogger/src/blog/manager.py:158-167 | the index entry gets the new file path, provider and the clock reading `movedAt`; no other entry and no id changes |
| BlogManagement.BlogManager.GenerateOne | devblogger/src/blog/manager.py:56-117 | one repository's call: a raising start callback stops it before anything changes; otherwise `generate_blog_from_commits` runs in full (its result, the new index entry and file when created, the commits marked after a success) and only then may the end callback raise |
| BlogManagement.BlogManager.GenerateCounted | devblogger/src/blog/manager.py:288-329 | one step of the bulk loop: the index and the disk gain the id and file of a created entry and nothing else, no processed commit is unmarked, and a created entry's commits are processed |
| BlogManagement.CreatedKey | devblogger/src/blog/manager.py:84-94 | a created entry adds exactly its id to the index's keys |
| BlogManagement.BulkStateStep | devblogger/src/blog/manager.py:288-329 | after each repository the index, the disk and the processed commits are those of the results so far |
| BlogManagement.BlogManager.BulkGenerateBlogs | devblogger/src/blog/manager.py:288-329 | one result per repository; successful + failed = total = number of repositories; successful counts the created entries; each result is the outcome of that repository's call; the index and the disk gain exactly the ids and files of the created entries; no commit becomes unprocessed, and each created entry's commits are processed |
| BlogManagement.BlogManager.CreatedStamp | devblogger/src/blog/manager.py:84-94 | a created entry is stamped with the repository, the commit count and the time of the call |
| CommitBrowsing.WindowDays | devblogger/src/gui/commit_browser.py:316-346 | "Last 7/30/90 days" reach 7, 30 and 90 days back; "All time" and any other label set no window |
| CommitBrowsing.ByDateKeeps | devblogger/src/gui/commit_browser.py:316-346 | the date filter keeps exactly the dated commits after the window's start, and every commit without a window |
| CommitBrowsing.BySearchKeeps | devblogger/src/gui/commit_browser.py:348-359 | a commit is kept exactly when the term is in its lower-cased message or in its non-empty author name |
| CommitBrowsing.Filtered | devblogger/src/gui/commit_browser.py:286-311 | `_apply_filters`: the date filter, then the search, then the count; `FilteredSound`, `FilteredComplete` and `FilteredCount` state it |
| CommitBrowsing.FilteredSound | devblogger/src/gui/commit_browser.py:286-311 | the filtered list is a subsequence of the loaded commits, each passing both filters |
| CommitBrowsing.FilteredComplete | devblogger/src/gui/commit_browser.py:286-311 | with the count "All" every commit passing both filters is listed |
| CommitBrowsing.FilteredCount | devblogger/src/gui/commit_browser.py:302-306 | a numeric count caps the list at that many commits; a non-numeric one changes nothing |
| CommitBrowsing.Shorten | devblogger/src/gui/commit_browser.py:430-438 | at most `width` characters; a longer text keeps its first `width - 3` and ends in "..." |
| CommitBrowsing.CommitDisplayBounds | devblogger/src/gui/commit_browser.py:420-442 | the line holds no newline and at most 8 sha, 20 author and 60 message characters |
| CommitBrowsing.RemoveFirst | devblogger/src/gui/commit_browser.py:597-601 | the first occurrence is dropped and the rest kept in order |
| CommitBrowsing.ReselectedMembership | devblogger/src/gui/commit_browser.py:578-630 | the commit is selected exactly when one of its boxes is checked, never twice, and the other selections are kept |
| CommitBrowsing.Shas | devblogger/src/gui/commit_browser.py:632-664 | the shas of the commits, in order |
| CommitBrowsing.SetBoxesHold | devblogger/src/gui/commit_browser.py:632-664 | "select all" adds and drops no box; listed commits' boxes take the new state and the others keep theirs |
| CommitBrowsing.SelectionSnoc | devblogger/src/gui/commit_browser.py:666-682 | the selection over one more listed commit extends by it exactly when a box of it is checked |
| CommitBrowsing.MarkKeepsKind | devblogger/src/gui/commit_browser.py:632-664 | marking keeps every commit processed for a type processed for it |
| CommitBrowsing.UnmarkAddsNothing | devblogger/src/gui/commit_browser.py:632-664 | unmarking never makes a commit processed |
| CommitBrowsing.MarkEachOn | devblogger/src/gui/commit_browser.py:632-664 | after "select all" on every listed commit with a box of the type is processed for it |
| CommitBrowsing.MarkEachOff | devblogger/src/gui/commit_browser.py:632-664 | after "select all" off no listed commit with a box of the type is processed for it |
| CommitBrowsing.CommitBrowser.constructor | devblogger/src/gui/commit_browser.py:22-52 | nothing loaded, listed or selected |
| CommitBrowsing.CommitBrowser.BoxStatesHold | devblogger/src/gui/commit_browser.py:361-418 | one box per listed sha, checked exactly when the commit is processed for its type |
| CommitBrowsing.CommitBrowser.Lines | devblogger/src/gui/commit_browser.py:361-418 | one line per commit |
| CommitBrowsing.CommitBrowser.LineOf | devblogger/src/gui/commit_browser.py:395-405 | a line shows its commit, with its date as `%m/%d %H:%M`, marked exactly when processed for any type |
| CommitBrowsing.CommitBrowser.UpdateCommitList | devblogger/src/gui/commit_browser.py:361-418 | one line and two boxes per listed commit, or the single line "No commits found" |
| CommitBrowsing.CommitBrowser.ListCommits | devblogger/src/gui/commit_browser.py:380-418 | the loop builds the lines and box states `Lines` and `BoxStatesHold` specify |
| CommitBrowsing.CommitBrowser.FilterByDate | devblogger/src/gui/commit_browser.py:316-346 | the loop keeps the commits `ByDate` specifies |
| CommitBrowsing.CommitBrowser.FilterBySearch | devblogger/src/gui/commit_browser.py:348-359 | the loop keeps the commits `BySearch` specifies |
| CommitBrowsing.CommitBrowser.ApplyFilters | devblogger/src/gui/commit_browser.py:286-311 | nothing happens before commits are loaded or when the count is not a number; otherwise the list becomes the filtered commits and is redrawn; the selection is kept |
| CommitBrowsing.CommitBrowser.LoadCommits | devblogger/src/gui/commit_browser.py:236-264 | the fetched commits are stored; the list, both box maps and the listing become the filtered commits', or stay as they were when there are no commits or the count is not a number |
| CommitBrowsing.CommitBrowser.Reselect | devblogger/src/gui/commit_browser.py:592-603 | the selection takes or drops the commit |
| CommitBrowsing.CommitBrowser.OnMessageCheckboxChanged | devblogger/src/gui/commit_browser.py:578-603 | the commit is marked or unmarked for "message" and is selected exactly when one of its boxes is checked |
| CommitBrowsing.CommitBrowser.OnCommentsCheckboxChanged | devblogger/src/gui/commit_browser.py:605-630 | the same for the "comments" box |
| CommitBrowsing.CommitBrowser.SetAllBoxes | devblogger/src/gui/commit_browser.py:632-664 | each listed commit's box of the type takes the new state, and the commit is marked or unmarked |
| CommitBrowsing.CommitBrowser.UpdateSelectionFromCheckboxes | devblogger/src/gui/commit_browser.py:666-682 | the selection becomes the listed commits with a checked box, in list order |
| CommitBrowsing.CommitBrowser.ToggleSelectAllMessages | devblogger/src/gui/commit_browser.py:632-647 | every listed "message" box set, the commits marked accordingly, the selection rebuilt |
| CommitBrowsing.CommitBrowser.ToggleSelectAllComments | devblogger/src/gui/commit_browser.py:649-664 | every listed "comments" box set, the commits marked accordingly, the selection rebuilt |
| CommitBrowsing.CommitBrowser.ClearSelection | devblogger/src/gui/commit_browser.py:567-576 | the selection is emptied, then the missing `select_all_var` raises: no box changes |
| BlogEditing.Blocks | devblogger/src/gui/blog_editor.py:296-328 | one block per commit, in order |
| BlogEditing.JoinHasPart | devblogger/src/gui/blog_editor.py:296-328 | each block occurs in the joined commit data |
| BlogEditing.CommitInRequest | devblogger/src/gui/blog_editor.py:272-328 | every commit's sha, author, date and message are in the request |
| BlogEditing.RequestOpensWithPrompt | devblogger/src/gui/blog_editor.py:272-280 | the request opens with the prompt and the commit-data heading |
| BlogEditing.AfterGenerationShows | devblogger/src/gui/blog_editor.py:330-364 | corrected callbacks: a success shows exactly the generated text and enables saving; a failure keeps the text and the button and reports "Generation failed: " on the info line |
| BlogEditing.AfterGenerationAsWritten | devblogger/src/gui/blog_editor.py:284-289 | as written: a success shows the text exactly as the corrected callback does (what a failure does is stated by `BlogEditing.LostErrorReport`) |
| BlogEditing.LostErrorReport | devblogger/src/gui/blog_editor.py:287-289 | as written a failed generation leaves the editor exactly as it was, where the corrected callback reports it |
| BlogEditing.UnawaitedGenerationShowsNothing | devblogger/src/gui/blog_editor.py:272-294 | as written, whatever the service would answer, the editor is left as it was, while running the generation shows the answer |
| BlogEditing.EditorFileName | devblogger/src/gui/blog_editor.py:395-398 | the repository with '/' made '_', '_', the `%Y%m%d_%H%M%S` stamp and ".md"; the name holds no '/' |
| BlogEditing.EditorFrontmatter | devblogger/src/gui/blog_editor.py:400-415 | the fields, with the `date:` line as `%Y-%m-%d %H:%M:%S`, between "---" fences followed by a blank line |
| BlogEditing.EditorFileListed | devblogger/src/gui/blog_editor.py:382-436 | the saved file lies in the entries directory and matches "*.md", so the storage lists it |
| BlogEditing.GenerateStart | devblogger/src/gui/blog_editor.py:237-270 | nothing while generating; then warnings for no commits, no provider, a blank prompt, in order; otherwise a generation with the stripped prompt |
| BlogEditing.RegenerateStart | devblogger/src/gui/blog_editor.py:478-515 | warnings for no commits, a blank prompt, an unknown or unconfigured provider, in order; otherwise a generation with the stripped prompt |
| BlogEditing.BuildCommitBlock | devblogger/src/gui/blog_editor.py:302-326 | the loop builds the commit's block with at most 5 file lines |
| BlogEditing.PrepareCommitData | devblogger/src/gui/blog_editor.py:296-328 | the loop builds the commit data from the blocks, in order |
| BlogEditing.RequestText | devblogger/src/gui/blog_editor.py:272-280 | the prompt, the heading and the commit data |
| BlogEditing.ChosenDispatch | devblogger/src/gui/blog_editor.py:494-530 | the named provider's generation when registered and configured, else its error |
| BlogEditing.BlogEditor.constructor | devblogger/src/gui/blog_editor.py:21-45 | the active provider selected and the default prompt filled in |
| BlogEditing.BlogEditor.GenerateBlogEntry | devblogger/src/gui/blog_editor.py:237-294 | `GenerateStart`'s decision; a started generation shows it is generating and records its prompt |
| BlogEditing.BlogEditor.RegenerateWithDifferentProvider | devblogger/src/gui/blog_editor.py:478-548 | `RegenerateStart`'s decision; a started regeneration selects the named provider |
| BlogEditing.BlogEditor.FinishGenerationAsWritten | devblogger/src/gui/blog_editor.py:272-294 | as written: no provider is asked, the success callback raises on `.text` of the coroutine, and the view is unchanged |
| BlogEditing.BlogEditor.FinishGeneration | devblogger/src/gui/blog_editor.py:272-294 | corrected: the selected provider generates with 2000 tokens and temperature 0.7 and its result is shown |
| BlogEditing.BlogEditor.SaveBlogEntry | devblogger/src/gui/blog_editor.py:382-436 | nothing without text; otherwise the frontmatter (dated by the second clock reading) and text written to the file stamped by the first, or the error |
| BlogEditing.BlogEditor.ResetEditor | devblogger/src/gui/blog_editor.py:438-460 | the text cleared, saving disabled, the default prompt restored when there is one |
| BlogEditing.BlogEditor.SetBlogContent | devblogger/src/gui/blog_editor.py:466-476 | the text shown and saving enabled |
| GitHubAuthentication.AuthorizeUrlCarriesParams | devblogger/src/github/auth.py:61-78 | the URL's query reads back response_type=code and the client id, redirect URI, scope and state given, per section 4.1.1 of RFC 6749 |
| GitHubAuthentication.FieldOf | devblogger/src/github/auth.py:68-78 | with distinct names each parameter's name reads back its value |
| GitHubAuthentication.CallbackDecision | devblogger/src/github/auth.py:141-170 | 400 when the first state differs from the stored one, 400 without a code, the code otherwise |
| GitHubAuthentication.CallbackAcceptsOwnState | devblogger/src/github/auth.py:141-170 | a redirect is accepted exactly when it brings back the stored state and a code, and that code is kept (section 10.12 of RFC 6749) |
| GitHubAuthentication.WaitTakesFirstAccepted | devblogger/src/github/auth.py:231-242 | the wait ends with the code of the first accepted request |
| GitHubAuthentication.WaitWithoutAcceptedKeepsCode | devblogger/src/github/auth.py:231-242 | without an accepted request the wait keeps the code it started with |
| GitHubAuthentication.RedirectEndsWait | devblogger/src/github/auth.py:141-242 | GitHub's redirect with the sent state and a code ends the wait with that code |
| GitHubAuthentication.GitHubAuth.constructor | devblogger/src/github/auth.py:32-51 | the client settings read under "github."; no state, code, token or user |
| GitHubAuthentication.GitHubAuth.UserInfo | devblogger/src/github/auth.py:411-413 | the user data, or an empty object |
| GitHubAuthentication.GitHubAuth.GetAuthorizationUrl | devblogger/src/github/auth.py:61-78 | ValueError when unconfigured; otherwise the token becomes the state and the URL carries it |
| GitHubAuthentication.GitHubAuth.SendToGitHub | devblogger/src/github/auth.py:80-95 | the new state is the token drawn |
| GitHubAuthentication.GitHubAuth.HandleCallback | devblogger/src/github/auth.py:141-197 | corrected: the decision is made and an accepted code is stored |
| GitHubAuthentication.GitHubAuth.HandleCallbackAsWritten | devblogger/src/github/auth.py:141-142 | as written: every request raises before the state is read, and no code is stored |
| GitHubAuthentication.GitHubAuth.FindAvailablePort | devblogger/src/github/auth.py:217-229 | the first bindable port from start to start + 9, tried in order, or none |
| GitHubAuthentication.GitHubAuth.StartCallbackServer | devblogger/src/github/auth.py:134-215 | the server listens on the first free port from 8080, or RuntimeError |
| GitHubAuthentication.GitHubAuth.StopCallbackServer | devblogger/src/github/auth.py:392-401 | the server is gone |
| GitHubAuthentication.GitHubAuth.WaitForAuthentication | devblogger/src/github/auth.py:231-242 | the handled requests until a code is held, else TimeoutError |
| GitHubAuthentication.GitHubAuth.WaitForAuthenticationAsWritten | devblogger/src/github/auth.py:231-242 | as written only a code already held ends the wait |
| GitHubAuthentication.GitHubAuth.ExchangeCodeForToken | devblogger/src/github/auth.py:244-306 | False without a code; a 200 JSON object's access_token is stored, and the exchange succeeds when it holds no error |
| GitHubAuthentication.GitHubAuth.GetUserData | devblogger/src/github/auth.py:308-349 | False without a token; a 200 answer is stored and counts when it is a JSON object |
| GitHubAuthentication.GitHubAuth.SignIn | devblogger/src/github/auth.py:80-132 | True exactly when a port is free, the wait ends with a code and the exchange succeeds |
| GitHubAuthentication.GitHubAuth.Complete | devblogger/src/github/auth.py:110-125 | the exchange, then the user data when it succeeded |
| GitHubAuthentication.GitHubAuth.Authenticate | devblogger/src/github/auth.py:80-132 | ValueError when unconfigured; otherwise the sign-in's outcome, the server stopped however it ends |
| GitHubAuthentication.GitHubAuth.AuthenticateAsWritten | devblogger/src/github/auth.py:80-132 | as written a sign-in that does not start with a code never succeeds |
| GitHubAuthentication.GitHubAuth.Logout | devblogger/src/github/auth.py:403-409 | every credential cleared: not authenticated, user info empty |
| GitHubAuthentication.GitHubAuth.RefreshToken | devblogger/src/github/auth.py:419-423 | always False, changing nothing |
| UrlEncoding.DecodeUtf8 | devblogger/src/github/auth.py:78 | UTF-8 decoding undoes UTF-8 encoding |
| UrlEncoding.QuotePlusIsPlain | devblogger/src/github/auth.py:78 | quoted text contains no '&', '=', '#' or '?' |
| UrlEncoding.UnquoteQuote | devblogger/src/github/auth.py:78 | `unquote_plus(quote_plus(s)) == s` for every text |
| UrlEncoding.ParseEncoded | devblogger/src/github/auth.py:78 | parsing an encoded query gives back every parameter with a value, in order |
| UrlEncoding.QueryOfEncoded | devblogger/src/github/auth.py:78 | the query of `base?query` is the encoded query |
| Clock.StampIgnoresMicroseconds | devblogger/src/blog/storage.py:179 | instants in the same second get the same `%Y%m%d_%H%M%S` stamp |
| Clock.DateOfMeaning | devblogger/src/blog/storage.py:179 | the calendar date of an instant is a valid Gregorian date lying as many days after 1 January 1970 as the instant |
| Clock.DateOfDayNumber | devblogger/src/blog/storage.py:179 | every valid date is the date of the instants on its day: dates and day numbers correspond one to one |
| Clock.InRangeMeaning | devblogger/src/blog/storage.py:120 | the bound on instants is exactly `datetime`'s last year, 9999 |
| Clock.StampInjective | devblogger/src/blog/storage.py:179 | in-range instants in different seconds get different `%Y%m%d_%H%M%S` stamps |
| Clock.IsoText | devblogger/src/blog/storage.py:106 | `isoformat()` is the `%Y-%m-%dT%H:%M:%S` text, with the microseconds only when they are not zero |
| Clock.ParseIso | devblogger/src/blog/storage.py:120 | `datetime.fromisoformat`; `IsoRoundTrip` and `DateTimeTextReadBack` state it |
| Clock.IsoRoundTrip | devblogger/src/blog/storage.py:106-120 | `fromisoformat(t.isoformat())` gives back `t` |
| Clock.DateTimeTextReadBack | devblogger/src/blog/storage.py:120 | the text `isoformat` gives without microseconds reads back as the instant without them |
| Clock.DateTextRead | devblogger/src/blog/storage.py:120 | `fromisoformat` of a date alone is midnight at the start of that day |
| Clock.DateTimeTextRead | devblogger/src/blog/storage.py:59 | the frontmatter's `%Y-%m-%d %H:%M:%S` text reads back through `fromisoformat` as the instant without its microseconds |
| Sorting.SortDescMeaning | devblogger/src/blog/manager.py:200-201 | the sorted list has the largest keys first and the same elements |
| Sorting.SortDescStable | devblogger/src/blog/manager.py:200-201 | elements with equal keys keep their relative order |
| Lists.SlicePrefix | devblogger/src/blog/manager.py:208 | `s[:n]`, a negative `n` counting from the end |
| Lists.SliceSuffix | devblogger/src/blog/manager.py:205 | `s[n:]`, a negative `n` counting from the end |
| Lists.SqlLimit | devblogger/src/config/database.py:250-252 | `LIMIT n` keeps the first `n` rows; a negative limit keeps all |
| Lists.SqlOffset | devblogger/src/config/database.py:254-256 | `OFFSET n` skips the first `n` rows; a negative offset skips none |
| Files.Disk.Write | devblogger/src/blog/generator.py:285-286 | the file holds the text; a new file is listed last, nothing else changes |
| Files.Disk.Unlink | devblogger/src/blog/storage.py:271 | the file is gone and nothing else changes |
| Files.Disk.MarkdownFiles | devblogger/src/blog/storage.py:419 | the `*.md` files directly inside the directory, in listing order |
| BlogEntries.KeysRead | devblogger/src/blog/storage.py:80-93 | the keys read are the keys of the lines that have a ':' |
| BlogEntries.ColonPair | devblogger/src/blog/storage.py:82-84 | `key:rest` reads as the stripped key with the classified stripped rest |
| BlogEntries.FromDictOf | devblogger/src/blog/storage.py:112-123 | `from_dict` of a complete, well-typed dictionary builds the entry it describes |
| EntryFormat.MetadataLinesTyped | devblogger/src/blog/generator.py:317-330 | the text metadata and the typed frontmatter have the same keys, each typed value the classification of the text |
| EntryFormat.FieldKeys | devblogger/src/blog/generator.py:184-197 | every frontmatter line of a generated entry is read under one of the entry keys |
| EntryFormat.PlainText | devblogger/src/blog/storage.py:85-93 | a value that is no boolean word, digit run or bracketed list is read as text |
| EntryFormat.NotBoolean | devblogger/src/blog/storage.py:85-86 | a value ending in neither 'e' nor 'E' is not read as a boolean |
| Settings.ResolveIgnoresOtherKey | devblogger/src/config/settings.py:140-149 | a path that never uses a key reads the same after a write under it |

## Left out

- Settings persistence is not modelled. This covers `_load_settings` (reading `~/.devblogger/config.json`, or the file given to the constructor, and merging it over the defaults), `_save_settings`, `save`, `export_settings` and `import_settings`. They are file I/O. The model starts from the defaults, and `Set` reports a failed write as `ok == false`.
- `Settings.Settings.Set`: the write to disk after the in-memory update is not modelled. Only the in-memory update and the failure of a path that cannot be created are.
- The getters of `settings.py` that only read one path (`get_logs_dir`, `get_database_path`, `get_github_config`, `get_ai_config`, `get_ui_config`, `get_blog_config`, `is_debug_mode`) are not modelled separately. They are `Settings.Settings.Get` on a fixed key.
- `Text.Lower` and `Text.LowerChar` fold only ASCII letters. Python's `str.lower` folds all of Unicode, so `Storage.SearchResults` and `CommitBrowsing.BySearchKeeps` miss matches that differ only in the case of a non-ASCII letter, such as "É" against "é".
- `Storage.SearchResults`: lower-cases through `Text.Lower`, so it is ASCII only (see the line above).
- `CommitBrowsing.BySearchKeeps`: lower-cases through `Text.Lower`, so it is ASCII only (see the line above).
- `Text.IsDigit` accepts only ASCII digits. Python's `str.isdigit` also accepts characters such as "²", for which `int()` then raises. A frontmatter value like "²" is read as text here, while the program fails to load the entry.
- `BlogEntries.ClassifyMeaning`: a value counts as an int only when it is made of ASCII digits (see the line above).
- `BlogEntries.EntryFromFile`: a frontmatter `title` that is not text (say `title: 2024`, which is classified as an int) or `tags` that are not a list (say `tags: a, b`) make the model reject the entry. The program keeps these values untyped and accepts the entry.
- `BlogEntries.FromDict`: requires text for the text fields and an int for `commit_count`. `from_dict` accepts any JSON value there without checking.
- `Generation.BlogGenerator.RegenerateBlogEntry` requires the old entry's frontmatter to hold no `max_tokens` and no `temperature`. `regenerate_blog_entry` passes both on as strings. No entry this program writes has them (`EntryFormat.GeneratedEntryHasNoSampling`); only a hand-edited file does.
- `BlogManagement.BlogManager.RegenerateBlogEntry` and `BlogManagement.BlogManager.RegenerateBlogEntryAsWritten` carry the same restriction through `SamplingFree`.
- `AiProviders.Provider.UpdateConfigAsWritten`: the synchronous OpenAI client is a bool, "built", and not the key it was built with. A provider that had a key and is given a new one keeps sending the old key; the model only says the client is still the old one.
- `AiManager.ProviderManager.Reconfigure`: has the same limit, since it calls `UpdateConfigAsWritten`.
- `AiProviders.Provider.GenerateText`: the asynchronous `generate_text` of the base clients, the event loop, `generate_sync` and the `**kwargs` forwarded to the SDKs are not modelled. The manager registers the synchronous clients, and those are modelled.
- The Ollama model list, `pull_model` and `check_model_exists` are not modelled. They are HTTP calls with no logic beyond passing the answer on. The diagnostics and capability reports of `ai/manager.py` (`get_provider_capabilities`, `get_provider_diagnostics`, `get_generation_stats`) are not modelled either: they only collect these values.
- `Storage.BlogStorage.GetStorageStats`: `total_size_mb` (a float rounded to two places) is left out, and file sizes are counted in characters, not bytes.
- `export_entries` and `backup_entries` are not modelled. They are file formatting and copying outside the index.
- `BlogManagement.BlogManager.GenerateBlogFromCommits`: a `BlogStorageError` from `add_entry` after the file was saved is not modelled. Index writes are modelled as always succeeding.
- `BlogManagement.BlogManager.BulkGenerateBlogs` has the same limit. The write error of the save is modelled.
- The `BlogManager` methods that only forward to the storage or the generator are not modelled again: `get_blog_entry`, `update_blog_entry`, `delete_blog_entry`, `search_entries`, `get_entries_by_*`, `get_storage_stats`, `get_provider_usage_stats`, `get_generation_stats`, `validate_commits` and `cleanup_old_entries`. Their targets are modelled in `Storage`, `Generation` and `SelectionStats`.
- `estimate_generation_time` is not modelled; it is float arithmetic.
- The `database.py` commit metadata table (`store_commit_metadata`, `get_commit_metadata`), `cleanup_old_records`, `get_database_stats` and `vacuum_database` are not modelled. Neither is the SQLite engine beyond row order.
- `Database.DatabaseManager.MarkCommitProcessed`: the row's `processed_at` is the instant `now` it is given. The program leaves it to SQLite's `DEFAULT CURRENT_TIMESTAMP` (database.py:46), the database's own clock at the insert, kept as UTC text to the second.
- `Generation.BlogGenerator.MarkCommitsProcessed`: gives every row the generation's `now` as `processed_at`, where the database takes its own clock reading at each insert.
- `Database.NewestFirst`: rows with equal `processed_at` come newest-inserted first. SQLite leaves that order unspecified.
- `CommitBrowsing`: every Tk widget, thread and dialog is not modelled, nor is `_update_preview`. The list box's lines and the checkbox states are modelled as values.
- `_on_commit_checkbox_changed` and `_toggle_select_all`, which read the never-created `commit_checkboxes` and raise AttributeError, are not modelled. No control of the window calls them.
- `CommitBrowsing.ByDateKeeps`: instants carry no time zone. Both sides of the comparison are UTC here (`datetime.now(timezone.utc)` and GitHub's `Z` dates), so a cutoff is compared on the same clock; a commit date with another UTC offset would be compared by its own wall clock.
- `BlogEditing`: message boxes, threads and the clock are not modelled. The time is a parameter, and a warning is an outcome value.
- `GitHubAuthentication.GitHubAuth.constructor`: a setting that is not text (a number under `github.client_id`, say) reads as the empty string, while Python would keep the number.
- `GitHubAuthentication.GitHubAuth.FindAvailablePort`: the ports tried past 65535 count as busy. Python's `bind` would raise OverflowError there instead.
- The browser, `_show_auth_dialog`, the HTTP server's thread and the wait's 0.1-second sleep and timeout clock are not modelled. The wait is a list of handled requests.
- `UrlEncoding`: the callback handler's `urlparse` (github/auth.py:145) is not modelled with `urlsplit`'s removal of tab, CR and LF characters, and `parse_qsl`'s handling of ';' in older Python versions is not modelled. Only '&' separates fields. (`AiProviders.UrlSplit` does remove those characters.)
- The network calls of `client.py` and the rest of the GUI (`main_window.py`, `repo_selector.py`, `login_dialog.py`, `ai_config.py`) are not part of this model.

- `Clock`: instants carry no time zone. An instant is the wall-clock reading of its `datetime`: local time for `datetime.now()`, UTC for GitHub's dates. Each is formatted on its own clock, as the program does, and no conversion between zones or daylight-saving change is modelled.
- `Clock.ParseIso` reads the `fromisoformat` grammar of Python 3.7 to 3.10: `YYYY-MM-DD`, optionally followed by any one character and `HH[:MM[:SS[.fff[fff]]]]`. A text with a UTC offset (`+00:00`) is rejected here, and so are the forms Python 3.11 added (`Z`, the compact `YYYYMMDD`); Python reads them. A date before 1970 is rejected too, since instants count from 1970.
- `Generation.BlogGenerator.GenerateBlogEntry` takes one instant, `now`, for the two clock readings of one generation. They are `_format_blog_entry`'s (the frontmatter's `date` and `generated_at`, generator.py:182) and the metadata's `generated_at` (generator.py:124). In the program the two can fall in different seconds.
- `BlogManagement.BlogManager.GenerateBlogFromCommits` passes that same `now` to `save_blog_entry`, whose default file name reads the clock again (generator.py:273). In the program the entry id (from the metadata) and the file name's stamp can then differ; in the model they agree.
- `BlogManagement.BlogManager.RegenerateBlogEntry`: the new generation and the commits' `processed_at` use `now`; the index's new `generated_at` is a separate instant, `movedAt`, for the later `datetime.now()` of manager.py:166. Only the order of the two readings is not stated.
- `BlogManagement.BlogManager.RegenerateBlogEntryAsWritten`: the same two instants as `RegenerateBlogEntry`.
- `BlogManagement.BlogManager.RegenerateFrom`: the same two instants; the commits are marked at `now` as in `Generation.BlogGenerator.MarkCommitsProcessed`.
- `BlogManagement.BlogManager.CreatedStamp` states the id in terms of that single `now`, so it inherits the same limit.
- `Generation.ChosenPrompt`: a truthy `ui.default_prompt` that is not text (say the number 5, which `Settings.Settings.Set` can store) is replaced by the built-in text here. The program uses it, through `str()`, at the head of the request.
- `BlogEditing.BlogEditor.constructor`: such a default prompt leaves the prompt box empty here (`BlogEditing.PromptOf` reads only text). The program inserts it into the box as Tk renders it.
- `BlogEditing.BlogEditor.ResetEditor`: the same; such a default prompt leaves the prompt box as it was here, where the program replaces the box's text with it.
- `Generation.EntryPath` joins the directory and the name with one '/'. pathlib's `/` also normalises the result: `Path("") / n` is `n`, and a directory "out/" does not give a double slash. The model's paths differ from the program's only in these spellings.
- `Generation.NotAPath`: the TypeError text of `Path()` on a setting that is not text ends in ", not <type>" in Python ("expected str, bytes or os.PathLike object, not int" for the number 5). The model keeps only the part before the comma, so the save errors of `Generation.BlogGenerator.SaveBlogEntry`, `BlogManagement.Reported`, `BlogManagement.RegenReported` and `BlogEditing.BlogEditor.SaveBlogEntry` lack that tail.
- `GitHubModels.IntHeader` looks header names up case-sensitively. `requests` gives a case-insensitive dictionary, so `x-ratelimit-limit` also finds `X-RateLimit-Limit` there.
- `Text.ParseInt` rejects digits grouped with '_' ("1_000") and non-ASCII digits. `int()` accepts both.
- `ContentCleaning.FixMarkersMark`: a numbered marker's digits are ASCII digits here. The pattern `^(\d+\.)\s*` (generator.py:217) is applied to a `str`, so `\d` matches every Unicode decimal digit, and the program also respaces a marker such as "١." ("١.  x" becomes "١. x"). This lemma never covers such a marker.
- `ContentCleaning.FixMarkersByLines`: for the same reason, a line that opens with a non-ASCII decimal digit and '.' counts as a line with no marker and is said to be left unchanged; the program rewrites "١.  x" to "١. x".
- `ContentCleaning.CleanPlainText`: a line opening with a non-ASCII decimal digit and '.' counts as plain here and is returned unchanged, where the program respaces it (see the line above).
- `ContentCleaning.CleanExcessNewlines`: its plain lines include ones like "١.  x", which the program respaces (see the lines above).
- `GitHubModels.RateLimitFromHeaders`: the reset is the local reading as a count of seconds from 1970-01-01T00:00:00, not a `datetime` object, and the local zone is a fixed offset given as a parameter: daylight-saving changes are not modelled.
- `GitHubModels.RateLimitRoundTrip`: holds for the same fixed-offset reading of the reset; a reset outside the years 1 to 9999 fails instead (`GitHubModels.RateLimitResetOutOfRange`).
- `Storage.RemoveFiles`: only the FileNotFoundError of a file that vanished is modelled; permission and other OS errors of `unlink` are not. Its text quotes the path with plain single quotes, where Python's `repr` may choose double quotes or escapes for a path holding a quote or a control character.
- `AiProviders.UrlSplit`: the Python 3.12 stripping of leading C0 control characters and spaces, the NFKC check of a non-ASCII network location and the validation of a bracketed IPv6 host are not modelled. Only a lone '[' or ']' makes the split fail here.
- `BlogManagement.BlogManager.BulkGenerateBlogs`: states which ids and files the index and the disk gain and which commits are processed, not the stored entry and file text of each repository; those are stated per call by `GenerateOne`.
- `BlogManagement.BlogManager.GenerateCounted`: states the same key sets and marks as `BulkGenerateBlogs`, for one call.

## Findings

| source | as written | input that shows it | evidently intended | confidence | as-written member | corrected member |
|---|---|---|---|---|---|---|
| devblogger/src/blog/storage.py:381 | `datetime.timedelta(days=days_old)` on the imported `datetime` class raises AttributeError, and the handler returns 0 | any call, e.g. `cleanup_old_entries(30)` with entries a year old | entries generated before now minus `days_old` days are deleted and counted | high (not executed) | Storage.BlogStorage.CleanupOldEntriesAsWritten | Storage.BlogStorage.CleanupOldEntries, Storage.CleanupKeepsUnexpired |
| devblogger/src/github/models.py:145-155 | the author is built as `GitHubUser(login="", name=…, email=…)` without `id`, a field with no default, so it raises TypeError | any commit document, e.g. `{"sha": "a", "commit": {"message": "m", "author": {}, "committer": {}}}` | the commit decodes, with an author that has an id | high (not executed) | GitHubModels.CommitAsWrittenAlwaysFails | GitHubModels.CommitRoundTrip |
| devblogger/src/github/models.py:202-212 | the branch decoder calls the commit decoder above, so it always raises | `{"name": "main", "commit": {"sha": "a", "commit": {"message": "m"}}}` | the branch decodes | high (not executed) | GitHubModels.BranchAsWrittenAlwaysFails | GitHubModels.BranchOfBareCommit |
| devblogger/src/ai/openai_client.py:158-176 | `update_config` rebuilds `self.client` but not the `sync_client` that `OpenAIProviderSync.generate_text` uses | a ChatGPT client created without a key, then `update_config("sk-" + 40 letters)`: it is configured and its test passes, yet generation raises "OpenAI client not initialized" | both clients are rebuilt with the new key | high (not executed) | AiProviders.StaleSyncClientAfterUpdate | AiProviders.SyncClientRebuiltAfterUpdate |
| devblogger/src/blog/manager.py:159-167 | the entry is updated with `"filepath": str(filepath)`, so its path becomes text | regenerate an entry, then regenerate it again, or ask for the storage statistics: `.exists()` on a str raises | the path stays a `Path` | high (not executed) | BlogManagement.TextPathBreaksEntry, BlogManagement.BlogManager.RegenerateBlogEntryAsWritten | BlogManagement.PathMoveKeepsEntry, BlogManagement.BlogManager.RegenerateBlogEntry |
| devblogger/src/blog/generator.py:404-409 | the processed check uses `getattr(commits[0], 'repository', '')`, and `GitHubCommit` has no `repository`, so it asks about repository "" | commits already marked processed for "owner/repo": no warning is given | the check asks about the selection's repository | medium (not executed) | Generation.BlogGenerator.ValidateCommitsAsWritten, SelectionStats.UnnamedRepositoryCountsNothing | Generation.BlogGenerator.ValidateCommits, SelectionStats.ProcessedCountPositive |
| devblogger/src/gui/blog_editor.py:278, 523 | `generate_with_active`, an `async def` (ai/base.py:176), is called without `await`, so no provider is asked and `.text` of the coroutine raises in the callback; a regeneration would also ask the active provider rather than the one named | any generation with a configured provider and any answer of the service | the generation runs with the selected (or named) provider and its text is shown | high (not executed) | BlogEditing.BlogEditor.FinishGenerationAsWritten, BlogEditing.UnawaitedGenerationShowsNothing | BlogEditing.BlogEditor.FinishGeneration |
| devblogger/src/gui/blog_editor.py:287-289 | the error callback `lambda: self._handle_generation_error(str(e))` reads `e` after the `except` clause has unbound it, so it raises NameError when Tk runs it; the regeneration thread does the same at 532-534 | with the call awaited (row above), an active provider that is not configured: `generate_with_active` raises ValueError, and neither the message box nor the info line appears | the error text is bound before the callback is scheduled, and the failure is shown | high (not executed) | BlogEditing.AfterGenerationAsWritten, BlogEditing.LostErrorReport | BlogEditing.AfterGenerationShows, BlogEditing.BlogEditor.FinishGeneration |
| devblogger/src/github/auth.py:142 | `do_GET` first reads `self.logger`, which the handler only assigns in `log_message`, so every callback raises AttributeError before the state is checked | GitHub's redirect `/callback?code=abc&state=<the stored state>` | the code is kept when the state matches | medium (not executed) | GitHubAuthentication.GitHubAuth.HandleCallbackAsWritten, GitHubAuthentication.GitHubAuth.AuthenticateAsWritten | GitHubAuthentication.GitHubAuth.HandleCallback, GitHubAuthentication.GitHubAuth.Authenticate, GitHubAuthentication.RedirectEndsWait |
