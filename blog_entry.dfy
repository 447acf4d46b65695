// A blog entry's record, the frontmatter of its markdown file, and the
// dictionary it is saved as in the index file.
module BlogEntries {
  import opened Wrappers
  import opened Text
  import opened Clock
  import opened JsonData

  /**
   * Where an entry's file lives. Entries hold a `Path`, but an update may
   * store the path's text instead, and a text has no `exists()` or `stem`.
   */
  datatype FilePath = PathObj(path: string) | PlainStr(text: string)
  {
    /** `str(filepath)`. */
    function Str(): string
    {
      match this
      case PathObj(p) => p
      case PlainStr(s) => s
    }
  }

  datatype BlogEntry = BlogEntry(
    filepath: FilePath, repository: string, commitCount: int, provider: string,
    model: string, generatedAt: Time, title: string, tags: seq<string>)

  /** `repository.split('/')[-1]`. */
  function RepoName(repository: string): string
  {
    var parts := Split(repository, '/');
    parts[|parts| - 1]
  }

  function DefaultTitle(repository: string): string
  {
    "Development Update - " + RepoName(repository)
  }

  /** `BlogEntry(...)`: a missing or empty title falls back to the default title, missing tags to `[]`. */
  function NewEntry(
    filepath: FilePath, repository: string, commitCount: int, provider: string, model: string,
    generatedAt: Time, title: Option<string>, tags: Option<seq<string>>): (e: BlogEntry)
    ensures e.title != []
    ensures e.title == if title.Some? && title.value != [] then title.value else DefaultTitle(repository)
    ensures e.tags == if tags.Some? then tags.value else []
  {
    BlogEntry(filepath, repository, commitCount, provider, model, generatedAt,
      if title.Some? && title.value != [] then title.value else DefaultTitle(repository),
      if tags.Some? then tags.value else [])
  }

  // ---------------------------------------------------------- frontmatter

  /** A frontmatter value after `_extract_frontmatter` has typed it. */
  datatype FmValue = FBool(b: bool) | FInt(n: nat) | FList(items: seq<string>) | FStr(s: string)

  /**
   * The text matched by `(.*?)` in `^---\n(.*?)\n---\n`: the shortest text
   * after an opening `---` line that is followed by a closing `---` line.
   */
  function FrontmatterBlock(content: string): (r: Option<string>)
    ensures r.Some? ==> StartsWith(content, "---\n" + r.value + "\n---\n")
    ensures r.Some? ==> forall j :: 4 <= j < 4 + |r.value| ==> !OccursAt(content, "\n---\n", j)
    ensures r.None? ==> !StartsWith(content, "---\n") || forall j :: 4 <= j ==> !OccursAt(content, "\n---\n", j)
  {
    if !StartsWith(content, "---\n") then None
    else match FindFrom(content, "\n---\n", 4)
      case None => None
      case Some(k) =>
        var block := content[4..k];
        assert content[..|"---\n" + block + "\n---\n"|] == "---\n" + block + "\n---\n" by {
          assert content[..k + 5] == content[..4] + content[4..k] + content[k..k + 5];
        }
        Some(block)
  }

  /** The quotes `strip('"\'')` removes. */
  const Quotes: set<char> := {'"', '\''}

  predicate IsQuote(c: char)
  {
    c in Quotes
  }

  /** `item.strip().strip('"\'')`. */
  function CleanItem(item: string): (r: string)
    ensures r == [] || (!IsQuote(r[0]) && !IsQuote(r[|r| - 1]))
  {
    StripChars(Strip(item), Quotes)
  }

  /** The cleaned, non-empty items among the comma-separated parts of a list value. */
  function ListItems(parts: seq<string>): (r: seq<string>)
    ensures |r| <= |parts|
    ensures CleanItems(r)
  {
    if parts == [] then []
    else
      var c := CleanItem(parts[0]);
      var rest := ListItems(parts[1..]);
      CleanItemsAppend(if c == [] then [] else [c], rest);
      (if c == [] then [] else [c]) + rest
  }

  /** Items that are not empty and neither start nor end with a quote. */
  predicate CleanItems(items: seq<string>)
  {
    forall i :: 0 <= i < |items| ==> items[i] != [] && !IsQuote(items[i][0]) && !IsQuote(items[i][|items[i]| - 1])
  }

  lemma {:induction false} CleanItemsAppend(a: seq<string>, b: seq<string>)
    requires CleanItems(a) && CleanItems(b)
    ensures CleanItems(a + b)
  {
    forall i | 0 <= i < |a + b|
      ensures (a + b)[i] != [] && !IsQuote((a + b)[i][0]) && !IsQuote((a + b)[i][|(a + b)[i]| - 1])
    {
      if i >= |a| {
        assert (a + b)[i] == b[i - |a|];
      }
    }
  }

  /** The typing of a stripped value: booleans in any case, ASCII digit runs, `[…]` lists, else text. */
  function Classify(v: string): FmValue
  {
    if Lower(v) == "true" || Lower(v) == "false" then FBool(Lower(v) == "true")
    else if IsDigitText(v) then FInt(DigitsValue(v))
    else if StartsWith(v, "[") && EndsWith(v, "]") then
      FList(ListItems(Split(v[1..|v| - 1], ',')))
    else FStr(v)
  }

  /**
   * A value is a boolean exactly when it is `true` or `false` in any case, an
   * integer only when it is a digit run, and text only when it is neither a
   * digit run nor bracketed.
   */
  lemma {:induction false} ClassifyMeaning(v: string)
    ensures var r := Classify(v);
      && (r.FBool? <==> Lower(v) == "true" || Lower(v) == "false")
      && (r.FBool? ==> (r.b <==> Lower(v) == "true"))
      && (r.FInt? ==> IsDigitText(v) && r.n == DigitsValue(v))
      && (r.FStr? ==> r.s == v && !IsDigitText(v) && !(StartsWith(v, "[") && EndsWith(v, "]")))
  {
  }

  /** The position of the first `c` in `s`. */
  function FirstIndex(s: string, c: char): (i: nat)
    requires c in s
    ensures i < |s| && s[i] == c && c !in s[..i]
  {
    if s[0] == c then 0 else 1 + FirstIndex(s[1..], c)
  }

  /** One frontmatter line: split at its first `:`, both sides stripped, the value typed. */
  function ParseLine(line: string): (r: Option<(string, FmValue)>)
    ensures r.Some? <==> ':' in line
  {
    if ':' !in line then None
    else
      var i := FirstIndex(line, ':');
      Some((Strip(line[..i]), Classify(Strip(line[i + 1..]))))
  }

  /** The metadata read from `lines`: a later line with the same key replaces an earlier one. */
  function ParseLines(lines: seq<string>): map<string, FmValue>
  {
    if lines == [] then map[]
    else
      var m := ParseLines(lines[..|lines| - 1]);
      match ParseLine(lines[|lines| - 1])
      case None => m
      case Some(kv) => m[kv.0 := kv.1]
  }

  /** `_extract_frontmatter`: no frontmatter block means no metadata. */
  function Frontmatter(content: string): (r: map<string, FmValue>)
    ensures FrontmatterBlock(content).None? ==> r == map[]
  {
    match FrontmatterBlock(content)
    case None => map[]
    case Some(block) => ParseLines(Split(block, '\n'))
  }

  /** `_extract_frontmatter`, reading the block line by line. */
  method ExtractFrontmatter(content: string) returns (metadata: map<string, FmValue>)
    ensures metadata == Frontmatter(content)
  {
    var block := FrontmatterBlock(content);
    metadata := map[];
    if block.None? {
      return;
    }
    var lines := Split(block.value, '\n');
    var i := 0;
    while i < |lines|
      invariant 0 <= i <= |lines|
      invariant metadata == ParseLines(lines[..i])
    {
      var parsed := ParseLine(lines[i]);
      if parsed.Some? {
        metadata := metadata[parsed.value.0 := parsed.value.1];
      }
      ParseLinesPrefix(lines, i);
      i := i + 1;
    }
    assert lines[..i] == lines;
  }

  lemma {:induction false} ParseLinesPrefix(lines: seq<string>, i: nat)
    requires i < |lines|
    ensures ParseLine(lines[i]).Some? ==>
      ParseLines(lines[..i + 1]) == ParseLines(lines[..i])[ParseLine(lines[i]).value.0 := ParseLine(lines[i]).value.1]
    ensures ParseLine(lines[i]).None? ==> ParseLines(lines[..i + 1]) == ParseLines(lines[..i])
  {
    var prefix := lines[..i + 1];
    assert prefix[..i] == lines[..i] && prefix[i] == lines[i];
  }

  lemma {:induction false} ParseLinesSnoc(lines: seq<string>, line: string)
    ensures ParseLine(line).Some? ==>
      ParseLines(lines + [line]) == ParseLines(lines)[ParseLine(line).value.0 := ParseLine(line).value.1]
    ensures ParseLine(line).None? ==> ParseLines(lines + [line]) == ParseLines(lines)
  {
    var all := lines + [line];
    assert all[..|all| - 1] == lines && all[|all| - 1] == line;
    var m := ParseLines(lines);
    match ParseLine(line)
    case None =>
    case Some(kv) => assert ParseLines(all) == m[kv.0 := kv.1];
  }

  /** The key of a line, for lines that have one. */
  function KeyOf(line: string): string
    requires ':' in line
  {
    Strip(line[..FirstIndex(line, ':')])
  }

  /** The keys of the lines that have a `:`. */
  function LineKeys(lines: seq<string>): set<string>
  {
    if lines == [] then {}
    else
      var last := lines[|lines| - 1];
      LineKeys(lines[..|lines| - 1]) + if ':' in last then {KeyOf(last)} else {}
  }

  /** The keys read from lines are the keys of the lines that have a `:`. */
  lemma {:induction false} KeysRead(lines: seq<string>)
    ensures ParseLines(lines).Keys == LineKeys(lines)
  {
    if lines != [] {
      KeysRead(lines[..|lines| - 1]);
    }
  }

  /** A key is read exactly when some line with a `:` has it as its stripped key. */
  lemma {:induction false} ParsedKeys(lines: seq<string>, k: string)
    ensures k in ParseLines(lines) <==> exists i :: 0 <= i < |lines| && ':' in lines[i] && KeyOf(lines[i]) == k
  {
    KeysRead(lines);
    if k in LineKeys(lines) {
      var i := KeyWitness(lines, k);
    }
    forall i | 0 <= i < |lines| && ':' in lines[i] && KeyOf(lines[i]) == k
      ensures k in LineKeys(lines)
    {
      KeyListed(lines, k, i);
    }
  }

  /** A key of the lines comes from a line that has it. */
  lemma {:induction false} KeyWitness(lines: seq<string>, k: string) returns (i: nat)
    requires k in LineKeys(lines)
    ensures i < |lines| && ':' in lines[i] && KeyOf(lines[i]) == k
  {
    var init := lines[..|lines| - 1];
    var last := lines[|lines| - 1];
    if ':' in last && KeyOf(last) == k {
      i := |lines| - 1;
    } else {
      i := KeyWitness(init, k);
      assert lines[i] == init[i];
    }
  }

  /** A line's key is among the keys of the lines it is part of. */
  lemma {:induction false} KeyListed(lines: seq<string>, k: string, i: nat)
    requires i < |lines| && ':' in lines[i] && KeyOf(lines[i]) == k
    ensures k in LineKeys(lines)
  {
    var init := lines[..|lines| - 1];
    if i < |lines| - 1 {
      assert init[i] == lines[i];
      KeyListed(init, k, i);
    }
  }

  /** The value read for a key is the one on the last line that has that key. */
  lemma {:induction false} LastLineWins(lines: seq<string>, i: nat)
    requires i < |lines| && ':' in lines[i]
    requires forall j :: i < j < |lines| && ':' in lines[j] ==> KeyOf(lines[j]) != KeyOf(lines[i])
    ensures KeyOf(lines[i]) in ParseLines(lines)
    ensures ParseLines(lines)[KeyOf(lines[i])] == ParseLine(lines[i]).value.1
  {
    var init := lines[..|lines| - 1];
    var last := ParseLine(lines[|lines| - 1]);
    assert last.Some? ==> ParseLines(lines) == ParseLines(init)[last.value.0 := last.value.1];
    assert last.None? ==> ParseLines(lines) == ParseLines(init);
    if i < |lines| - 1 {
      assert init[i] == lines[i];
      LastLineWins(init, i);
      assert last.Some? ==> last.value.0 == KeyOf(lines[|lines| - 1]) != KeyOf(lines[i]);
    }
  }

  /** In `key:rest` with no `:` in `key`, the first `:` is the one right after `key`. */
  lemma {:induction false} FirstColon(line: string, key: string, rest: string)
    requires ':' !in key && line == key + [':'] + rest
    ensures ':' in line && FirstIndex(line, ':') == |key|
    ensures line[..|key|] == key && line[|key| + 1..] == rest
  {
    assert line[|key|] == ':' && line[..|key|] == key && line[|key| + 1..] == rest;
    assert FirstIndex(line, ':') == |key|;
  }

  /** The key read from `key:rest` is `key` stripped. */
  lemma {:induction false} ColonKey(line: string, key: string, rest: string)
    requires ':' !in key && line == key + [':'] + rest
    ensures ParseLine(line).Some? && ParseLine(line).value.0 == Strip(key)
  {
    FirstColon(line, key, rest);
  }

  /** A line `key: value` with a stripped key free of `:` and a stripped value reads as that pair. */
  lemma {:induction false} ParseKeyValueLine(key: string, value: string)
    requires ':' !in key && Strip(key) == key && Strip(value) == value
    ensures ParseLine(key + ": " + value) == Some((key, Classify(value)))
  {
    var rest := " " + value;
    var line := key + ": " + value;
    assert ": " == [':'] + " ";
    assert line == key + [':'] + rest by {
      assert line == key + (": " + value);
      assert ": " + value == [':'] + rest;
    }
    StripSpaceBefore(value);
    ColonPair(line, key, rest, key, value);
  }

  /** `key:rest` reads as `(k, Classify(v))` when `k` and `v` are `key` and `rest` stripped. */
  lemma {:induction false} ColonPair(line: string, key: string, rest: string, k: string, v: string)
    requires ':' !in key && line == key + [':'] + rest && Strip(key) == k && Strip(rest) == v
    ensures ParseLine(line) == Some((k, Classify(v)))
  {
    FirstColon(line, key, rest);
  }

  // ------------------------------------------------------- reading a file

  /** `metadata.get(key, default)` where the result must be text. */
  function TextField(m: map<string, FmValue>, key: string, default: string): Result<string>
  {
    if key !in m then Success(default)
    else match m[key]
      case FStr(s) => Success(s)
      case _ => Failure("'" + key + "' is not text")
  }

  /** `int(metadata.get('commit_count', 0))`. */
  function CountField(m: map<string, FmValue>): Result<int>
  {
    if "commit_count" !in m then Success(0)
    else match m["commit_count"]
      case FInt(n) => Success(n)
      case FBool(b) => Success(if b then 1 else 0)
      case FStr(s) => (match ParseInt(s) case Some(n) => Success(n) case None => Failure("invalid literal for int()"))
      case FList(_) => Failure("int() argument must be a string or a number, not 'list'")
  }

  /** `fromisoformat(metadata.get('generated_at', now.isoformat()))`. */
  function DateField(m: map<string, FmValue>, now: Time): Result<Time>
  {
    if "generated_at" !in m then Success(now)
    else match m["generated_at"]
      case FStr(s) => (match ParseIso(s) case Some(t) => Success(t) case None => Failure("Invalid isoformat string"))
      case _ => Failure("fromisoformat: argument must be str")
  }

  predicate Falsy(v: FmValue)
  {
    match v
    case FBool(b) => !b
    case FInt(n) => n == 0
    case FList(items) => items == []
    case FStr(s) => s == []
  }

  /** `metadata.get('title', None)`, where a falsy value gives the default title. */
  function TitleField(m: map<string, FmValue>): Result<Option<string>>
  {
    if "title" !in m || Falsy(m["title"]) then Success(None)
    else if m["title"].FStr? then Success(Some(m["title"].s))
    else Failure("'title' is not text")
  }

  /** `metadata.get('tags', [])`, where a falsy value gives no tags. */
  function TagsField(m: map<string, FmValue>): Result<Option<seq<string>>>
  {
    if "tags" !in m || Falsy(m["tags"]) then Success(None)
    else if m["tags"].FList? then Success(Some(m["tags"].items))
    else Failure("'tags' is not a list")
  }

  /** `generated_by.split('(')[0].strip()`. */
  function ProviderOf(generatedBy: string): string
  {
    Strip(Split(generatedBy, '(')[0])
  }

  /** `generated_by.split('(')[-1].rstrip(')')`. */
  function ModelOf(generatedBy: string): string
  {
    var parts := Split(generatedBy, '(');
    RStripChar(parts[|parts| - 1], ')')
  }

  /** `provider (model)`, as the generator writes it, splits back into provider and model. */
  lemma {:induction false} GeneratedByRoundTrip(provider: string, model: string)
    requires '(' !in provider && Strip(provider) == provider
    requires '(' !in model && (model == [] || model[|model| - 1] != ')')
    ensures ProviderOf(provider + " (" + model + ")") == provider
    ensures ModelOf(provider + " (" + model + ")") == model
  {
    var first := provider + " ";
    var rest := model + [')'];
    assert provider + " (" + model + ")" == first + ['('] + rest;
    SplitOnce(first, rest, '(');
    StripSpaceAfter(provider);
    RStripCharOnce(model, ')');
  }

  /**
   * `BlogEntry.from_file`: the entry described by the frontmatter of the
   * file at `path`; `now` is the instant used when the file gives none.
   */
  function EntryFromFile(path: string, files: map<string, string>, now: Time): (r: Result<BlogEntry>)
    ensures path !in files ==> r.Failure?
    ensures r.Success? ==> r.value.filepath == PathObj(path) && r.value.title != []
  {
    if path !in files then Failure("Failed to load blog entry from " + path)
    else
      var m := Frontmatter(files[path]);
      var repository :- TextField(m, "repository", "Unknown");
      var count :- CountField(m);
      var generatedBy :- TextField(m, "generated_by", "Unknown");
      var at :- DateField(m, now);
      var title :- TitleField(m);
      var tags :- TagsField(m);
      Success(NewEntry(PathObj(path), repository, count, ProviderOf(generatedBy), ModelOf(generatedBy), at, title, tags))
  }

  // ---------------------------------------------------- the index's form

  function StrList(items: seq<string>): (r: seq<Json>)
    ensures |r| == |items|
  {
    if items == [] then [] else [JStr(items[0])] + StrList(items[1..])
  }

  /** `to_dict`. */
  function ToDict(e: BlogEntry): Object
  {
    map[
      "filepath" := JStr(e.filepath.Str()), "repository" := JStr(e.repository),
      "commit_count" := JInt(e.commitCount), "provider" := JStr(e.provider),
      "model" := JStr(e.model), "generated_at" := JStr(IsoText(e.generatedAt)),
      "title" := JStr(e.title), "tags" := JList(StrList(e.tags))]
  }

  /** `data[key]` where the value must be text. */
  function RequiredText(data: Object, key: string): Result<string>
  {
    if key !in data then Failure("KeyError: '" + key + "'")
    else if data[key].JStr? then Success(data[key].s)
    else Failure("'" + key + "' is not text")
  }

  /** The strings of a JSON list of strings. */
  function Strings(items: seq<Json>): Result<seq<string>>
  {
    if items == [] then Success([])
    else if !items[0].JStr? then Failure("a tag is not text")
    else
      var rest :- Strings(items[1..]);
      Success([items[0].s] + rest)
  }

  /** `from_dict`: the six required keys, an optional title and optional tags. */
  function FromDict(data: Object): (r: Result<BlogEntry>)
    ensures r.Success? ==> r.value.filepath.PathObj? && r.value.title != []
  {
    var filepath :- RequiredText(data, "filepath");
    var repository :- RequiredText(data, "repository");
    var count :- if "commit_count" !in data then Failure("KeyError: 'commit_count'")
      else if data["commit_count"].JInt? then Success(data["commit_count"].i)
      else Failure("'commit_count' is not an integer");
    var provider :- RequiredText(data, "provider");
    var model :- RequiredText(data, "model");
    var stamp :- RequiredText(data, "generated_at");
    var at :- match ParseIso(stamp) case Some(t) => Success(t) case None => Failure("Invalid isoformat string");
    var title :- match Opt(data, "title")
      case JStr(s) => Success(Some(s))
      case v => if Truthy(v) then Failure("'title' is not text") else Success(None);
    var tags :- match Opt(data, "tags")
      case JList(items) => (var ss :- Strings(items); Success(Some(ss)))
      case v => if Truthy(v) then Failure("'tags' is not a list") else Success(None);
    Success(NewEntry(PathObj(filepath), repository, count, provider, model, at, title, tags))
  }

  lemma {:induction false} StringsRoundTrip(items: seq<string>)
    ensures Strings(StrList(items)) == Success(items)
  {
    if items != [] {
      StringsRoundTrip(items[1..]);
      assert StrList(items)[1..] == StrList(items[1..]);
      assert [items[0]] + items[1..] == items;
    }
  }

  /** Every field of `to_dict(e)` is read back by `from_dict`, the title and tags as present. */
  lemma {:induction false} DictFieldsRoundTrip(e: BlogEntry)
    requires InRange(e.generatedAt)
    ensures FromDict(ToDict(e)) == Success(NewEntry(PathObj(e.filepath.Str()), e.repository,
      e.commitCount, e.provider, e.model, e.generatedAt, Some(e.title), Some(e.tags)))
  {
    var d := ToDict(e);
    DictLookups(d, e.filepath.Str(), e.repository, e.commitCount, e.provider, e.model, IsoText(e.generatedAt),
                e.title, StrList(e.tags));
    IsoRoundTrip(e.generatedAt);
    StringsRoundTrip(e.tags);
    FromDictOf(d, e.filepath.Str(), e.repository, e.commitCount, e.provider, e.model, IsoText(e.generatedAt),
               e.generatedAt, e.title, StrList(e.tags), e.tags);
  }

  /** Each field of a dictionary laid out as `to_dict` lays it out reads back as written. */
  lemma DictLookups(d: Object, filepath: string, repository: string, count: int, provider: string, model: string,
                    stamp: string, title: string, items: seq<Json>)
    requires d == map[
      "filepath" := JStr(filepath), "repository" := JStr(repository),
      "commit_count" := JInt(count), "provider" := JStr(provider),
      "model" := JStr(model), "generated_at" := JStr(stamp),
      "title" := JStr(title), "tags" := JList(items)]
    ensures RequiredText(d, "filepath") == Success(filepath) && RequiredText(d, "repository") == Success(repository)
    ensures "commit_count" in d && d["commit_count"] == JInt(count)
    ensures RequiredText(d, "provider") == Success(provider) && RequiredText(d, "model") == Success(model)
    ensures RequiredText(d, "generated_at") == Success(stamp)
    ensures Opt(d, "title") == JStr(title) && Opt(d, "tags") == JList(items)
  {
  }

  /** `from_dict` on a dictionary whose every field is present and well typed. */
  lemma {:induction false} FromDictOf(d: Object, filepath: string, repository: string, count: int, provider: string, model: string,
                   stamp: string, at: Time, title: string, items: seq<Json>, tags: seq<string>)
    requires RequiredText(d, "filepath") == Success(filepath) && RequiredText(d, "repository") == Success(repository)
    requires "commit_count" in d && d["commit_count"] == JInt(count)
    requires RequiredText(d, "provider") == Success(provider) && RequiredText(d, "model") == Success(model)
    requires RequiredText(d, "generated_at") == Success(stamp) && ParseIso(stamp) == Some(at)
    requires Opt(d, "title") == JStr(title) && Opt(d, "tags") == JList(items) && Strings(items) == Success(tags)
    ensures FromDict(d) == Success(NewEntry(PathObj(filepath), repository, count, provider, model, at, Some(title), Some(tags)))
  {
  }

  /**
   * `from_dict(to_dict(e))` is `e`, with its file path read back as a
   * `Path`, for an entry with a title and a date before the year 10000.
   */
  lemma {:induction false} DictRoundTrip(e: BlogEntry)
    requires e.title != [] && InRange(e.generatedAt)
    ensures FromDict(ToDict(e)) == Success(e.(filepath := PathObj(e.filepath.Str())))
  {
    DictFieldsRoundTrip(e);
  }

  /** An entry saved with an empty title is read back with the default title. */
  lemma {:induction false} EmptyTitleReadsAsDefault(e: BlogEntry)
    requires e.title == [] && InRange(e.generatedAt)
    ensures FromDict(ToDict(e)).Success?
    ensures FromDict(ToDict(e)).value.title == DefaultTitle(e.repository)
  {
    DictFieldsRoundTrip(e);
  }
}
