// The markdown file `BlogGenerator` (`blog/generator.py`) writes: its
// frontmatter, how the frontmatter reads back, and the metadata read from
// an existing entry.
module EntryFormat {
  import opened Wrappers
  import opened Text
  import opened Clock
  import opened Commits
  import opened BlogEntries
  import opened ContentCleaning
  import opened CommitSummary

  // ---------------------------------------------------------- the entry file

  /** The `generated_by` value: the provider, then the model in parentheses. */
  function GeneratedBy(provider: string, model: string): string
  {
    provider + " (" + model + ")"
  }

  /** One frontmatter line. */
  function Field(key: string, value: string): string
  {
    key + ": " + value
  }

  /** The frontmatter fields of a generated entry, one line each. */
  function FrontmatterFields(repository: string, count: nat, provider: string, model: string, now: Time): seq<string>
  {
    [Field("title", DefaultTitle(repository)), Field("date", DateText(now)), Field("repository", repository),
     Field("commit_count", NatText(count)), Field("generated_by", GeneratedBy(provider, model)),
     Field("generated_at", DateTimeText(now))]
  }

  /** The frontmatter block: the fields between `---` lines, then a blank line. */
  function FrontmatterText(repository: string, count: nat, provider: string, model: string, now: Time): string
  {
    "---\n" + Join(FrontmatterFields(repository, count, provider, model, now), "\n") + "\n---\n\n"
  }

  /**
   * `_format_blog_entry`, with `now` the instant `datetime.now()` returns:
   * the frontmatter, the cleaned answer, then the commit references.
   */
  function FormatBlogEntry(aiContent: string, commits: seq<Commit>, repository: string,
                           provider: string, model: string, now: Time): string
  {
    FrontmatterText(repository, |commits|, provider, model, now) + CleanAiContent(aiContent) + CommitReferences(commits)
  }

  /** Every line break in `s` is followed by a character other than `-`. */
  predicate BreaksBeforeText(s: string)
  {
    forall p | 0 <= p < |s| && s[p] == '\n' :: p + 1 < |s| && s[p + 1] != '-'
  }

  /** Lines without line breaks, none empty and none starting with `-`. */
  predicate FieldLines(lines: seq<string>)
  {
    forall k | 0 <= k < |lines| :: lines[k] != [] && lines[k][0] != '-' && '\n' !in lines[k]
  }

  lemma {:induction false} JoinStarts(lines: seq<string>, sep: string)
    requires lines != []
    ensures StartsWith(Join(lines, sep), lines[0])
  {
  }

  /** Joined field lines have a line break only before the next field. */
  lemma {:induction false} JoinedFieldsBreak(lines: seq<string>)
    requires FieldLines(lines)
    ensures BreaksBeforeText(Join(lines, "\n"))
  {
    if |lines| > 1 {
      var j := Join(lines, "\n");
      var rest := Join(lines[1..], "\n");
      assert j == lines[0] + "\n" + rest;
      JoinedFieldsBreak(lines[1..]);
      JoinStarts(lines[1..], "\n");
      forall p | 0 <= p < |j| && j[p] == '\n'
        ensures p + 1 < |j| && j[p + 1] != '-'
      {
        if p == |lines[0]| {
          assert j[p + 1] == rest[0] == lines[1][0];
        } else if p > |lines[0]| {
          assert j[p] == rest[p - |lines[0]| - 1];
        }
      }
    }
  }

  /** Lines without line breaks split back out of their join. */
  lemma {:induction false} SplitJoined(lines: seq<string>)
    requires lines != [] && forall k | 0 <= k < |lines| :: '\n' !in lines[k]
    ensures Split(Join(lines, "\n"), '\n') == lines
  {
    if |lines| == 1 {
      SplitWithoutSeparator(lines[0], '\n');
    } else {
      SplitJoined(lines[1..]);
      SplitAtFirst(lines[0], Join(lines[1..], "\n"), '\n');
      assert lines[0] + "\n" + Join(lines[1..], "\n") == lines[0] + ['\n'] + Join(lines[1..], "\n");
      assert lines == [lines[0]] + lines[1..];
    }
  }

  /** A block whose line breaks all precede text is exactly what the frontmatter pattern matches. */
  lemma {:induction false} BlockFound(block: string, content: string)
    requires BreaksBeforeText(block) && (block == [] || block[0] != '-')
    requires StartsWith(content, "---\n" + block + "\n---\n")
    ensures FrontmatterBlock(content) == Some(block)
  {
    var head := "---\n" + block + "\n---\n";
    var close := 4 + |block|;
    assert content[..|head|] == head;
    assert head[..4] == "---\n";
    assert content[..4] == head[..4];
    assert head[close..close + 5] == "\n---\n";
    assert content[close..close + 5] == head[close..close + 5];
    assert OccursAt(content, "\n---\n", close);
    forall j | 4 <= j < close
      ensures !OccursAt(content, "\n---\n", j)
    {
      assert content[j] == head[j] == block[j - 4];
      if content[j] == '\n' {
        assert content[j + 1] == head[j + 1] == block[j - 3];
      }
    }
    var found := FindFrom(content, "\n---\n", 4);
    assert found == Some(close);
    assert head[4..close] == block;
    assert content[4..close] == head[4..close];
  }

  /** A character absent from a text is absent from each piece of its split. */
  lemma {:induction false} SplitPiecesLack(s: string, sep: char, c: char)
    requires c !in s
    ensures forall k | 0 <= k < |Split(s, sep)| :: c !in Split(s, sep)[k]
  {
    if s != [] {
      SplitPiecesLack(s[1..], sep, c);
    }
  }

  /** The frontmatter fields are lines that the frontmatter pattern and the line split keep apart. */
  /** A field whose key and value are single lines, the key not starting with '-', is such a line. */
  lemma {:induction false} FieldOneLine(key: string, value: string)
    requires key != [] && key[0] != '-' && '\n' !in key && '\n' !in value
    ensures Field(key, value) != [] && Field(key, value)[0] != '-' && '\n' !in Field(key, value)
  {
    assert Field(key, value) == key + (": " + value);
  }

  lemma {:induction false} FieldsAreLines(repository: string, count: nat, provider: string, model: string, now: Time)
    requires '\n' !in repository && '\n' !in provider && '\n' !in model
    ensures FieldLines(FrontmatterFields(repository, count, provider, model, now))
  {
    var parts := Split(repository, '/');
    SplitPiecesLack(repository, '/', '\n');
    assert '\n' !in parts[|parts| - 1];
    assert '\n' !in DefaultTitle(repository);
    DateTextsOneLine(now);
    assert '\n' !in NatText(count);
    assert '\n' !in GeneratedBy(provider, model);
    FieldOneLine("title", DefaultTitle(repository));
    FieldOneLine("date", DateText(now));
    FieldOneLine("repository", repository);
    FieldOneLine("commit_count", NatText(count));
    FieldOneLine("generated_by", GeneratedBy(provider, model));
    FieldOneLine("generated_at", DateTimeText(now));
  }

  /**
   * A generated entry's frontmatter reads back, through the parser
   * `BlogEntry.from_file` uses, as the commit count and as the provider and
   * model it was generated with, when those names keep to the
   * `provider (model)` format.
   */
  lemma {:induction false} EntryReadsBack(aiContent: string, commits: seq<Commit>, repository: string,
                       provider: string, model: string, now: Time)
    requires '\n' !in repository && '\n' !in provider && '\n' !in model
    requires provider != [] && Strip(provider) == provider && '(' !in provider
    requires '(' !in model && (model == [] || model[|model| - 1] != ')')
    ensures var m := Frontmatter(FormatBlogEntry(aiContent, commits, repository, provider, model, now));
      && "commit_count" in m && m["commit_count"] == FInt(|commits|)
      && "generated_by" in m && m["generated_by"].FStr?
      && ProviderOf(m["generated_by"].s) == provider && ModelOf(m["generated_by"].s) == model
  {
    EntryFrontmatter(aiContent, commits, repository, provider, model, now);
    FieldsRead(repository, |commits|, provider, model, now);
  }

  /** The frontmatter read from a generated entry is what its field lines parse to. */
  lemma {:induction false} EntryFrontmatter(aiContent: string, commits: seq<Commit>, repository: string,
                         provider: string, model: string, now: Time)
    requires '\n' !in repository && '\n' !in provider && '\n' !in model
    ensures Frontmatter(FormatBlogEntry(aiContent, commits, repository, provider, model, now))
      == ParseLines(FrontmatterFields(repository, |commits|, provider, model, now))
  {
    var fields := FrontmatterFields(repository, |commits|, provider, model, now);
    var rest := CleanAiContent(aiContent) + CommitReferences(commits);
    var content := FormatBlogEntry(aiContent, commits, repository, provider, model, now);
    FieldsAreLines(repository, |commits|, provider, model, now);
    EntryLayout(aiContent, commits, repository, provider, model, now);
    BlockFrontmatter(fields, rest, content);
  }

  /** A generated entry is its field lines between `---` lines, a blank line, then the rest. */
  lemma {:induction false} EntryLayout(aiContent: string, commits: seq<Commit>, repository: string,
                    provider: string, model: string, now: Time)
    ensures FormatBlogEntry(aiContent, commits, repository, provider, model, now)
      == "---\n" + Join(FrontmatterFields(repository, |commits|, provider, model, now), "\n") + "\n---\n\n"
         + (CleanAiContent(aiContent) + CommitReferences(commits))
  {
  }

  /** Field lines written between `---` lines read back as those lines parse, whatever follows. */
  lemma {:induction false} BlockFrontmatter(fields: seq<string>, rest: string, content: string)
    requires fields != [] && FieldLines(fields)
    requires content == "---\n" + Join(fields, "\n") + "\n---\n\n" + rest
    ensures Frontmatter(content) == ParseLines(fields)
  {
    var block := Join(fields, "\n");
    JoinedFieldsBreak(fields);
    JoinStarts(fields, "\n");
    assert content == "---\n" + block + "\n---\n" + ("\n" + rest);
    assert StartsWith(content, "---\n" + block + "\n---\n");
    BlockFound(block, content);
    SplitJoined(fields);
  }

  /** The commit count and the `generated_by` value parse back from the field lines. */
  lemma {:induction false} FieldsRead(repository: string, count: nat, provider: string, model: string, now: Time)
    requires provider != [] && Strip(provider) == provider && '(' !in provider
    requires '(' !in model && (model == [] || model[|model| - 1] != ')')
    ensures var m := ParseLines(FrontmatterFields(repository, count, provider, model, now));
      && "commit_count" in m && m["commit_count"] == FInt(count)
      && "generated_by" in m && m["generated_by"].FStr?
      && ProviderOf(m["generated_by"].s) == provider && ModelOf(m["generated_by"].s) == model
  {
    var fields := FrontmatterFields(repository, count, provider, model, now);
    var gb := GeneratedBy(provider, model);
    assert fields == fields[..3] + [fields[3]] + [fields[4]] + [fields[5]];
    CountLine(count);
    GeneratedByLine(provider, model);
    GeneratedAtLine(DateTimeText(now));
    KeysDiffer();
    LastFieldsRead(fields[..3], fields[3], fields[4], fields[5], "commit_count", "generated_by", FInt(count), FStr(gb));
    GeneratedByRoundTrip(provider, model);
  }

  /** After three lines with distinct keys, the first two are read as they parse. */
  lemma {:induction false} LastFieldsRead(head: seq<string>, l3: string, l4: string, l5: string,
                       k3: string, k4: string, v3: FmValue, v4: FmValue)
    requires ParseLine(l3) == Some((k3, v3)) && ParseLine(l4) == Some((k4, v4)) && ParseLine(l5).Some?
    requires k3 != k4 && k3 != ParseLine(l5).value.0 && k4 != ParseLine(l5).value.0
    ensures var m := ParseLines(head + [l3] + [l4] + [l5]);
      k3 in m && m[k3] == v3 && k4 in m && m[k4] == v4
  {
    var k5 := ParseLine(l5).value.0;
    var m0 := ParseLines(head);
    ParseLinesSnoc(head, l3);
    ParseLinesSnoc(head + [l3], l4);
    ParseLinesSnoc(head + [l3] + [l4], l5);
    var m := m0[k3 := v3][k4 := v4][k5 := ParseLine(l5).value.1];
    assert ParseLines(head + [l3] + [l4] + [l5]) == m;
    EarlierUpdates(m0, k3, v3, k4, v4, k5, ParseLine(l5).value.1);
  }

  lemma {:induction false} EarlierUpdates<V>(m0: map<string, V>, k3: string, v3: V, k4: string, v4: V, k5: string, v5: V)
    requires k3 != k4 && k3 != k5 && k4 != k5
    ensures var m := m0[k3 := v3][k4 := v4][k5 := v5]; k3 in m && m[k3] == v3 && k4 in m && m[k4] == v4
  {
  }

  /** A text ending in neither `e` nor `E` is not read as a boolean. */
  lemma {:induction false} NotBoolean(v: string)
    requires v != [] && v[|v| - 1] != 'e' && v[|v| - 1] != 'E'
    ensures Lower(v) != "true" && Lower(v) != "false"
  {
    assert Lower(v)[|v| - 1] == LowerChar(v[|v| - 1]) != 'e';
  }

  lemma {:induction false} CountLine(count: nat)
    ensures ParseLine(Field("commit_count", NatText(count))) == Some(("commit_count", FInt(count)))
  {
    var v := NatText(count);
    assert !IsSpace(v[0]) && !IsSpace(v[|v| - 1]);
    StripOfStripped(v);
    KeyLine("commit_count", v);
    ParseKeyValueLine("commit_count", v);
    NotBoolean(v);
    NatTextValue(count);
    assert Classify(v) == FInt(count);
  }

  lemma {:induction false} GeneratedByLine(provider: string, model: string)
    requires provider != [] && Strip(provider) == provider && '(' !in provider
    ensures ParseLine(Field("generated_by", GeneratedBy(provider, model))) == Some(("generated_by", FStr(GeneratedBy(provider, model))))
  {
    var v := GeneratedBy(provider, model);
    assert v[0] == provider[0] && v[|v| - 1] == ')';
    StripOfStripped(v);
    KeyLine("generated_by", v);
    ParseKeyValueLine("generated_by", v);
    NotBoolean(v);
    assert !IsDigit(v[|v| - 1]);
    assert !IsDigitText(v);
    EndsInParenthesis(v);
    PlainText(v);
  }

  lemma {:induction false} KeysDiffer()
    ensures "commit_count" != "generated_by" && "commit_count" != "generated_at" && "generated_by" != "generated_at"
  {
    assert "commit_count"[0] != "generated_by"[0] && "generated_by"[10] != "generated_at"[10];
  }

  lemma {:induction false} GeneratedAtLine(value: string)
    ensures ParseLine(Field("generated_at", value)).Some? && ParseLine(Field("generated_at", value)).value.0 == "generated_at"
  {
    KeyLine("generated_at", value);
  }

  /** A value that is no boolean word, no digit run and no bracketed list is read as text. */
  lemma {:induction false} PlainText(v: string)
    requires Lower(v) != "true" && Lower(v) != "false" && !IsDigitText(v) && !EndsWith(v, "]")
    ensures Classify(v) == FStr(v)
  {
  }

  lemma {:induction false} EndsInParenthesis(v: string)
    requires v != [] && v[|v| - 1] == ')'
    ensures !EndsWith(v, "]")
  {
    assert v[|v| - 1..][0] == ')';
  }

  /** A `key: value` line with a stripped key free of `:` is read under that key. */
  lemma {:induction false} KeyLine(key: string, value: string)
    requires ':' !in key && key != [] && !IsSpace(key[0]) && !IsSpace(key[|key| - 1])
    ensures Strip(key) == key
    ensures ParseLine(Field(key, value)).Some? && ParseLine(Field(key, value)).value.0 == key
  {
    assert Field(key, value) == key + [':'] + (" " + value);
    ColonKey(Field(key, value), key, " " + value);
    StripOfStripped(key);
  }

  // ------------------------------------------------------- reading metadata

  /** One line of `_extract_metadata_from_content`: split at the first `:`, both sides stripped. */
  function MetadataLine(line: string): (r: Option<(string, string)>)
    ensures r.Some? <==> ':' in line
  {
    if ':' !in line then None
    else
      var i := FirstIndex(line, ':');
      Some((Strip(line[..i]), Strip(line[i + 1..])))
  }

  function MetadataLines(lines: seq<string>): map<string, string>
  {
    if lines == [] then map[]
    else
      var m := MetadataLines(lines[..|lines| - 1]);
      match MetadataLine(lines[|lines| - 1])
      case None => m
      case Some(kv) => m[kv.0 := kv.1]
  }

  /**
   * `_extract_metadata_from_content`: the frontmatter fields as plain text,
   * with the same block pattern and line rule as the entry parser.
   */
  function ExtractMetadata(content: string): (r: map<string, string>)
    ensures FrontmatterBlock(content).None? ==> r == map[]
  {
    match FrontmatterBlock(content)
    case None => map[]
    case Some(block) => MetadataLines(Split(block, '\n'))
  }

  /**
   * The text metadata and the typed frontmatter of the entry parser have the
   * same keys, and each typed value is the classification of the text one.
   */
  lemma {:induction false} MetadataLinesTyped(lines: seq<string>)
    ensures MetadataLines(lines).Keys == ParseLines(lines).Keys
    ensures forall k | k in MetadataLines(lines) :: ParseLines(lines)[k] == Classify(MetadataLines(lines)[k])
  {
    if lines != [] {
      var init := lines[..|lines| - 1];
      var line := lines[|lines| - 1];
      MetadataLinesTyped(init);
      assert ParseLine(line).Some? ==> ParseLine(line).value == (MetadataLine(line).value.0, Classify(MetadataLine(line).value.1));
    }
  }

  lemma {:induction false} MetadataTyped(content: string)
    ensures ExtractMetadata(content).Keys == Frontmatter(content).Keys
    ensures forall k | k in ExtractMetadata(content) :: Frontmatter(content)[k] == Classify(ExtractMetadata(content)[k])
  {
    if FrontmatterBlock(content).Some? {
      MetadataLinesTyped(Split(FrontmatterBlock(content).value, '\n'));
    }
  }

  /** The keys a generated entry's frontmatter has. */
  const EntryKeys: set<string> := {"title", "date", "repository", "commit_count", "generated_by", "generated_at"}

  /** Every field line of a generated entry is read under one of the entry keys. */
  lemma {:induction false} FieldKeys(repository: string, count: nat, provider: string, model: string, now: Time)
    ensures var fields := FrontmatterFields(repository, count, provider, model, now);
      forall i | 0 <= i < |fields| :: ':' in fields[i] && KeyOf(fields[i]) in EntryKeys
  {
    SixKeys(DefaultTitle(repository), DateText(now), repository, NatText(count),
            GeneratedBy(provider, model), DateTimeText(now));
  }

  lemma {:induction false} SixKeys(t: string, d: string, r: string, c: string, g: string, a: string)
    ensures var fields := [Field("title", t), Field("date", d), Field("repository", r),
                           Field("commit_count", c), Field("generated_by", g), Field("generated_at", a)];
      forall i | 0 <= i < |fields| :: ':' in fields[i] && KeyOf(fields[i]) in EntryKeys
  {
    var fields := [Field("title", t), Field("date", d), Field("repository", r),
                   Field("commit_count", c), Field("generated_by", g), Field("generated_at", a)];
    forall i | 0 <= i < |fields|
      ensures ':' in fields[i] && KeyOf(fields[i]) in EntryKeys
    {
      var key := ["title", "date", "repository", "commit_count", "generated_by", "generated_at"][i];
      var value := [t, d, r, c, g, a][i];
      assert fields[i] == Field(key, value);
      assert fields[i][|key|] == ':';
      KeyLine(key, value);
    }
  }

  lemma {:induction false} SamplingKeysAbsent()
    ensures "max_tokens" !in EntryKeys && "temperature" !in EntryKeys
  {
    assert "max_tokens"[0] != "repository"[0];
  }

  /**
   * The metadata `regenerate_blog_entry` reads from a generated entry has no
   * `max_tokens` and no `temperature`, so the regeneration passes neither on.
   */
  lemma {:induction false} GeneratedEntryHasNoSampling(aiContent: string, commits: seq<Commit>, repository: string,
                                    provider: string, model: string, now: Time)
    requires '\n' !in repository && '\n' !in provider && '\n' !in model
    ensures var m := ExtractMetadata(FormatBlogEntry(aiContent, commits, repository, provider, model, now));
      "max_tokens" !in m && "temperature" !in m
  {
    var content := FormatBlogEntry(aiContent, commits, repository, provider, model, now);
    var fields := FrontmatterFields(repository, |commits|, provider, model, now);
    EntryFrontmatter(aiContent, commits, repository, provider, model, now);
    MetadataTyped(content);
    FieldKeys(repository, |commits|, provider, model, now);
    SamplingKeysAbsent();
    ParsedKeys(fields, "max_tokens");
    ParsedKeys(fields, "temperature");
  }
}
