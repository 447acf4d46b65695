// The blog index: entries under an id made of their timestamp and repository,
// kept in the order they were added, next to their markdown files on disk.
module Storage {
  import opened Wrappers
  import opened Text
  import opened Clock
  import opened JsonData
  import opened Lists
  import opened Files
  import opened BlogEntries

  /** `generated_at.strftime("%Y%m%d_%H%M%S") + "_" + repository.replace("/", "_")`. */
  function EntryId(at: Time, repository: string): (id: string)
    ensures |id| == 16 + |repository| && id[..15] == Stamp(at) && id[15] == '_'
    ensures id[16..] == ReplaceChar(repository, '/', '_')
  {
    Stamp(at) + "_" + ReplaceChar(repository, '/', '_')
  }

  /** Two entries for one repository generated within the same second get the same id. */
  lemma {:induction false} SameSecondSameId(t1: Time, t2: Time, repository: string)
    requires Seconds(t1) == Seconds(t2)
    ensures EntryId(t1, repository) == EntryId(t2, repository)
  {
    StampIgnoresMicroseconds(t1, t2);
  }

  /** Equal ids mean the same second and the same repository up to `/` versus `_`. */
  lemma {:induction false} EntryIdDetermines(t1: Time, t2: Time, r1: string, r2: string)
    requires InRange(t1) && InRange(t2)
    requires EntryId(t1, r1) == EntryId(t2, r2)
    ensures Seconds(t1) == Seconds(t2)
    ensures ReplaceChar(r1, '/', '_') == ReplaceChar(r2, '/', '_')
  {
    StampInjective(t1, t2);
  }

  // ------------------------------------------------------ the index state

  /** Every listed id has an entry. */
  predicate Listed(ids: seq<string>, entries: map<string, BlogEntry>)
  {
    forall i :: 0 <= i < |ids| ==> ids[i] in entries
  }

  /** `self.entries.values()`: the entries in the order their ids were added. */
  function InOrder(ids: seq<string>, entries: map<string, BlogEntry>): (r: seq<BlogEntry>)
    requires Listed(ids, entries)
    ensures |r| == |ids| && forall i :: 0 <= i < |ids| ==> r[i] == entries[ids[i]]
  {
    if ids == [] then [] else [entries[ids[0]]] + InOrder(ids[1..], entries)
  }

  /** `self.entries[id] = e`: a new id goes last, a known one keeps its place. */
  function Put(ids: seq<string>, entries: map<string, BlogEntry>, id: string, e: BlogEntry)
    : (r: (seq<string>, map<string, BlogEntry>))
    requires Distinct(ids) && forall k :: k in entries <==> k in ids
    ensures Distinct(r.0) && (forall k :: k in r.1 <==> k in r.0)
    ensures r.1 == entries[id := e]
    ensures r.0 == if id in ids then ids else ids + [id]
  {
    if id in ids then (ids, entries[id := e])
    else
      assert forall i :: 0 <= i < |ids| ==> (ids + [id])[i] == ids[i];
      (ids + [id], entries[id := e])
  }

  /** `BlogEntry.from_dict` on one value of the index file. */
  function EntryFromJson(data: Json): Result<BlogEntry>
  {
    match data
    case JObj(fields) => FromDict(fields)
    case _ => Failure("entry data is not an object")
  }

  /** The `from_dict` pass of `_load_index`: members that do not decode are skipped, the rest kept in order. */
  function Decoded(members: seq<(string, Json)>): (r: (seq<string>, map<string, BlogEntry>))
    ensures Distinct(r.0) && (forall k :: k in r.1 <==> k in r.0)
  {
    if members == [] then ([], map[])
    else
      var prev := Decoded(members[..|members| - 1]);
      var item := members[|members| - 1];
      match EntryFromJson(item.1)
      case Failure(_) => prev
      case Success(e) => Put(prev.0, prev.1, item.0, e)
  }

  /**
   * `_load_index`: `json.load` builds the object first (a repeated id keeps
   * its first place and its last value), then each member is decoded in
   * turn and one that does not decode is skipped.
   */
  function Loaded(index: seq<(string, Json)>): (r: (seq<string>, map<string, BlogEntry>))
    ensures Distinct(r.0) && (forall k :: k in r.1 <==> k in r.0)
  {
    Decoded(LoadObject(index))
  }

  /** `_load_index`, one member of the loaded object at a time. */
  method LoadIndex(index: seq<(string, Json)>) returns (ids: seq<string>, entries: map<string, BlogEntry>)
    ensures (ids, entries) == Loaded(index)
  {
    var members := LoadObject(index);
    ids, entries := [], map[];
    var i := 0;
    while i < |members|
      invariant 0 <= i <= |members|
      invariant (ids, entries) == Decoded(members[..i])
    {
      assert members[..i + 1][..i] == members[..i];
      var decoded := EntryFromJson(members[i].1);
      if decoded.Success? {
        ids, entries := Put(ids, entries, members[i].0, decoded.value).0, entries[members[i].0 := decoded.value];
      }
      i := i + 1;
    }
    assert members[..i] == members;
  }

  /** A member of the index file that `from_dict` accepts. */
  predicate Decodes(member: (string, Json))
  {
    EntryFromJson(member.1).Success?
  }

  /** Without a repeated id, the loaded ids are those of the members that decode, in file order. */
  lemma {:induction false} DecodedIds(members: seq<(string, Json)>)
    requires DistinctKeys(members)
    ensures Decoded(members).0 == Keys(Filter(members, Decodes))
    decreases |members|
  {
    if members != [] {
      var n := |members| - 1;
      var init := members[..n];
      PrefixDistinct(members);
      DecodedIds(init);
      DecodedStepIds(members);
      FilterSnoc(members, n, Decodes);
      assert members[..n + 1] == members;
      if Decodes(members[n]) {
        FilteredKeys(init, Decodes, members[n].0);
        KeysSnoc(Filter(init, Decodes), members[n]);
      }
    }
  }

  /**
   * The loaded ids are those of the members of the object `json.load` builds
   * that `from_dict` accepts, in the object's order.
   */
  lemma LoadedIds(index: seq<(string, Json)>)
    ensures Loaded(index).0 == Keys(Filter(LoadObject(index), Decodes))
  {
    DecodedIds(LoadObject(index));
  }

  /** One more member adds its id after the others when it decodes and its id is new. */
  lemma DecodedStepIds(members: seq<(string, Json)>)
    requires members != []
    ensures var prev := Decoded(members[..|members| - 1]).0; var k := members[|members| - 1].0;
      Decoded(members).0 == if !Decodes(members[|members| - 1]) || k in prev then prev else prev + [k]
  {
  }

  /** A key missing from the members is missing from any selection of them. */
  lemma FilteredKeys(members: seq<(string, Json)>, p: ((string, Json)) -> bool, k: string)
    requires k !in Keys(members)
    ensures k !in Keys(Filter(members, p))
  {
    var kept := Filter(members, p);
    forall i | 0 <= i < |kept| ensures kept[i].0 != k {
      var j :| 0 <= j < |members| && members[j] == kept[i];
    }
  }

  lemma KeysSnoc(pairs: seq<(string, Json)>, last: (string, Json))
    ensures Keys(pairs + [last]) == Keys(pairs) + [last.0]
  {
  }

  /** A repeated id is decoded from its last value only: a last value that does not decode drops the id. */
  lemma RepeatedIdLastValueDecides(id: string, first: Json, last: Json)
    requires EntryFromJson(last).Failure?
    ensures Loaded([(id, first), (id, last)]) == ([], map[])
  {
    var index := [(id, first), (id, last)];
    assert index[..1] == [(id, first)];
    assert LoadObject([(id, first)]) == [(id, first)] by {
      assert [(id, first)][..0] == [];
    }
    assert Assign([(id, first)], id, last) == [(id, last)];
    assert LoadObject(index) == [(id, last)];
    assert Decoded([(id, last)]) == ([], map[]) by {
      assert [(id, last)][..0] == [];
    }
  }

  /** A repeated id keeps the place of its first occurrence and is decoded from its last value. */
  lemma RepeatedIdKeepsFirstPlace(a: string, b: string, first: Json, middle: Json, last: Json)
    requires a != b
    ensures Loaded([(a, first), (b, middle), (a, last)]) == Decoded([(a, last), (b, middle)])
  {
    LoadedThree([(a, first), (b, middle), (a, last)]);
  }

  /** `json.load` of three members whose first and last keys are the same. */
  lemma LoadedThree(index: seq<(string, Json)>)
    requires |index| == 3 && index[0].0 == index[2].0 && index[0].0 != index[1].0
    ensures LoadObject(index) == [(index[0].0, index[2].1), index[1]]
  {
    var two := index[..2];
    assert two[..1] == [index[0]] && [index[0]][..0] == [];
    assert LoadObject([index[0]]) == [index[0]];
    assert Assign([index[0]], index[1].0, index[1].1) == [index[0]] + Assign([], index[1].0, index[1].1);
    assert LoadObject(two) == [index[0], index[1]];
    assert index[..2] == two;
  }

  /** `_save_index`: each entry's `to_dict`, in index order. */
  function IndexDocument(ids: seq<string>, entries: map<string, BlogEntry>): (r: seq<(string, Json)>)
    requires Listed(ids, entries)
    ensures |r| == |ids|
    ensures forall i :: 0 <= i < |ids| ==> r[i] == (ids[i], JObj(ToDict(entries[ids[i]])))
  {
    if ids == [] then [] else [(ids[0], JObj(ToDict(entries[ids[0]])))] + IndexDocument(ids[1..], entries)
  }

  /** An entry that survives being saved to the index file and read back unchanged. */
  predicate Reloadable(e: BlogEntry)
  {
    e.filepath.PathObj? && e.title != [] && InRange(e.generatedAt)
  }

  /** The entries of `ids`, as a map. */
  function Restrict(ids: seq<string>, entries: map<string, BlogEntry>): map<string, BlogEntry>
    requires Listed(ids, entries)
  {
    map id | id in ids :: entries[id]
  }

  /** An entry that can be reloaded decodes from its `to_dict`. */
  lemma {:induction false} Reload(e: BlogEntry)
    requires Reloadable(e)
    ensures EntryFromJson(JObj(ToDict(e))) == Success(e)
  {
    DictRoundTrip(e);
    assert e.(filepath := PathObj(e.filepath.Str())) == e;
  }

  lemma {:induction false} IndexDocumentPrefix(ids: seq<string>, entries: map<string, BlogEntry>, n: nat)
    requires Listed(ids, entries) && n <= |ids|
    ensures IndexDocument(ids, entries)[..n] == IndexDocument(ids[..n], entries)
  {
  }

  lemma {:induction false} RestrictSnoc(ids: seq<string>, entries: map<string, BlogEntry>)
    requires Listed(ids, entries) && ids != []
    ensures Restrict(ids, entries) == Restrict(ids[..|ids| - 1], entries)[ids[|ids| - 1] := entries[ids[|ids| - 1]]]
  {
    assert ids == ids[..|ids| - 1] + [ids[|ids| - 1]];
  }

  lemma {:induction false} DecodedSnoc(members: seq<(string, Json)>, e: BlogEntry)
    requires members != [] && EntryFromJson(members[|members| - 1].1) == Success(e)
    ensures var prev := Decoded(members[..|members| - 1]); Decoded(members) == Put(prev.0, prev.1, members[|members| - 1].0, e)
  {
  }

  lemma {:induction false} SaveThenLoadPrefix(ids: seq<string>, entries: map<string, BlogEntry>)
    requires Distinct(ids) && Listed(ids, entries)
    requires forall i :: 0 <= i < |ids| ==> Reloadable(entries[ids[i]])
    ensures Decoded(IndexDocument(ids, entries)) == (ids, Restrict(ids, entries))
  {
    if ids != [] {
      var n := |ids| - 1;
      var init := ids[..n];
      var doc := IndexDocument(ids, entries);
      PrefixFacts(ids, entries);
      IndexDocumentPrefix(ids, entries, n);
      SaveThenLoadPrefix(init, entries);
      Reload(entries[ids[n]]);
      DecodedSnoc(doc, entries[ids[n]]);
      RestrictSnoc(ids, entries);
    }
  }

  /** The ids but the last keep what the index requires of them, and the last is new to them. */
  lemma {:induction false} PrefixFacts(ids: seq<string>, entries: map<string, BlogEntry>)
    requires ids != [] && Distinct(ids) && Listed(ids, entries)
    requires forall i :: 0 <= i < |ids| ==> Reloadable(entries[ids[i]])
    ensures var init := ids[..|ids| - 1];
      && Distinct(init) && Listed(init, entries) && (forall i :: 0 <= i < |init| ==> Reloadable(entries[init[i]]))
      && ids[|ids| - 1] !in init && init + [ids[|ids| - 1]] == ids
  {
    var n := |ids| - 1;
    var init := ids[..n];
    forall i | 0 <= i < |init|
      ensures init[i] == ids[i]
    {
    }
    assert ids == init + [ids[n]];
  }

  /**
   * Saving the index and loading it again gives back the same entries in the
   * same order, when each entry has a `Path`, a title, and a date before the
   * year 10000 (what `datetime` can hold).
   */
  lemma {:induction false} SaveThenLoad(ids: seq<string>, entries: map<string, BlogEntry>)
    requires Distinct(ids) && (forall k :: k in entries <==> k in ids)
    requires forall k :: k in entries ==> Reloadable(entries[k])
    ensures Loaded(IndexDocument(ids, entries)) == (ids, entries)
  {
    RestrictAll(ids, entries);
    DocumentKeysDistinct(ids, entries);
    LoadObjectDistinct(IndexDocument(ids, entries));
    SaveThenLoadPrefix(ids, entries);
  }

  /** The saved document repeats no id. */
  lemma DocumentKeysDistinct(ids: seq<string>, entries: map<string, BlogEntry>)
    requires Distinct(ids) && Listed(ids, entries)
    ensures DistinctKeys(IndexDocument(ids, entries))
  {
  }

  lemma {:induction false} RestrictAll(ids: seq<string>, entries: map<string, BlogEntry>)
    requires forall k :: k in entries <==> k in ids
    ensures Listed(ids, entries) && Restrict(ids, entries) == entries
  {
  }

  // ------------------------------------------------------------ adding

  /** The entry kept under an id that is already taken: only the file, title and tags are new. */
  function Refreshed(existing: BlogEntry, e: BlogEntry): BlogEntry
  {
    existing.(filepath := e.filepath, title := e.title, tags := e.tags)
  }

  /** The index after `add_entry(e)`. */
  function Added(ids: seq<string>, entries: map<string, BlogEntry>, e: BlogEntry)
    : (r: (seq<string>, map<string, BlogEntry>))
    requires Distinct(ids) && forall k :: k in entries <==> k in ids
    ensures Distinct(r.0) && (forall k :: k in r.1 <==> k in r.0)
  {
    var id := EntryId(e.generatedAt, e.repository);
    Put(ids, entries, id, if id in entries then Refreshed(entries[id], e) else e)
  }

  /**
   * Adding an entry under a new id appends it whole; under a taken id the
   * stored entry keeps its repository, count, provider, model and date.
   */
  lemma {:induction false} AddedEntry(ids: seq<string>, entries: map<string, BlogEntry>, e: BlogEntry, id: string)
    requires Distinct(ids) && (forall k :: k in entries <==> k in ids)
    requires id == EntryId(e.generatedAt, e.repository)
    ensures id in Added(ids, entries, e).1
    ensures forall k :: k in entries && k != id ==> Added(ids, entries, e).1[k] == entries[k]
    ensures id !in entries ==> Added(ids, entries, e) == (ids + [id], entries[id := e])
    ensures id in entries ==> Added(ids, entries, e).0 == ids
    ensures id in entries ==> Added(ids, entries, e).1[id] == entries[id].(filepath := e.filepath, title := e.title, tags := e.tags)
  {
  }

  /**
   * Two adds within one second for one repository leave a single entry, with
   * the first add's provider, model, count and date and the second's title.
   */
  lemma {:induction false} SameSecondAddsCollide(ids: seq<string>, entries: map<string, BlogEntry>, e1: BlogEntry, e2: BlogEntry)
    requires Distinct(ids) && forall k :: k in entries <==> k in ids
    requires e1.repository == e2.repository && Seconds(e1.generatedAt) == Seconds(e2.generatedAt)
    requires EntryId(e1.generatedAt, e1.repository) !in entries
    ensures var id := EntryId(e1.generatedAt, e1.repository);
      var once := Added(ids, entries, e1);
      var twice := Added(once.0, once.1, e2);
      && twice.0 == ids + [id]
      && twice.1[id] == e1.(filepath := e2.filepath, title := e2.title, tags := e2.tags)
  {
    var id := EntryId(e1.generatedAt, e1.repository);
    SameSecondSameId(e1.generatedAt, e2.generatedAt, e1.repository);
    AddedEntry(ids, entries, e1, id);
    var once := Added(ids, entries, e1);
    AddedEntry(once.0, once.1, e2, id);
  }

  // ----------------------------------------------------------- queries

  /** Whether the query, already lower-cased, occurs in the title, the repository or a tag. */
  predicate Matches(e: BlogEntry, query: string)
  {
    Contains(Lower(e.title), query) || Contains(Lower(e.repository), query) || AnyTagContains(e.tags, query)
  }

  /** `any(query in tag.lower() for tag in tags)`. */
  predicate AnyTagContains(tags: seq<string>, query: string)
  {
    tags != [] && (Contains(Lower(tags[0]), query) || AnyTagContains(tags[1..], query))
  }

  function MatchesQuery(query: string): BlogEntry -> bool
  {
    (e: BlogEntry) => Matches(e, query)
  }

  /** `search_entries` on a list of entries. */
  function SearchResults(values: seq<BlogEntry>, query: string): (r: seq<BlogEntry>)
    ensures forall e :: e in r <==> e in values && Matches(e, Lower(query))
    ensures IsSubsequence(r, values)
  {
    Filter(values, MatchesQuery(Lower(query)))
  }

  /** `search_entries`' loop over the entries in index order. */
  method Search(values: seq<BlogEntry>, query: string) returns (results: seq<BlogEntry>)
    ensures results == SearchResults(values, query)
  {
    var q := Lower(query);
    results := [];
    var i := 0;
    while i < |values|
      invariant 0 <= i <= |values|
      invariant results == SearchResults(values[..i], query)
    {
      SearchStep(values, i, query);
      if Matches(values[i], q) {
        results := results + [values[i]];
      }
      i := i + 1;
    }
    assert values[..i] == values;
  }

  lemma {:induction false} SearchStep(values: seq<BlogEntry>, i: nat, query: string)
    requires i < |values|
    ensures SearchResults(values[..i + 1], query) ==
      SearchResults(values[..i], query) + (if Matches(values[i], Lower(query)) then [values[i]] else [])
  {
    FilterSnoc(values, i, MatchesQuery(Lower(query)));
  }

  /** An empty query finds every entry, in index order. */
  lemma {:induction false} EmptyQueryFindsAll(values: seq<BlogEntry>)
    ensures SearchResults(values, "") == values
  {
    forall i | 0 <= i < |values|
      ensures MatchesQuery(Lower(""))(values[i])
    {
      ContainsEmpty(Lower(values[i].title));
    }
    FilterAllKept(values, MatchesQuery(Lower("")));
  }

  /** The search ignores case in the query. */
  lemma {:induction false} SearchIgnoresQueryCase(values: seq<BlogEntry>, q1: string, q2: string)
    requires Lower(q1) == Lower(q2)
    ensures SearchResults(values, q1) == SearchResults(values, q2)
  {
  }

  // ------------------------------------------------------------ updates

  /** One `setattr(entry, key, value)` from an update dict; keys that are not attributes are skipped. */
  datatype Update =
    | SetFilepath(filepath: FilePath)
    | SetRepository(repository: string)
    | SetCommitCount(commitCount: int)
    | SetProvider(provider: string)
    | SetModel(model: string)
    | SetGeneratedAt(generatedAt: Time)
    | SetTitle(title: string)
    | SetTags(tags: seq<string>)
    | NotAnAttribute(key: string)

  /** One update: the attribute it names takes the new value, the others keep theirs. */
  function Apply(e: BlogEntry, u: Update): (r: BlogEntry)
    ensures u.SetFilepath? ==> r.filepath == u.filepath
    ensures u.SetTitle? ==> r.title == u.title
    ensures !u.SetFilepath? ==> r.filepath == e.filepath
    ensures !u.SetRepository? ==> r.repository == e.repository
    ensures !u.SetCommitCount? ==> r.commitCount == e.commitCount
    ensures !u.SetProvider? ==> r.provider == e.provider
    ensures !u.SetModel? ==> r.model == e.model
    ensures !u.SetGeneratedAt? ==> r.generatedAt == e.generatedAt
    ensures !u.SetTitle? ==> r.title == e.title
    ensures !u.SetTags? ==> r.tags == e.tags
  {
    match u
    case SetFilepath(v) => e.(filepath := v)
    case SetRepository(v) => e.(repository := v)
    case SetCommitCount(v) => e.(commitCount := v)
    case SetProvider(v) => e.(provider := v)
    case SetModel(v) => e.(model := v)
    case SetGeneratedAt(v) => e.(generatedAt := v)
    case SetTitle(v) => e.(title := v)
    case SetTags(v) => e.(tags := v)
    case NotAnAttribute(_) => e
  }

  /** The updates applied in order; an attribute no update names keeps its value. */
  function ApplyAll(e: BlogEntry, us: seq<Update>): (r: BlogEntry)
    ensures (forall u :: u in us ==> !u.SetFilepath?) ==> r.filepath == e.filepath
    ensures (forall u :: u in us ==> !u.SetRepository?) ==> r.repository == e.repository
    ensures (forall u :: u in us ==> !u.SetCommitCount?) ==> r.commitCount == e.commitCount
    ensures (forall u :: u in us ==> !u.SetProvider?) ==> r.provider == e.provider
    ensures (forall u :: u in us ==> !u.SetModel?) ==> r.model == e.model
    ensures (forall u :: u in us ==> !u.SetGeneratedAt?) ==> r.generatedAt == e.generatedAt
    ensures (forall u :: u in us ==> !u.SetTitle?) ==> r.title == e.title
    ensures (forall u :: u in us ==> !u.SetTags?) ==> r.tags == e.tags
  {
    if us == [] then e
    else
      var init := us[..|us| - 1];
      assert forall u :: u in init ==> u in us;
      Apply(ApplyAll(e, init), us[|us| - 1])
  }

  /** The last update naming an attribute decides its value. */
  lemma {:induction false} LastTitleWins(e: BlogEntry, us: seq<Update>, title: string, later: seq<Update>)
    requires forall u :: u in later ==> !u.SetTitle?
    ensures ApplyAll(e, us + [SetTitle(title)] + later).title == title
  {
    var before := us + [SetTitle(title)];
    ApplyAllAppend(e, before, later);
    assert before[..|before| - 1] == us;
  }

  lemma {:induction false} ApplyAllAppend(e: BlogEntry, a: seq<Update>, b: seq<Update>)
    ensures ApplyAll(e, a + b) == ApplyAll(ApplyAll(e, a), b)
  {
    if b != [] {
      var n := |b| - 1;
      assert (a + b)[..|a + b| - 1] == a + b[..n];
      ApplyAllAppend(e, a, b[..n]);
    } else {
      assert a + b == a;
    }
  }

  // ------------------------------------------------------------- stats

  datatype Stats =
    | Stats(totalEntries: nat, totalSize: nat, repositories: map<string, nat>,
            providers: map<string, nat>, storagePath: string)
    | StatsError(error: string)

  /** How often each key occurs, `counts[k] = counts.get(k, 0) + 1` over the keys. */
  function Tally(keys: seq<string>): map<string, nat>
  {
    if keys == [] then map[]
    else TallyOne(Tally(keys[..|keys| - 1]), keys[|keys| - 1])
  }

  /** `counts[k] = counts.get(k, 0) + 1`. */
  function TallyOne(counts: map<string, nat>, k: string): map<string, nat>
  {
    counts[k := (if k in counts then counts[k] else 0) + 1]
  }

  /** Each tallied count is the number of occurrences of its key. */
  lemma {:induction false} TallyCounts(keys: seq<string>, k: string)
    ensures k in Tally(keys) <==> k in keys
    ensures k in Tally(keys) ==> Tally(keys)[k] == multiset(keys)[k]
  {
    if keys != [] {
      var init := keys[..|keys| - 1];
      TallyCounts(init, k);
      assert keys == init + [keys[|keys| - 1]];
      assert multiset(keys) == multiset(init) + multiset{keys[|keys| - 1]};
    }
  }

  function Repositories(values: seq<BlogEntry>): (r: seq<string>)
  {
    if values == [] then [] else Repositories(values[..|values| - 1]) + [values[|values| - 1].repository]
  }

  function Providers(values: seq<BlogEntry>): (r: seq<string>)
  {
    if values == [] then [] else Providers(values[..|values| - 1]) + [values[|values| - 1].provider]
  }

  /** The summed size of the entries' files that exist, counted in characters. */
  function TotalSize(values: seq<BlogEntry>, contents: map<string, string>): nat
  {
    if values == [] then 0
    else
      var fp := values[|values| - 1].filepath;
      TotalSize(values[..|values| - 1], contents) + (if fp.PathObj? && fp.path in contents then |contents[fp.path]| else 0)
  }

  predicate HasTextPath(values: seq<BlogEntry>)
  {
    exists i :: 0 <= i < |values| && values[i].filepath.PlainStr?
  }

  /** The running totals of `get_storage_stats`: bytes, and entries per repository and per provider. */
  datatype Totals = Totals(size: nat, repositories: map<string, nat>, providers: map<string, nat>)

  function Gathered(values: seq<BlogEntry>, contents: map<string, string>): Totals
  {
    Totals(TotalSize(values, contents), Tally(Repositories(values)), Tally(Providers(values)))
  }

  /** `get_storage_stats`: a text path raises on `.exists()`, which ends in an error report. */
  function StatsOf(values: seq<BlogEntry>, contents: map<string, string>, dir: string): Stats
  {
    if HasTextPath(values) then StatsError("'str' object has no attribute 'exists'")
    else
      var totals := Gathered(values, contents);
      Stats(|values|, totals.size, totals.repositories, totals.providers, dir)
  }

  /** Each repository's count in the statistics is its number of entries. */
  lemma {:induction false} StatsCountRepositories(values: seq<BlogEntry>, contents: map<string, string>, dir: string, repo: string)
    requires !HasTextPath(values)
    ensures StatsOf(values, contents, dir).totalEntries == |values|
    ensures repo in StatsOf(values, contents, dir).repositories <==> exists i :: 0 <= i < |values| && values[i].repository == repo
    ensures repo in StatsOf(values, contents, dir).repositories ==>
      StatsOf(values, contents, dir).repositories[repo] == multiset(Repositories(values))[repo]
  {
    var rs := Repositories(values);
    assert StatsOf(values, contents, dir) == Stats(|values|, TotalSize(values, contents), Tally(rs), Tally(Providers(values)), dir);
    TallyCounts(rs, repo);
    RepositoryListed(values, repo);
  }

  lemma {:induction false} RepositoryListed(values: seq<BlogEntry>, repo: string)
    ensures repo in Repositories(values) <==> exists i :: 0 <= i < |values| && values[i].repository == repo
  {
    var rs := Repositories(values);
    RepositoriesAt(values);
    if exists i :: 0 <= i < |values| && values[i].repository == repo {
      var i :| 0 <= i < |values| && values[i].repository == repo;
      assert rs[i] == repo;
    }
    if repo in rs {
      var i :| 0 <= i < |rs| && rs[i] == repo;
      assert values[i].repository == repo;
    }
  }

  lemma {:induction false} RepositoriesAt(values: seq<BlogEntry>)
    ensures |Repositories(values)| == |values|
    ensures forall i :: 0 <= i < |values| ==> Repositories(values)[i] == values[i].repository
  {
    if values != [] {
      var init := values[..|values| - 1];
      RepositoriesAt(init);
      assert forall i :: 0 <= i < |init| ==> init[i] == values[i];
    }
  }

  // -------------------------------------------------------- validation

  datatype MissingFile = MissingFile(entryId: string, filepath: string)

  /** `validate_storage`'s report; `error` is set when a check raised. */
  datatype Issues = Issues(missing: seq<MissingFile>, orphaned: seq<string>, total: nat, error: Option<string>)

  /**
   * The first loop of `validate_storage` over `ids`: the entries whose file is
   * absent, and whether an entry with a text path made the loop raise.
   */
  function MissingScan(ids: seq<string>, entries: map<string, BlogEntry>, contents: map<string, string>)
    : (r: (seq<MissingFile>, bool))
    requires Listed(ids, entries)
  {
    if ids == [] then ([], false)
    else
      var prev := MissingScan(ids[..|ids| - 1], entries, contents);
      var id := ids[|ids| - 1];
      var fp := entries[id].filepath;
      if prev.1 || fp.PlainStr? then (prev.0, true)
      else if fp.path in contents then prev
      else (prev.0 + [MissingFile(id, fp.path)], false)
  }

  /** An entry's file is missing exactly when it is reported, if the scan completes. */
  lemma {:induction false} MissingMeans(ids: seq<string>, entries: map<string, BlogEntry>, contents: map<string, string>, m: MissingFile)
    requires Listed(ids, entries) && !MissingScan(ids, entries, contents).1
    ensures m in MissingScan(ids, entries, contents).0 <==>
      (exists i :: 0 <= i < |ids| && ids[i] == m.entryId) && entries[m.entryId].filepath == PathObj(m.filepath)
      && m.filepath !in contents
  {
    if ids != [] {
      var init := ids[..|ids| - 1];
      MissingMeans(init, entries, contents, m);
      if exists i :: 0 <= i < |init| && init[i] == m.entryId {
        var i :| 0 <= i < |init| && init[i] == m.entryId;
        assert ids[i] == m.entryId;
      }
      if exists i :: 0 <= i < |ids| && ids[i] == m.entryId {
        var i :| 0 <= i < |ids| && ids[i] == m.entryId;
        if i < |ids| - 1 {
          assert init[i] == m.entryId;
        }
      }
    }
  }

  /** Once an entry with a text path has been met, the scan stays failed. */
  lemma {:induction false} MissingScanStaysFailed(ids: seq<string>, entries: map<string, BlogEntry>, contents: map<string, string>, n: nat)
    requires Listed(ids, entries) && n <= |ids| && MissingScan(ids[..n], entries, contents).1
    ensures MissingScan(ids, entries, contents) == MissingScan(ids[..n], entries, contents)
  {
    if n < |ids| {
      var init := ids[..|ids| - 1];
      assert init[..n] == ids[..n];
      MissingScanStaysFailed(init, entries, contents, n);
    } else {
      assert ids[..n] == ids;
    }
  }

  /** Whether some entry's file is the path. */
  predicate Indexed(values: seq<BlogEntry>, path: string)
  {
    exists i :: 0 <= i < |values| && values[i].filepath == PathObj(path)
  }

  function Unindexed(values: seq<BlogEntry>): string -> bool
  {
    (p: string) => !Indexed(values, p)
  }

  /** The markdown files that are no entry's file. */
  function Orphans(markdown: seq<string>, values: seq<BlogEntry>): (r: seq<string>)
    ensures forall p :: p in r <==> p in markdown && !Indexed(values, p)
    ensures IsSubsequence(r, markdown)
  {
    Filter(markdown, Unindexed(values))
  }

  /** `validate_storage` over the index and the markdown files of its directory. */
  function Validation(ids: seq<string>, entries: map<string, BlogEntry>, contents: map<string, string>, markdown: seq<string>)
    : (r: Issues)
    requires Listed(ids, entries)
    ensures r.error.None? ==> r.total == |r.missing| + |r.orphaned|
    ensures r.error.Some? ==> r.orphaned == [] && r.total == 0
  {
    var scan := MissingScan(ids, entries, contents);
    if scan.1 then Issues(scan.0, [], 0, Some("'str' object has no attribute 'exists'"))
    else
      var orphaned := Orphans(markdown, InOrder(ids, entries));
      Issues(scan.0, orphaned, |scan.0| + |orphaned|, None)
  }

  // ------------------------------------------------------------ cleanup

  /** The ids, in index order, of entries generated before the cutoff. */
  function OlderThan(ids: seq<string>, entries: map<string, BlogEntry>, cutoff: int): (r: seq<string>)
    requires Listed(ids, entries)
    ensures forall id :: id in r <==> id in ids && entries[id].generatedAt < cutoff
    ensures IsSubsequence(r, ids)
  {
    Filter(ids, (id: string) => id in entries && entries[id].generatedAt < cutoff)
  }

  /** The instant `days` days before `now`, as a possibly negative count of microseconds. */
  function Cutoff(now: Time, days: int): int
  {
    now - days * SecondsPerDay * MicrosPerSecond
  }

  datatype Repair = Repair(repairedMissing: nat, removedOrphans: nat, errors: seq<string>)

  /** An entry the corrected cleanup removes: generated before the cutoff, with a `Path` to delete. */
  predicate Expired(e: BlogEntry, cutoff: int)
  {
    e.generatedAt < cutoff && e.filepath.PathObj?
  }

  /** The entries left once each listed stale entry that `delete_entry` accepts is gone. */
  function Surviving(entries: map<string, BlogEntry>, stale: seq<string>): map<string, BlogEntry>
  {
    map id | id in entries && !(id in stale && entries[id].filepath.PathObj?) :: entries[id]
  }

  lemma {:induction false} SurvivingStep(entries: map<string, BlogEntry>, done: seq<string>, id: string)
    ensures var left := Surviving(entries, done);
      Surviving(entries, done + [id])
        == if id in left && left[id].filepath.PathObj? then left - {id} else left
  {
  }

  /**
   * The corrected cleanup keeps exactly the entries that are not expired, each
   * unchanged.
   */
  lemma {:induction false} CleanupKeepsUnexpired(ids: seq<string>, entries: map<string, BlogEntry>, cutoff: int)
    requires Listed(ids, entries) && forall id :: id in entries ==> id in ids
    ensures var left := Surviving(entries, OlderThan(ids, entries, cutoff));
      && (forall id :: id in left <==> id in entries && !Expired(entries[id], cutoff))
      && (forall id :: id in left ==> left[id] == entries[id])
  {
  }

  /** The files `delete_entry` unlinks for the listed ids: the path of each listed entry that has a `Path`. */
  function FilesOf(entries: map<string, BlogEntry>, stale: seq<string>): set<string>
  {
    set id | id in entries && id in stale && entries[id].filepath.PathObj? :: entries[id].filepath.path
  }

  /** The files of the expired entries. */
  function ExpiredFiles(entries: map<string, BlogEntry>, cutoff: int): set<string>
  {
    set id | id in entries && Expired(entries[id], cutoff) :: entries[id].filepath.path
  }

  /** The file `delete_entry(id)` unlinks: that of the entry, when it is indexed with a `Path`. */
  function DeletedFile(entries: map<string, BlogEntry>, id: string): set<string>
  {
    if id in entries && entries[id].filepath.PathObj? then {entries[id].filepath.path} else {}
  }

  /** Deleting one more id unlinks the file of its entry, when it is still indexed with a `Path`. */
  lemma {:induction false} FilesStep(entries: map<string, BlogEntry>, done: seq<string>, id: string)
    ensures FilesOf(entries, done + [id]) == FilesOf(entries, done) + DeletedFile(Surviving(entries, done), id)
  {
    var left := Surviving(entries, done);
    forall x | x in entries && x in done + [id]
      ensures x in done || x == id
    {
    }
    if id in entries && entries[id].filepath.PathObj? && id !in left {
      assert id in done;
    }
  }

  /** One more id of the cleanup deleted: the index and the disk are those of the longer list. */
  lemma {:induction false} DeleteEachStep(before: map<string, BlogEntry>, contents: map<string, string>, done: seq<string>,
                                          id: string, left: map<string, BlogEntry>, files: map<string, string>, ok: bool,
                                          entries: map<string, BlogEntry>, after: map<string, string>)
    requires left == Surviving(before, done) && files == contents - FilesOf(before, done)
    requires ok == (id in left && left[id].filepath.PathObj?)
    requires ok ==> entries == left - {id}
    requires !ok ==> entries == left
    requires after == files - DeletedFile(left, id)
    ensures entries == Surviving(before, done + [id])
    ensures after == contents - FilesOf(before, done + [id])
  {
    SurvivingStep(before, done, id);
    FilesStep(before, done, id);
  }

  /** The stale ids of the corrected cleanup name exactly the files of the expired entries. */
  lemma {:induction false} StaleFilesExpire(ids: seq<string>, entries: map<string, BlogEntry>, cutoff: int)
    requires Listed(ids, entries) && forall id :: id in entries ==> id in ids
    ensures FilesOf(entries, OlderThan(ids, entries, cutoff)) == ExpiredFiles(entries, cutoff)
  {
  }

  /** The text of the FileNotFoundError `Path.unlink()` raises on a missing file. */
  function NotFoundText(path: string): string
  {
    "[Errno 2] No such file or directory: '" + path + "'"
  }

  /** The line `repair_storage` reports for a file it cannot remove. */
  function RemoveError(path: string): string
  {
    "Failed to remove " + path + ": " + NotFoundText(path)
  }

  /**
   * The error lines of removing `files` in order from a disk holding `present`: one for each
   * file that no longer exists when its turn comes.
   */
  function RemoveErrors(present: map<string, string>, files: seq<string>): (r: seq<string>)
    ensures |r| <= |files|
  {
    if files == [] then []
    else (if files[0] in present then [] else [RemoveError(files[0])]) + RemoveErrors(present - {files[0]}, files[1..])
  }

  lemma {:induction false} RemoveErrorsStep(present: map<string, string>, files: seq<string>, k: nat)
    requires k < |files|
    ensures RemoveErrors(present, files[k..]) ==
      (if files[k] in present then [] else [RemoveError(files[k])]) + RemoveErrors(present - {files[k]}, files[k + 1..])
  {
    assert files[k..][1..] == files[k + 1..];
  }

  /** Files listed once each that all exist are all removed: no error is reported. */
  lemma {:induction false} RemoveErrorsOfPresent(present: map<string, string>, files: seq<string>)
    requires Distinct(files) && forall p :: p in files ==> p in present
    ensures RemoveErrors(present, files) == []
  {
    if files != [] {
      var rest := files[1..];
      forall p | p in rest
        ensures p in present - {files[0]}
      {
        var j :| 0 <= j < |rest| && rest[j] == p;
        assert files[j + 1] == p;
      }
      assert Distinct(rest) by {
        forall i, j | 0 <= i < j < |rest| ensures rest[i] != rest[j] {
          assert files[i + 1] != files[j + 1];
        }
      }
      RemoveErrorsOfPresent(present - {files[0]}, rest);
    }
  }

  /** A file listed again after its removal is reported on its second turn. */
  lemma {:induction false} RemoveErrorsOfRepeat(present: map<string, string>, path: string)
    requires path in present
    ensures RemoveErrors(present, [path, path]) == [RemoveError(path)]
  {
    assert [path, path][1..] == [path];
    assert RemoveErrors(present - {path}, [path]) == [RemoveError(path)] + RemoveErrors(present - {path} - {path}, []);
  }

  /** Removes each listed file that still exists, in order; a missing one is an error. */
  method RemoveFiles(disk: Disk, files: seq<string>) returns (removed: nat, errors: seq<string>)
    requires disk.Valid()
    modifies disk
    ensures disk.Valid()
    ensures removed + |errors| == |files|
    ensures errors == RemoveErrors(old(disk.contents), files)
    ensures disk.contents == old(disk.contents) - (set p | p in files)
  {
    removed := 0;
    errors := [];
    var k := 0;
    while k < |files|
      invariant 0 <= k <= |files| && disk.Valid()
      invariant disk.contents == old(disk.contents) - Named(files[..k])
      invariant removed + |errors| == k
      invariant errors + RemoveErrors(disk.contents, files[k..]) == RemoveErrors(old(disk.contents), files)
    {
      ghost var present := disk.contents;
      RemoveFilesStep(old(disk.contents), files, k, present, errors, RemoveErrors(old(disk.contents), files));
      if disk.Exists(files[k]) {
        disk.Unlink(files[k]);
        removed := removed + 1;
      } else {
        errors := errors + [RemoveError(files[k])];
      }
      k := k + 1;
    }
    assert files[..k] == files;
  }

  /** The paths a list names. */
  function Named(files: seq<string>): set<string>
  {
    set p | p in files
  }

  /** One more file removed: the disk loses it, and its error line, if any, moves from the rest to the report. */
  lemma {:induction false} RemoveFilesStep(before: map<string, string>, files: seq<string>, k: nat,
                                           present: map<string, string>, errors: seq<string>, total: seq<string>)
    requires k < |files| && present == before - Named(files[..k])
    requires errors + RemoveErrors(present, files[k..]) == total
    ensures present - {files[k]} == before - Named(files[..k + 1])
    ensures files[k] in present ==> errors + RemoveErrors(present - {files[k]}, files[k + 1..]) == total
    ensures files[k] !in present ==>
      present - {files[k]} == present && (errors + [RemoveError(files[k])]) + RemoveErrors(present, files[k + 1..]) == total
  {
    RemovedStep(before, files, k);
    RemoveErrorsStep(present, files, k);
    var rest := RemoveErrors(present - {files[k]}, files[k + 1..]);
    if files[k] in present {
      assert [] + rest == rest;
    } else {
      assert present - {files[k]} == present;
      assert errors + ([RemoveError(files[k])] + rest) == (errors + [RemoveError(files[k])]) + rest;
    }
  }

  /** Removing one more of the files removes one more key. */
  lemma {:induction false} RemovedStep(m: map<string, string>, files: seq<string>, k: nat)
    requires k < |files|
    ensures m - Named(files[..k + 1]) == (m - Named(files[..k])) - {files[k]}
  {
    assert files[..k + 1] == files[..k] + [files[k]];
    assert Named(files[..k + 1]) == Named(files[..k]) + {files[k]};
  }

  /** After the orphans are removed, validation finds no orphan among the files left. */
  lemma {:induction false} RepairLeavesNoOrphans(before: seq<string>, after: seq<string>, dir: string, values: seq<BlogEntry>)
    requires forall p :: p in after ==> p in before && p !in Orphans(MarkdownAmong(before, dir), values)
    ensures Orphans(MarkdownAmong(after, dir), values) == []
  {
    var left := Orphans(MarkdownAmong(after, dir), values);
    forall p | p in MarkdownAmong(after, dir)
      ensures Indexed(values, p)
    {
      assert p in MarkdownAmong(before, dir);
    }
    assert forall p :: p !in left;
  }

  class BlogStorage {
    /** `entries_dir`. */
    const dir: string
    /** The keys of `self.entries`, in the order they were added. */
    var ids: seq<string>
    var entries: map<string, BlogEntry>

    ghost predicate Valid()
      reads this
    {
      Distinct(ids) && forall id :: id in entries <==> id in ids
    }

    /** `BlogStorageManager(settings)`: the directory and the entries read from its index file. */
    constructor (dir: string, index: seq<(string, Json)>)
      ensures Valid() && this.dir == dir && (ids, entries) == Loaded(index)
    {
      this.dir := dir;
      var loadedIds, loaded := LoadIndex(index);
      ids := loadedIds;
      entries := loaded;
    }

    /** `get_all_entries`. */
    function Values(): (r: seq<BlogEntry>)
      reads this
      requires Valid()
      ensures |r| == |ids| && forall i :: 0 <= i < |ids| ==> r[i] == entries[ids[i]]
    {
      InOrder(ids, entries)
    }

    /** `add_entry`: returns the entry's id. */
    method AddEntry(e: BlogEntry) returns (id: string)
      requires Valid()
      modifies this
      ensures Valid() && id == EntryId(e.generatedAt, e.repository)
      ensures (ids, entries) == Added(old(ids), old(entries), e)
    {
      id := EntryId(e.generatedAt, e.repository);
      var stored := if id in entries then Refreshed(entries[id], e) else e;
      var next := Put(ids, entries, id, stored);
      ids, entries := next.0, next.1;
    }

    /** `get_entry`: the entry stored under the id, if any. */
    function GetEntry(id: string): (r: Option<BlogEntry>)
      reads this
      ensures r.Some? <==> id in entries
      ensures r.Some? ==> r.value == entries[id]
    {
      if id in entries then Some(entries[id]) else None
    }

    /** `get_entries_by_repository`. */
    function EntriesByRepository(repository: string): (r: seq<BlogEntry>)
      reads this
      requires Valid()
      ensures forall e :: e in r <==> e in Values() && e.repository == repository
      ensures IsSubsequence(r, Values())
    {
      Filter(Values(), (e: BlogEntry) => e.repository == repository)
    }

    /** `get_entries_by_provider`. */
    function EntriesByProvider(provider: string): (r: seq<BlogEntry>)
      reads this
      requires Valid()
      ensures forall e :: e in r <==> e in Values() && e.provider == provider
      ensures IsSubsequence(r, Values())
    {
      Filter(Values(), (e: BlogEntry) => e.provider == provider)
    }

    /** `get_entries_by_date_range`, both ends included. */
    function EntriesByDateRange(start: Time, end: Time): (r: seq<BlogEntry>)
      reads this
      requires Valid()
      ensures forall e :: e in r <==> e in Values() && start <= e.generatedAt <= end
      ensures IsSubsequence(r, Values())
    {
      Filter(Values(), (e: BlogEntry) => start <= e.generatedAt <= end)
    }

    /** `search_entries`: the entries whose title, repository or a tag contains the query, ignoring case. */
    method SearchEntries(query: string) returns (results: seq<BlogEntry>)
      requires Valid()
      ensures results == SearchResults(Values(), query)
    {
      results := Search(Values(), query);
    }

    /** `update_entry`: false for an unknown id; otherwise applies the updates and answers true. */
    method UpdateEntry(id: string, updates: seq<Update>) returns (ok: bool)
      requires Valid()
      modifies this
      ensures Valid() && ids == old(ids)
      ensures ok == (id in old(entries))
      ensures entries == if ok then old(entries)[id := ApplyAll(old(entries)[id], updates)] else old(entries)
    {
      if id !in entries {
        return false;
      }
      var entry := entries[id];
      var i := 0;
      while i < |updates|
        invariant 0 <= i <= |updates|
        invariant entry == ApplyAll(entries[id], updates[..i])
      {
        assert updates[..i + 1][..i] == updates[..i];
        entry := Apply(entry, updates[i]);
        i := i + 1;
      }
      assert updates[..i] == updates;
      entries := entries[id := entry];
      ok := true;
    }

    /**
     * `delete_entry`: false for an unknown id, and false with nothing changed
     * when the entry's path is a text; otherwise the file, if present, and the
     * entry are removed.
     */
    method DeleteEntry(id: string, disk: Disk) returns (ok: bool)
      requires Valid() && disk.Valid()
      modifies this, disk
      ensures Valid() && disk.Valid()
      ensures ok == (id in old(entries) && old(entries)[id].filepath.PathObj?)
      ensures ok ==> entries == old(entries) - {id} && ids == Without(old(ids), id) && |ids| == |old(ids)| - 1
      ensures ok ==> disk.contents == old(disk.contents) - {old(entries)[id].filepath.path}
      ensures !ok ==> entries == old(entries) && ids == old(ids)
      ensures !ok ==> disk.contents == old(disk.contents) && disk.paths == old(disk.paths)
      ensures disk.contents == old(disk.contents) - DeletedFile(old(entries), id)
    {
      if id !in entries {
        return false;
      }
      var fp := entries[id].filepath;
      if fp.PlainStr? {
        return false;
      }
      if disk.Exists(fp.path) {
        disk.Unlink(fp.path);
      }
      WithoutKeepsDistinct(ids, id);
      WithoutMember(ids, id);
      ids := Without(ids, id);
      entries := entries - {id};
      ok := true;
    }

    /** `get_storage_stats`. */
    method GetStorageStats(disk: Disk) returns (stats: Stats)
      requires Valid()
      ensures stats == StatsOf(Values(), disk.contents, dir)
    {
      stats := CollectStats(Values(), disk.contents, dir);
    }

    /** `validate_storage`: missing files first, then markdown files that no entry points at. */
    method ValidateStorage(disk: Disk) returns (issues: Issues)
      requires Valid()
      ensures issues == Validation(ids, entries, disk.contents, disk.MarkdownFiles(dir))
    {
      var missing, failed := ScanMissing(ids, entries, disk.contents);
      if failed {
        return Issues(missing, [], 0, Some("'str' object has no attribute 'exists'"));
      }
      var orphaned := FindOrphans(disk.MarkdownFiles(dir), Values());
      issues := Issues(missing, orphaned, |missing| + |orphaned|, None);
    }

    /**
     * `repair_storage`: removes each orphaned file reported by `validate_storage`
     * and re-indexes nothing; a file already gone is reported as an error.
     */
    method RepairStorage(disk: Disk) returns (report: Repair)
      requires Valid() && disk.Valid()
      modifies disk
      ensures disk.Valid()
      ensures var orphaned := Validation(ids, entries, old(disk.contents), old(disk.MarkdownFiles(dir))).orphaned;
        && report.repairedMissing == 0
        && report.removedOrphans + |report.errors| == |orphaned|
        && report.errors == RemoveErrors(old(disk.contents), orphaned)
        && disk.contents == old(disk.contents) - (set p | p in orphaned)
    {
      var validation := ValidateStorage(disk);
      var removed, errors := RemoveFiles(disk, validation.orphaned);
      report := Repair(0, removed, errors);
    }

    /**
     * `cleanup_old_entries` as written: building the cutoff calls
     * `datetime.timedelta`, which does not exist, and the handler returns 0,
     * so nothing is ever deleted.
     */
    method CleanupOldEntriesAsWritten(daysOld: int) returns (deleted: nat)
      ensures deleted == 0
    {
      deleted := 0;
    }

    /**
     * `cleanup_old_entries` with the cutoff `now - timedelta(days=days_old)`:
     * deletes, through `delete_entry`, each entry generated before the cutoff,
     * except those `delete_entry` refuses, and counts the deletions.
     */
    method CleanupOldEntries(daysOld: int, now: Time, disk: Disk) returns (deleted: nat)
      requires Valid() && disk.Valid()
      modifies this, disk
      ensures Valid() && disk.Valid()
      ensures entries == Surviving(old(entries), OlderThan(old(ids), old(entries), Cutoff(now, daysOld)))
      ensures disk.contents == old(disk.contents) - ExpiredFiles(old(entries), Cutoff(now, daysOld))
      ensures deleted + |ids| == |old(ids)|
    {
      var stale := OlderThan(ids, entries, Cutoff(now, daysOld));
      StaleFilesExpire(ids, entries, Cutoff(now, daysOld));
      deleted := DeleteEach(stale, disk);
    }

    /** The loop of `cleanup_old_entries`: `delete_entry` on each listed id, counting successes. */
    method DeleteEach(stale: seq<string>, disk: Disk) returns (deleted: nat)
      requires Valid() && disk.Valid()
      modifies this, disk
      ensures Valid() && disk.Valid()
      ensures entries == Surviving(old(entries), stale)
      ensures disk.contents == old(disk.contents) - FilesOf(old(entries), stale)
      ensures deleted + |ids| == |old(ids)|
    {
      ghost var before, contents := entries, disk.contents;
      ghost var done := [];
      deleted := 0;
      for k := 0 to |stale|
        invariant Valid() && disk.Valid()
        invariant done == stale[..k]
        invariant entries == Surviving(before, done)
        invariant disk.contents == contents - FilesOf(before, done)
        invariant deleted + |ids| == |old(ids)|
      {
        ghost var left, files := entries, disk.contents;
        var ok := DeleteEntry(stale[k], disk);
        DeleteEachStep(before, contents, done, stale[k], left, files, ok, entries, disk.contents);
        if ok {
          deleted := deleted + 1;
        }
        done := done + [stale[k]];
      }
      assert done == stale;
    }
  }

  /** `get_storage_stats`' loop, counting each repository and provider over the entries in order. */
  method CollectStats(values: seq<BlogEntry>, contents: map<string, string>, dir: string) returns (stats: Stats)
    ensures stats == StatsOf(values, contents, dir)
  {
    var size: nat := 0;
    var repositories: map<string, nat> := map[];
    var providers: map<string, nat> := map[];
    var i := 0;
    while i < |values|
      invariant 0 <= i <= |values|
      invariant !HasTextPath(values[..i])
      invariant Totals(size, repositories, providers) == Gathered(values[..i], contents)
    {
      var e := values[i];
      if e.filepath.PlainStr? {
        TextPathStaysFailed(values, i);
        return StatsError("'str' object has no attribute 'exists'");
      }
      GatherStep(values, i, contents);
      if e.filepath.path in contents {
        size := size + |contents[e.filepath.path]|;
      }
      repositories := TallyOne(repositories, e.repository);
      providers := TallyOne(providers, e.provider);
      i := i + 1;
    }
    assert values[..i] == values;
    stats := Stats(|values|, size, repositories, providers, dir);
  }

  /** The totals after one more entry with a `Path`. */
  lemma {:induction false} GatherStep(values: seq<BlogEntry>, i: nat, contents: map<string, string>)
    requires i < |values| && !HasTextPath(values[..i]) && values[i].filepath.PathObj?
    ensures !HasTextPath(values[..i + 1])
    ensures var p := values[i].filepath.path;
      var before := Gathered(values[..i], contents);
      Gathered(values[..i + 1], contents) == Totals(before.size + (if p in contents then |contents[p]| else 0),
        TallyOne(before.repositories, values[i].repository), TallyOne(before.providers, values[i].provider))
  {
    var pre := values[..i + 1];
    assert pre[..i] == values[..i] && pre[i] == values[i];
    var rs := Repositories(values[..i]);
    assert Repositories(pre) == rs + [values[i].repository];
    assert (rs + [values[i].repository])[..|rs|] == rs;
    var ps := Providers(values[..i]);
    assert Providers(pre) == ps + [values[i].provider];
    assert (ps + [values[i].provider])[..|ps|] == ps;
  }

  /** `get_storage_stats`' first step on one entry: a text path raises. */
  lemma {:induction false} TextPathStaysFailed(values: seq<BlogEntry>, i: nat)
    requires i < |values| && values[i].filepath.PlainStr?
    ensures HasTextPath(values)
  {
  }

  /** The first loop of `validate_storage`; it stops at an entry whose path is a text. */
  method ScanMissing(ids: seq<string>, entries: map<string, BlogEntry>, contents: map<string, string>)
    returns (missing: seq<MissingFile>, failed: bool)
    requires Listed(ids, entries)
    ensures (missing, failed) == MissingScan(ids, entries, contents)
  {
    missing, failed := [], false;
    var i := 0;
    while i < |ids|
      invariant 0 <= i <= |ids|
      invariant MissingScan(ids[..i], entries, contents) == (missing, false)
    {
      assert ids[..i + 1][..i] == ids[..i];
      var fp := entries[ids[i]].filepath;
      if fp.PlainStr? {
        MissingScanStaysFailed(ids, entries, contents, i + 1);
        return missing, true;
      }
      if fp.path !in contents {
        missing := missing + [MissingFile(ids[i], fp.path)];
      }
      i := i + 1;
    }
    assert ids[..i] == ids;
  }

  /** The second loop of `validate_storage`: each markdown file no entry points at. */
  method FindOrphans(markdown: seq<string>, values: seq<BlogEntry>) returns (orphaned: seq<string>)
    ensures orphaned == Orphans(markdown, values)
  {
    orphaned := [];
    var j := 0;
    while j < |markdown|
      invariant 0 <= j <= |markdown|
      invariant orphaned == Filter(markdown[..j], Unindexed(values))
    {
      FilterSnoc(markdown, j, Unindexed(values));
      var found := IsIndexed(values, markdown[j]);
      if !found {
        orphaned := orphaned + [markdown[j]];
      }
      j := j + 1;
    }
    assert markdown[..j] == markdown;
  }

  /** The inner search of `validate_storage`, stopping at the first entry whose file is the path. */
  method IsIndexed(values: seq<BlogEntry>, path: string) returns (found: bool)
    ensures found == Indexed(values, path)
  {
    found := false;
    var k := 0;
    while k < |values|
      invariant 0 <= k <= |values|
      invariant !exists x :: 0 <= x < k && values[x].filepath == PathObj(path)
    {
      if values[k].filepath == PathObj(path) {
        found := true;
        break;
      }
      k := k + 1;
    }
  }

}
