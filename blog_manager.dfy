// The blog manager (`BlogManager` in blog/manager.py): it runs a generation
// and indexes the file it saved, regenerates an indexed entry with another
// provider, lists and ranks what the index holds, reports the generation
// history and runs one generation per repository.
module BlogManagement {
  import opened Wrappers
  import opened Text
  import opened Clock
  import opened JsonData
  import opened Lists
  import opened Sorting
  import opened Files
  import opened Commits
  import opened BlogEntries
  import opened Storage
  import opened AiProviders
  import opened AiManager
  import opened Database
  import opened EntryFormat
  import G = Generation
  import Settings

  // ------------------------------------------------------------ file names

  /** `s.rfind(c)`: the last position holding `c`. */
  function RFind(s: string, c: char): (r: Option<nat>)
    ensures r.Some? ==> r.value < |s| && s[r.value] == c && c !in s[r.value + 1..]
    ensures r.None? ==> c !in s
    decreases |s|
  {
    if s == [] then None
    else if s[|s| - 1] == c then Some(|s| - 1)
    else
      var init := s[..|s| - 1];
      assert s == init + [s[|s| - 1]];
      var r := RFind(init, c);
      if r.Some? then
        assert s[r.value + 1..] == init[r.value + 1..] + [s[|s| - 1]];
        r
      else r
  }

  /** `Path(path).name`: what follows the last `/`. */
  function BaseName(path: string): (r: string)
    ensures '/' !in r
  {
    match RFind(path, '/')
    case None => path
    case Some(i) => path[i + 1..]
  }

  /** `Path(path).stem`: the name without its suffix; a dot that starts or ends the name begins no suffix. */
  function Stem(path: string): (r: string)
    ensures '/' !in r
  {
    var name := BaseName(path);
    match RFind(name, '.')
    case None => name
    case Some(i) => if 0 < i < |name| - 1 then name[..i] else name
  }

  /** The last `c` is the one before a tail free of `c`. */
  lemma {:induction false} RFindLast(a: string, c: char, b: string)
    requires c !in b
    ensures RFind(a + [c] + b, c) == Some(|a|)
    decreases |b|
  {
    var s := a + [c] + b;
    if b != [] {
      var init := b[..|b| - 1];
      assert s[..|s| - 1] == a + [c] + init;
      assert s[|s| - 1] == b[|b| - 1];
      assert b == init + [b[|b| - 1]];
      RFindLast(a, c, init);
    }
  }

  /**
   * Regenerating an entry saved as `dir/s.md` saves under the stem `s`,
   * which `save_blog_entry` turns back into `s.md`: the new content
   * overwrites the old file whenever `s` is not empty, has no `/` and does
   * not itself end in `.md`.
   */
  lemma {:induction false} RegenerationOverwrites(dir: string, s: string, repository: string, now: Time)
    requires s != [] && '/' !in s && !EndsWith(s, ".md")
    ensures var path := G.EntryPath(dir, s + ".md");
      G.EntryPath(dir, G.EntryFileName(repository, Some(Stem(path)), now)) == path
  {
    var name := s + ".md";
    assert G.EntryPath(dir, name) == dir + ['/'] + name;
    RFindLast(dir, '/', name);
    assert BaseName(G.EntryPath(dir, name)) == name;
    assert name == s + ['.'] + "md";
    RFindLast(s, '.', "md");
    assert name[..|s|] == s;
  }

  /** A stamp is digits around one `_`, and ends in a digit. */
  lemma {:induction false} StampChars(t: Time)
    ensures '/' !in Stamp(t) && IsDigit(Stamp(t)[14])
  {
    var c := ClockDigits(t);
    assert Stamp(t) == CompactDateText(t) + "_" + c;
    assert c[5] == Pad(Second(t), 2)[1];
    forall i | 0 <= i < 15 ensures Stamp(t)[i] != '/' {
      if i < 8 {
        assert Stamp(t)[i] == CompactDateText(t)[i];
      } else if i > 8 {
        assert Stamp(t)[i] == c[i - 9];
        assert c == Pad(Hour(t), 2) + Pad(Minute(t), 2) + Pad(Second(t), 2);
      }
    }
  }

  /** A file saved under the default name (repository, `_`, timestamp) is overwritten by a regeneration. */
  lemma {:induction false} DefaultNameOverwritten(dir: string, repository: string, saved: Time, now: Time)
    ensures var path := G.EntryPath(dir, G.EntryFileName(repository, None, saved));
      G.EntryPath(dir, G.EntryFileName(repository, Some(Stem(path)), now)) == path
  {
    var s := ReplaceChar(repository, '/', '_') + "_" + Stamp(saved);
    StampChars(saved);
    assert s[|s| - 1] == Stamp(saved)[14];
    assert !EndsWith(s, ".md");
    assert '/' !in s by {
      forall i | 0 <= i < |s| ensures s[i] != '/' {
        if i > |repository| {
          assert s[i] == Stamp(saved)[i - |repository| - 1];
        }
      }
    }
    assert G.EntryFileName(repository, None, saved) == s + ".md";
    RegenerationOverwrites(dir, s, repository, now);
  }

  // --------------------------------------------------------------- listing

  /** The sort key of the listings: `generated_at`. */
  function GeneratedAt(e: BlogEntry): int { e.generatedAt }

  /** A truthy optional text: given and not empty. */
  predicate Given(o: Option<string>) { o.Some? && o.value != [] }

  /** A truthy optional number: given and not zero. */
  predicate GivenNumber(o: Option<int>) { o.Some? && o.value != 0 }

  /** Whether an entry passes the repository and provider filters of `get_blog_entries`. */
  predicate Passes(e: BlogEntry, repository: Option<string>, provider: Option<string>)
  {
    (Given(repository) ==> e.repository == repository.value) && (Given(provider) ==> e.provider == provider.value)
  }

  /** The filters of `get_blog_entries`: the repository and the provider when given, compared exactly. */
  function Matching(values: seq<BlogEntry>, repository: Option<string>, provider: Option<string>): (r: seq<BlogEntry>)
    ensures forall i | 0 <= i < |r| :: r[i] in values && Passes(r[i], repository, provider)
    ensures forall i | 0 <= i < |values| && Passes(values[i], repository, provider) :: values[i] in r
  {
    var byRepository :=
      if Given(repository) then
        var name := repository.value;
        Filter(values, (e: BlogEntry) => e.repository == name)
      else values;
    if Given(provider) then
      var name := provider.value;
      Filter(byRepository, (e: BlogEntry) => e.provider == name)
    else byRepository
  }

  /** `get_blog_entries` over the index's entries: filtered, newest first, then `[offset:]` and `[:limit]` when truthy. */
  function Listing(values: seq<BlogEntry>, repository: Option<string>, provider: Option<string>,
                   limit: Option<int>, offset: Option<int>): seq<BlogEntry>
  {
    var sorted := SortDesc(Matching(values, repository, provider), GeneratedAt);
    var skipped := if GivenNumber(offset) then SliceSuffix(sorted, offset.value) else sorted;
    if GivenNumber(limit) then SlicePrefix(skipped, limit.value) else skipped
  }

  /** A listing is one run of consecutive entries of the sorted, filtered entries. */
  lemma {:induction false} ListingWindow(values: seq<BlogEntry>, repository: Option<string>, provider: Option<string>,
                                         limit: Option<int>, offset: Option<int>) returns (start: nat)
    ensures var sorted := SortDesc(Matching(values, repository, provider), GeneratedAt);
      var r := Listing(values, repository, provider, limit, offset);
      && start + |r| <= |sorted| && r == sorted[start..start + |r|]
      && (!GivenNumber(offset) ==> start == 0)
      && (offset.Some? && offset.value > 0 ==> start == if offset.value < |sorted| then offset.value else |sorted|)
  {
    var sorted := SortDesc(Matching(values, repository, provider), GeneratedAt);
    var skipped := if GivenNumber(offset) then SliceSuffix(sorted, offset.value) else sorted;
    start := |sorted| - |skipped|;
    assert skipped == sorted[start..];
  }

  /** Every listed entry is an indexed entry that passes the filters. */
  lemma {:induction false} ListingMembers(values: seq<BlogEntry>, repository: Option<string>, provider: Option<string>,
                                          limit: Option<int>, offset: Option<int>)
    ensures var r := Listing(values, repository, provider, limit, offset);
      forall i | 0 <= i < |r| :: r[i] in values && Passes(r[i], repository, provider)
  {
    var m := Matching(values, repository, provider);
    var sorted := SortDesc(m, GeneratedAt);
    var r := Listing(values, repository, provider, limit, offset);
    var start := ListingWindow(values, repository, provider, limit, offset);
    SortDescMeaning(m, GeneratedAt);
    forall i | 0 <= i < |r| ensures r[i] in values && Passes(r[i], repository, provider) {
      assert r[i] == sorted[start + i];
      assert r[i] in multiset(m);
      var j :| 0 <= j < |m| && m[j] == r[i];
    }
  }

  /** A listing has the newest entries first. */
  lemma {:induction false} ListingNewestFirst(values: seq<BlogEntry>, repository: Option<string>, provider: Option<string>,
                                              limit: Option<int>, offset: Option<int>)
    ensures SortedDesc(Listing(values, repository, provider, limit, offset), GeneratedAt)
  {
    var sorted := SortDesc(Matching(values, repository, provider), GeneratedAt);
    var r := Listing(values, repository, provider, limit, offset);
    var start := ListingWindow(values, repository, provider, limit, offset);
    SortDescMeaning(Matching(values, repository, provider), GeneratedAt);
    SortedDescWindow(sorted, GeneratedAt, start, start + |r|);
  }

  /**
   * Without paging the listing holds every entry that passes the filters,
   * as often as the index does, and entries generated at the same instant
   * keep their index order.
   */
  lemma {:induction false} ListingComplete(values: seq<BlogEntry>, repository: Option<string>, provider: Option<string>,
                                           limit: Option<int>, offset: Option<int>, at: int)
    requires !GivenNumber(limit) && !GivenNumber(offset)
    ensures var r := Listing(values, repository, provider, limit, offset);
      && multiset(r) == multiset(Matching(values, repository, provider))
      && (forall i | 0 <= i < |values| && Passes(values[i], repository, provider) :: values[i] in r)
      && WithKey(r, GeneratedAt, at) == WithKey(Matching(values, repository, provider), GeneratedAt, at)
  {
    var m := Matching(values, repository, provider);
    SortDescMeaning(m, GeneratedAt);
    SortDescStable(m, GeneratedAt, at);
    var r := Listing(values, repository, provider, limit, offset);
    forall i | 0 <= i < |values| && Passes(values[i], repository, provider) ensures values[i] in r {
      assert values[i] in multiset(m);
    }
  }

  /**
   * A positive limit and a non-negative offset give the page of at most
   * `limit` entries that starts `offset` entries into the sorted listing.
   */
  lemma {:induction false} ListingPage(values: seq<BlogEntry>, repository: Option<string>, provider: Option<string>,
                                       limit: int, offset: int)
    requires limit > 0 && offset >= 0
    ensures var sorted := SortDesc(Matching(values, repository, provider), GeneratedAt);
      var r := Listing(values, repository, provider, Some(limit), Some(offset));
      && |r| == (if offset + limit <= |sorted| then limit else if offset < |sorted| then |sorted| - offset else 0)
      && forall i | 0 <= i < |r| :: r[i] == sorted[offset + i]
  {
    var start := ListingWindow(values, repository, provider, Some(limit), Some(offset));
  }

  /** `get_recent_entries`: the listing capped at `limit`, cut to `limit` once more. */
  function RecentEntries(values: seq<BlogEntry>, limit: int): seq<BlogEntry>
  {
    SlicePrefix(Listing(values, None, None, Some(limit), None), limit)
  }

  /** The recent entries are the `limit` newest, all of them when the index holds fewer. */
  lemma {:induction false} RecentAreNewest(values: seq<BlogEntry>, limit: nat)
    ensures var sorted := SortDesc(values, GeneratedAt);
      RecentEntries(values, limit) == sorted[..if limit < |sorted| then limit else |sorted|]
  {
    assert Matching(values, None, None) == values;
  }

  // -------------------------------------------------- popular repositories

  /** The keys of a dict filled in the order of `keys`: each key where it first occurs. */
  function FirstSeen(keys: seq<string>): (r: seq<string>)
    ensures forall k :: k in r <==> k in keys
    ensures forall i, j | 0 <= i < j < |r| :: r[i] != r[j]
  {
    if keys == [] then []
    else
      var init := keys[..|keys| - 1];
      assert keys == init + [keys[|keys| - 1]];
      var seen := FirstSeen(init);
      if keys[|keys| - 1] in seen then seen else seen + [keys[|keys| - 1]]
  }

  /** `counts.items()` for a dict whose keys were added in the order `order`. */
  function Items(order: seq<string>, counts: map<string, nat>): (r: seq<(string, nat)>)
    ensures |r| == |order| && forall i | 0 <= i < |r| :: r[i].0 == order[i]
  {
    seq(|order|, i requires 0 <= i < |order| => (order[i], if order[i] in counts then counts[order[i]] else 0))
  }

  /** The sort key of `get_popular_repositories`: the count. */
  function Count(item: (string, nat)): int { item.1 }

  /**
   * `get_popular_repositories`: the per-repository counts of the storage
   * statistics, largest first, cut to `limit`; statistics that report an
   * error have no counts, which gives an empty list.
   */
  function PopularRepositories(values: seq<BlogEntry>, contents: map<string, string>, dir: string, limit: int)
    : seq<(string, nat)>
  {
    match StatsOf(values, contents, dir)
    case StatsError(_) => []
    case Stats(_, _, repositories, _, _) =>
      SlicePrefix(SortDesc(Items(FirstSeen(Repositories(values)), repositories), Count), limit)
  }

  /** No item of `r` is about repository `q`. */
  predicate Unlisted(r: seq<(string, nat)>, q: string)
  {
    forall j | 0 <= j < |r| :: r[j].0 != q
  }

  /** An element of a sequence without repeats occurs in it once. */
  lemma {:induction false} CountedOnce<T>(s: seq<T>, x: T)
    requires forall i, j | 0 <= i < j < |s| :: s[i] != s[j]
    ensures multiset(s)[x] <= 1
    decreases |s|
  {
    if s != [] {
      assert s == [s[0]] + s[1..];
      CountedOnce(s[1..], x);
      if s[0] == x {
        assert x !in s[1..];
      }
    }
  }

  /** An element at two positions occurs at least twice. */
  lemma {:induction false} CountedTwice<T>(s: seq<T>, i: nat, j: nat)
    requires i < j < |s| && s[i] == s[j]
    ensures multiset(s)[s[i]] >= 2
  {
    assert s == s[..j] + [s[j]] + s[j + 1..];
    assert s[i] in s[..j];
  }

  /** No repository is named twice. */
  predicate NamesDistinct(items: seq<(string, nat)>)
  {
    forall i, j | 0 <= i < j < |items| :: items[i].0 != items[j].0
  }

  /** Each item names a repository of `rs` with its number of occurrences. */
  predicate Counted(items: seq<(string, nat)>, rs: seq<string>)
  {
    forall i | 0 <= i < |items| :: items[i].0 in rs && items[i].1 == multiset(rs)[items[i].0]
  }

  /** Each repository of `rs` is named by an item. */
  predicate Covers(items: seq<(string, nat)>, rs: seq<string>)
  {
    forall q | q in rs :: exists p | 0 <= p < |items| :: items[p].0 == q
  }

  /** The dict items of the tally of `rs`. */
  lemma {:induction false} ItemsOfTally(rs: seq<string>)
    ensures var items := Items(FirstSeen(rs), Tally(rs));
      NamesDistinct(items) && Counted(items, rs) && Covers(items, rs)
  {
    var items := Items(FirstSeen(rs), Tally(rs));
    forall k | 0 <= k < |items| ensures items[k].0 in rs && items[k].1 == multiset(rs)[items[k].0] {
      TallyCounts(rs, items[k].0);
    }
    forall q | q in rs ensures exists p | 0 <= p < |items| :: items[p].0 == q {
      var n :| 0 <= n < |FirstSeen(rs)| && FirstSeen(rs)[n] == q;
      assert items[n].0 == q;
    }
  }

  /** Reordering keeps the items distinct, counted and covering. */
  lemma {:induction false} PermutedItems(items: seq<(string, nat)>, sorted: seq<(string, nat)>, rs: seq<string>)
    requires multiset(sorted) == multiset(items)
    requires NamesDistinct(items) && Counted(items, rs) && Covers(items, rs)
    ensures NamesDistinct(sorted) && Counted(sorted, rs) && Covers(sorted, rs)
  {
    forall i | 0 <= i < |sorted| ensures sorted[i].0 in rs && sorted[i].1 == multiset(rs)[sorted[i].0] {
      assert sorted[i] in multiset(items);
    }
    forall i, j | 0 <= i < j < |sorted| ensures sorted[i].0 != sorted[j].0 {
      if sorted[i].0 == sorted[j].0 {
        assert sorted[i] == sorted[j];
        CountedTwice(sorted, i, j);
        CountedOnce(items, sorted[i]);
      }
    }
    forall q | q in rs ensures exists p | 0 <= p < |sorted| :: sorted[p].0 == q {
      var n :| 0 <= n < |items| && items[n].0 == q;
      assert items[n] in multiset(sorted);
      var p :| 0 <= p < |sorted| && sorted[p] == items[n];
    }
  }

  /** The `limit` largest counts of `rs`, as `get_popular_repositories` ranks them. */
  function Top(rs: seq<string>, limit: int): seq<(string, nat)>
  {
    SlicePrefix(SortDesc(Items(FirstSeen(rs), Tally(rs)), Count), limit)
  }

  /** A prefix of a sorted, distinct, counted list is all three; a repository it leaves out sits further on. */
  lemma {:induction false} PrefixOfRanking(r: seq<(string, nat)>, sorted: seq<(string, nat)>, rs: seq<string>, q: string)
    requires |r| <= |sorted| && r == sorted[..|r|]
    requires SortedDesc(sorted, Count) && NamesDistinct(sorted) && Counted(sorted, rs) && Covers(sorted, rs)
    ensures SortedDesc(r, Count) && NamesDistinct(r) && Counted(r, rs)
    ensures q in rs && Unlisted(r, q) ==> |r| < |sorted| && forall i | 0 <= i < |r| :: multiset(rs)[q] <= r[i].1
  {
    assert forall i | 0 <= i < |r| :: r[i] == sorted[i];
    if q in rs && Unlisted(r, q) {
      var p :| 0 <= p < |sorted| && sorted[p].0 == q;
      assert p >= |r|;
    }
  }

  /** The ranking of the counts of `rs`, cut to `limit`. */
  lemma {:induction false} TopRanking(rs: seq<string>, limit: int)
    ensures var r := Top(rs, limit);
      && SortedDesc(r, Count) && NamesDistinct(r) && Counted(r, rs)
      && (limit >= 0 ==> |r| <= limit)
      && (limit >= 0 ==>
            forall q | q in rs && Unlisted(r, q) :: |r| == limit && forall i | 0 <= i < |r| :: multiset(rs)[q] <= r[i].1)
  {
    var items := Items(FirstSeen(rs), Tally(rs));
    var sorted := SortDesc(items, Count);
    var r := Top(rs, limit);
    SortDescMeaning(items, Count);
    ItemsOfTally(rs);
    PermutedItems(items, sorted, rs);
    forall q | q in rs && Unlisted(r, q)
      ensures |r| < |sorted| && forall i | 0 <= i < |r| :: multiset(rs)[q] <= r[i].1
    {
      PrefixOfRanking(r, sorted, rs, q);
    }
    PrefixOfRanking(r, sorted, rs, []);
  }

  /**
   * The popular repositories are distinct repositories of the index, each
   * with its number of entries, largest count first; there are at most
   * `limit` of them, and a repository left out has no more entries than any
   * listed one, and is left out only when the list is full.  A text path in
   * the index makes the statistics fail, and the list is empty.
   */
  lemma {:induction false} PopularRanking(values: seq<BlogEntry>, contents: map<string, string>, dir: string, limit: int)
    ensures var r := PopularRepositories(values, contents, dir, limit);
      && (HasTextPath(values) ==> r == [])
      && (!HasTextPath(values) ==> r == Top(Repositories(values), limit))
  {
  }

  // --------------------------------------------------------------- history

  /** One item of `get_generation_history`. */
  datatype HistoryItem = HistoryItem(
    entryId: string, repository: string, title: string, provider: string, model: string,
    commitCount: int, generatedAt: string, filepath: string)

  /** The history item of an entry; its id is worked out again from the entry's date and repository. */
  function HistoryItemOf(e: BlogEntry): HistoryItem
  {
    HistoryItem(EntryId(e.generatedAt, e.repository), e.repository, e.title, e.provider, e.model,
                e.commitCount, IsoText(e.generatedAt), e.filepath.Str())
  }

  /** Every entry is stored under the id its date and repository give. */
  predicate KeyedByStamp(entries: map<string, BlogEntry>)
  {
    forall id | id in entries :: id == EntryId(entries[id].generatedAt, entries[id].repository)
  }

  /** Adding an entry keeps every entry under the id its date and repository give. */
  lemma {:induction false} AddedKeepsKeyed(ids: seq<string>, entries: map<string, BlogEntry>, e: BlogEntry)
    requires Distinct(ids) && (forall k :: k in entries <==> k in ids) && KeyedByStamp(entries)
    ensures KeyedByStamp(Added(ids, entries, e).1)
  {
    AddedEntry(ids, entries, e, EntryId(e.generatedAt, e.repository));
  }

  /** While every entry is keyed by its date and repository, a history item's id finds its entry. */
  lemma {:induction false} HistoryIdFindsEntry(entries: map<string, BlogEntry>, id: string)
    requires KeyedByStamp(entries) && id in entries
    ensures HistoryItemOf(entries[id]).entryId == id
  {
  }

  /**
   * The update `regenerate_blog_entry` makes to the entry: the new file, the
   * new provider and the time of the regeneration; nothing else changes.
   */
  function Moved(e: BlogEntry, path: FilePath, provider: string, now: Time): (r: BlogEntry)
    ensures r == e.(filepath := path, provider := provider, generatedAt := now)
  {
    var us := [SetFilepath(path), SetProvider(provider), SetGeneratedAt(now)];
    assert us[..2][..1][..0] == [] && us[..2][..1] == [SetFilepath(path)];
    assert ApplyAll(e, us[..2][..1]) == e.(filepath := path);
    assert ApplyAll(e, us[..2]) == e.(filepath := path, provider := provider);
    ApplyAll(e, us)
  }

  /**
   * A regeneration stamps the entry with a new date but leaves it under its
   * old id, so once the second has changed the history reports an id under
   * which the index does not keep the entry.
   */
  lemma {:induction false} RegenerationMovesHistoryId(e: BlogEntry, path: FilePath, provider: string, now: Time)
    requires InRange(e.generatedAt) && InRange(now)
    requires Seconds(now) != Seconds(e.generatedAt)
    ensures HistoryItemOf(Moved(e, path, provider, now)).entryId != EntryId(e.generatedAt, e.repository)
  {
    if EntryId(now, e.repository) == EntryId(e.generatedAt, e.repository) {
      EntryIdDetermines(now, e.generatedAt, e.repository, e.repository);
    }
  }

  // ----------------------------------------------------------- the manager

  /** The dictionary `generate_blog_from_commits` answers with. */
  datatype BlogResult =
    | Created(content: string, metadata: G.EntryMetadata, entryId: string, filepath: string)
    | GenerationFailed(error: string, repository: string, commitCount: nat)

  /** The dictionary `regenerate_blog_entry` answers with. */
  datatype RegenResult =
    | Regenerated(content: string, metadata: G.EntryMetadata, entryId: string, filepath: string)
    | RegenFailed(error: string, entryId: string)

  /**
   * What `bulk_generate_blogs` stores for one repository: the answer of
   * `generate_blog_from_commits`, or the message of the exception that call
   * let through.
   */
  datatype Answered = Returned(result: BlogResult) | Escaped(error: string)

  /** The dictionary `bulk_generate_blogs` answers with. */
  datatype Bulk = Bulk(total: nat, successful: nat, failed: nat, results: map<string, Answered>)

  /**
   * The notification callbacks a manager may be given: none of them raises,
   * the one told of the start raises, or the one told of the end (of the
   * completion, or of the error) raises.
   */
  datatype Notice = Quiet | StartRaises(error: string) | EndRaises(error: string)

  /** The entry `generate_blog_from_commits` indexes: no title or tags are given, so both take their defaults. */
  function IndexedEntry(path: string, repository: string, count: nat, meta: G.EntryMetadata): (e: BlogEntry)
    ensures e.filepath == PathObj(path) && e.repository == repository && e.commitCount == count
    ensures e.provider == meta.provider && e.model == meta.model && e.generatedAt == meta.generatedAt
    ensures e.title == DefaultTitle(repository) && e.tags == []
  {
    NewEntry(PathObj(path), repository, count, meta.provider, meta.model, meta.generatedAt, None, None)
  }

  /**
   * What `generate_blog_from_commits` answers, given the generation's
   * answer, the directory the save goes to (none when the setting is not
   * text) and the error the write raises, if any.
   */
  function Reported(answer: Result<G.Generated>, dir: Option<string>, repository: string, count: nat,
                    custom: Option<string>, now: Time, saveFailure: Option<string>): BlogResult
  {
    match answer
    case Failure(e) => GenerationFailed(e, repository, count)
    case Success(g) =>
      if dir.None? then GenerationFailed(G.SaveFailed(G.NotAPath), repository, count)
      else if saveFailure.Some? then GenerationFailed(G.SaveFailed(saveFailure.value), repository, count)
      else Created(g.content, g.metadata, EntryId(g.metadata.generatedAt, repository),
                   G.EntryPath(dir.value, G.EntryFileName(repository, custom, now)))
  }

  /**
   * A created result names the generated content and the file written under
   * the chosen name, and its id finds, in the index after the add, an entry
   * that points at that file; every failure carries the repository and the
   * number of commits.
   */
  lemma {:induction false} ReportedMeaning(answer: Result<G.Generated>, dir: Option<string>, repository: string, count: nat,
                                           custom: Option<string>, now: Time, saveFailure: Option<string>,
                                           ids: seq<string>, entries: map<string, BlogEntry>)
    requires Distinct(ids) && forall k :: k in entries <==> k in ids
    ensures var r := Reported(answer, dir, repository, count, custom, now, saveFailure);
      && (r.Created? <==> answer.Success? && dir.Some? && saveFailure.None?)
      && (r.GenerationFailed? ==> r.repository == repository && r.commitCount == count)
      && (answer.Success? && r.GenerationFailed? ==> StartsWith(r.error, G.SaveFailure))
      && (r.Created? ==>
            && r.content == answer.value.content && r.metadata == answer.value.metadata
            && EndsWith(r.filepath, ".md")
            && var added := Added(ids, entries, IndexedEntry(r.filepath, repository, count, r.metadata));
               r.entryId in added.1 && added.1[r.entryId].filepath == PathObj(r.filepath))
  {
    var r := Reported(answer, dir, repository, count, custom, now, saveFailure);
    if r.Created? {
      var e := IndexedEntry(r.filepath, repository, count, r.metadata);
      AddedEntry(ids, entries, e, r.entryId);
      var name := G.EntryFileName(repository, custom, now);
      assert r.filepath == dir.value + "/" + name;
      assert r.filepath[|r.filepath| - 3..] == name[|name| - 3..];
    }
  }

  /** The message of the AttributeError a text path raises on `.exists()`. */
  const NoExists := "'str' object has no attribute 'exists'"

  /**
   * The file `regenerate_blog_entry` reads: the entry's path, or the message
   * of the error raised when the id is unknown, when the path is text (which
   * has no `exists`), or when the file is missing.
   */
  function RegenSource(entries: map<string, BlogEntry>, contents: map<string, string>, id: string): (r: Result<string>)
    ensures r.Success? <==> id in entries && entries[id].filepath.PathObj? && entries[id].filepath.path in contents
    ensures r.Success? ==> entries[id].filepath == PathObj(r.value)
    ensures id in entries && entries[id].filepath.PlainStr? ==> r == Failure(NoExists)
  {
    if id !in entries then Failure("Blog entry " + id + " not found")
    else
      match entries[id].filepath
      case PlainStr(_) => Failure(NoExists)
      case PathObj(path) =>
        if path in contents then Success(path) else Failure("Blog entry file not found: " + path)
  }

  /**
   * What `regenerate_blog_entry` answers, given the file it read, the new
   * generation's answer, the directory the save goes to and the error the
   * write raises, if any: the new file takes the old file's stem as its name.
   */
  function RegenReported(source: Result<string>, answer: Result<G.Generated>, dir: Option<string>, id: string,
                         repository: string, now: Time, saveFailure: Option<string>): RegenResult
  {
    match source
    case Failure(e) => RegenFailed(e, id)
    case Success(path) =>
      match answer
      case Failure(e) => RegenFailed(e, id)
      case Success(g) =>
        if dir.None? then RegenFailed(G.SaveFailed(G.NotAPath), id)
        else if saveFailure.Some? then RegenFailed(G.SaveFailed(saveFailure.value), id)
        else Regenerated(g.content, g.metadata, id, G.EntryPath(dir.value, G.EntryFileName(repository, Some(Stem(path)), now)))
  }

  /**
   * A regeneration succeeds exactly when the file was read, the generation
   * succeeded and the save went through; every answer carries the id asked
   * for; the new content is the generated one; and an entry saved in the
   * same directory under an explicit `.md` name is overwritten in place.
   */
  lemma {:induction false} RegenReportedMeaning(source: Result<string>, answer: Result<G.Generated>, dir: Option<string>,
                                                id: string, repository: string, now: Time, saveFailure: Option<string>)
    ensures var r := RegenReported(source, answer, dir, id, repository, now, saveFailure);
      && r.entryId == id
      && (r.Regenerated? <==> source.Success? && answer.Success? && dir.Some? && saveFailure.None?)
      && (source.Failure? ==> r.error == source.error)
      && (r.Regenerated? ==> r.content == answer.value.content && r.metadata == answer.value.metadata)
      && (r.Regenerated? ==> EndsWith(r.filepath, ".md"))
      && (r.Regenerated? ==> forall s | source.value == G.EntryPath(dir.value, s + ".md") && s != [] && '/' !in s && !EndsWith(s, ".md")
                              :: r.filepath == source.value)
  {
    var r := RegenReported(source, answer, dir, id, repository, now, saveFailure);
    if r.Regenerated? {
      var name := G.EntryFileName(repository, Some(Stem(source.value)), now);
      assert r.filepath == dir.value + "/" + name;
      assert r.filepath[|r.filepath| - 3..] == name[|name| - 3..];
      forall s | source.value == G.EntryPath(dir.value, s + ".md") && s != [] && '/' !in s && !EndsWith(s, ".md")
        ensures r.filepath == source.value
      {
        RegenerationOverwrites(dir.value, s, repository, now);
      }
    }
  }

  /** The file path an entry records: the path itself, or its text when `asText` holds. */
  function Recorded(path: string, asText: bool): (r: FilePath)
    ensures r.Str() == path && (r.PlainStr? <==> asText)
  {
    if asText then PlainStr(path) else PathObj(path)
  }

  /**
   * Once an entry records its path as text, as the regeneration written in
   * the source leaves it, the next regeneration of it fails on `exists`, and
   * so does the storage statistics over the index.
   */
  lemma {:induction false} TextPathBreaksEntry(ids: seq<string>, entries: map<string, BlogEntry>, id: string, path: string,
                                               provider: string, now: Time, contents: map<string, string>, dir: string)
    requires Listed(ids, entries) && id in ids
    ensures var after := entries[id := Moved(entries[id], PlainStr(path), provider, now)];
      && RegenSource(after, contents, id) == Failure(NoExists)
      && StatsOf(InOrder(ids, after), contents, dir) == StatsError(NoExists)
  {
    var after := entries[id := Moved(entries[id], PlainStr(path), provider, now)];
    var values := InOrder(ids, after);
    var i :| 0 <= i < |ids| && ids[i] == id;
    assert values[i].filepath.PlainStr?;
  }

  /**
   * Recording the new file as a path keeps every path of the index a path,
   * so the statistics still succeed and the next regeneration finds the
   * file as long as it exists.
   */
  lemma {:induction false} PathMoveKeepsEntry(ids: seq<string>, entries: map<string, BlogEntry>, id: string, path: string,
                                              provider: string, now: Time, contents: map<string, string>, dir: string)
    requires Listed(ids, entries) && id in ids && !HasTextPath(InOrder(ids, entries))
    ensures var after := entries[id := Moved(entries[id], PathObj(path), provider, now)];
      && !HasTextPath(InOrder(ids, after))
      && StatsOf(InOrder(ids, after), contents, dir).Stats?
      && (path in contents ==> RegenSource(after, contents, id) == Success(path))
  {
    var after := entries[id := Moved(entries[id], PathObj(path), provider, now)];
    var before := InOrder(ids, entries);
    var values := InOrder(ids, after);
    forall i | 0 <= i < |values| ensures values[i].filepath.PathObj? {
      assert !before[i].filepath.PlainStr?;
    }
  }

  /** The repositories of a bulk request, in order. */
  function Names(items: seq<(string, seq<Commit>)>): (r: seq<string>)
    ensures |r| == |items| && forall i | 0 <= i < |items| :: r[i] == items[i].0
  {
    seq(|items|, i requires 0 <= i < |items| => items[i].0)
  }

  /** A stored answer counts as a success when it is a created entry. */
  predicate Succeeded(a: Answered)
  {
    a.Returned? && a.result.Created?
  }

  /** How many of the named results are successes. */
  function Successes(results: map<string, Answered>, names: seq<string>): (n: nat)
    ensures n <= |names|
  {
    if names == [] then 0
    else
      var last := names[|names| - 1];
      Successes(results, names[..|names| - 1]) + (if last in results && Succeeded(results[last]) then 1 else 0)
  }

  /**
   * What one repository of a bulk request ends with: the message of a
   * callback that raised; else a failure naming the repository and its
   * number of commits, or a success stamped with the repository and the time
   * of its call, under the id those give.
   */
  predicate Outcome(repository: string, commits: seq<Commit>, now: Time, notice: Notice, a: Answered)
  {
    match notice
    case StartRaises(e) => a == Escaped(e)
    case EndRaises(e) => a == Escaped(e)
    case Quiet =>
      a.Returned? &&
      match a.result
      case GenerationFailed(_, repo, count) => repo == repository && count == |commits|
      case Created(_, meta, id, _) =>
        meta.repository == repository && meta.commitCount == |commits| && meta.generatedAt == now && id == EntryId(now, repository)
  }

  /**
   * The state of `bulk_generate_blogs` after the first `i` repositories:
   * each of them has its result and no other name has one, the successes
   * are the created results, and every repository handled is counted once.
   */
  ghost predicate BulkSoFar(items: seq<(string, seq<Commit>)>, nows: seq<Time>, notices: seq<Notice>, i: nat,
                           results: map<string, Answered>, successful: nat, failed: nat)
    requires i <= |items| && |nows| == |items| && |notices| == |items|
  {
    && (forall name :: name in results <==> name in Names(items)[..i])
    && successful == Successes(results, Names(items)[..i]) && successful + failed == i
    && forall j | 0 <= j < i :: OutcomeAt(items, nows, notices, j, results)
  }

  /** The `j`th repository has its result, and it is the outcome of its call. */
  ghost predicate OutcomeAt(items: seq<(string, seq<Commit>)>, nows: seq<Time>, notices: seq<Notice>, j: int,
                            results: map<string, Answered>)
    requires 0 <= j < |items| && |nows| == |items| && |notices| == |items|
  {
    items[j].0 in results && Outcome(items[j].0, items[j].1, nows[j], notices[j], results[items[j].0])
  }

  /** Storing the next repository's result and counting it keeps the bookkeeping of `bulk_generate_blogs`. */
  lemma {:induction false} BulkStep(items: seq<(string, seq<Commit>)>, nows: seq<Time>, notices: seq<Notice>, i: nat,
                                    results: map<string, Answered>, successful: nat, failed: nat, a: Answered)
    requires i < |items| && |nows| == |items| && |notices| == |items| && Distinct(Names(items))
    requires BulkSoFar(items, nows, notices, i, results, successful, failed)
    requires Outcome(items[i].0, items[i].1, nows[i], notices[i], a)
    ensures BulkSoFar(items, nows, notices, i + 1, results[items[i].0 := a],
                      successful + (if Succeeded(a) then 1 else 0), failed + (if Succeeded(a) then 0 else 1))
  {
    var names := Names(items);
    NextNameIsNew(names, i);
    BulkKeysStep(results, names, i, a, results[items[i].0 := a]);
    BulkOutcomesStep(items, nows, notices, i, results, a, results[items[i].0 := a]);
  }

  /** A name of a list without repeats is not among the names before it. */
  lemma {:induction false} NextNameIsNew(names: seq<string>, i: nat)
    requires i < |names| && Distinct(names)
    ensures names[i] !in names[..i]
  {
    forall j | 0 <= j < i ensures names[..i][j] != names[i] {
      assert names[j] != names[i];
    }
  }

  /** The next name's result extends the names with a result by that name, and counts once if it is a success. */
  lemma {:induction false} BulkKeysStep(results: map<string, Answered>, names: seq<string>, i: nat, r: Answered,
                                        after: map<string, Answered>)
    requires i < |names| && names[i] !in names[..i] && after == results[names[i] := r]
    requires forall name :: name in results <==> name in names[..i]
    ensures forall name :: name in after <==> name in names[..i + 1]
    ensures Successes(after, names[..i + 1]) == Successes(results, names[..i]) + (if Succeeded(r) then 1 else 0)
  {
    var prefix := names[..i + 1];
    assert prefix == names[..i] + [names[i]];
    SuccessesIgnoreOthers(results, names[..i], names[i], r);
    assert prefix[..i] == names[..i];
  }

  /** The next repository's outcome joins the earlier ones, which its result does not disturb. */
  lemma {:induction false} BulkOutcomesStep(items: seq<(string, seq<Commit>)>, nows: seq<Time>, notices: seq<Notice>, i: nat,
                                            results: map<string, Answered>, a: Answered, after: map<string, Answered>)
    requires i < |items| && |nows| == |items| && |notices| == |items| && Distinct(Names(items))
    requires forall j | 0 <= j < i :: OutcomeAt(items, nows, notices, j, results)
    requires Outcome(items[i].0, items[i].1, nows[i], notices[i], a)
    requires after == results[items[i].0 := a]
    ensures forall j | 0 <= j < i + 1 :: OutcomeAt(items, nows, notices, j, after)
  {
    var names := Names(items);
    forall j | 0 <= j < i + 1
      ensures OutcomeAt(items, nows, notices, j, after)
    {
      if j < i {
        assert OutcomeAt(items, nows, notices, j, results);
        assert names[j] != names[i];
        assert after[items[j].0] == results[items[j].0];
      }
    }
  }

  /** Results for names outside the list do not change the count. */
  lemma {:induction false} SuccessesIgnoreOthers(results: map<string, Answered>, names: seq<string>, k: string, v: Answered)
    requires k !in names
    ensures Successes(results[k := v], names) == Successes(results, names)
  {
    if names != [] {
      SuccessesIgnoreOthers(results, names[..|names| - 1], k, v);
    }
  }

  /** Metadata of a generation for `repository` over `count` commits at `now`. */
  predicate Stamped(meta: G.EntryMetadata, repository: string, count: nat, now: Time)
  {
    meta.repository == repository && meta.commitCount == count && meta.generatedAt == now
  }

  /** A result created from a stamped answer carries that stamp and the id it gives. */
  lemma {:induction false} StampedReport(answer: Result<G.Generated>, dir: Option<string>, repository: string, count: nat,
                                         custom: Option<string>, now: Time, saveFailure: Option<string>)
    requires answer.Success? ==> Stamped(answer.value.metadata, repository, count, now)
    ensures var r := Reported(answer, dir, repository, count, custom, now, saveFailure);
      r.Created? ==> Stamped(r.metadata, repository, count, now) && r.entryId == EntryId(now, repository)
  {
  }

  /** The id a report adds to the index: that of a created result. */
  function NewId(report: Option<BlogResult>): set<string>
  {
    if report.Some? && report.value.Created? then {report.value.entryId} else {}
  }

  /** The file a report adds to the disk: that of a created result. */
  function NewFile(report: Option<BlogResult>): set<string>
  {
    if report.Some? && report.value.Created? then {report.value.filepath} else {}
  }

  /** The ids the created results among `reports` add to the index. */
  ghost function CreatedIds(reports: seq<Option<BlogResult>>): set<string>
  {
    if reports == [] then {} else CreatedIds(reports[..|reports| - 1]) + NewId(reports[|reports| - 1])
  }

  /** The files the created results among `reports` add to the disk. */
  ghost function CreatedFiles(reports: seq<Option<BlogResult>>): set<string>
  {
    if reports == [] then {} else CreatedFiles(reports[..|reports| - 1]) + NewFile(reports[|reports| - 1])
  }

  /** Each created result's id and file are among those the reports add. */
  lemma {:induction false} CreatedListed(reports: seq<Option<BlogResult>>, k: nat)
    requires k < |reports| && reports[k].Some? && reports[k].value.Created?
    ensures reports[k].value.entryId in CreatedIds(reports) && reports[k].value.filepath in CreatedFiles(reports)
  {
    if k < |reports| - 1 {
      CreatedListed(reports[..|reports| - 1], k);
    }
  }

  /** Every commit of the list is processed for the repository. */
  ghost predicate CommitsMarked(rows: seq<Row>, repository: string, commits: seq<Commit>)
  {
    forall i | 0 <= i < |commits| :: Processed(rows, repository, commits[i].sha, "any")
  }

  /** Every commit processed in `before` is processed in `after`. */
  ghost predicate KeepsProcessed(before: seq<Row>, after: seq<Row>)
  {
    forall repo, sha :: Processed(before, repo, sha, "any") ==> Processed(after, repo, sha, "any")
  }

  /** Marking the commits of one generation keeps the earlier marks and processes each of them. */
  lemma {:induction false} MarkedAllMarks(rows: seq<Row>, commits: seq<Commit>, repository: string, provider: string, now: Time)
    ensures KeepsProcessed(rows, G.MarkedAll(rows, commits, repository, provider, now))
    ensures CommitsMarked(G.MarkedAll(rows, commits, repository, provider, now), repository, commits)
  {
    forall repo, sha | Processed(rows, repo, sha, "any")
      ensures Processed(G.MarkedAll(rows, commits, repository, provider, now), repo, sha, "any")
    {
      G.MarkedAllKeeps(rows, commits, repository, provider, now, repo, sha);
    }
    forall i | 0 <= i < |commits|
      ensures Processed(G.MarkedAll(rows, commits, repository, provider, now), repository, commits[i].sha, "any")
    {
      G.MarkedAllProcessed(rows, commits, repository, provider, now, i);
    }
  }

  lemma {:induction false} MarkedStays(before: seq<Row>, after: seq<Row>, repository: string, commits: seq<Commit>)
    requires KeepsProcessed(before, after) && CommitsMarked(before, repository, commits)
    ensures CommitsMarked(after, repository, commits)
  {
    forall i | 0 <= i < |commits| ensures Processed(after, repository, commits[i].sha, "any") {
      assert Processed(before, repository, commits[i].sha, "any");
    }
  }

  /** Adding an entry adds its id to the index. */
  lemma {:induction false} AddedKeys(ids: seq<string>, entries: map<string, BlogEntry>, e: BlogEntry)
    requires Distinct(ids) && forall k :: k in entries <==> k in ids
    ensures Added(ids, entries, e).1.Keys == entries.Keys + {EntryId(e.generatedAt, e.repository)}
  {
  }

  /** A created result adds the id it reports to the index: the one its stamp gives. */
  lemma {:induction false} CreatedKey(answer: Result<G.Generated>, dir: Option<string>, repository: string, count: nat,
                                      now: Time, saveFailure: Option<string>,
                                      ids: seq<string>, entries: map<string, BlogEntry>)
    requires Distinct(ids) && forall k :: k in entries <==> k in ids
    requires answer.Success? ==> Stamped(answer.value.metadata, repository, count, now)
    ensures var r := Reported(answer, dir, repository, count, None, now, saveFailure);
      r.Created? ==> Added(ids, entries, IndexedEntry(r.filepath, repository, count, r.metadata)).1.Keys == entries.Keys + {r.entryId}
  {
    StampedReport(answer, dir, repository, count, None, now, saveFailure);
    var r := Reported(answer, dir, repository, count, None, now, saveFailure);
    if r.Created? {
      AddedKeys(ids, entries, IndexedEntry(r.filepath, repository, count, r.metadata));
    }
  }

  /**
   * What `bulk_generate_blogs` has recorded for the `j`th repository: a
   * report exactly when the start callback did not raise, and the report
   * itself when no callback raised.
   */
  ghost predicate ReportAt(items: seq<(string, seq<Commit>)>, notices: seq<Notice>, reports: seq<Option<BlogResult>>, j: int,
                           results: map<string, Answered>)
    requires 0 <= j < |items| && |notices| == |items| && j < |reports|
  {
    && items[j].0 in results
    && (reports[j].None? <==> notices[j].StartRaises?)
    && (notices[j].Quiet? ==> results[items[j].0] == Returned(reports[j].value))
  }

  /** The next repository's report joins the earlier ones, which its result does not disturb. */
  lemma {:induction false} BulkReportsStep(items: seq<(string, seq<Commit>)>, notices: seq<Notice>, i: nat,
                                           reports: seq<Option<BlogResult>>, results: map<string, Answered>,
                                           report: Option<BlogResult>, a: Answered, after: map<string, Answered>)
    requires i < |items| && |notices| == |items| && |reports| == i && Distinct(Names(items))
    requires forall j | 0 <= j < i :: ReportAt(items, notices, reports, j, results)
    requires report.None? <==> notices[i].StartRaises?
    requires notices[i].Quiet? ==> a == Returned(report.value)
    requires after == results[items[i].0 := a]
    ensures forall j | 0 <= j < i + 1 :: ReportAt(items, notices, reports + [report], j, after)
  {
    var names := Names(items);
    forall j | 0 <= j < i + 1
      ensures ReportAt(items, notices, reports + [report], j, after)
    {
      if j < i {
        assert ReportAt(items, notices, reports, j, results);
        assert names[j] != names[i];
        assert after[items[j].0] == results[items[j].0];
        assert (reports + [report])[j] == reports[j];
      }
    }
  }

  /**
   * The index, the disk and the database after one more repository of the
   * batch: what the earlier reports added plus what the new one adds, with
   * earlier marks kept.
   */
  lemma {:induction false} BulkStateStep(items: seq<(string, seq<Commit>)>, reports: seq<Option<BlogResult>>,
                                         report: Option<BlogResult>, available: bool,
                                         keys: set<string>, files: set<string>, rows: seq<Row>,
                                         keysMid: set<string>, filesMid: set<string>, rowsMid: seq<Row>,
                                         keysAfter: set<string>, filesAfter: set<string>, rowsAfter: seq<Row>)
    requires |reports| < |items|
    requires keysMid == keys + CreatedIds(reports) && filesMid == files + CreatedFiles(reports)
    requires KeepsProcessed(rows, rowsMid)
    requires forall j | 0 <= j < |reports| && reports[j].Some? && reports[j].value.Created? && available ::
      CommitsMarked(rowsMid, items[j].0, items[j].1)
    requires keysAfter == keysMid + NewId(report) && filesAfter == filesMid + NewFile(report)
    requires KeepsProcessed(rowsMid, rowsAfter)
    requires report.Some? && report.value.Created? && available ==>
      CommitsMarked(rowsAfter, items[|reports|].0, items[|reports|].1)
    ensures keysAfter == keys + CreatedIds(reports + [report]) && filesAfter == files + CreatedFiles(reports + [report])
    ensures KeepsProcessed(rows, rowsAfter)
    ensures forall j | 0 <= j < |reports| + 1 && (reports + [report])[j].Some? && (reports + [report])[j].value.Created? && available ::
      CommitsMarked(rowsAfter, items[j].0, items[j].1)
  {
    assert (reports + [report])[..|reports|] == reports;
    forall j | 0 <= j < |reports| + 1 && (reports + [report])[j].Some? && (reports + [report])[j].value.Created? && available
      ensures CommitsMarked(rowsAfter, items[j].0, items[j].1)
    {
      if j < |reports| {
        assert (reports + [report])[j] == reports[j];
        MarkedStays(rowsMid, rowsAfter, items[j].0, items[j].1);
      }
    }
  }

  class BlogManager {
    const generator: G.BlogGenerator
    const storage: BlogStorage
    const disk: Disk

    ghost predicate Valid()
      reads this, generator, generator.aiManager, generator.aiManager.settings, generator.aiManager.providers.Values,
        generator.settings, generator.database, storage, disk
    {
      generator.Valid() && storage.Valid() && disk.Valid()
    }

    /** `BlogManager(ai_manager, settings, database)`: a generator over them and the index read from `dir`. */
    constructor (aiManager: ProviderManager, settings: Settings.Settings, database: DatabaseManager, disk: Disk,
                 dir: string, index: seq<(string, Json)>)
      requires aiManager.Valid() && settings.Valid() && database.Valid() && disk.Valid()
      ensures Valid() && fresh(generator) && fresh(storage) && this.disk == disk
      ensures generator.aiManager == aiManager && generator.settings == settings && generator.database == database
      ensures storage.dir == dir && (storage.ids, storage.entries) == Loaded(index)
    {
      generator := new G.BlogGenerator(aiManager, settings, database);
      storage := new BlogStorage(dir, index);
      this.disk := disk;
    }

    /**
     * `generate_blog_from_commits`: the generation, then the save under
     * `custom` (or the default name), then the entry added to the index, as
     * `Reported` describes.  A failed save leaves the commits marked processed.
     */
    method GenerateBlogFromCommits(commits: seq<Commit>, repository: string, prompt: Option<string>, provider: Option<string>,
                                   maxArg: Option<int>, tempArg: Option<real>, custom: Option<string>,
                                   reply: Reply, now: Time, saveFailure: Option<string>)
      returns (r: BlogResult, ghost answer: Result<G.Generated>)
      requires Valid() && InRange(now)
      modifies generator.database, storage, disk
      ensures Valid()
      ensures answer == old(generator.Attempt(commits, repository, prompt, provider, maxArg, tempArg, reply, now).result)
      ensures r == Reported(answer, old(generator.EntriesDir()), repository, |commits|, custom, now, saveFailure)
      ensures (storage.ids, storage.entries) ==
        if r.Created? then Added(old(storage.ids), old(storage.entries), IndexedEntry(r.filepath, repository, |commits|, r.metadata))
        else (old(storage.ids), old(storage.entries))
      ensures disk.contents == if r.Created? then old(disk.contents)[r.filepath := r.content] else old(disk.contents)
      ensures answer.Success? ==> Stamped(answer.value.metadata, repository, |commits|, now)
      ensures generator.database.available == old(generator.database.available)
      ensures generator.database.rows ==
        if answer.Success? && generator.database.available
        then G.MarkedAll(old(generator.database.rows), commits, repository, answer.value.metadata.provider, now)
        else old(generator.database.rows)
    {
      answer := generator.Attempt(commits, repository, prompt, provider, maxArg, tempArg, reply, now).result;
      ghost var dir := generator.EntriesDir();
      generator.AttemptStamp(commits, repository, prompt, provider, maxArg, tempArg, reply, now);
      var g := generator.GenerateBlogEntry(commits, repository, prompt, provider, maxArg, tempArg, reply, now);
      assert g == answer;
      assert unchanged(generator, generator.aiManager, generator.aiManager.settings, generator.settings);
      assert unchanged(generator.aiManager.providers.Values);
      assert generator.EntriesDir() == dir;
      if g.Failure? {
        r := GenerationFailed(g.error, repository, |commits|);
        return;
      }
      r := SaveAndIndex(g.value, repository, |commits|, custom, now, saveFailure);
    }

    /**
     * The second half of `generate_blog_from_commits`: the generated entry
     * saved, then indexed with the date read back from its metadata.
     */
    method SaveAndIndex(generated: G.Generated, repository: string, count: nat, custom: Option<string>, now: Time,
                        saveFailure: Option<string>) returns (r: BlogResult)
      requires Valid() && InRange(generated.metadata.generatedAt)
      modifies storage, disk
      ensures Valid()
      ensures r == Reported(Success(generated), old(generator.EntriesDir()), repository, count, custom, now, saveFailure)
      ensures (storage.ids, storage.entries) ==
        if r.Created? then Added(old(storage.ids), old(storage.entries), IndexedEntry(r.filepath, repository, count, r.metadata))
        else (old(storage.ids), old(storage.entries))
      ensures disk.contents == if r.Created? then old(disk.contents)[r.filepath := r.content] else old(disk.contents)
    {
      var saved := generator.SaveBlogEntry(disk, generated.content, repository, custom, now, saveFailure);
      assert generator.Valid();
      if saved.Failure? {
        return GenerationFailed(saved.error, repository, count);
      }
      var id := IndexSaved(saved.value, repository, count, generated.metadata);
      r := Created(generated.content, generated.metadata, id, saved.value);
    }

    /** `add_entry` of the entry for a saved file, its date read back from the metadata's `isoformat` text. */
    method IndexSaved(path: string, repository: string, count: nat, meta: G.EntryMetadata) returns (id: string)
      requires Valid() && InRange(meta.generatedAt)
      modifies storage
      ensures Valid() && id == EntryId(meta.generatedAt, repository)
      ensures (storage.ids, storage.entries) == Added(old(storage.ids), old(storage.entries), IndexedEntry(path, repository, count, meta))
    {
      IsoRoundTrip(meta.generatedAt);
      var at := ParseIso(IsoText(meta.generatedAt)).value;
      var entry := NewEntry(PathObj(path), repository, count, meta.provider, meta.model, at, None, None);
      id := storage.AddEntry(entry);
      assert generator.Valid();
    }

    /**
     * The file a regeneration of `id` reads carries no `max_tokens` or
     * `temperature` in its frontmatter, as no file this generator writes does.
     */
    predicate SamplingFree(id: string)
      reads storage, disk
    {
      var source := RegenSource(storage.entries, disk.contents, id);
      source.Success? ==>
        && "max_tokens" !in ExtractMetadata(disk.contents[source.value])
        && "temperature" !in ExtractMetadata(disk.contents[source.value])
    }

    /**
     * `regenerate_blog_entry`, with the path recorded as a path: the entry's
     * file is read, a new generation made with `newProvider`, saved under the
     * old file's stem, and the entry moved to the new file, provider and time.
     * `now` is the clock the generation reads; `movedAt` is the later reading
     * the index is given once the new file is saved.
     */
    method RegenerateBlogEntry(id: string, commits: seq<Commit>, repository: string, newProvider: string,
                               prompt: Option<string>, reply: Reply, now: Time, movedAt: Time, saveFailure: Option<string>)
      returns (r: RegenResult, ghost answer: Result<G.Generated>)
      requires Valid() && SamplingFree(id)
      modifies generator.database, storage, disk
      ensures Valid()
      ensures answer == old(generator.Attempt(commits, repository, prompt, Some(newProvider), None, None, reply, now).result)
      ensures r == RegenReported(old(RegenSource(storage.entries, disk.contents, id)), answer, old(generator.EntriesDir()),
                                 id, repository, now, saveFailure)
      ensures storage.ids == old(storage.ids)
      ensures storage.entries ==
        if r.Regenerated? then old(storage.entries)[id := Moved(old(storage.entries)[id], PathObj(r.filepath), newProvider, movedAt)]
        else old(storage.entries)
      ensures disk.contents == if r.Regenerated? then old(disk.contents)[r.filepath := r.content] else old(disk.contents)
      ensures generator.database.rows ==
        if old(RegenSource(storage.entries, disk.contents, id)).Success? && answer.Success? && generator.database.available
        then G.MarkedAll(old(generator.database.rows), commits, repository, answer.value.metadata.provider, now)
        else old(generator.database.rows)
    {
      var source := RegenSource(storage.entries, disk.contents, id);
      if source.Failure? {
        answer := generator.Attempt(commits, repository, prompt, Some(newProvider), None, None, reply, now).result;
        r := RegenFailed(source.error, id);
        return;
      }
      r, answer := RegenerateFrom(id, source.value, commits, repository, newProvider, prompt, reply, now, movedAt, saveFailure, false);
    }

    /**
     * `regenerate_blog_entry` as written: the entry object the index holds
     * is changed in place and then updated with `str(filepath)`, so the
     * entry ends up with its path as text.
     */
    method RegenerateBlogEntryAsWritten(id: string, commits: seq<Commit>, repository: string, newProvider: string,
                                        prompt: Option<string>, reply: Reply, now: Time, movedAt: Time, saveFailure: Option<string>)
      returns (r: RegenResult, ghost answer: Result<G.Generated>)
      requires Valid() && SamplingFree(id)
      modifies generator.database, storage, disk
      ensures Valid()
      ensures answer == old(generator.Attempt(commits, repository, prompt, Some(newProvider), None, None, reply, now).result)
      ensures r == RegenReported(old(RegenSource(storage.entries, disk.contents, id)), answer, old(generator.EntriesDir()),
                                 id, repository, now, saveFailure)
      ensures storage.ids == old(storage.ids)
      ensures storage.entries ==
        if r.Regenerated? then old(storage.entries)[id := Moved(old(storage.entries)[id], PlainStr(r.filepath), newProvider, movedAt)]
        else old(storage.entries)
      ensures disk.contents == if r.Regenerated? then old(disk.contents)[r.filepath := r.content] else old(disk.contents)
      ensures generator.database.rows ==
        if old(RegenSource(storage.entries, disk.contents, id)).Success? && answer.Success? && generator.database.available
        then G.MarkedAll(old(generator.database.rows), commits, repository, answer.value.metadata.provider, now)
        else old(generator.database.rows)
    {
      var source := RegenSource(storage.entries, disk.contents, id);
      if source.Failure? {
        answer := generator.Attempt(commits, repository, prompt, Some(newProvider), None, None, reply, now).result;
        r := RegenFailed(source.error, id);
        return;
      }
      r, answer := RegenerateFrom(id, source.value, commits, repository, newProvider, prompt, reply, now, movedAt, saveFailure, true);
    }

    /**
     * `regenerate_blog_entry` once the entry's file at `path` has been found:
     * the new generation from its content, then the save and the move.
     */
    method RegenerateFrom(id: string, path: string, commits: seq<Commit>, repository: string, newProvider: string,
                          prompt: Option<string>, reply: Reply, now: Time, movedAt: Time, saveFailure: Option<string>, asText: bool)
      returns (r: RegenResult, ghost answer: Result<G.Generated>)
      requires Valid() && id in storage.entries && path in disk.contents
      requires "max_tokens" !in ExtractMetadata(disk.contents[path]) && "temperature" !in ExtractMetadata(disk.contents[path])
      modifies generator.database, storage, disk
      ensures Valid()
      ensures answer == old(generator.Attempt(commits, repository, prompt, Some(newProvider), None, None, reply, now).result)
      ensures r == RegenReported(Success(path), answer, old(generator.EntriesDir()), id, repository, now, saveFailure)
      ensures storage.ids == old(storage.ids)
      ensures storage.entries ==
        if r.Regenerated? then old(storage.entries)[id := Moved(old(storage.entries)[id], Recorded(r.filepath, asText), newProvider, movedAt)]
        else old(storage.entries)
      ensures disk.contents == if r.Regenerated? then old(disk.contents)[r.filepath := r.content] else old(disk.contents)
      ensures generator.database.rows ==
        if answer.Success? && generator.database.available
        then G.MarkedAll(old(generator.database.rows), commits, repository, answer.value.metadata.provider, now)
        else old(generator.database.rows)
    {
      ghost var dir := generator.EntriesDir();
      var g := generator.RegenerateBlogEntry(commits, repository, disk.contents[path], newProvider, prompt, reply, now);
      answer := g;
      assert generator.EntriesDir() == dir;
      if g.Failure? {
        r := RegenFailed(g.error, id);
        return;
      }
      r := SaveAndMove(id, g.value, repository, path, newProvider, now, movedAt, saveFailure, asText);
    }

    /**
     * The second half of `regenerate_blog_entry`: the new content saved under
     * the stem of the old file's name, then the entry moved to the new file,
     * its path recorded as text when `asText` holds.
     */
    method SaveAndMove(id: string, generated: G.Generated, repository: string, path: string, newProvider: string,
                       now: Time, movedAt: Time, saveFailure: Option<string>, asText: bool) returns (r: RegenResult)
      requires Valid() && id in storage.entries
      modifies storage, disk
      ensures Valid()
      ensures r == RegenReported(Success(path), Success(generated), old(generator.EntriesDir()), id, repository, now, saveFailure)
      ensures storage.ids == old(storage.ids)
      ensures storage.entries ==
        if r.Regenerated? then old(storage.entries)[id := Moved(old(storage.entries)[id], Recorded(r.filepath, asText), newProvider, movedAt)]
        else old(storage.entries)
      ensures disk.contents == if r.Regenerated? then old(disk.contents)[r.filepath := r.content] else old(disk.contents)
    {
      var saved := generator.SaveBlogEntry(disk, generated.content, repository, Some(Stem(path)), now, saveFailure);
      assert generator.Valid();
      if saved.Failure? {
        return RegenFailed(saved.error, id);
      }
      MoveEntry(id, Recorded(saved.value, asText), newProvider, movedAt);
      r := Regenerated(generated.content, generated.metadata, id, saved.value);
    }

    /** `update_entry` with the new file path, provider and generation time of a regenerated entry. */
    method MoveEntry(id: string, filepath: FilePath, newProvider: string, movedAt: Time)
      requires Valid() && id in storage.entries
      modifies storage
      ensures Valid() && storage.ids == old(storage.ids)
      ensures storage.entries == old(storage.entries)[id := Moved(old(storage.entries)[id], filepath, newProvider, movedAt)]
    {
      var e := storage.entries[id];
      var ok := storage.UpdateEntry(id, [SetFilepath(filepath), SetProvider(newProvider), SetGeneratedAt(movedAt)]);
      assert generator.Valid();
      assert storage.entries[id] == Moved(e, filepath, newProvider, movedAt);
    }

    /**
     * One repository of `bulk_generate_blogs`: its call of
     * `generate_blog_from_commits`, with the notification callbacks that
     * call makes.  A start callback that raises stops the call before
     * anything is generated; an end callback that raises comes after the
     * generation, the save and the index update.
     */
    method GenerateOne(commits: seq<Commit>, repository: string, prompt: Option<string>, provider: Option<string>,
                       maxArg: Option<int>, tempArg: Option<real>, reply: Reply, now: Time, saveFailure: Option<string>,
                       notice: Notice)
      returns (a: Answered, ghost answer: Option<Result<G.Generated>>, ghost report: Option<BlogResult>)
      requires Valid() && InRange(now)
      modifies generator.database, storage, disk
      ensures Valid() && Outcome(repository, commits, now, notice, a)
      ensures answer.None? <==> notice.StartRaises?
      ensures report == if answer.None? then None
        else Some(Reported(answer.value, old(generator.EntriesDir()), repository, |commits|, None, now, saveFailure))
      ensures notice.Quiet? ==> a == Returned(report.value)
      ensures answer.Some? && answer.value.Success? ==> Stamped(answer.value.value.metadata, repository, |commits|, now)
      ensures (storage.ids, storage.entries) ==
        if report.Some? && report.value.Created?
        then Added(old(storage.ids), old(storage.entries), IndexedEntry(report.value.filepath, repository, |commits|, report.value.metadata))
        else (old(storage.ids), old(storage.entries))
      ensures disk.contents ==
        if report.Some? && report.value.Created? then old(disk.contents)[report.value.filepath := report.value.content]
        else old(disk.contents)
      ensures generator.database.available == old(generator.database.available)
      ensures generator.database.rows ==
        if answer.Some? && answer.value.Success? && generator.database.available
        then G.MarkedAll(old(generator.database.rows), commits, repository, answer.value.value.metadata.provider, now)
        else old(generator.database.rows)
    {
      if notice.StartRaises? {
        return Escaped(notice.error), None, None;
      }
      var r;
      ghost var g;
      r, g := GenerateBlogFromCommits(commits, repository, prompt, provider, maxArg, tempArg, None, reply, now, saveFailure);
      answer, report := Some(g), Some(r);
      a := if notice.EndRaises? then Escaped(notice.error) else Returned(r);
    }

    /**
     * One repository of `bulk_generate_blogs`, seen from the batch: the
     * index and the disk gain the id and the file of a created result and
     * nothing else, earlier marks stay, and a created result's commits are
     * marked when the database is available.
     */
    method GenerateCounted(commits: seq<Commit>, repository: string, prompt: Option<string>, provider: Option<string>,
                           maxArg: Option<int>, tempArg: Option<real>, reply: Reply, now: Time, saveFailure: Option<string>,
                           notice: Notice)
      returns (a: Answered, ghost report: Option<BlogResult>)
      requires Valid() && InRange(now)
      modifies generator.database, storage, disk
      ensures Valid() && Outcome(repository, commits, now, notice, a)
      ensures report.None? <==> notice.StartRaises?
      ensures notice.Quiet? ==> a == Returned(report.value)
      ensures storage.entries.Keys == old(storage.entries).Keys + NewId(report)
      ensures disk.contents.Keys == old(disk.contents).Keys + NewFile(report)
      ensures generator.database.available == old(generator.database.available)
      ensures KeepsProcessed(old(generator.database.rows), generator.database.rows)
      ensures report.Some? && report.value.Created? && generator.database.available ==>
        CommitsMarked(generator.database.rows, repository, commits)
    {
      ghost var rows, dir := generator.database.rows, generator.EntriesDir();
      ghost var ids, entries := storage.ids, storage.entries;
      ghost var answer;
      a, answer, report := GenerateOne(commits, repository, prompt, provider, maxArg, tempArg, reply, now, saveFailure, notice);
      if answer.Some? {
        CreatedKey(answer.value, dir, repository, |commits|, now, saveFailure, ids, entries);
        if answer.value.Success? && generator.database.available {
          MarkedAllMarks(rows, commits, repository, answer.value.value.metadata.provider, now);
        }
      }
    }

    /**
     * `bulk_generate_blogs` over the items of its dictionary: each
     * repository in turn through `generate_blog_from_commits` (no file name
     * of its own), with the reply, the time, the write error and the
     * callbacks of its own call.  Every repository gets exactly one result,
     * the successes are the created results, and successes and failures add
     * up to the total, whether or not a call raised.
     */
    method BulkGenerateBlogs(items: seq<(string, seq<Commit>)>, prompt: Option<string>, provider: Option<string>,
                             maxArg: Option<int>, tempArg: Option<real>,
                             replies: seq<Reply>, nows: seq<Time>, saveFailures: seq<Option<string>>, notices: seq<Notice>)
      returns (b: Bulk, ghost reports: seq<Option<BlogResult>>)
      requires Valid() && Distinct(Names(items))
      requires |replies| == |items| && |nows| == |items| && |saveFailures| == |items| && |notices| == |items|
      requires forall i | 0 <= i < |nows| :: InRange(nows[i])
      modifies generator.database, storage, disk
      ensures Valid()
      ensures b.total == |items| && b.successful + b.failed == b.total
      ensures forall name :: name in b.results <==> name in Names(items)
      ensures b.successful == Successes(b.results, Names(items))
      ensures forall i | 0 <= i < |items| :: Outcome(items[i].0, items[i].1, nows[i], notices[i], b.results[items[i].0])
      ensures |reports| == |items| && forall i | 0 <= i < |items| :: ReportAt(items, notices, reports, i, b.results)
      ensures storage.entries.Keys == old(storage.entries).Keys + CreatedIds(reports)
      ensures disk.contents.Keys == old(disk.contents).Keys + CreatedFiles(reports)
      ensures forall i | 0 <= i < |items| && b.results[items[i].0].Returned? && b.results[items[i].0].result.Created? ::
        b.results[items[i].0].result.entryId in storage.entries && b.results[items[i].0].result.filepath in disk.contents
      ensures generator.database.available == old(generator.database.available)
      ensures KeepsProcessed(old(generator.database.rows), generator.database.rows)
      ensures forall i | 0 <= i < |items| && reports[i].Some? && reports[i].value.Created? && generator.database.available ::
        CommitsMarked(generator.database.rows, items[i].0, items[i].1)
    {
      var results: map<string, Answered> := map[];
      var successful, failed := 0, 0;
      reports := [];
      ghost var keys, files, rows := storage.entries.Keys, disk.contents.Keys, generator.database.rows;
      var i := 0;
      while i < |items|
        invariant 0 <= i <= |items| && Valid()
        invariant BulkSoFar(items, nows, notices, i, results, successful, failed)
        invariant |reports| == i && forall j | 0 <= j < i :: ReportAt(items, notices, reports, j, results)
        invariant storage.entries.Keys == keys + CreatedIds(reports)
        invariant disk.contents.Keys == files + CreatedFiles(reports)
        invariant generator.database.available == old(generator.database.available)
        invariant KeepsProcessed(rows, generator.database.rows)
        invariant forall j | 0 <= j < i && reports[j].Some? && reports[j].value.Created? && generator.database.available ::
          CommitsMarked(generator.database.rows, items[j].0, items[j].1)
      {
        ghost var keysBefore, filesBefore, rowsBefore := storage.entries.Keys, disk.contents.Keys, generator.database.rows;
        var a;
        ghost var report;
        a, report := GenerateCounted(items[i].1, items[i].0, prompt, provider, maxArg, tempArg, replies[i], nows[i],
                                         saveFailures[i], notices[i]);
        BulkStep(items, nows, notices, i, results, successful, failed, a);
        BulkReportsStep(items, notices, i, reports, results, report, a, results[items[i].0 := a]);
        BulkStateStep(items, reports, report, generator.database.available, keys, files, rows,
                      keysBefore, filesBefore, rowsBefore, storage.entries.Keys, disk.contents.Keys, generator.database.rows);
        results := results[items[i].0 := a];
        reports := reports + [report];
        if a.Returned? && a.result.Created? {
          successful := successful + 1;
        } else {
          failed := failed + 1;
        }
        i := i + 1;
      }
      assert Names(items)[..i] == Names(items);
      forall j | 0 <= j < |items|
        ensures Outcome(items[j].0, items[j].1, nows[j], notices[j], results[items[j].0])
      {
        assert OutcomeAt(items, nows, notices, j, results);
      }
      forall j | 0 <= j < |items| && results[items[j].0].Returned? && results[items[j].0].result.Created?
        ensures results[items[j].0].result.entryId in storage.entries && results[items[j].0].result.filepath in disk.contents
      {
        assert OutcomeAt(items, nows, notices, j, results);
        assert ReportAt(items, notices, reports, j, results);
        CreatedListed(reports, j);
      }
      b := Bulk(|items|, successful, failed, results);
    }

    /** A created entry is stamped with the repository, the number of commits and the time of the call. */
    lemma {:induction false} CreatedStamp(commits: seq<Commit>, repository: string, prompt: Option<string>, provider: Option<string>,
                                          maxArg: Option<int>, tempArg: Option<real>, custom: Option<string>,
                                          reply: Reply, now: Time, saveFailure: Option<string>)
      requires Valid()
      ensures var r := Reported(generator.Attempt(commits, repository, prompt, provider, maxArg, tempArg, reply, now).result,
                                generator.EntriesDir(), repository, |commits|, custom, now, saveFailure);
        r.Created? ==>
          && r.metadata.repository == repository && r.metadata.commitCount == |commits| && r.metadata.generatedAt == now
          && r.entryId == EntryId(now, repository)
    {
      generator.AttemptMetadata(commits, repository, prompt, provider, maxArg, tempArg, reply, now);
    }
  }
}
