// The records the GitHub REST API's JSON is decoded into, and the decoders.
//
// A decoded JSON document is a `Json` value. Python's dataclasses do not
// check field types, so every field a decoder copies from the document keeps
// the `Json` value it found there (`data.get(key, default)`), and only the
// fields the decoders compute (owner, dates, license, parents) get types of
// their own. A decoder that Python would abort with an exception returns
// `Failure`.
module GitHubModels {
  import opened Wrappers
  import opened Text
  import opened JsonData

  /** `data.get(key, {})` where the result is then used as a dict: anything else raises. */
  function SubObject(data: Object, key: string): Result<Object>
  {
    match Get(data, key, JObj(map[]))
    case JObj(fields) => Success(fields)
    case _ => Failure("'" + key + "' has no attribute 'get'")
  }

  // ---------------------------------------------------------------- users

  datatype User = User(
    login: Json, id: Json, name: Json, email: Json, avatarUrl: Json, bio: Json,
    company: Json, location: Json, blog: Json, publicRepos: Json, followers: Json,
    following: Json)

  /** `GitHubUser.from_api_response`. */
  function UserFromApi(data: Object): User
  {
    User(
      Get(data, "login", JStr("")), Get(data, "id", JInt(0)),
      Opt(data, "name"), Opt(data, "email"), Opt(data, "avatar_url"), Opt(data, "bio"),
      Opt(data, "company"), Opt(data, "location"), Opt(data, "blog"),
      Get(data, "public_repos", JInt(0)), Get(data, "followers", JInt(0)),
      Get(data, "following", JInt(0)))
  }

  /** The API document a user is decoded from. */
  function UserToApi(u: User): Object
  {
    map[
      "login" := u.login, "id" := u.id, "name" := u.name, "email" := u.email,
      "avatar_url" := u.avatarUrl, "bio" := u.bio, "company" := u.company,
      "location" := u.location, "blog" := u.blog, "public_repos" := u.publicRepos,
      "followers" := u.followers, "following" := u.following]
  }

  /** Decoding the document of a user gives the user back: every field is read from its own key. */
  lemma {:induction false} UserRoundTrip(u: User)
    ensures UserFromApi(UserToApi(u)) == u
  {
  }

  /** Missing keys: login '', id 0, counters 0, every optional field None. */
  lemma {:induction false} UserDefaults()
    ensures UserFromApi(map[]) ==
      User(JStr(""), JInt(0), JNull, JNull, JNull, JNull, JNull, JNull, JNull, JInt(0), JInt(0), JInt(0))
  {
  }

  // --------------------------------------------------------- repositories

  /** `s.replace('Z', '+00:00')`. */
  function ReplaceZ(s: string): (r: string)
    ensures 'Z' !in r
    ensures 'Z' !in s ==> r == s
  {
    if s == [] then []
    else (if s[0] == 'Z' then "+00:00" else [s[0]]) + ReplaceZ(s[1..])
  }

  /**
   * An optional timestamp field: absent or falsy reads as None; a string is
   * handed to `datetime.fromisoformat`, here the parameter `parse`, which
   * fails on a text it does not accept; anything else has no `replace`.
   */
  function DateField(data: Object, key: string, parse: string -> Option<int>): (r: Result<Option<int>>)
    ensures !Truthy(Opt(data, key)) ==> r == Success(None)
  {
    var v := Opt(data, key);
    if !Truthy(v) then Success(None)
    else if !v.JStr? then Failure("'" + key + "' has no attribute 'replace'")
    else match parse(ReplaceZ(v.s))
      case None => Failure("Invalid isoformat string")
      case Some(t) => Success(Some(t))
  }

  /** `data.get('license', {}).get('name') if data.get('license') else None`. */
  function LicenseField(data: Object): Result<Json>
  {
    var v := Opt(data, "license");
    if !Truthy(v) then Success(JNull)
    else if v.JObj? then Success(Opt(v.fields, "name"))
    else Failure("'license' has no attribute 'get'")
  }

  datatype Repository = Repository(
    id: Json, name: Json, fullName: Json, owner: User, description: Json,
    isPrivate: Json, htmlUrl: Json, cloneUrl: Json, sshUrl: Json, language: Json,
    languages: Json, defaultBranch: Json, createdAt: Option<int>,
    updatedAt: Option<int>, pushedAt: Option<int>, size: Json, stars: Json,
    forks: Json, openIssues: Json, watchers: Json, archived: Json,
    disabled: Json, license: Json)

  /** `GitHubRepository.from_api_response`. */
  function RepositoryFromApi(data: Object, parse: string -> Option<int>): Result<Repository>
  {
    var owner :- SubObject(data, "owner");
    var created :- DateField(data, "created_at", parse);
    var updated :- DateField(data, "updated_at", parse);
    var pushed :- DateField(data, "pushed_at", parse);
    var license :- LicenseField(data);
    Success(Repository(
      Get(data, "id", JInt(0)), Get(data, "name", JStr("")), Get(data, "full_name", JStr("")),
      UserFromApi(owner), Opt(data, "description"), Get(data, "private", JBool(false)),
      Get(data, "html_url", JStr("")), Get(data, "clone_url", JStr("")),
      Get(data, "ssh_url", JStr("")), Opt(data, "language"),
      Get(data, "languages", JObj(map[])), Get(data, "default_branch", JStr("main")),
      created, updated, pushed, Get(data, "size", JInt(0)),
      Get(data, "stargazers_count", JInt(0)), Get(data, "forks_count", JInt(0)),
      Get(data, "open_issues_count", JInt(0)), Get(data, "watchers_count", JInt(0)),
      Get(data, "archived", JBool(false)), Get(data, "disabled", JBool(false)),
      license))
  }

  /**
   * The four counters come from GitHub's `*_count` keys, and the default
   * branch from its own key; every other field keeps its default.
   */
  lemma {:induction false} RepositoryCounters(stars: Json, forks: Json, issues: Json, watchers: Json, branch: Json, parse: string -> Option<int>)
    ensures
      var data := map["stargazers_count" := stars, "forks_count" := forks,
        "open_issues_count" := issues, "watchers_count" := watchers, "default_branch" := branch];
      var r := RepositoryFromApi(data, parse);
      r.Success? && r.value.stars == stars && r.value.forks == forks &&
      r.value.openIssues == issues && r.value.watchers == watchers &&
      r.value.defaultBranch == branch && r.value.size == JInt(0) && r.value.license == JNull
  {
    var data := map["stargazers_count" := stars, "forks_count" := forks,
      "open_issues_count" := issues, "watchers_count" := watchers, "default_branch" := branch];
    assert "owner" !in data && "license" !in data && "size" !in data;
    assert "created_at" !in data && "updated_at" !in data && "pushed_at" !in data;
  }

  /** An empty document: owner from `{}`, branch 'main', counters 0, flags False, no dates, no license. */
  lemma {:induction false} RepositoryDefaults(parse: string -> Option<int>)
    ensures RepositoryFromApi(map[], parse) == Success(Repository(
      JInt(0), JStr(""), JStr(""), UserFromApi(map[]), JNull, JBool(false),
      JStr(""), JStr(""), JStr(""), JNull, JObj(map[]), JStr("main"),
      None, None, None, JInt(0), JInt(0), JInt(0), JInt(0), JInt(0),
      JBool(false), JBool(false), JNull))
  {
  }

  /**
   * The license is None exactly when the document's license is falsy, its
   * name when it is an object, and any other truthy license aborts.
   */
  lemma {:induction false} RepositoryLicense(data: Object, parse: string -> Option<int>)
    ensures RepositoryFromApi(data, parse).Success? ==>
      var lic := Opt(data, "license");
      (Truthy(lic) ==> lic.JObj? && RepositoryFromApi(data, parse).value.license == Opt(lic.fields, "name")) &&
      (!Truthy(lic) ==> RepositoryFromApi(data, parse).value.license == JNull)
  {
  }

  // -------------------------------------------------------------- commits

  datatype Commit = Commit(
    sha: Json, message: Json, author: User, committer: User, date: int,
    htmlUrl: Json, parents: seq<Json>, stats: Json, files: Json)

  /** `[parent.get('sha', '') for parent in parents]`: iterating a dict or a string yields strings, which have no `get`. */
  function ParentShas(parents: Json): Result<seq<Json>>
  {
    match parents
    case JList(items) => ShasOf(items)
    case JObj(fields) => if fields == map[] then Success([]) else Failure("'str' object has no attribute 'get'")
    case JStr(s) => if s == [] then Success([]) else Failure("'str' object has no attribute 'get'")
    case _ => Failure("object is not iterable")
  }

  function ShasOf(items: seq<Json>): (r: Result<seq<Json>>)
    ensures r.Success? ==> |r.value| == |items|
  {
    if items == [] then Success([])
    else if !items[0].JObj? then Failure("object has no attribute 'get'")
    else
      var rest :- ShasOf(items[1..]);
      Success([Get(items[0].fields, "sha", JStr(""))] + rest)
  }

  /**
   * `GitHubCommit.from_api_response` as written: it reads the nested
   * objects and the date, then builds the author with `GitHubUser(name=…,
   * email=…, login="")`, which leaves out `id`, a field without a default,
   * so the constructor raises TypeError whatever the document holds.
   */
  function CommitFromApiAsWritten(data: Object, parse: string -> Option<int>): Result<Commit>
  {
    var commitData :- SubObject(data, "commit");
    var authorData :- SubObject(commitData, "author");
    var committerData :- SubObject(commitData, "committer");
    var date :- DateField(authorData, "date", parse);
    Failure("__init__() missing 1 required positional argument: 'id'")
  }

  /** No document decodes into a commit. */
  lemma {:induction false} CommitAsWrittenAlwaysFails(data: Object, parse: string -> Option<int>)
    ensures CommitFromApiAsWritten(data, parse).Failure?
  {
  }

  /** The author or committer of a commit: login '' and, as every other user, id 0 when the API gives none. */
  function CommitUser(d: Object): User
  {
    User(JStr(""), JInt(0), Opt(d, "name"), Opt(d, "email"), JNull, JNull, JNull, JNull, JNull,
      JInt(0), JInt(0), JInt(0))
  }

  /**
   * `GitHubCommit.from_api_response` with the author and committer given
   * `id=0`; a missing or empty author date reads as `now`.
   */
  function CommitFromApi(data: Object, parse: string -> Option<int>, now: int): Result<Commit>
  {
    var commitData :- SubObject(data, "commit");
    var authorData :- SubObject(commitData, "author");
    var committerData :- SubObject(commitData, "committer");
    var date :- DateField(authorData, "date", parse);
    var parents :- ParentShas(Get(data, "parents", JList([])));
    Success(Commit(
      Get(data, "sha", JStr("")), Get(commitData, "message", JStr("")),
      CommitUser(authorData), CommitUser(committerData), date.GetOr(now),
      Get(data, "html_url", JStr("")), parents,
      Get(data, "stats", JObj(map[])), Get(data, "files", JList([]))))
  }

  /** A commit whose author and committer carry only a name and an e-mail, as commit authors do. */
  predicate PlainCommitUsers(c: Commit)
  {
    c.author == CommitUser(map["name" := c.author.name, "email" := c.author.email]) &&
    c.committer == CommitUser(map["name" := c.committer.name, "email" := c.committer.email])
  }

  function ParentsToApi(shas: seq<Json>): (r: seq<Json>)
    ensures |r| == |shas|
  {
    if shas == [] then [] else [JObj(map["sha" := shas[0]])] + ParentsToApi(shas[1..])
  }

  /** The API document of a commit whose author date was not given. */
  function CommitToApi(c: Commit): Object
  {
    map[
      "sha" := c.sha, "html_url" := c.htmlUrl, "stats" := c.stats, "files" := c.files,
      "parents" := JList(ParentsToApi(c.parents)),
      "commit" := JObj(map[
        "message" := c.message,
        "author" := JObj(map["name" := c.author.name, "email" := c.author.email]),
        "committer" := JObj(map["name" := c.committer.name, "email" := c.committer.email])])]
  }

  lemma {:induction false} ParentsRoundTrip(shas: seq<Json>)
    ensures ShasOf(ParentsToApi(shas)) == Success(shas)
  {
    if shas != [] {
      ParentsRoundTrip(shas[1..]);
      assert ParentsToApi(shas)[1..] == ParentsToApi(shas[1..]);
      assert [shas[0]] + shas[1..] == shas;
    }
  }

  /** With the correction, decoding the document of a commit gives the commit back, its date being `now`. */
  lemma {:induction false} CommitRoundTrip(c: Commit, parse: string -> Option<int>)
    requires PlainCommitUsers(c)
    ensures CommitFromApi(CommitToApi(c), parse, c.date) == Success(c)
  {
    var data := CommitToApi(c);
    var commitData := map[
        "message" := c.message,
        "author" := JObj(map["name" := c.author.name, "email" := c.author.email]),
        "committer" := JObj(map["name" := c.committer.name, "email" := c.committer.email])];
    assert SubObject(data, "commit") == Success(commitData);
    var authorData := map["name" := c.author.name, "email" := c.author.email];
    assert SubObject(commitData, "author") == Success(authorData);
    assert SubObject(commitData, "committer") == Success(map["name" := c.committer.name, "email" := c.committer.email]);
    assert "date" !in authorData;
    ParentsRoundTrip(c.parents);
    assert ParentShas(Get(data, "parents", JList([]))) == Success(c.parents);
  }

  // ------------------------------------------------------------- branches

  datatype Branch = Branch(name: Json, commit: Commit, isProtected: Json)

  /** The document `GitHubBranch.from_api_response` hands to the commit decoder. */
  function BranchCommitDocument(data: Object): Result<Object>
  {
    var commitData :- SubObject(data, "commit");
    Success(map["sha" := Get(commitData, "sha", JStr("")), "commit" := JObj(commitData)])
  }

  /** `GitHubBranch.from_api_response` as written: it calls the commit decoder, which always raises. */
  function BranchFromApiAsWritten(data: Object, parse: string -> Option<int>): Result<Branch>
  {
    var doc :- BranchCommitDocument(data);
    var commit :- CommitFromApiAsWritten(doc, parse);
    Success(Branch(Get(data, "name", JStr("")), commit, Get(data, "protected", JBool(false))))
  }

  lemma {:induction false} BranchAsWrittenAlwaysFails(data: Object, parse: string -> Option<int>)
    ensures BranchFromApiAsWritten(data, parse).Failure?
  {
    if BranchCommitDocument(data).Success? {
      CommitAsWrittenAlwaysFails(BranchCommitDocument(data).value, parse);
    }
  }

  /** `GitHubBranch.from_api_response` over the corrected commit decoder. */
  function BranchFromApi(data: Object, parse: string -> Option<int>, now: int): Result<Branch>
  {
    var doc :- BranchCommitDocument(data);
    var commit :- CommitFromApi(doc, parse, now);
    Success(Branch(Get(data, "name", JStr("")), commit, Get(data, "protected", JBool(false))))
  }

  /**
   * With the correction, a branch whose commit object carries only a sha and
   * a message decodes: name '' and protected False by default, the commit
   * keeps its sha and message, has no parents, and is dated `now`.
   */
  lemma {:induction false} BranchOfBareCommit(name: Json, sha: Json, message: Json, parse: string -> Option<int>, now: int)
    ensures
      var data := map["name" := name, "commit" := JObj(map["sha" := sha, "message" := message])];
      var r := BranchFromApi(data, parse, now);
      r.Success? && r.value.name == name && r.value.isProtected == JBool(false) &&
      r.value.commit.sha == sha && r.value.commit.message == message &&
      r.value.commit.parents == [] && r.value.commit.date == now
  {
    var data := map["name" := name, "commit" := JObj(map["sha" := sha, "message" := message])];
    var doc := map["sha" := sha, "commit" := JObj(map["sha" := sha, "message" := message])];
    assert BranchCommitDocument(data) == Success(doc);
  }

  // --------------------------------------------------------- file changes

  datatype FileChange = FileChange(
    filename: Json, status: Json, additions: Json, deletions: Json, changes: Json,
    patch: Json, previousFilename: Json)

  /** `GitHubFileChange.from_api_response`. */
  function FileChangeFromApi(data: Object): FileChange
  {
    FileChange(
      Get(data, "filename", JStr("")), Get(data, "status", JStr("")),
      Get(data, "additions", JInt(0)), Get(data, "deletions", JInt(0)),
      Get(data, "changes", JInt(0)), Opt(data, "patch"), Opt(data, "previous_filename"))
  }

  function FileChangeToApi(f: FileChange): Object
  {
    map[
      "filename" := f.filename, "status" := f.status, "additions" := f.additions,
      "deletions" := f.deletions, "changes" := f.changes, "patch" := f.patch,
      "previous_filename" := f.previousFilename]
  }

  lemma {:induction false} FileChangeRoundTrip(f: FileChange)
    ensures FileChangeFromApi(FileChangeToApi(f)) == f
  {
  }

  /** Missing keys: filename and status '', counts 0, patch and previous name None. */
  lemma {:induction false} FileChangeDefaults()
    ensures FileChangeFromApi(map[]) ==
      FileChange(JStr(""), JStr(""), JInt(0), JInt(0), JInt(0), JNull, JNull)
  {
  }

  // ----------------------------------------------------------- rate limits

  /**
   * A rate limit; `reset` is the local wall-clock reading `datetime.fromtimestamp`
   * gives, in seconds from 1970-01-01T00:00:00.
   */
  datatype RateLimit = RateLimit(limit: int, remaining: int, reset: int, used: int, resource: string)

  /** Seconds from 1970-01-01T00:00:00 back to 0001-01-01T00:00:00, the first second a `datetime` holds. */
  const FirstTimestamp: int := -62135596800

  /** Seconds from 1970-01-01T00:00:00 to 9999-12-31T23:59:59, the last second a `datetime` holds. */
  const LastTimestamp: int := 253402300799

  /** A reading a `datetime` can hold: a year from 1 to 9999. */
  predicate Representable(seconds: int)
  {
    FirstTimestamp <= seconds <= LastTimestamp
  }

  /**
   * `datetime.fromtimestamp(seconds)` where the local zone is `offset`
   * seconds ahead of UTC: the local reading, or the error raised when it
   * falls outside the years `datetime` holds.
   */
  function FromTimestamp(seconds: int, offset: int): (r: Result<int>)
    ensures r.Success? <==> Representable(seconds + offset)
    ensures r.Success? ==> r.value - offset == seconds
  {
    if Representable(seconds + offset) then Success(seconds + offset) else Failure("year is out of range")
  }

  /** The rate-limit headers the API sends. */
  const LimitHeader := "x-ratelimit-limit"
  const RemainingHeader := "x-ratelimit-remaining"
  const ResetHeader := "x-ratelimit-reset"
  const UsedHeader := "x-ratelimit-used"
  const ResourceHeader := "x-ratelimit-resource"

  /** No two of them are the same name. */
  lemma RateLimitHeadersDiffer()
    ensures LimitHeader != RemainingHeader && LimitHeader != ResetHeader && LimitHeader != UsedHeader
    ensures LimitHeader != ResourceHeader && RemainingHeader != ResetHeader && RemainingHeader != UsedHeader
    ensures RemainingHeader != ResourceHeader && ResetHeader != UsedHeader && ResetHeader != ResourceHeader
    ensures UsedHeader != ResourceHeader
  {
    assert |LimitHeader| == 17 && |RemainingHeader| == 21 && |ResetHeader| == 17;
    assert |UsedHeader| == 16 && |ResourceHeader| == 20;
    assert LimitHeader[12] != ResetHeader[12];
  }

  /** `int(headers.get(key, 0))`: a missing header is 0, a header `int` rejects raises ValueError. */
  function IntHeader(headers: map<string, string>, key: string): Result<int>
  {
    if key !in headers then Success(0)
    else match ParseInt(headers[key])
      case None => Failure("invalid literal for int() with base 10")
      case Some(n) => Success(n)
  }

  /**
   * `GitHubRateLimit.from_headers` where the local zone is `offset` seconds
   * ahead of UTC: the reset is read and converted first, then the counts.
   */
  function RateLimitFromHeaders(headers: map<string, string>, offset: int): Result<RateLimit>
  {
    var reset :- ResetOf(headers, offset);
    var limit :- IntHeader(headers, LimitHeader);
    var remaining :- IntHeader(headers, RemainingHeader);
    var used :- IntHeader(headers, UsedHeader);
    var resource := if ResourceHeader in headers then headers[ResourceHeader] else "";
    Success(RateLimit(limit, remaining, reset, used, resource))
  }

  /** `datetime.fromtimestamp(int(headers.get('x-ratelimit-reset', 0)))`. */
  function ResetOf(headers: map<string, string>, offset: int): Result<int>
  {
    var seconds :- IntHeader(headers, ResetHeader);
    FromTimestamp(seconds, offset)
  }

  /** The headers the API sends for a rate limit, the reset as a UTC timestamp. */
  function RateLimitToHeaders(r: RateLimit, offset: int): map<string, string>
  {
    map[
      LimitHeader := IntText(r.limit), RemainingHeader := IntText(r.remaining),
      ResetHeader := IntText(r.reset - offset), UsedHeader := IntText(r.used),
      ResourceHeader := r.resource]
  }

  /**
   * Reading the headers of a rate limit whose reset a `datetime` can hold
   * gives it back: every count is parsed from its decimal text, and the
   * timestamp is converted back to the local reading.
   */
  lemma {:induction false} RateLimitRoundTrip(r: RateLimit, offset: int)
    requires Representable(r.reset)
    ensures RateLimitFromHeaders(RateLimitToHeaders(r, offset), offset) == Success(r)
  {
    var h := RateLimitToHeaders(r, offset);
    RateLimitHeadersDiffer();
    assert h[LimitHeader] == IntText(r.limit) && h[RemainingHeader] == IntText(r.remaining);
    assert h[ResetHeader] == IntText(r.reset - offset) && h[UsedHeader] == IntText(r.used);
    assert h[ResourceHeader] == r.resource;
    RateLimitReadBack(h, offset, r);
  }

  /** Headers holding the decimal texts of a rate limit's fields read back as that rate limit. */
  lemma {:induction false} RateLimitReadBack(headers: map<string, string>, offset: int, r: RateLimit)
    requires Representable(r.reset)
    requires LimitHeader in headers && headers[LimitHeader] == IntText(r.limit)
    requires RemainingHeader in headers && headers[RemainingHeader] == IntText(r.remaining)
    requires ResetHeader in headers && headers[ResetHeader] == IntText(r.reset - offset)
    requires UsedHeader in headers && headers[UsedHeader] == IntText(r.used)
    requires ResourceHeader in headers && headers[ResourceHeader] == r.resource
    ensures RateLimitFromHeaders(headers, offset) == Success(r)
  {
    var n := r.reset - offset;
    assert FromTimestamp(n, offset) == Success(r.reset);
    ResetOfText(headers, offset, n);
    IntHeaderOfText(headers, LimitHeader, r.limit);
    IntHeaderOfText(headers, RemainingHeader, r.remaining);
    IntHeaderOfText(headers, UsedHeader, r.used);
    RateLimitOfFields(headers, offset, r);
  }

  /** Fields each read successfully make up the rate limit. */
  lemma {:induction false} RateLimitOfFields(headers: map<string, string>, offset: int, r: RateLimit)
    requires ResetOf(headers, offset) == Success(r.reset)
    requires IntHeader(headers, LimitHeader) == Success(r.limit) && IntHeader(headers, RemainingHeader) == Success(r.remaining)
    requires IntHeader(headers, UsedHeader) == Success(r.used)
    requires ResourceHeader in headers && headers[ResourceHeader] == r.resource
    ensures RateLimitFromHeaders(headers, offset) == Success(r)
  {
  }

  lemma {:induction false} ResetOfText(headers: map<string, string>, offset: int, n: int)
    requires ResetHeader in headers && headers[ResetHeader] == IntText(n)
    ensures ResetOf(headers, offset) == FromTimestamp(n, offset)
  {
    IntHeaderOfText(headers, ResetHeader, n);
  }

  /** A reset timestamp whose local reading lies outside the years 1 to 9999 makes `from_headers` raise. */
  lemma {:induction false} RateLimitResetOutOfRange(headers: map<string, string>, offset: int, n: int)
    requires ResetHeader in headers && headers[ResetHeader] == IntText(n)
    requires !Representable(n + offset)
    ensures RateLimitFromHeaders(headers, offset).Failure?
  {
    ResetOfText(headers, offset, n);
  }

  lemma {:induction false} IntHeaderOfText(headers: map<string, string>, key: string, n: int)
    requires key in headers && headers[key] == IntText(n)
    ensures IntHeader(headers, key) == Success(n)
  {
    ParseIntText(n);
  }

  /**
   * Without rate-limit headers every count is 0, the resource is '' and the
   * reset is the epoch read in the local zone (whose offset is under a day).
   */
  lemma {:induction false} RateLimitDefaults(headers: map<string, string>, offset: int)
    requires forall k <- headers :: !StartsWith(k, "x-ratelimit-")
    requires -86400 < offset < 86400
    ensures RateLimitFromHeaders(headers, offset) == Success(RateLimit(0, 0, offset, 0, ""))
  {
    assert StartsWith(ResetHeader, "x-ratelimit-");
    assert StartsWith(LimitHeader, "x-ratelimit-");
    assert StartsWith(RemainingHeader, "x-ratelimit-");
    assert StartsWith(UsedHeader, "x-ratelimit-");
    assert StartsWith(ResourceHeader, "x-ratelimit-");
  }

  // ---------------------------------------------------------------- errors

  datatype Error = Error(message: Json, documentationUrl: Json, errors: Json)

  /** `GitHubError.from_api_response`. */
  function ErrorFromApi(data: Object): Error
  {
    Error(Get(data, "message", JStr("")), Opt(data, "documentation_url"), Get(data, "errors", JList([])))
  }

  /** Missing keys: message '', no documentation link, no errors. */
  lemma {:induction false} ErrorDefaults(data: Object)
    requires "message" !in data && "documentation_url" !in data && "errors" !in data
    ensures ErrorFromApi(data) == Error(JStr(""), JNull, JList([]))
  {
  }

  lemma {:induction false} ErrorRoundTrip(e: Error)
    ensures ErrorFromApi(map["message" := e.message, "documentation_url" := e.documentationUrl, "errors" := e.errors]) == e
  {
  }
}
