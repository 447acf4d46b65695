// The application settings: nested dictionaries addressed with dotted keys
// ("ui.window_width"), seeded from built-in defaults.
//
// Python dictionaries are objects, and the settings copy the defaults
// shallowly, so a nested dictionary can be reachable both from the live
// settings and from the defaults. The model therefore keeps the dictionaries
// on a small heap: a `Value` is a plain value or a reference to a dictionary.
module Settings {
  import opened Wrappers
  import opened Text

  /** A setting that is not a dictionary (the JSON scalars and lists). */
  datatype Atom = ANone | ABool(b: bool) | AInt(i: int) | AReal(r: real) | AStr(s: string) | AList(items: seq<Atom>)

  /** A stored value: a plain value, or a reference to a dictionary object. */
  datatype Value = Leaf(atom: Atom) | Ref(id: nat)

  type Dict = map<string, Value>
  type Heap = map<nat, Dict>

  /** Every reference held by a dictionary names a dictionary of the heap. */
  ghost predicate Closed(heap: Heap)
  {
    forall id, k | id in heap && k in heap[id] :: heap[id][k].Ref? ==> heap[id][k].id in heap
  }

  /**
   * Follows `keys` from `v`, as `get` does with `value = value[k]`: a missing
   * key (KeyError) or indexing a plain value (TypeError) gives None, where the
   * source returns the caller's default.
   */
  function Resolve(heap: Heap, v: Value, keys: seq<string>): Option<Value>
    decreases |keys|
  {
    if keys == [] then Some(v)
    else match v
      case Leaf(_) => None
      case Ref(id) =>
        if id !in heap || keys[0] !in heap[id] then None
        else Resolve(heap, heap[id][keys[0]], keys[1..])
  }

  /** The dotted key as a path: `key.split('.')`. */
  function Path(key: string): seq<string>
  {
    Split(key, '.')
  }

  function Prefix(keys: seq<string>): seq<string>
    requires |keys| >= 1
  {
    keys[..|keys| - 1]
  }

  function Last(keys: seq<string>): string
    requires |keys| >= 1
  {
    keys[|keys| - 1]
  }

  datatype SetOutcome = SetOutcome(heap: Heap, next: nat, ok: bool)

  /**
   * The effect of `set`: walk all keys but the last from dictionary `node`,
   * creating an empty dictionary for each missing key, then store `value`
   * under the last key. Meeting a plain value on the way raises TypeError
   * (`ok` is false) and keeps the dictionaries created so far. `next` is the
   * first unused object id.
   */
  function SetPath(heap: Heap, next: nat, node: nat, keys: seq<string>, value: Value): SetOutcome
    requires |keys| >= 1
    decreases |keys|
  {
    if node !in heap then SetOutcome(heap, next, false)
    else if |keys| == 1 then SetOutcome(heap[node := heap[node][keys[0] := value]], next, true)
    else if keys[0] !in heap[node] then
      var h := heap[next := map[]][node := heap[node][keys[0] := Ref(next)]];
      SetPath(h, next + 1, next, keys[1..], value)
    else match heap[node][keys[0]]
      case Ref(id) => SetPath(heap, next, id, keys[1..], value)
      case Leaf(_) => SetOutcome(heap, next, false)
  }

  /** The walk of `set` can proceed: every key is missing, or names a dictionary, up to the first missing one. */
  predicate OpenPath(heap: Heap, node: nat, keys: seq<string>)
    decreases |keys|
  {
    node in heap &&
    (keys == [] || keys[0] !in heap[node] ||
     (heap[node][keys[0]].Ref? && OpenPath(heap, heap[node][keys[0]].id, keys[1..])))
  }

  // ------------------------------------------------------------ merging

  /** A settings document as loaded from JSON: nested dictionaries with plain values at the leaves. */
  datatype Tree = Branch(entries: map<string, Tree>) | Plain(atom: Atom)

  /**
   * `_merge_settings(base, override)`: every key of either side; where both
   * sides hold a dictionary the two are merged, otherwise the override wins.
   */
  function Merge(base: map<string, Tree>, over: map<string, Tree>): (r: map<string, Tree>)
    ensures r.Keys == base.Keys + over.Keys
    decreases Branch(over)
  {
    map k | k in base.Keys + over.Keys ::
      if k in over then
        (if over[k].Branch? && k in base && base[k].Branch?
         then Branch(Merge(base[k].entries, over[k].entries))
         else over[k])
      else base[k]
  }

  function TreeLookup(t: Tree, keys: seq<string>): Option<Tree>
    decreases |keys|
  {
    if keys == [] then Some(t)
    else match t
      case Plain(_) => None
      case Branch(m) => if keys[0] in m then TreeLookup(m[keys[0]], keys[1..]) else None
  }

  /** A plain value found along a path of the override is what the merged settings hold there. */
  lemma {:induction false} MergeOverrideWins(base: map<string, Tree>, over: map<string, Tree>, keys: seq<string>, a: Atom)
    requires TreeLookup(Branch(over), keys) == Some(Plain(a))
    ensures TreeLookup(Branch(Merge(base, over)), keys) == Some(Plain(a))
    decreases |keys|
  {
    assert keys != [];
    var k := keys[0];
    var m := Merge(base, over);
    if over[k].Branch? && k in base && base[k].Branch? {
      MergeOverrideWins(base[k].entries, over[k].entries, keys[1..], a);
    } else {
      assert m[k] == over[k];
    }
  }

  /** A path whose first key the override does not mention reads as in the base. */
  lemma {:induction false} MergeKeepsUntouched(base: map<string, Tree>, over: map<string, Tree>, keys: seq<string>)
    requires keys != [] && keys[0] !in over
    ensures TreeLookup(Branch(Merge(base, over)), keys) == TreeLookup(Branch(base), keys)
  {
  }

  // ------------------------------------------------------------ lemmas on the heap

  /** A path that never uses key `k` reads the same after a write under `k`. */
  lemma {:induction false} ResolveIgnoresOtherKey(heap: Heap, f: nat, k: string, x: Value, v: Value, keys: seq<string>)
    requires f in heap && k !in keys
    ensures Resolve(heap[f := heap[f][k := x]], v, keys) == Resolve(heap, v, keys)
    decreases |keys|
  {
    if keys != [] && v.Ref? && v.id in heap && keys[0] in heap[v.id] {
      ResolveIgnoresOtherKey(heap, f, k, x, heap[v.id][keys[0]], keys[1..]);
    }
  }

  /** Following `p + q` is following `p`, then `q` from where `p` led. */
  lemma {:induction false} ResolveAppend(heap: Heap, v: Value, p: seq<string>, q: seq<string>)
    ensures Resolve(heap, v, p + q) ==
      match Resolve(heap, v, p) { case None => None case Some(w) => Resolve(heap, w, q) }
    decreases |p|
  {
    if p != [] {
      var pq := p + q;
      assert pq != [] && pq[0] == p[0] && pq[1..] == p[1..] + q;
      if v.Ref? && v.id in heap && p[0] in heap[v.id] {
        ResolveAppend(heap, heap[v.id][p[0]], p[1..], q);
        assert Resolve(heap, v, pq) == Resolve(heap, heap[v.id][p[0]], p[1..] + q);
        assert Resolve(heap, v, p) == Resolve(heap, heap[v.id][p[0]], p[1..]);
      } else {
        assert Resolve(heap, v, pq) == None;
        assert Resolve(heap, v, p) == None;
      }
    } else {
      assert p + q == q;
    }
  }

  /** When the parent dictionary exists, `set` is one write into it. */
  lemma {:induction false} SetIntoExistingParent(heap: Heap, next: nat, node: nat, keys: seq<string>, value: Value, f: nat)
    requires |keys| >= 1 && f in heap
    requires Resolve(heap, Ref(node), Prefix(keys)) == Some(Ref(f))
    ensures SetPath(heap, next, node, keys, value) == SetOutcome(heap[f := heap[f][Last(keys) := value]], next, true)
    decreases |keys|
  {
    if |keys| > 1 {
      assert Prefix(keys) == [keys[0]] + Prefix(keys[1..]);
      var w := heap[node][keys[0]];
      assert Resolve(heap, w, Prefix(keys[1..])) == Some(Ref(f));
      SetIntoExistingParent(heap, next, w.id, keys[1..], value, f);
    }
  }

  /**
   * After a `set` whose parent dictionary already exists, the key reads back as
   * the stored value, from the settings and from every other root that reaches
   * the same parent dictionary (the defaults, when the two share it).
   */
  lemma {:induction false} SetWritesThroughSharedParent(
    heap: Heap, next: nat, node: nat, other: nat, keys: seq<string>, value: Value, f: nat)
    requires |keys| >= 1 && f in heap && Last(keys) !in Prefix(keys)
    requires Resolve(heap, Ref(node), Prefix(keys)) == Some(Ref(f))
    requires Resolve(heap, Ref(other), Prefix(keys)) == Some(Ref(f))
    ensures SetPath(heap, next, node, keys, value).ok
    ensures Resolve(SetPath(heap, next, node, keys, value).heap, Ref(node), keys) == Some(value)
    ensures Resolve(SetPath(heap, next, node, keys, value).heap, Ref(other), keys) == Some(value)
  {
    SetIntoExistingParent(heap, next, node, keys, value, f);
    var h := heap[f := heap[f][Last(keys) := value]];
    assert keys == Prefix(keys) + [Last(keys)];
    ResolveIgnoresOtherKey(heap, f, Last(keys), value, Ref(node), Prefix(keys));
    ResolveIgnoresOtherKey(heap, f, Last(keys), value, Ref(other), Prefix(keys));
    ResolveAppend(h, Ref(node), Prefix(keys), [Last(keys)]);
    ResolveAppend(h, Ref(other), Prefix(keys), [Last(keys)]);
  }

  /** A walk that starts at a fresh, empty dictionary only creates dictionaries, so it succeeds. */
  lemma {:induction false} SetFromEmptySucceeds(heap: Heap, next: nat, node: nat, keys: seq<string>, value: Value)
    requires |keys| >= 1 && node in heap && heap[node] == map[]
    requires forall id | id in heap :: id < next
    ensures SetPath(heap, next, node, keys, value).ok
    decreases |keys|
  {
    if |keys| > 1 {
      var h := heap[next := map[]][node := heap[node][keys[0] := Ref(next)]];
      SetFromEmptySucceeds(h, next + 1, next, keys[1..], value);
    }
  }

  /** `set` raises exactly when its walk meets a plain value before the last key. */
  lemma {:induction false} SetSucceedsIffOpenPath(heap: Heap, next: nat, node: nat, keys: seq<string>, value: Value)
    requires |keys| >= 1
    requires forall id | id in heap :: id < next
    ensures SetPath(heap, next, node, keys, value).ok <==> OpenPath(heap, node, Prefix(keys))
    decreases |keys|
  {
    if node in heap && |keys| > 1 {
      assert Prefix(keys) == [keys[0]] + Prefix(keys[1..]);
      if keys[0] !in heap[node] {
        var h := heap[next := map[]][node := heap[node][keys[0] := Ref(next)]];
        SetFromEmptySucceeds(h, next + 1, next, keys[1..], value);
      } else if heap[node][keys[0]].Ref? {
        SetSucceedsIffOpenPath(heap, next, heap[node][keys[0]].id, keys[1..], value);
      }
    }
  }

  /** Two dictionaries with the same entries answer every non-empty path alike. */
  lemma {:induction false} SameEntriesSameLookup(heap: Heap, a: nat, b: nat, keys: seq<string>)
    requires a in heap && b in heap && heap[a] == heap[b] && keys != []
    ensures Resolve(heap, Ref(a), keys) == Resolve(heap, Ref(b), keys)
  {
  }

  /** In a closed heap, a lookup from a dictionary of the heap only reaches dictionaries of the heap. */
  lemma {:induction false} ResolveInHeap(heap: Heap, v: Value, keys: seq<string>)
    requires Closed(heap) && (v.Ref? ==> v.id in heap)
    ensures Resolve(heap, v, keys).Some? && Resolve(heap, v, keys).value.Ref? ==> Resolve(heap, v, keys).value.id in heap
    decreases |keys|
  {
    if keys != [] && v.Ref? && keys[0] in heap[v.id] {
      ResolveInHeap(heap, heap[v.id][keys[0]], keys[1..]);
    }
  }

  /** Adding a dictionary nothing refers to changes no lookup from an existing one. */
  lemma {:induction false} FreshNodeInvisible(heap: Heap, n: nat, d: Dict, v: Value, keys: seq<string>)
    requires Closed(heap) && n !in heap
    requires v.Ref? ==> v.id in heap
    ensures Resolve(heap[n := d], v, keys) == Resolve(heap, v, keys)
    decreases |keys|
  {
    if keys != [] && v.Ref? && keys[0] in heap[v.id] {
      FreshNodeInvisible(heap, n, d, heap[v.id][keys[0]], keys[1..]);
    }
  }

  /** `nw` keeps every dictionary of `od` and every entry of it, except possibly those under key `k`. */
  ghost predicate Extends(od: Heap, nw: Heap, k: string)
  {
    od.Keys <= nw.Keys &&
    forall id, j | id in od && j in od[id] && j != k :: j in nw[id] && nw[id][j] == od[id][j]
  }

  /** `set` adds dictionaries and entries but changes no existing entry other than under its last key. */
  lemma {:induction false} SetKeepsOtherEntries(heap: Heap, next: nat, node: nat, keys: seq<string>, value: Value)
    requires |keys| >= 1
    requires forall id | id in heap :: id < next
    ensures Extends(heap, SetPath(heap, next, node, keys, value).heap, Last(keys))
    ensures forall id | id in SetPath(heap, next, node, keys, value).heap :: id < SetPath(heap, next, node, keys, value).next
    decreases |keys|
  {
    if node in heap && |keys| > 1 {
      assert Last(keys[1..]) == Last(keys);
      if keys[0] !in heap[node] {
        var h := heap[next := map[]][node := heap[node][keys[0] := Ref(next)]];
        assert SetPath(heap, next, node, keys, value) == SetPath(h, next + 1, next, keys[1..], value);
        SetKeepsOtherEntries(h, next + 1, next, keys[1..], value);
        NewEntryExtends(heap, next, node, keys[0], Last(keys));
        ExtendsTransitive(heap, h, SetPath(h, next + 1, next, keys[1..], value).heap, Last(keys));
      } else if heap[node][keys[0]].Ref? {
        SetKeepsOtherEntries(heap, next, heap[node][keys[0]].id, keys[1..], value);
      }
    }
  }

  /** Adding a fresh dictionary and a missing entry pointing to it keeps every existing entry. */
  lemma {:induction false} NewEntryExtends(heap: Heap, next: nat, node: nat, key: string, k: string)
    requires node in heap && key !in heap[node] && next !in heap
    ensures Extends(heap, heap[next := map[]][node := heap[node][key := Ref(next)]], k)
  {
  }

  lemma {:induction false} ExtendsTransitive(a: Heap, b: Heap, c: Heap, k: string)
    requires Extends(a, b, k) && Extends(b, c, k)
    ensures Extends(a, c, k)
  {
  }

  /** A lookup that succeeded keeps its answer in a heap that extends this one, when its path avoids `k`. */
  lemma {:induction false} ResolveUnderExtends(od: Heap, nw: Heap, k: string, v: Value, keys: seq<string>, x: Value)
    requires Extends(od, nw, k) && k !in keys
    requires Resolve(od, v, keys) == Some(x)
    ensures Resolve(nw, v, keys) == Some(x)
    decreases |keys|
  {
    if keys != [] {
      ResolveUnderExtends(od, nw, k, od[v.id][keys[0]], keys[1..], x);
    }
  }

  /** After a successful `set`, reading the same key gives the stored value (when the last key does not repeat earlier in the path). */
  lemma {:induction false} SetThenGet(heap: Heap, next: nat, node: nat, keys: seq<string>, value: Value)
    requires |keys| >= 1 && Last(keys) !in Prefix(keys)
    requires forall id | id in heap :: id < next
    requires SetPath(heap, next, node, keys, value).ok
    ensures Resolve(SetPath(heap, next, node, keys, value).heap, Ref(node), keys) == Some(value)
    decreases |keys|
  {
    var out := SetPath(heap, next, node, keys, value);
    if |keys| > 1 {
      assert Last(keys[1..]) == Last(keys);
      assert Prefix(keys[1..]) == Prefix(keys)[1..];
      assert keys[0] in Prefix(keys);
      if keys[0] !in heap[node] {
        var h := heap[next := map[]][node := heap[node][keys[0] := Ref(next)]];
        SetThenGet(h, next + 1, next, keys[1..], value);
        SetKeepsOtherEntries(h, next + 1, next, keys[1..], value);
      } else {
        var id := heap[node][keys[0]].id;
        SetThenGet(heap, next, id, keys[1..], value);
        SetKeepsOtherEntries(heap, next, id, keys[1..], value);
      }
    }
  }

  lemma {:induction false} SetPathCreates(heap: Heap, next: nat, node: nat, keys: seq<string>, value: Value)
    requires |keys| > 1 && node in heap && keys[0] !in heap[node]
    ensures SetPath(heap, next, node, keys, value) ==
      SetPath(heap[next := map[]][node := heap[node][keys[0] := Ref(next)]], next + 1, next, keys[1..], value)
  {
  }

  lemma {:induction false} SetPathFollows(heap: Heap, next: nat, node: nat, keys: seq<string>, value: Value)
    requires |keys| > 1 && node in heap && keys[0] in heap[node]
    ensures heap[node][keys[0]].Ref? ==>
      SetPath(heap, next, node, keys, value) == SetPath(heap, next, heap[node][keys[0]].id, keys[1..], value)
    ensures heap[node][keys[0]].Leaf? ==> SetPath(heap, next, node, keys, value) == SetOutcome(heap, next, false)
  {
  }

  lemma {:induction false} CreateKeepsClosed(heap: Heap, next: nat, node: nat, k: string)
    requires Closed(heap) && node in heap && next !in heap
    ensures Closed(heap[next := map[]][node := heap[node][k := Ref(next)]])
  {
  }

  lemma {:induction false} WriteKeepsClosed(heap: Heap, node: nat, k: string, v: Value)
    requires Closed(heap) && node in heap && (v.Ref? ==> v.id in heap)
    ensures Closed(heap[node := heap[node][k := v]])
  {
  }

  /**
   * The loop of `set` over a heap of dictionaries: walks `keys` from
   * dictionary `start`, creating missing dictionaries, and stores `value`
   * under the last key.
   */
  method WriteAlongPath(heap: Heap, next: nat, start: nat, keys: seq<string>, value: Value)
    returns (h: Heap, n: nat, ok: bool)
    requires |keys| >= 1 && Closed(heap) && start in heap && (value.Ref? ==> value.id in heap)
    requires forall id | id in heap :: id < next
    ensures SetOutcome(h, n, ok) == SetPath(heap, next, start, keys, value)
    ensures Closed(h) && heap.Keys <= h.Keys && forall id | id in h :: id < n
  {
    var node := start;
    h, n, ok := heap, next, true;
    var i := 0;
    while i < |keys| - 1
      invariant 0 <= i < |keys|
      invariant Closed(h) && node in h && heap.Keys <= h.Keys
      invariant forall id | id in h :: id < n
      invariant SetPath(heap, next, start, keys, value) ==
        if ok then SetPath(h, n, node, keys[i..], value) else SetOutcome(h, n, false)
      decreases |keys| - i, ok
    {
      var k := keys[i];
      assert keys[i..][0] == k && keys[i..][1..] == keys[i + 1..];
      if k !in h[node] {
        CreateKeepsClosed(h, n, node, k);
        SetPathCreates(h, n, node, keys[i..], value);
        h := h[n := map[]][node := h[node][k := Ref(n)]];
        node := n;
        n := n + 1;
      } else {
        SetPathFollows(h, n, node, keys[i..], value);
        match h[node][k] {
          case Leaf(_) =>
            ok := false;
            break;
          case Ref(id) =>
            node := id;
        }
      }
      i := i + 1;
    }
    if ok {
      assert keys[i..] == [keys[|keys| - 1]];
      WriteKeepsClosed(h, node, keys[|keys| - 1], value);
      h := h[node := h[node][keys[|keys| - 1] := value]];
    }
  }

  // ------------------------------------------------------------ the settings object

  const DefaultPromptText: string :=
    "Write a concise informative but interesting development blog entry " +
    "for each commit message (if you think it warrants a blog entry) if you think " +
    "it is interesting enough to post about. Keep the wording professional, " +
    "in the first person. Sign with the committer's name."

  function S(s: string): Value { Leaf(AStr(s)) }

  /** `_get_default_settings()`, one dictionary object per level; 0 is the top level. */
  function DefaultHeap(): Heap
  {
    var model := map["max_tokens" := Leaf(AInt(2000)), "temperature" := Leaf(AReal(0.7))];
    map[
      0 := map["app" := Ref(1), "paths" := Ref(2), "github" := Ref(3),
               "ai" := Ref(4), "ui" := Ref(9), "blog" := Ref(10)],
      1 := map["name" := S("DevBlogger"), "version" := S("0.1.0"), "debug" := Leaf(ABool(false))],
      2 := map["generated_entries" := S("Generated_entries"), "logs" := S("logs"),
               "database" := S("devblogger.db")],
      3 := map["client_id" := S(""), "client_secret" := S(""),
               "redirect_uri" := S("http://localhost:8080/callback"), "scope" := S("read:user repo"),
               "api_base_url" := S("https://api.github.com")],
      4 := map["default_provider" := S("chatgpt"), "providers" := Ref(5)],
      5 := map["chatgpt" := Ref(6), "gemini" := Ref(7), "ollama" := Ref(8)],
      6 := model["api_key" := S("")]["model" := S("gpt-4")],
      7 := model["api_key" := S("")]["model" := S("gemini-pro")],
      8 := model["base_url" := S("http://localhost:11434")]["model" := S("llama2")],
      9 := map["theme" := S("system"), "window_width" := Leaf(AInt(1200)),
               "window_height" := Leaf(AInt(800)), "default_prompt" := S(DefaultPromptText)],
      10 := map["file_extension" := S(".md"), "include_commit_hashes" := Leaf(ABool(true)),
                "include_timestamps" := Leaf(ABool(true)), "auto_save" := Leaf(ABool(true))]]
  }

  /** The heap right after construction: the defaults and, as object 11, their shallow copy. */
  function InitialHeap(): Heap
  {
    DefaultHeap()[11 := DefaultHeap()[0]]
  }

  lemma {:induction false} DefaultHeapClosed()
    ensures Closed(InitialHeap())
    ensures forall id | id in InitialHeap() :: id < 12
  {
    DefaultHeapBounded();
  }

  lemma {:induction false} DefaultHeapBounded()
    ensures forall id | id in InitialHeap() :: id < 12
  {
  }

  /** What `get_ai_provider_config` gives: the entry, `{}`, or AttributeError when `ai.providers` is a plain value. */
  datatype ConfigLookup = Found(v: Value) | EmptyDict | NotADict

  function ProviderConfigIn(heap: Heap, root: nat, provider: string): ConfigLookup
  {
    match Resolve(heap, Ref(root), ["ai", "providers"])
    case None => EmptyDict
    case Some(Leaf(_)) => NotADict
    case Some(Ref(id)) =>
      if id !in heap then NotADict
      else if provider in heap[id] then Found(heap[id][provider])
      else EmptyDict
  }

  /** A dictionary of plain values. */
  function AsDict(config: map<string, Atom>): Dict
  {
    map k | k in config :: Leaf(config[k])
  }

  /** The state `set_ai_provider_config` hands to its final `set`: the heap, the next id and the providers dictionary. */
  datatype Staged = Staged(heap: Heap, next: nat, providers: Value)

  /**
   * The steps of `set_ai_provider_config` before its final `set`: the new
   * configuration object is `next`; a missing `ai.providers` becomes the new
   * dictionary `next + 1`; a plain value there makes the item assignment raise
   * TypeError (None).
   */
  function StageProviderConfig(heap: Heap, next: nat, root: nat, provider: string, d: Dict): Option<Staged>
  {
    var h := heap[next := d];
    match Resolve(h, Ref(root), ["ai", "providers"])
    case Some(Leaf(_)) => None
    case Some(Ref(id)) =>
      if id !in h then None
      else Some(Staged(h[id := h[id][provider := Ref(next)]], next + 1, Ref(id)))
    case None =>
      Some(Staged(h[next + 1 := map[provider := Ref(next)]], next + 2, Ref(next + 1)))
  }

  /** The staging step read off the value `get("ai.providers", {})` returns, the default `{}` being object `next + 1`. */
  lemma {:induction false} StageFromLookup(heap: Heap, next: nat, root: nat, provider: string, config: map<string, Atom>, pv: Value)
    requires Closed(heap) && root in heap && forall id | id in heap :: id < next
    requires pv == Resolve(heap[next := AsDict(config)], Ref(root), ["ai", "providers"]).GetOr(Ref(next + 1))
    ensures var h := heap[next := AsDict(config)];
      var st := StageProviderConfig(heap, next, root, provider, AsDict(config));
      && (pv.Leaf? ==> st == None)
      && (pv.Ref? && pv.id == next + 1 ==> st == Some(Staged(h[next + 1 := map[provider := Ref(next)]], next + 2, pv)))
      && (pv.Ref? && pv.id != next + 1 ==> pv.id in h && st == Some(Staged(h[pv.id := h[pv.id][provider := Ref(next)]], next + 1, pv)))
  {
    FreshNodeInvisible(heap, next, AsDict(config), Ref(root), ["ai", "providers"]);
    ResolveInHeap(heap, Ref(root), ["ai", "providers"]);
  }

  /** The effect of `set_ai_provider_config`. */
  function StoreProviderConfig(heap: Heap, next: nat, root: nat, provider: string, d: Dict): SetOutcome
  {
    match StageProviderConfig(heap, next, root, provider, d)
    case None => SetOutcome(heap[next := d], next + 1, false)
    case Some(st) => SetPath(st.heap, st.next, root, ["ai", "providers"], st.providers)
  }

  /** `set` on a two-part key, spelled out: create the missing parent, or write into the existing one, or raise. */
  lemma {:induction false} SetPathTwoKeys(heap: Heap, next: nat, node: nat, k1: string, k2: string, v: Value)
    requires node in heap && next !in heap
    ensures k1 !in heap[node] ==>
      SetPath(heap, next, node, [k1, k2], v) ==
      SetOutcome(heap[next := map[k2 := v]][node := heap[node][k1 := Ref(next)]], next + 1, true)
    ensures k1 in heap[node] && heap[node][k1].Ref? && heap[node][k1].id in heap ==>
      SetPath(heap, next, node, [k1, k2], v) ==
      SetOutcome(heap[heap[node][k1].id := heap[heap[node][k1].id][k2 := v]], next, true)
    ensures k1 in heap[node] && heap[node][k1].Leaf? ==> !SetPath(heap, next, node, [k1, k2], v).ok
  {
    if k1 !in heap[node] {
      var h := heap[next := map[]][node := heap[node][k1 := Ref(next)]];
      assert [k1, k2][1..] == [k2];
      assert h[next := h[next][k2 := v]] == heap[next := map[k2 := v]][node := heap[node][k1 := Ref(next)]];
    } else if heap[node][k1].Ref? {
      assert [k1, k2][1..] == [k2];
    }
  }

  /** The final `set` of `set_ai_provider_config` keeps the configuration reachable under the provider. */
  lemma {:induction false} FinalSetKeepsConfig(sh: Heap, sn: nat, root: nat, provider: string, pv: Value, c: nat)
    requires root in sh && sn !in sh && c in sh && c != root && pv.Ref? && pv.id in sh
    requires provider in sh[pv.id] && sh[pv.id][provider] == Ref(c)
    requires provider != "ai" && provider != "providers"
    requires "ai" in sh[root] && sh[root]["ai"].Ref? ==> sh[root]["ai"].id != c
    ensures var out := SetPath(sh, sn, root, ["ai", "providers"], pv);
      out.ok ==> ProviderConfigIn(out.heap, root, provider) == Found(Ref(c)) && out.heap[c] == sh[c]
  {
    SetPathTwoKeys(sh, sn, root, "ai", "providers", pv);
  }

  /**
   * `set_ai_provider_config` followed by `get_ai_provider_config` gives the
   * stored configuration object, with its entries, for every provider name
   * other than the two keys of the path.
   */
  lemma {:induction false} ProviderConfigReadsBack(heap: Heap, next: nat, root: nat, provider: string, config: map<string, Atom>)
    requires Closed(heap) && root in heap && forall id | id in heap :: id < next
    requires provider != "ai" && provider != "providers"
    ensures var out := StoreProviderConfig(heap, next, root, provider, AsDict(config));
      out.ok ==> ProviderConfigIn(out.heap, root, provider) == Found(Ref(next)) && out.heap[next] == AsDict(config)
  {
    var d := AsDict(config);
    var h := heap[next := d];
    var keys := ["ai", "providers"];
    FreshNodeInvisible(heap, next, d, Ref(root), keys);
    ResolveInHeap(heap, Ref(root), keys);
    var st := StageProviderConfig(heap, next, root, provider, d);
    if st.Some? {
      var sh := st.value.heap;
      assert "ai" in sh[root] ==> sh[root]["ai"] == heap[root]["ai"];
      FinalSetKeepsConfig(sh, st.value.next, root, provider, st.value.providers, next);
    }
  }

  /** The loop of `get` over a heap of dictionaries. */
  method Lookup(heap: Heap, start: nat, keys: seq<string>, default: Value) returns (v: Value)
    ensures v == Resolve(heap, Ref(start), keys).GetOr(default)
  {
    v := Ref(start);
    var i := 0;
    while i < |keys|
      invariant 0 <= i <= |keys|
      invariant Resolve(heap, v, keys[i..]) == Resolve(heap, Ref(start), keys)
    {
      match v {
        case Leaf(_) =>
          return default;
        case Ref(id) =>
          if id !in heap || keys[i] !in heap[id] {
            return default;
          }
          v := heap[id][keys[i]];
      }
      i := i + 1;
    }
  }

  /** The steps of `set_ai_provider_config` over a heap of dictionaries. */
  method StoreConfig(heap: Heap, next: nat, root: nat, provider: string, config: map<string, Atom>)
    returns (h: Heap, n: nat, ok: bool)
    requires Closed(heap) && root in heap && forall id | id in heap :: id < next
    ensures SetOutcome(h, n, ok) == StoreProviderConfig(heap, next, root, provider, AsDict(config))
    ensures Closed(h) && heap.Keys <= h.Keys && forall id | id in h :: id < n
  {
    var c := next;
    h, n := heap[c := AsDict(config)], next + 1;
    assert Closed(h);
    var providers := Lookup(h, root, ["ai", "providers"], Ref(n));
    StageFromLookup(heap, c, root, provider, config, providers);
    ghost var staged := StageProviderConfig(heap, c, root, provider, AsDict(config));
    match providers {
      case Leaf(_) =>
        ok := false;
      case Ref(id) =>
        if id == n {
          h, n := h[n := map[provider := Ref(c)]], n + 1;
        } else {
          h := h[id := h[id][provider := Ref(c)]];
        }
        assert staged == Some(Staged(h, n, Ref(id)));
        h, n, ok := WriteAlongPath(h, n, root, ["ai", "providers"], Ref(id));
    }
  }

  /** What the built-in defaults answer: window size (1200, 800) and provider "chatgpt". */
  ghost predicate DefaultsRead(heap: Heap, root: nat)
  {
    && Resolve(heap, Ref(root), ["ui", "window_width"]) == Some(Leaf(AInt(1200)))
    && Resolve(heap, Ref(root), ["ui", "window_height"]) == Some(Leaf(AInt(800)))
    && Resolve(heap, Ref(root), ["ai", "default_provider"]) == Some(S("chatgpt"))
  }

  lemma {:induction false} DefaultsReadInitially()
    ensures DefaultsRead(InitialHeap(), 11)
  {
    var h := InitialHeap();
    assert h[11]["ui"] == Ref(9) && h[11]["ai"] == Ref(4);
  }

  /** The built-in defaults hold a configuration dictionary for exactly the three providers. */
  lemma {:induction false} DefaultProviderConfigs(p: string)
    ensures ProviderConfigIn(InitialHeap(), 11, "chatgpt") == Found(Ref(6))
    ensures ProviderConfigIn(InitialHeap(), 11, "gemini") == Found(Ref(7))
    ensures ProviderConfigIn(InitialHeap(), 11, "ollama") == Found(Ref(8))
    ensures p !in {"chatgpt", "gemini", "ollama"} ==> ProviderConfigIn(InitialHeap(), 11, p) == EmptyDict
  {
    var h := InitialHeap();
    assert h[11]["ai"] == Ref(4) && h[4]["providers"] == Ref(5);
    assert Resolve(h, Ref(11), ["ai", "providers"]) == Some(Ref(5));
  }

  /**
   * While the live settings and the defaults share their top-level entries, a
   * `set` on an existing two-part key writes into a dictionary the defaults
   * reach as well.
   */
  lemma {:induction false} NestedSetReachesDefaults(heap: Heap, next: nat, root: nat, defaults: nat, keys: seq<string>, value: Value)
    requires Closed(heap) && root in heap && defaults in heap && heap[root] == heap[defaults]
    requires |keys| == 2 && keys[0] != keys[1]
    requires Resolve(heap, Ref(root), keys).Some?
    ensures SetPath(heap, next, root, keys, value).ok
    ensures Resolve(SetPath(heap, next, root, keys, value).heap, Ref(defaults), keys) == Some(value)
  {
    var f := heap[root][keys[0]].id;
    assert Prefix(keys) == [keys[0]];
    SetWritesThroughSharedParent(heap, next, root, defaults, keys, value, f);
  }

  /**
   * The shallow copy at work: a nested setting changed through the live
   * settings is changed in the defaults too, so `reset_to_defaults` keeps it.
   */
  method ResetKeepsNestedChange(width: int) returns (after: Value)
    ensures after == Leaf(AInt(width))
  {
    var s := new Settings();
    WindowWidthKey();
    NestedSetReachesDefaults(s.heap, s.next, s.root, s.defaults, ["ui", "window_width"], Leaf(AInt(width)));
    var ok := s.Set("ui.window_width", Leaf(AInt(width)));
    s.ResetToDefaults();
    after := s.Get("ui.window_width", Leaf(AInt(1200)));
  }

  class Settings {
    var heap: Heap
    /** The live settings dictionary, `_settings`. */
    var root: nat
    /** The built-in defaults, `_default_settings`. */
    var defaults: nat
    /** The first object id not yet used. */
    var next: nat

    ghost predicate Valid()
      reads this
    {
      root in heap && defaults in heap && Closed(heap) &&
      (forall id | id in heap :: id < next)
    }

    /** What `get(key, default)` returns. */
    function ValueAt(key: string, default: Value): Value
      reads this
    {
      ValueUnder(Path(key), default)
    }

    /** What `get` returns for the dotted key whose parts are `keys`. */
    function ValueUnder(keys: seq<string>, default: Value): Value
      reads this
    {
      Resolve(heap, Ref(root), keys).GetOr(default)
    }

    /** The defaults' value under `key`, if any. */
    function DefaultAt(key: string): Option<Value>
      reads this
    {
      Resolve(heap, Ref(defaults), Path(key))
    }

    /**
     * A settings object without a configuration file: the built-in defaults,
     * and the live settings as a shallow copy of them (`_default_settings.copy()`).
     */
    constructor ()
      ensures Valid() && fresh(this)
      ensures heap == InitialHeap()
      ensures defaults == 0 && root == 11 && heap[root] == heap[defaults]
      ensures DefaultsRead(heap, root)
    {
      DefaultHeapClosed();
      DefaultsReadInitially();
      heap := InitialHeap();
      defaults := 0;
      root := 11;
      next := 12;
    }

    /** `get(key, default)`: walks the dotted key one dictionary at a time. */
    method Get(key: string, default: Value) returns (v: Value)
      requires Valid()
      ensures v == ValueAt(key, default)
    {
      v := Lookup(heap, root, Path(key), default);
    }

    /**
     * `set(key, value)`: creates the missing dictionaries along the key, then
     * stores the value in the last one; ok is false where the source raises
     * TypeError because a plain value sits on the path.
     */
    method Set(key: string, value: Value) returns (ok: bool)
      requires Valid() && (value.Ref? ==> value.id in heap)
      modifies this
      ensures Valid() && root == old(root) && defaults == old(defaults)
      ensures SetOutcome(heap, next, ok) == SetPath(old(heap), old(next), root, Path(key), value)
    {
      heap, next, ok := WriteAlongPath(heap, next, root, Path(key), value);
    }

    /** `reset_to_defaults`: the live settings become a new shallow copy of the defaults. */
    method ResetToDefaults()
      requires Valid()
      modifies this
      ensures Valid() && defaults == old(defaults)
      ensures heap == old(heap)[root := old(heap)[defaults]] && root == old(next) && next == old(next) + 1
      ensures forall keys | keys != [] :: Resolve(heap, Ref(root), keys) == Resolve(heap, Ref(defaults), keys)
      ensures forall keys :: Resolve(heap, Ref(defaults), keys) == Resolve(old(heap), Ref(defaults), keys)
    {
      ghost var h := heap[next := heap[defaults]];
      forall keys | keys != []
        ensures Resolve(h, Ref(next), keys) == Resolve(h, Ref(defaults), keys)
      {
        SameEntriesSameLookup(h, next, defaults, keys);
      }
      forall keys
        ensures Resolve(h, Ref(defaults), keys) == Resolve(heap, Ref(defaults), keys)
      {
        FreshNodeInvisible(heap, next, heap[defaults], Ref(defaults), keys);
      }
      heap := heap[next := heap[defaults]];
      root := next;
      next := next + 1;
    }

    /** `get_window_size`. */
    method GetWindowSize() returns (width: Value, height: Value)
      requires Valid()
      ensures width == ValueAt("ui.window_width", Leaf(AInt(1200)))
      ensures height == ValueAt("ui.window_height", Leaf(AInt(800)))
    {
      width := Get("ui.window_width", Leaf(AInt(1200)));
      height := Get("ui.window_height", Leaf(AInt(800)));
    }

    /** `set_window_size`: two `set` calls; the first one raising stops the second. */
    method SetWindowSize(width: int, height: int) returns (ok: bool)
      requires Valid()
      modifies this
      ensures Valid() && root == old(root) && defaults == old(defaults)
      ensures ok <==> OpenPath(old(heap), root, ["ui"])
      ensures ok ==> ValueAt("ui.window_width", Leaf(AInt(1200))) == Leaf(AInt(width))
      ensures ok ==> ValueAt("ui.window_height", Leaf(AInt(800))) == Leaf(AInt(height))
    {
      var w, h := Leaf(AInt(width)), Leaf(AInt(height));
      WindowWidthKey();
      WindowHeightKey();
      ghost var wk, hk := ["ui", "window_width"], ["ui", "window_height"];
      SetSucceedsIffOpenPath(heap, next, root, wk, w);
      TwoSetsUnderOneParent(heap, next, root, "ui", "window_width", w, "window_height", h);
      ghost var o1 := SetPath(heap, next, root, wk, w);
      ok := Set("ui.window_width", w);
      assert heap == o1.heap && next == o1.next && ok == o1.ok;
      if ok {
        ghost var o2 := SetPath(heap, next, root, hk, h);
        ok := Set("ui.window_height", h);
        assert heap == o2.heap && ok;
        assert Resolve(heap, Ref(root), wk) == Some(w);
        assert Resolve(heap, Ref(root), hk) == Some(h);
      }
    }

    /** `get_active_ai_provider`. */
    method GetActiveProvider() returns (v: Value)
      requires Valid()
      ensures v == ValueUnder(["ai", "default_provider"], S("chatgpt"))
    {
      DefaultProviderKey();
      v := Get("ai.default_provider", S("chatgpt"));
    }

    /** `set_active_ai_provider`: afterwards the active provider reads back as the one set. */
    method SetActiveProvider(provider: string) returns (ok: bool)
      requires Valid()
      modifies this
      ensures Valid() && root == old(root) && defaults == old(defaults)
      ensures ok <==> OpenPath(old(heap), root, ["ai"])
      ensures ok ==> ValueUnder(["ai", "default_provider"], S("chatgpt")) == S(provider)
    {
      DefaultProviderKey();
      ghost var keys := ["ai", "default_provider"];
      SetSucceedsIffOpenPath(heap, next, root, keys, S(provider));
      ghost var o := SetPath(heap, next, root, keys, S(provider));
      if o.ok {
        SetThenGet(heap, next, root, keys, S(provider));
      }
      ok := Set("ai.default_provider", S(provider));
      assert heap == o.heap && ok == o.ok;
    }

    /** `get_default_prompt`. */
    method GetDefaultPrompt() returns (v: Value)
      requires Valid()
      ensures v == ValueUnder(["ui", "default_prompt"], S(""))
    {
      DefaultPromptKey();
      v := Get("ui.default_prompt", S(""));
    }

    /** The value `get_generated_entries_dir` makes a `Path` of. */
    method GetGeneratedEntriesDir() returns (v: Value)
      requires Valid()
      ensures v == ValueUnder(["paths", "generated_entries"], S("Generated_entries"))
    {
      GeneratedEntriesKey();
      v := Get("paths.generated_entries", S("Generated_entries"));
    }

    /** What `get_ai_provider_config(provider)` returns. */
    function ProviderConfig(provider: string): ConfigLookup
      reads this
    {
      ProviderConfigIn(heap, root, provider)
    }

    /** `get_ai_provider_config`. */
    method GetProviderConfig(provider: string) returns (r: ConfigLookup)
      requires Valid()
      ensures r == ProviderConfig(provider)
    {
      AiProvidersKey();
      ghost var found := Resolve(heap, Ref(root), ["ai", "providers"]);
      ResolveInHeap(heap, Ref(root), ["ai", "providers"]);
      var providers := Get("ai.providers", Ref(next));
      assert providers == found.GetOr(Ref(next));
      match providers {
        case Leaf(_) =>
          r := NotADict;
        case Ref(id) =>
          if id == next {
            r := EmptyDict;
          } else if provider in heap[id] {
            r := Found(heap[id][provider]);
          } else {
            r := EmptyDict;
          }
      }
    }

    /**
     * `set_ai_provider_config`: the configuration, a new dictionary (object
     * `next`), is stored under the provider in the `ai.providers` dictionary,
     * which is created when missing; then `ai.providers` is set again.
     */
    method SetProviderConfig(provider: string, config: map<string, Atom>) returns (ok: bool)
      requires Valid()
      modifies this
      ensures Valid() && root == old(root) && defaults == old(defaults)
      ensures SetOutcome(heap, next, ok) == StoreProviderConfig(old(heap), old(next), root, provider, AsDict(config))
    {
      AiProvidersKey();
      heap, next, ok := StoreConfig(heap, next, root, provider, config);
    }
  }

  /** Two successive `set` calls under the same parent dictionary: the second succeeds and both values read back. */
  lemma {:induction false} TwoSetsUnderOneParent(heap: Heap, next: nat, node: nat, p: string, k1: string, v1: Value, k2: string, v2: Value)
    requires forall id | id in heap :: id < next
    requires p != k1 && p != k2 && k1 != k2
    ensures var o1 := SetPath(heap, next, node, [p, k1], v1);
      var o2 := SetPath(o1.heap, o1.next, node, [p, k2], v2);
      o1.ok ==> o2.ok && Resolve(o2.heap, Ref(node), [p, k1]) == Some(v1) && Resolve(o2.heap, Ref(node), [p, k2]) == Some(v2)
  {
    var o1 := SetPath(heap, next, node, [p, k1], v1);
    if o1.ok {
      SetThenGet(heap, next, node, [p, k1], v1);
      SetKeepsOtherEntries(heap, next, node, [p, k1], v1);
      assert Resolve(o1.heap, Ref(node), [p, k1]) == Some(v1);
      assert OpenPath(o1.heap, node, [p]);
      SetSucceedsIffOpenPath(o1.heap, o1.next, node, [p, k2], v2);
      var o2 := SetPath(o1.heap, o1.next, node, [p, k2], v2);
      SetThenGet(o1.heap, o1.next, node, [p, k2], v2);
      SetKeepsOtherEntries(o1.heap, o1.next, node, [p, k2], v2);
      ResolveUnderExtends(o1.heap, o2.heap, k2, Ref(node), [p, k1], v1);
    }
  }

  // The dotted keys the accessors use, split into their two parts.

  lemma {:induction false} AiProvidersKey()
    ensures Path("ai.providers") == ["ai", "providers"]
  {
    var key := "ai.providers";
    assert key == "ai" + "." + "providers";
    PathOfTwo("ai", "providers");
  }

  lemma {:induction false} DefaultProviderKey()
    ensures Path("ai.default_provider") == ["ai", "default_provider"]
  {
    var key := "ai.default_provider";
    assert key == "ai" + "." + "default_provider";
    PathOfTwo("ai", "default_provider");
  }

  lemma {:induction false} DefaultPromptKey()
    ensures Path("ui.default_prompt") == ["ui", "default_prompt"]
  {
    var key := "ui.default_prompt";
    assert key == "ui" + "." + "default_prompt";
    PathOfTwo("ui", "default_prompt");
  }

  lemma {:induction false} GeneratedEntriesKey()
    ensures Path("paths.generated_entries") == ["paths", "generated_entries"]
  {
    var key := "paths.generated_entries";
    assert key == "paths" + "." + "generated_entries";
    PathOfTwo("paths", "generated_entries");
  }

  lemma {:induction false} WindowWidthKey()
    ensures Path("ui.window_width") == ["ui", "window_width"]
  {
    var key := "ui.window_width";
    assert key == "ui" + "." + "window_width";
    PathOfTwo("ui", "window_width");
  }

  lemma {:induction false} WindowHeightKey()
    ensures Path("ui.window_height") == ["ui", "window_height"]
  {
    var key := "ui.window_height";
    assert key == "ui" + "." + "window_height";
    PathOfTwo("ui", "window_height");
  }

  lemma {:induction false} PathOfTwo(a: string, b: string)
    requires '.' !in a && '.' !in b
    ensures Path(a + "." + b) == [a, b]
  {
    SplitAtFirst(a, b, '.');
    SplitWithoutSeparator(b, '.');
  }
}
