// The provider registry (`AIProviderManager` in `ai/base.py`) together with
// what DevBlogger's subclass adds to the same object
// (`DevBloggerAIProviderManager` in `ai/manager.py`): a name -> client map in
// registration order and the name of the active client.
module AiManager {
  import opened Wrappers
  import opened Settings
  import opened Files
  import opened AiProviders
  import Lists

  /** `get_provider_status_summary` without the per-provider status dictionaries. */
  datatype Summary = Summary(total: nat, configured: nat, working: nat, active: Option<string>)

  /** `config.get(key, default)` on the dictionary handed to `update_provider_config`. */
  function GetOr(config: map<string, string>, key: string, default: string): string
  {
    if key in config then config[key] else default
  }

  /** What `reset_provider_config` writes back: an empty key (or the local server) and the default model. */
  function ResetCredential(k: Kind): string
  {
    if k == Ollama then DefaultBaseUrl else ""
  }

  /** The key `update_provider_config` reads the credential from, with its default. */
  function CredentialKey(k: Kind): string
  {
    if k == Ollama then "base_url" else "api_key"
  }

  /** A list without repeats has as many elements as its set. */
  lemma {:induction false} DistinctCardinality(s: seq<string>)
    requires Distinct(s)
    ensures |set x | x in s| == |s|
  {
    if s != [] {
      DistinctCardinality(s[1..]);
      assert s[0] !in s[1..];
      assert (set x | x in s) == {s[0]} + (set x | x in s[1..]);
    }
  }

  /**
   * The choice `_set_default_active_provider` makes from the configured
   * default `v`: that name when it is registered; otherwise, for any string
   * that is not, the first configured provider if there is one; otherwise
   * nothing changes.  A list or dictionary value makes the membership test
   * raise TypeError, which is logged, and nothing changes either.
   */
  function DefaultChoice(v: Value, registered: set<string>, configured: seq<string>, current: Option<string>): (r: Option<string>)
    ensures r == current || (r.Some? && (r.value in registered || r.value in configured))
    ensures v.Leaf? && v.atom.AStr? && v.atom.s in registered ==> r == Some(v.atom.s)
    ensures r != current && !(v.Leaf? && v.atom.AStr? && v.atom.s in registered) ==> r.Some? && configured != [] && r.value == configured[0]
  {
    if v.Ref? || v.atom.AList? then current
    else if v.atom.AStr? && v.atom.s in registered then Some(v.atom.s)
    else if configured != [] then Some(configured[0])
    else current
  }

  /** Three providers under the three names, registered one after another into an empty registry. */
  lemma {:induction false} RegisteredInOrder(chatgpt: Provider, gemini: Provider, ollama: Provider,
                                             providers1: map<string, Provider>, order1: seq<string>,
                                             providers2: map<string, Provider>, order2: seq<string>,
                                             providers3: map<string, Provider>, order3: seq<string>)
    requires chatgpt.name == KindName(ChatGpt) && gemini.name == KindName(Gemini) && ollama.name == KindName(Ollama)
    requires providers1 == map[chatgpt.name := chatgpt] && order1 == [chatgpt.name]
    requires providers2 == providers1[gemini.name := gemini]
    requires order2 == if gemini.name in providers1 then order1 else order1 + [gemini.name]
    requires providers3 == providers2[ollama.name := ollama]
    requires order3 == if ollama.name in providers2 then order2 else order2 + [ollama.name]
    ensures order3 == ["chatgpt", "gemini", "ollama"]
    ensures providers3 == map["chatgpt" := chatgpt, "gemini" := gemini, "ollama" := ollama]
  {
    assert "gemini" != "chatgpt" && "ollama" !in {"chatgpt", "gemini"} by {
      assert |"chatgpt"| == 7 && "gemini"[0] != "ollama"[0];
    }
  }

  class ProviderManager {
    const settings: Settings
    /** `providers`, a dictionary: its keys in insertion order are `order`. */
    var providers: map<string, Provider>
    var order: seq<string>
    /** `active_provider`. */
    var active: Option<string>

    ghost predicate Valid()
      reads this`providers, this`order, settings, providers.Values
    {
      && settings.Valid()
      && Distinct(order)
      && (forall n :: n in providers <==> n in order)
      && (forall n | n in providers :: providers[n].name == n && providers[n].settings == settings && providers[n].Valid())
    }

    /**
     * `__init__` and `_register_providers`: the three clients registered in
     * the order chatgpt, gemini, ollama, then the default active provider chosen.
     */
    constructor (settings: Settings, chatgpt: Provider, gemini: Provider, ollama: Provider)
      requires settings.Valid()
      requires chatgpt.kind == ChatGpt && gemini.kind == Gemini && ollama.kind == Ollama
      requires chatgpt.name == KindName(ChatGpt) && gemini.name == KindName(Gemini) && ollama.name == KindName(Ollama)
      requires chatgpt.settings == settings && gemini.settings == settings && ollama.settings == settings
      requires chatgpt.Valid() && gemini.Valid() && ollama.Valid()
      ensures Valid() && this.settings == settings
      ensures order == ["chatgpt", "gemini", "ollama"]
      ensures providers == map["chatgpt" := chatgpt, "gemini" := gemini, "ollama" := ollama]
      ensures active == DefaultChoice(settings.ValueUnder(["ai", "default_provider"], S("chatgpt")), providers.Keys, Configured(), None)
    {
      this.settings := settings;
      providers := map[];
      order := [];
      active := None;
      new;
      RegisterProviders(chatgpt, gemini, ollama);
      SetDefaultActiveProvider();
    }

    /** The registrations of `_register_providers`, into an empty registry. */
    method RegisterProviders(chatgpt: Provider, gemini: Provider, ollama: Provider)
      requires Valid() && providers == map[] && order == []
      requires chatgpt.name == KindName(ChatGpt) && gemini.name == KindName(Gemini) && ollama.name == KindName(Ollama)
      requires chatgpt.settings == settings && gemini.settings == settings && ollama.settings == settings
      requires chatgpt.Valid() && gemini.Valid() && ollama.Valid()
      modifies this`providers, this`order
      ensures Valid()
      ensures order == ["chatgpt", "gemini", "ollama"]
      ensures providers == map["chatgpt" := chatgpt, "gemini" := gemini, "ollama" := ollama]
    {
      Register(chatgpt);
      ghost var providers1, order1 := providers, order;
      Register(gemini);
      ghost var providers2, order2 := providers, order;
      Register(ollama);
      RegisteredInOrder(chatgpt, gemini, ollama, providers1, order1, providers2, order2, providers, order);
    }

    /** `register_provider`: keyed by the provider's name; a name registered again keeps its place. */
    method Register(p: Provider)
      requires Valid() && p.settings == settings && p.Valid()
      modifies this`providers, this`order
      ensures Valid()
      ensures providers == old(providers)[p.name := p]
      ensures order == if p.name in old(providers) then old(order) else old(order) + [p.name]
    {
      if p.name !in providers {
        order := order + [p.name];
      }
      providers := providers[p.name := p];
    }

    /** `get_provider`: None for a name never registered. */
    function GetProvider(name: string): (r: Option<Provider>)
      requires Valid()
      reads this, settings, providers.Values
      ensures r.None? <==> name !in providers
      ensures r.Some? ==> r.value.name == name
    {
      if name in providers then Some(providers[name]) else None
    }

    /** `set_active_provider`: an unknown name raises ValueError and changes nothing. */
    method SetActiveProvider(name: string) returns (error: Option<string>)
      requires Valid()
      modifies this
      ensures Valid() && providers == old(providers) && order == old(order)
      ensures name in providers ==> error.None? && active == Some(name)
      ensures name !in providers ==> error == Some("Provider " + name + " not found") && active == old(active)
    {
      if name in providers {
        active := Some(name);
        error := None;
      } else {
        error := Some("Provider " + name + " not found");
      }
    }

    /** `get_active_provider`: None when no active name is set (or it is empty). */
    function GetActiveProvider(): (r: Option<Provider>)
      requires Valid()
      reads this, settings, providers.Values
      ensures active.None? || active.value == "" ==> r.None?
      ensures r.Some? ==> active.Some? && r.value.name == active.value && active.value in providers
    {
      if active.Some? && active.value != "" && active.value in providers then Some(providers[active.value]) else None
    }

    /** `get_all_providers`: a map value, so changes to it never reach the registry. */
    method GetAllProviders() returns (all: map<string, Provider>)
      requires Valid()
      ensures all.Keys == providers.Keys
      ensures forall n | n in all :: all[n] == providers[n] && all[n].name == n
    {
      all := providers;
    }

    /** The configured providers among `names`, in order (`get_configured_providers` over `order`). */
    function ConfiguredIn(names: seq<string>): (r: seq<string>)
      requires forall n | n in names :: n in providers
      reads this`providers, providers.Values
      ensures |r| <= |names|
      ensures forall n :: n in r <==> n in names && providers[n].IsConfigured()
      ensures Lists.IsSubsequence(r, names)
    {
      if names == [] then []
      else
        var rest := ConfiguredIn(names[1..]);
        Lists.SubsequenceOfTail(rest, names);
        if providers[names[0]].IsConfigured() then [names[0]] + rest else rest
    }

    /** The configured providers whose connection test passes, in order (`get_working_providers`). */
    function WorkingIn(names: seq<string>): (r: seq<string>)
      requires forall n | n in names :: n in providers
      reads this`providers, providers.Values
      ensures |r| <= |names|
      ensures forall n :: n in r <==> n in names && providers[n].IsConfigured() && providers[n].TestConnection()
      ensures Lists.IsSubsequence(r, names)
    {
      if names == [] then []
      else
        var rest := WorkingIn(names[1..]);
        Lists.SubsequenceOfTail(rest, names);
        var p := providers[names[0]];
        if p.IsConfigured() && p.TestConnection() then [names[0]] + rest else rest
    }

    function Configured(): (r: seq<string>)
      requires Valid()
      reads this`providers, this`order, settings, providers.Values
    {
      ConfiguredIn(order)
    }

    function Working(): (r: seq<string>)
      requires Valid()
      reads this`providers, this`order, settings, providers.Values
    {
      WorkingIn(order)
    }

    /** Working providers are configured ones, and there are no more of them. */
    lemma {:induction false} WorkingWithinConfigured(names: seq<string>)
      requires forall n | n in names :: n in providers
      ensures |WorkingIn(names)| <= |ConfiguredIn(names)|
      ensures forall n | n in WorkingIn(names) :: n in ConfiguredIn(names)
      decreases |names|
    {
      if names != [] {
        WorkingWithinConfigured(names[1..]);
      }
    }

    /** The registered names are as many as the providers. */
    lemma {:induction false} OrderCountsProviders()
      requires Valid()
      ensures |order| == |providers|
    {
      DistinctCardinality(order);
      assert (set x | x in order) == providers.Keys;
    }

    /**
     * `generate_with_active`: ValueError without an active provider or when
     * it is not configured; otherwise one call of that provider with the
     * same arguments.
     */
    function GenerateWithActive(prompt: string, maxArg: Option<int>, tempArg: Option<real>, reply: Reply): (d: Dispatch)
      requires Valid()
      reads this, settings, providers.Values
      ensures GetActiveProvider().None? ==> d == Dispatch(None, Failure("No active AI provider set"))
      ensures GetActiveProvider().Some? && !GetActiveProvider().value.IsConfigured() ==>
        d == Dispatch(None, Failure("Active provider " + active.value + " is not configured"))
      ensures GetActiveProvider().Some? && GetActiveProvider().value.IsConfigured() ==>
        d == GetActiveProvider().value.GenerateText(prompt, maxArg, tempArg, reply)
      ensures d.sent.Some? ==> active.Some? && active.value in Configured()
    {
      match GetActiveProvider()
      case None => Dispatch(None, Failure("No active AI provider set"))
      case Some(p) =>
        if !p.IsConfigured() then Dispatch(None, Failure("Active provider " + p.name + " is not configured"))
        else p.GenerateText(prompt, maxArg, tempArg, reply)
    }

    /** `_set_default_active_provider`. */
    method SetDefaultActiveProvider()
      requires Valid()
      modifies this`active
      ensures active == DefaultChoice(settings.ValueUnder(["ai", "default_provider"], S("chatgpt")), providers.Keys, Configured(), old(active))
    {
      var v := settings.GetActiveProvider();
      active := DefaultChoice(v, providers.Keys, Configured(), active);
    }

    /**
     * The default choice only ever picks a registered provider, and a
     * configured one unless the settings named it.
     */
    lemma {:induction false} DefaultChoiceRegistered(v: Value, current: Option<string>)
      requires Valid()
      ensures var r := DefaultChoice(v, providers.Keys, Configured(), current);
        r != current ==> r.Some? && r.value in providers
      ensures var r := DefaultChoice(v, providers.Keys, Configured(), current);
        r != current && !(v.Leaf? && v.atom.AStr? && v.atom.s in providers) ==> r.Some? && providers[r.value].IsConfigured()
    {
    }

    /** `get_provider_status_summary`: working <= configured <= total. */
    function StatusSummary(): (r: Summary)
      requires Valid()
      reads this, settings, providers.Values
      ensures r.total == |providers| && r.active == active
      ensures r.working <= r.configured <= r.total
    {
      WorkingWithinConfigured(order);
      OrderCountsProviders();
      Summary(|providers|, |Configured()|, |Working()|, active)
    }

    /** `validate_all_configurations`: an entry exactly for each provider with issues. */
    function ValidateAll(): (r: map<string, seq<string>>)
      requires Valid()
      reads this, settings, providers.Values
      ensures forall n :: n in r <==> n in providers && n !in Configured()
      ensures forall n | n in r :: r[n] == [n + " provider is not configured"]
    {
      map n | n in providers && providers[n].ValidateConfig() != [] :: providers[n].ValidateConfig()
    }

    /**
     * `get_recommended_provider`: the active provider if it works, else the
     * first working one, else the first configured one, else None.
     */
    function Recommended(): (r: Option<string>)
      requires Valid()
      reads this, settings, providers.Values
      ensures r.Some? ==> r.value in providers && providers[r.value].IsConfigured()
      ensures r.None? <==> Configured() == []
      ensures Working() != [] ==> r.Some? && providers[r.value].TestConnection()
      ensures active.Some? && active.value != "" && active.value in Working() ==> r == active
    {
      WorkingWithinConfigured(order);
      var working := Working();
      if working != [] then
        if active.Some? && active.value != "" && active.value in working then active else Some(working[0])
      else if Configured() != [] then Some(Configured()[0])
      else None
    }

    /**
     * `switch_to_best_provider`: switches, and answers true, exactly when
     * the recommendation exists and differs from the active provider.
     */
    method SwitchToBest() returns (switched: bool)
      requires Valid()
      modifies this
      ensures Valid() && providers == old(providers) && order == old(order)
      ensures switched <==> old(Recommended()).Some? && old(Recommended()).value != "" && old(Recommended()) != old(active)
      ensures switched ==> active == old(Recommended())
      ensures !switched ==> active == old(active)
    {
      var recommended := Recommended();
      switched := false;
      if recommended.Some? && recommended.value != "" && recommended != active {
        var error := SetActiveProvider(recommended.value);
        switched := error.None?;
      }
    }

    /** `test_all_providers`: one entry per registered provider, its connection test. */
    method TestAll() returns (results: map<string, bool>)
      requires Valid()
      ensures results.Keys == providers.Keys
      ensures forall n | n in results :: results[n] == providers[n].TestConnection()
    {
      results := map[];
      var i := 0;
      while i < |order|
        invariant 0 <= i <= |order|
        invariant forall n :: n in results <==> n in order[..i]
        invariant forall n | n in results :: n in providers && results[n] == providers[n].TestConnection()
      {
        var name := order[i];
        results := results[name := providers[name].TestConnection()];
        assert order[..i + 1] == order[..i] + [name];
        i := i + 1;
      }
      assert order[..i] == order;
    }

    /**
     * Passes a new credential and model to one provider's `update_config`,
     * as the source has it: the synchronous OpenAI client is left as it was;
     * ok is false where the settings write raises.
     */
    method Reconfigure(name: string, credential: string, model: string) returns (ok: bool)
      requires Valid() && name in providers
      modifies providers[name], settings
      ensures Valid() && providers == old(providers) && order == old(order) && active == old(active)
      ensures var p := providers[name];
        && p.apiKey == (if p.kind == Ollama then old(p.apiKey) else credential)
        && p.baseUrl == (if p.kind == Ollama then credential else old(p.baseUrl))
        && p.model == model && p.maxTokens == old(p.maxTokens) && p.temperature == old(p.temperature)
        && p.syncClient == old(p.syncClient)
      ensures settings.root == old(settings.root)
      ensures SetOutcome(settings.heap, settings.next, ok) ==
        StoreProviderConfig(old(settings.heap), old(settings.next), settings.root, name,
                            AsDict(Persisted(providers[name].kind, credential, model, providers[name].maxTokens, providers[name].temperature)))
      ensures ok ==> settings.ProviderConfig(name) == Found(Ref(old(settings.next)))
      ensures ok ==> settings.heap[old(settings.next)] == AsDict(
        Persisted(providers[name].kind, credential, model, providers[name].maxTokens, providers[name].temperature))
    {
      var p := providers[name];
      assert p.name == KindName(p.kind);
      ok := p.UpdateConfigAsWritten(credential, model);
      forall n | n in providers
        ensures providers[n].Valid()
      {
        if n != name {
          assert providers[n] != p;
        }
      }
    }

    /**
     * `update_provider_config`: False for an unknown name; otherwise the
     * provider gets `api_key` (or `base_url`) and `model` from the
     * dictionary, each with its default, and any other entries, max_tokens
     * and temperature among them, are ignored.
     */
    method UpdateProviderConfig(name: string, config: map<string, string>) returns (ok: bool)
      requires Valid()
      modifies (if name in providers then {providers[name]} else {}), settings
      ensures Valid() && providers == old(providers) && order == old(order) && active == old(active)
      ensures name !in providers ==> !ok && unchanged(settings) && unchanged(providers.Values)
      ensures forall n | n in providers && n != name :: unchanged(providers[n])
      ensures name in providers ==>
        var p := providers[name];
        var credential := GetOr(config, CredentialKey(p.kind), if p.kind == Ollama then DefaultBaseUrl else "");
        && (p.kind == Ollama ==> p.baseUrl == credential)
        && (p.kind != Ollama ==> p.apiKey == credential)
        && p.model == GetOr(config, "model", DefaultModel(p.kind))
        && p.maxTokens == old(p.maxTokens) && p.temperature == old(p.temperature)
      ensures name in providers ==>
        var p := providers[name];
        var credential := GetOr(config, CredentialKey(p.kind), if p.kind == Ollama then DefaultBaseUrl else "");
        && settings.root == old(settings.root)
        && SetOutcome(settings.heap, settings.next, ok) ==
             StoreProviderConfig(old(settings.heap), old(settings.next), settings.root, name,
                                 AsDict(Persisted(p.kind, credential, p.model, p.maxTokens, p.temperature)))
        && (ok ==> settings.ProviderConfig(name) == Found(Ref(old(settings.next))))
    {
      if name !in providers {
        return false;
      }
      var p := providers[name];
      var credential := GetOr(config, CredentialKey(p.kind), if p.kind == Ollama then DefaultBaseUrl else "");
      ok := Reconfigure(name, credential, GetOr(config, "model", DefaultModel(p.kind)));
    }

    /**
     * `reset_provider_config`: False for an unknown name; otherwise the
     * provider goes back to ("", gpt-4), ("", gemini-pro) or
     * (http://localhost:11434, llama2).
     */
    method ResetProviderConfig(name: string) returns (ok: bool)
      requires Valid()
      modifies (if name in providers then {providers[name]} else {}), settings
      ensures Valid() && providers == old(providers) && order == old(order) && active == old(active)
      ensures name !in providers ==> !ok && unchanged(settings) && unchanged(providers.Values)
      ensures forall n | n in providers && n != name :: unchanged(providers[n])
      ensures name in providers ==>
        var p := providers[name];
        && (p.kind == Ollama ==> p.baseUrl == DefaultBaseUrl)
        && (p.kind != Ollama ==> p.apiKey == "")
        && p.model == DefaultModel(p.kind)
        && p.maxTokens == old(p.maxTokens) && p.temperature == old(p.temperature)
      ensures name in providers ==>
        var p := providers[name];
        && settings.root == old(settings.root)
        && SetOutcome(settings.heap, settings.next, ok) ==
             StoreProviderConfig(old(settings.heap), old(settings.next), settings.root, name,
                                 AsDict(Persisted(p.kind, ResetCredential(p.kind), p.model, p.maxTokens, p.temperature)))
        && (ok ==> settings.ProviderConfig(name) == Found(Ref(old(settings.next))))
    {
      if name !in providers {
        return false;
      }
      var p := providers[name];
      ok := Reconfigure(name, ResetCredential(p.kind), DefaultModel(p.kind));
    }
  }

  /**
   * After a reset, ChatGPT and Gemini are unconfigured and Ollama is
   * configured again, whatever state they were in.
   */
  method ResetLeavesDefaults(m: ProviderManager, name: string) returns (ok: bool)
    requires m.Valid() && name in m.providers
    modifies m.providers.Values, m.settings
    ensures m.Valid()
    ensures m.providers[name].kind == Ollama <==> m.providers[name].IsConfigured()
  {
    ok := m.ResetProviderConfig(name);
  }
}
