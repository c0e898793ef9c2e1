/** The model-provider table, its API key validators and default models, and
    the versioned upgrade of stored settings. */
module Settings {
  import opened Wrappers
  import opened Strings

  /** One entry of the provider table. The help URL is left out; the prompt
      of every provider is the same constant. `keyPrefix` is the prefix that
      the provider's `validate` checks for. */
  datatype Provider = Provider(id: string, name: string, models: seq<string>,
                               keyPrefix: string, hasServerDefault: bool)

  /** The text of the prompt constant is not modelled; it stands for that constant. */
  const November19Prompt := "NOVEMBER_19_2025"

  const MigrationVersion := 14

  const Providers: seq<Provider> := [
    Provider("openai", "OpenAI",
             ["gpt-5", "gpt-4.1-2025-04-14", "gpt-4o", "gpt-4o-mini",
              "o3-pro-2025-06-10", "o4-mini-2025-04-16"],
             "sk-", false),
    Provider("anthropic", "Anthropic",
             ["claude-opus-4-6", "claude-sonnet-4-6", "claude-haiku-4-5", "claude-sonnet-4-5",
              "claude-sonnet-4-20250514", "claude-3-7-sonnet-20250219",
              "claude-3-7-sonnet-20250219 (thinking)", "claude-3-5-sonnet-20241022"],
             "sk-", false),
    Provider("google", "Google",
             ["gemini-3-pro-preview", "gemini-3-flash-preview", "gemini-2.5-pro", "gemini-2.5-flash"],
             "AIza", false),
    Provider("qwen", "Qwen",
             ["qwen3.5-plus", "qwen-max", "qwen-plus", "qwen-turbo"],
             "sk-", true)
  ]

  /** The provider table lists four providers with distinct ids, each with
      at least one model; only Qwen has a server-side default key, and every
      provider has an entry among the default keys. */
  lemma ProviderTableIsWellFormed()
    ensures |Providers| == 4
    ensures forall i, j :: 0 <= i < j < |Providers| ==> Providers[i].id != Providers[j].id
    ensures forall i :: 0 <= i < |Providers| ==> |Providers[i].models| > 0
    ensures forall i :: 0 <= i < |Providers| ==> (Providers[i].hasServerDefault <==> Providers[i].id == "qwen")
    ensures forall i :: 0 <= i < |Providers| ==> Providers[i].id in DefaultKeys && DefaultKeys[Providers[i].id] == ""
  {
  }

  /** A provider's `validate(key)`: `key.startsWith(prefix)`. */
  predicate Validate(p: Provider, key: string)
  {
    StartsWith(key, p.keyPrefix)
  }

  /** The OpenAI, Anthropic and Qwen validators accept exactly the keys that
      start with "sk-", the Google one exactly those that start with "AIza". */
  lemma ValidatorsAcceptTheirPrefix(key: string)
    ensures Validate(Providers[0], key) <==> |key| >= 3 && key[..3] == "sk-"
    ensures Validate(Providers[1], key) <==> |key| >= 3 && key[..3] == "sk-"
    ensures Validate(Providers[2], key) <==> |key| >= 4 && key[..4] == "AIza"
    ensures Validate(Providers[3], key) <==> |key| >= 3 && key[..3] == "sk-"
  {
  }

  /** No key passes both the Google validator and an "sk-" validator. */
  lemma GoogleKeysAreNotSkKeys(key: string)
    ensures !(Validate(Providers[2], key) && Validate(Providers[0], key))
  {
    if Validate(Providers[2], key) {
      assert key[..4][0] == 'A';
      assert key[..3][0] == 'A';
    }
  }

  /** `PROVIDERS.map((provider) => [provider.id, provider.models[0]])`. */
  function ModelEntries(ps: seq<Provider>): (e: seq<(string, string)>)
    requires forall i :: 0 <= i < |ps| ==> |ps[i].models| > 0
    ensures |e| == |ps|
    ensures forall i :: 0 <= i < |ps| ==> e[i] == (ps[i].id, ps[i].models[0])
  {
    if ps == [] then [] else [(ps[0].id, ps[0].models[0])] + ModelEntries(ps[1..])
  }

  /** `Object.fromEntries(entries)`: a later entry for the same key wins. */
  function FromEntries(entries: seq<(string, string)>): map<string, string>
    decreases |entries|
  {
    if entries == [] then map[]
    else
      var last := entries[|entries| - 1];
      FromEntries(entries[..|entries| - 1])[last.0 := last.1]
  }

  /** With distinct keys, every entry is found under its key, and nothing else is there. */
  lemma {:induction false} FromEntriesFindsEachEntry(entries: seq<(string, string)>)
    requires forall i, j :: 0 <= i < j < |entries| ==> entries[i].0 != entries[j].0
    ensures forall i :: 0 <= i < |entries| ==>
              entries[i].0 in FromEntries(entries) && FromEntries(entries)[entries[i].0] == entries[i].1
    ensures forall k :: k in FromEntries(entries) ==> exists i :: 0 <= i < |entries| && entries[i].0 == k
    decreases |entries|
  {
    if entries != [] {
      var n := |entries| - 1;
      var front := entries[..n];
      assert forall i :: 0 <= i < n ==> front[i] == entries[i];
      FromEntriesFindsEachEntry(front);
    }
  }

  /** The default `models` table. */
  function DefaultModels(): map<string, string>
  {
    FromEntries(ModelEntries(Providers))
  }

  /** Each provider's default model is the first model it lists, and the
      table has an entry for the four providers only. */
  lemma DefaultModelsAreFirstListed()
    ensures forall i :: 0 <= i < |Providers| ==>
              Providers[i].id in DefaultModels() && DefaultModels()[Providers[i].id] == Providers[i].models[0]
    ensures DefaultModels().Keys == {"openai", "anthropic", "google", "qwen"}
  {
    var e := ModelEntries(Providers);
    FromEntriesFindsEachEntry(e);
    forall k | k in DefaultModels()
      ensures k in {"openai", "anthropic", "google", "qwen"}
    {
      var i :| 0 <= i < |e| && e[i].0 == k;
    }
  }

  /** The settings' `models` object. It is a mutable object shared by
      reference: migration writes into the very object it was given. */
  class ModelTable {
    var entries: map<string, string>

    constructor (initial: map<string, string>)
      ensures entries == initial
    {
      entries := initial;
    }

  }

  /** Settings as they were stored by some earlier version: `provider`,
      `models` and `prompts` may be absent, and an absent `keys` reads as empty. */
  datatype StoredSettings = StoredSettings(provider: Option<string>, models: Option<ModelTable>,
                                           keys: map<string, string>, prompts: Option<map<string, string>>)

  /** Settings in the current shape. */
  datatype MakeRealSettings = MakeRealSettings(provider: string, models: ModelTable,
                                               keys: map<string, string>, prompts: map<string, string>)

  const DefaultKeys: map<string, string> := map["openai" := "", "anthropic" := "", "google" := "", "qwen" := ""]

  const ResetPrompts: map<string, string> :=
    map["system" := November19Prompt, "openai" := November19Prompt, "anthropic" := November19Prompt,
        "google" := November19Prompt, "qwen" := November19Prompt]

  /** JavaScript's `!version` for a number or undefined: true for undefined and for 0. */
  predicate Falsy(version: Option<int>)
  {
    version.None? || version.value == 0
  }

  /** JavaScript's `version < n`: undefined compares as NaN, which is below nothing. */
  predicate Below(version: Option<int>, n: int)
  {
    version.Some? && version.value < n
  }

  /** The objects a migration of `s` may write: the caller's `models` object, if any. */
  function SharedModels(s: StoredSettings): set<object>
  {
    if s.models.Some? then {s.models.value} else {}
  }

  /** The `models` table the migration starts from: the stored one, or the defaults. */
  function StartingModels(s: StoredSettings): map<string, string>
    reads SharedModels(s)
  {
    if s.models.Some? then s.models.value.entries else DefaultModels()
  }

  /** What the whole chain of guarded overwrites leaves in a `models` table,
      stated band by band: an undefined version gets only the first block's
      three writes; a numeric version below 11 ends with GPT-5 and Gemini 3
      Pro preview, below 13 with Claude Sonnet 4.6, below 14 with Qwen 3.5
      Plus; other entries are untouched. */
  function MigratedModels(m: map<string, string>, version: Option<int>): map<string, string>
  {
    match version
    case None =>
      m["google" := "gemini-2.5-pro-preview-06-05"]["openai" := "gpt-4.1-2025-04-14"]
       ["anthropic" := "claude-sonnet-4-20250514"]
    case Some(v) =>
      var upTo10 := if v < 11 then m["google" := "gemini-3-pro-preview"]["openai" := "gpt-5"] else m;
      var upTo12 := if v < 13 then upTo10["anthropic" := "claude-sonnet-4-6"] else upTo10;
      if v < 14 then upTo12["qwen" := "qwen3.5-plus"] else upTo12
  }

  /** The `version < n` blocks of `applySettingsMigrations` that write
      `models`, applied in order to the table's entries. */
  method UpgradeModels(entries: map<string, string>, version: Option<int>) returns (m: map<string, string>)
    ensures m == MigratedModels(entries, version)
  {
    m := entries;
    if Falsy(version) || Below(version, 3) {
      m := m["google" := "gemini-2.5-pro-preview-06-05"];
      m := m["openai" := "gpt-4.1-2025-04-14"];
      m := m["anthropic" := "claude-sonnet-4-20250514"];
    }
    if Below(version, 4) {
      if "google" in m && m["google"] == "gemini-2.5-pro-preview-06-05" {
        m := m["google" := "gemini-2.5-pro"];
      }
      if "openai" in m && m["openai"] == "gemini-2.5-flash-preview-05-20" {
        m := m["openai" := "gemini-2.5-flash"];
      }
    }
    if Below(version, 6) {
      m := m["openai" := "gpt-5"];
    }
    if Below(version, 7) {
      m := m["anthropic" := "claude-sonnet-4-5"];
    }
    if Below(version, 8) {
      m := m["google" := "gemini-3-pro"];
    }
    if Below(version, 9) {
      m := m["google" := "gemini-3-pro-preview"];
    }
    if Below(version, 10) {
      m := m["openai" := "gpt-5-main"];
    }
    if Below(version, 11) {
      m := m["google" := "gemini-3-pro-preview"];
      m := m["openai" := "gpt-5"];
    }
    if Below(version, 13) {
      m := m["anthropic" := "claude-sonnet-4-6"];
    }
    if Below(version, 14) {
      m := m["qwen" := "qwen3.5-plus"];
    }
  }

  /** `applySettingsMigrations(settings, version)`: builds the merged record,
      then applies the `version < n` blocks. The returned `models` is the
      caller's own object when there was one, so the caller's table is
      rewritten as well. The prompt block (`version < 12`) writes only the
      record's own fresh `prompts`, so running it after the `models` blocks
      rather than between them changes nothing anyone can observe. */
  method ApplySettingsMigrations(settings: StoredSettings, version: Option<int>) returns (r: MakeRealSettings)
    modifies SharedModels(settings)
    ensures settings.models.Some? ==> r.models == settings.models.value
    ensures settings.models.None? ==> fresh(r.models)
    ensures r.models.entries == MigratedModels(old(StartingModels(settings)), version)
    ensures r.provider == settings.provider.GetOr("qwen")
    ensures r.keys == DefaultKeys + settings.keys
    ensures r.prompts == ResetPrompts
  {
    var keys := settings.keys;
    var defaultModels := new ModelTable(DefaultModels());
    var models := if settings.models.Some? then settings.models.value else defaultModels;
    r := MakeRealSettings(settings.provider.GetOr("qwen"), models, DefaultKeys + keys, ResetPrompts);

    models.entries := UpgradeModels(models.entries, version);
    if Below(version, 12) {
      r := r.(prompts := r.prompts["system" := November19Prompt]["openai" := November19Prompt]
                                  ["anthropic" := November19Prompt]["google" := November19Prompt]);
      ResetPromptsAreStable();
    }
  }

  /** Writing the prompt constant over the reset prompts changes nothing. */
  lemma ResetPromptsAreStable()
    ensures ResetPrompts["system" := November19Prompt]["openai" := November19Prompt]
                        ["anthropic" := November19Prompt]["google" := November19Prompt] == ResetPrompts
  {
  }

  /** A table already at the current version is left as it is. */
  lemma CurrentModelsAreUntouched(m: map<string, string>, v: int)
    requires v >= MigrationVersion
    ensures MigratedModels(m, Some(v)) == m
  {
  }

  /** Migrating what a migration produced, with the current version, changes nothing. */
  lemma MigrationIsIdempotent(m: map<string, string>, version: Option<int>)
    ensures var once := MigratedModels(m, version);
            MigratedModels(once, Some(MigrationVersion)) == once
  {
  }

  /** The model each provider ends with for a numeric version. */
  lemma MigratedModelsByVersion(m: map<string, string>, v: int)
    ensures var r := MigratedModels(m, Some(v));
            && (v < 11 ==> r["openai"] == "gpt-5" && r["google"] == "gemini-3-pro-preview")
            && (v < 13 ==> r["anthropic"] == "claude-sonnet-4-6")
            && (v < 14 ==> r["qwen"] == "qwen3.5-plus")
            && (v >= 11 && "openai" in m ==> r["openai"] == m["openai"])
            && (v >= 11 && "google" in m ==> r["google"] == m["google"])
            && (v >= 13 && "anthropic" in m ==> r["anthropic"] == m["anthropic"])
  {
  }

  /** An undefined version runs only the first block: it ends with the
      models that block writes, qwen untouched, and so differently from a
      version of 0, for which every block runs. */
  lemma UndefinedVersionRunsFirstBlockOnly(m: map<string, string>)
    ensures var r := MigratedModels(m, None);
            && r["google"] == "gemini-2.5-pro-preview-06-05"
            && r["openai"] == "gpt-4.1-2025-04-14"
            && r["anthropic"] == "claude-sonnet-4-20250514"
            && ("qwen" in r <==> "qwen" in m)
            && ("qwen" in m ==> r["qwen"] == m["qwen"])
    ensures MigratedModels(m, None) != MigratedModels(m, Some(0))
  {
    assert MigratedModels(m, Some(0))["google"] == "gemini-3-pro-preview";
  }

  /** Whatever the version, only the four providers' entries are written. */
  lemma MigrationWritesOnlyProviderModels(m: map<string, string>, version: Option<int>, k: string)
    requires k !in {"openai", "anthropic", "google", "qwen"}
    ensures k in MigratedModels(m, version) <==> k in m
    ensures k in m ==> MigratedModels(m, version)[k] == m[k]
  {
  }

  /** The merged keys keep every stored key and give a missing provider key
      the empty string; merging them again changes nothing. */
  lemma MergedKeysKeepStoredKeys(keys: map<string, string>)
    ensures forall k :: k in keys ==> (DefaultKeys + keys)[k] == keys[k]
    ensures forall k :: k in DefaultKeys && k !in keys ==> (DefaultKeys + keys)[k] == ""
    ensures (DefaultKeys + keys).Keys == keys.Keys + {"openai", "anthropic", "google", "qwen"}
    ensures DefaultKeys + (DefaultKeys + keys) == DefaultKeys + keys
  {
  }
}
