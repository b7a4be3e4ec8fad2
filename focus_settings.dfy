/** The settings hook: hard-coded defaults, shallowly overridden by the
    pipe's own custom settings, with the fetched application settings
    attached last. A settings object is a map from top-level key to value;
    the fetch of the application settings is an input. */
module FocusSettings {
  import opened Wrappers

  datatype FocusSettingsRecord = FocusSettingsRecord(defaultFocusTask: string, pollInterval: int, distractionThreshold: int)

  datatype AISettings = AISettings(aiProviderType: string, aiModel: string, aiUrl: string, apiKey: string)

  /** The value under one top-level key of a settings object. */
  datatype SettingValue =
    | FocusValue(focus: FocusSettingsRecord)
    | AiValue(ai: AISettings)
    | TextValue(text: string)
    | NumberValue(number: int)
    | AppSettingsValue(app: AppSettings)
    | OtherValue

  /** The fetched application settings: `customSettings.focusThief`, when
      present and truthy, and the rest of the object. */
  datatype AppSettings = AppSettings(focusThief: Option<map<string, SettingValue>>, rest: map<string, SettingValue>)

  const FocusSettingsKey := "focusSettings"
  const AiSettingsKey := "aiSettings"
  const AppSettingsKey := "screenpipeAppSettings"

  const DefaultSettings: map<string, SettingValue> := map[
    FocusSettingsKey := FocusValue(FocusSettingsRecord("coding", 5000, 120000)),
    AiSettingsKey := AiValue(AISettings("ollama", "llama3", "http://localhost:11434", ""))
  ]

  /** `{...DEFAULT_SETTINGS, ...pipeSettings, screenpipeAppSettings}`, with
      `pipeSettings` the custom settings or `{}`. */
  function Merge(fetched: AppSettings): (m: map<string, SettingValue>)
    ensures m.Keys == DefaultSettings.Keys + fetched.focusThief.GetOr(map[]).Keys + {AppSettingsKey}
  {
    var pipeSettings := fetched.focusThief.GetOr(map[]);
    (DefaultSettings + pipeSettings)[AppSettingsKey := AppSettingsValue(fetched)]
  }

  /** A key the custom settings carry replaces the default wholesale (no
      deep merge); a key they lack keeps its default; and the application
      settings always sit under their own key, whatever the custom settings
      put there. */
  lemma MergeSpec(fetched: AppSettings, key: string)
    ensures key == AppSettingsKey ==> Merge(fetched)[key] == AppSettingsValue(fetched)
    ensures key != AppSettingsKey && fetched.focusThief.Some? && key in fetched.focusThief.value ==>
      Merge(fetched)[key] == fetched.focusThief.value[key]
    ensures (key != AppSettingsKey && key in DefaultSettings
             && (fetched.focusThief.None? || key !in fetched.focusThief.value)) ==>
      Merge(fetched)[key] == DefaultSettings[key]
  {
  }

  /** Without custom settings the result is the defaults plus the
      application settings. */
  lemma MergeWithoutCustom(fetched: AppSettings)
    requires fetched.focusThief.None?
    ensures Merge(fetched) == DefaultSettings[AppSettingsKey := AppSettingsValue(fetched)]
  {
    assert DefaultSettings + map[] == DefaultSettings;
  }

  /** The defaults, read field by field. */
  lemma DefaultValues()
    ensures DefaultSettings[FocusSettingsKey].focus.defaultFocusTask == "coding"
    ensures DefaultSettings[FocusSettingsKey].focus.pollInterval == 5000
    ensures DefaultSettings[FocusSettingsKey].focus.distractionThreshold == 120000
    ensures DefaultSettings[AiSettingsKey].ai == AISettings("ollama", "llama3", "http://localhost:11434", "")
  {
  }

  /** The hook's state: `settings` (null until loaded) and `loading`. */
  class FocusSettingsHook {
    var settings: Option<map<string, SettingValue>>
    var loading: bool

    constructor ()
      ensures settings.None? && loading
    {
      settings := None;
      loading := true;
    }

    /** `loadSettings`: on a successful fetch the merged settings are
        stored; on a failed one they stay as they were; `loading` ends
        false either way (the `finally` block). */
    method LoadSettings(fetched: Result<AppSettings, string>)
      modifies this
      ensures !loading
      ensures fetched.Success? ==> settings == Some(Merge(fetched.value))
      ensures fetched.Failure? ==> settings == old(settings)
    {
      if fetched.Success? {
        var pipeSettings := fetched.value.focusThief.GetOr(map[]);
        var merged := DefaultSettings + pipeSettings;
        merged := merged[AppSettingsKey := AppSettingsValue(fetched.value)];
        settings := Some(merged);
      }
      loading := false;
    }
  }
}
