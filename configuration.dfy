/**
 * The configuration facade (config/ConfigurationManager.java): system.json (API endpoints
 * and prompts, read only) and userSettings.json (the user's choices, updated by the
 * setters and written back after every change).
 */
module Configuration {
  import opened Wrappers
  import opened JavaStrings

  /** One API endpoint of system.json. */
  datatype ApiConfig = ApiConfig(key: Option<string>, modelName: Option<string>, url: Option<string>)

  /** The prompts block of system.json; every field may be missing. */
  datatype PromptsConfig = PromptsConfig(visionPrompt: Option<string>, fallbackPrompt: Option<string>,
                                         multimodalPrompt: Option<string>, tasks: Option<string>)

  /** system.json. */
  datatype SystemConfig = SystemConfig(analysis: Option<ApiConfig>, vision: Option<ApiConfig>,
                                       multimodal: Option<ApiConfig>, prompts: Option<PromptsConfig>)

  /** userSettings.json. */
  datatype UserSettings = UserSettings(
    ttsVoice: Option<string>,
    language: Option<string>,
    personalityName: Option<string>,
    useApiVision: bool,
    useApiAnalysis: bool,
    useMultimodal: bool,
    useApiMultimodal: bool,
    useTts: bool,
    chatFrequency: Option<string>)

  /** A new UserSettings: no voice, English, Tsundere, every switch on. */
  function DefaultUserSettings(): (u: UserSettings)
    ensures u.ttsVoice.None? && u.language == Some("English") && u.personalityName == Some("Tsundere")
    ensures u.useApiVision && u.useApiAnalysis && u.useMultimodal && u.useApiMultimodal && u.useTts
  {
    UserSettings(None, Some("English"), Some("Tsundere"), true, true, true, true, true, None)
  }

  const DefaultVisionPrompt := "Describe the user's activity in this image. Focus on the content and what they are doing. Do NOT use the words 'screenshot', 'screen', or 'image'."
  const DefaultFallbackPrompt := "Based on this screen description: \"%s\" Give a SHORT comment (maximum 15 words)."
  const DefaultMultimodalPrompt := "The attached screenshot shows a user activity, based on this and the later on personality quote give a response to the user."
  const DefaultTasksInstruction := "You will receive a few tasks, for each task you will provide a different response. Use '[]' to wrap the response asked by the specific task. An ideal response will consist of multiple sequences of [] with the response inside for each."

  /** An endpoint is usable when it is configured with both a key and a url. */
  predicate Usable(api: Option<ApiConfig>) {
    api.Some? && api.value.key.Some? && api.value.url.Some?
  }

  /** getChatFrequencyDivisor on the frequency: "frequent" gives 2, "scarse" 5, anything else (null too) 3. */
  function DivisorFor(frequency: Option<string>): (d: int)
    ensures d == 2 || d == 3 || d == 5
    ensures d == 2 <==> frequency.Some? && ToLower(frequency.value) == "frequent"
    ensures d == 5 <==> frequency.Some? && ToLower(frequency.value) == "scarse"
  {
    if frequency.None? then 3
    else if ToLower(frequency.value) == "frequent" then 2
    else if ToLower(frequency.value) == "scarse" then 5
    else 3
  }

  /** The frequency is matched ignoring case. */
  lemma DivisorIgnoresCase(a: string, b: string)
    requires EqualsIgnoreCase(a, b)
    ensures DivisorFor(Some(a)) == DivisorFor(Some(b))
  {
  }

  /** A prompt of system.json, or its built-in text when the config, its prompts or the field is missing. */
  function PromptOr(field: Option<string>, dflt: string): string {
    field.GetOr(dflt)
  }

  class ConfigurationManager {
    var systemConfig: Option<SystemConfig>
    var userSettings: Option<UserSettings>
    /** What userSettings.json holds: the settings as last saved. */
    ghost var saved: Option<UserSettings>

    /** initialize(): the two files as loaded, or null where loading failed. */
    constructor (systemConfig: Option<SystemConfig>, userSettings: Option<UserSettings>, saved: Option<UserSettings>)
      ensures this.systemConfig == systemConfig && this.userSettings == userSettings && this.saved == saved
    {
      this.systemConfig := systemConfig;
      this.userSettings := userSettings;
      this.saved := saved;
    }

    // ---------------------------------------------------------------- system config

    /** isVisionApiAvailable. */
    predicate VisionApiAvailable()
      reads this
      ensures VisionApiAvailable() ==> systemConfig.Some? && systemConfig.value.vision.Some?
      ensures VisionApiAvailable() ==> systemConfig.value.vision.value.key.Some? && systemConfig.value.vision.value.url.Some?
    {
      systemConfig.Some? && Usable(systemConfig.value.vision)
    }

    /** isAnalysisApiAvailable. */
    predicate AnalysisApiAvailable()
      reads this
      ensures AnalysisApiAvailable() ==> systemConfig.Some? && systemConfig.value.analysis.Some?
      ensures AnalysisApiAvailable() ==> systemConfig.value.analysis.value.key.Some? && systemConfig.value.analysis.value.url.Some?
    {
      systemConfig.Some? && Usable(systemConfig.value.analysis)
    }

    /** isMultimodalApiConfigAvailable, and its alias isMultimodalApiAvailable. */
    predicate MultimodalApiAvailable()
      reads this
      ensures MultimodalApiAvailable() ==> systemConfig.Some? && systemConfig.value.multimodal.Some?
      ensures MultimodalApiAvailable() ==> systemConfig.value.multimodal.value.key.Some? && systemConfig.value.multimodal.value.url.Some?
    {
      systemConfig.Some? && Usable(systemConfig.value.multimodal)
    }

    /** The prompts of system.json, if there are any. */
    function Prompts(): Option<PromptsConfig>
      reads this
    {
      if systemConfig.Some? then systemConfig.value.prompts else None
    }

    /** getVisionPrompt: the configured text, or the built-in one. */
    function VisionPrompt(): (r: string)
      reads this
      ensures Prompts().None? || Prompts().value.visionPrompt.None? ==> r == DefaultVisionPrompt
      ensures Prompts().Some? && Prompts().value.visionPrompt.Some? ==> r == Prompts().value.visionPrompt.value
    {
      if Prompts().Some? then PromptOr(Prompts().value.visionPrompt, DefaultVisionPrompt) else DefaultVisionPrompt
    }

    /** getFallbackPrompt: the configured text, or the built-in one. */
    function FallbackPrompt(): (r: string)
      reads this
      ensures Prompts().None? || Prompts().value.fallbackPrompt.None? ==> r == DefaultFallbackPrompt
      ensures Prompts().Some? && Prompts().value.fallbackPrompt.Some? ==> r == Prompts().value.fallbackPrompt.value
    {
      if Prompts().Some? then PromptOr(Prompts().value.fallbackPrompt, DefaultFallbackPrompt) else DefaultFallbackPrompt
    }

    /** getMultimodalPrompt: the configured text, or the built-in one. */
    function MultimodalPrompt(): (r: string)
      reads this
      ensures Prompts().None? || Prompts().value.multimodalPrompt.None? ==> r == DefaultMultimodalPrompt
      ensures Prompts().Some? && Prompts().value.multimodalPrompt.Some? ==> r == Prompts().value.multimodalPrompt.value
    {
      if Prompts().Some? then PromptOr(Prompts().value.multimodalPrompt, DefaultMultimodalPrompt) else DefaultMultimodalPrompt
    }

    /** getTasksInstruction: the configured text, or the built-in one. */
    function TasksInstruction(): (r: string)
      reads this
      ensures Prompts().None? || Prompts().value.tasks.None? ==> r == DefaultTasksInstruction
      ensures Prompts().Some? && Prompts().value.tasks.Some? ==> r == Prompts().value.tasks.value
    {
      if Prompts().Some? then PromptOr(Prompts().value.tasks, DefaultTasksInstruction) else DefaultTasksInstruction
    }

    // ---------------------------------------------------------------- user settings

    /** getSelectedTtsVoice: null without settings. */
    function SelectedTtsVoice(): (r: Option<string>)
      reads this
      ensures userSettings.None? ==> r.None?
    {
      if userSettings.Some? then userSettings.value.ttsVoice else None
    }

    /** getSelectedLanguage: "English" without settings. */
    function SelectedLanguage(): (r: Option<string>)
      reads this
      ensures userSettings.None? ==> r == Some("English")
    {
      if userSettings.Some? then userSettings.value.language else Some("English")
    }

    /** getSelectedPersonalityName: "Tsundere" without settings. */
    function SelectedPersonalityName(): (r: Option<string>)
      reads this
      ensures userSettings.None? ==> r == Some("Tsundere")
    {
      if userSettings.Some? then userSettings.value.personalityName else Some("Tsundere")
    }

    /** useApiVision: false without settings. */
    predicate UseApiVision()
      reads this
      ensures userSettings.None? ==> !UseApiVision()
    {
      userSettings.Some? && userSettings.value.useApiVision
    }

    /** useApiAnalysis: false without settings. */
    predicate UseApiAnalysis()
      reads this
      ensures userSettings.None? ==> !UseApiAnalysis()
    {
      userSettings.Some? && userSettings.value.useApiAnalysis
    }

    /** useMultimodal: false without settings. */
    predicate UseMultimodal()
      reads this
      ensures userSettings.None? ==> !UseMultimodal()
    {
      userSettings.Some? && userSettings.value.useMultimodal
    }

    /** useApiMultimodal: false without settings. */
    predicate UseApiMultimodal()
      reads this
      ensures userSettings.None? ==> !UseApiMultimodal()
    {
      userSettings.Some? && userSettings.value.useApiMultimodal
    }

    /** useTTS: false without settings. */
    predicate UseTts()
      reads this
      ensures userSettings.None? ==> !UseTts()
    {
      userSettings.Some? && userSettings.value.useTts
    }

    /** getChatFrequency: "medium" without settings. */
    function ChatFrequency(): (r: Option<string>)
      reads this
      ensures userSettings.None? ==> r == Some("medium")
    {
      if userSettings.Some? then userSettings.value.chatFrequency else Some("medium")
    }

    /** getChatFrequencyDivisor: always 2, 3 or 5, and 3 without settings. */
    function ChatFrequencyDivisor(): (d: int)
      reads this
      ensures d == 2 || d == 3 || d == 5
      ensures userSettings.None? ==> d == 3
    {
      assert userSettings.None? ==> ToLower(ChatFrequency().value)[0] == 'm';
      DivisorFor(ChatFrequency())
    }

    /** A setter's change to the settings, saved when there are settings; nothing at all otherwise. */
    twostate predicate SettingsBecome(u: UserSettings -> UserSettings)
      reads this
    {
      systemConfig == old(systemConfig) &&
      (old(userSettings).None? ==> userSettings.None? && saved == old(saved)) &&
      (old(userSettings).Some? ==> userSettings == Some(u(old(userSettings).value)) && saved == userSettings)
    }

    /** saveUserSettings: writes the settings, if any. */
    method SaveUserSettings()
      modifies this
      ensures systemConfig == old(systemConfig) && userSettings == old(userSettings)
      ensures saved == if userSettings.Some? then userSettings else old(saved)
    {
      if userSettings.Some? {
        saved := userSettings;
      }
    }

    /** setSelectedTtsVoice. */
    method SetSelectedTtsVoice(voice: Option<string>)
      modifies this
      ensures SettingsBecome((u: UserSettings) => u.(ttsVoice := voice))
    {
      if userSettings.Some? {
        userSettings := Some(userSettings.value.(ttsVoice := voice));
        SaveUserSettings();
      }
    }

    /** setSelectedLanguage. */
    method SetSelectedLanguage(language: Option<string>)
      modifies this
      ensures SettingsBecome((u: UserSettings) => u.(language := language))
    {
      if userSettings.Some? {
        userSettings := Some(userSettings.value.(language := language));
        SaveUserSettings();
      }
    }

    /** setSelectedPersonality. */
    method SetSelectedPersonality(name: Option<string>)
      modifies this
      ensures SettingsBecome((u: UserSettings) => u.(personalityName := name))
    {
      if userSettings.Some? {
        userSettings := Some(userSettings.value.(personalityName := name));
        SaveUserSettings();
      }
    }

    /** setUseApiVision. */
    method SetUseApiVision(on: bool)
      modifies this
      ensures SettingsBecome((u: UserSettings) => u.(useApiVision := on))
      ensures UseApiVision() == (old(userSettings).Some? && on)
    {
      if userSettings.Some? {
        userSettings := Some(userSettings.value.(useApiVision := on));
        SaveUserSettings();
      }
    }

    /** setUseApiAnalysis. */
    method SetUseApiAnalysis(on: bool)
      modifies this
      ensures SettingsBecome((u: UserSettings) => u.(useApiAnalysis := on))
      ensures UseApiAnalysis() == (old(userSettings).Some? && on)
    {
      if userSettings.Some? {
        userSettings := Some(userSettings.value.(useApiAnalysis := on));
        SaveUserSettings();
      }
    }

    /** setUseMultimodal. */
    method SetUseMultimodal(on: bool)
      modifies this
      ensures SettingsBecome((u: UserSettings) => u.(useMultimodal := on))
      ensures UseMultimodal() == (old(userSettings).Some? && on)
    {
      if userSettings.Some? {
        userSettings := Some(userSettings.value.(useMultimodal := on));
        SaveUserSettings();
      }
    }

    /** setUseApiMultimodal. */
    method SetUseApiMultimodal(on: bool)
      modifies this
      ensures SettingsBecome((u: UserSettings) => u.(useApiMultimodal := on))
      ensures UseApiMultimodal() == (old(userSettings).Some? && on)
    {
      if userSettings.Some? {
        userSettings := Some(userSettings.value.(useApiMultimodal := on));
        SaveUserSettings();
      }
    }

    /** setUseTTS. */
    method SetUseTts(on: bool)
      modifies this
      ensures SettingsBecome((u: UserSettings) => u.(useTts := on))
      ensures UseTts() == (old(userSettings).Some? && on)
    {
      if userSettings.Some? {
        userSettings := Some(userSettings.value.(useTts := on));
        SaveUserSettings();
      }
    }

    /** setChatFrequency. */
    method SetChatFrequency(frequency: Option<string>)
      modifies this
      ensures SettingsBecome((u: UserSettings) => u.(chatFrequency := frequency))
    {
      if userSettings.Some? {
        userSettings := Some(userSettings.value.(chatFrequency := frequency));
        SaveUserSettings();
      }
    }
  }
}
