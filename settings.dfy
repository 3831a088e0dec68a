/**
  The API-key part of `src/components/SettingsModal.tsx`: the key-format
  checker, the key masker, and the active-provider bookkeeping over the list
  of stored keys. The encrypted key store behind the bridge is an oracle: its
  replies are parameters.
*/
module SettingsModal {
  import opened Text
  import opened Wrappers

  // ---------------------------------------------------------------------------
  // validateApiKey

  const MinKeyLength: nat := 20

  const KeyTooShort := "API key seems too short (minimum 20 characters expected)"
  const KeyHasSpaces := "API key should not contain spaces"
  const OpenAiPrefixWarning := "OpenAI keys typically start with \"sk-\". This may not be a valid OpenAI key."
  const OpenAiLengthWarning := "OpenAI keys are typically 40-70 characters long. Please verify this key."
  const GeminiPrefixWarning := "Google Gemini keys typically start with \"AI\". This may not be a valid Gemini key."
  const GeminiLengthWarning := "Google Gemini keys are typically 35-45 characters long. Please verify this key."
  const ClaudePrefixWarning := "Anthropic Claude keys typically start with \"sk-ant-\". This may not be a valid Claude key."
  const ClaudeLengthWarning := "Anthropic Claude keys are typically 90+ characters long. Please verify this key."
  const GrokPrefixWarning := "Grok keys typically start with \"xai-\". This may not be a valid Grok key."

  /** The four providers the format checks know. */
  predicate IsKnownProvider(provider: string) {
    provider == "openai" || provider == "gemini" || provider == "claude" || provider == "grok"
  }

  /** `validateApiKey`: the first warning that applies to the trimmed key, or "" for none. */
  function ValidateApiKey(provider: string, keyValue: string): (r: string)
    ensures r in {"", KeyTooShort, KeyHasSpaces, OpenAiPrefixWarning, OpenAiLengthWarning,
                  GeminiPrefixWarning, GeminiLengthWarning, ClaudePrefixWarning, ClaudeLengthWarning,
                  GrokPrefixWarning}
  {
    KeyWarning(provider, Trim(keyValue))
  }

  /** The checks of `validateApiKey` on an already trimmed key, in order. */
  function KeyWarning(provider: string, key: string): string {
    if |key| < MinKeyLength then KeyTooShort
    else if ' ' in key then KeyHasSpaces
    else if provider == "openai" then
      if !("sk-" <= key) then OpenAiPrefixWarning
      else if |key| < 40 || |key| > 70 then OpenAiLengthWarning
      else ""
    else if provider == "gemini" then
      if !("AI" <= key) then GeminiPrefixWarning
      else if |key| < 35 || |key| > 45 then GeminiLengthWarning
      else ""
    else if provider == "claude" then
      if !("sk-ant-" <= key) then ClaudePrefixWarning
      else if |key| < 90 then ClaudeLengthWarning
      else ""
    else if provider == "grok" then
      if !("xai-" <= key) then GrokPrefixWarning
      else ""
    else ""
  }

  /** What a key must look like for each provider to draw no warning, written as
      one condition per provider. */
  predicate WellFormedKey(provider: string, key: string) {
    && |key| >= MinKeyLength
    && ' ' !in key
    && (provider == "openai" ==> "sk-" <= key && 40 <= |key| <= 70)
    && (provider == "gemini" ==> "AI" <= key && 35 <= |key| <= 45)
    && (provider == "claude" ==> "sk-ant-" <= key && |key| >= 90)
    && (provider == "grok" ==> "xai-" <= key)
  }

  /** A key draws no warning exactly when its trimmed form is well formed. */
  lemma NoWarningIffWellFormed(provider: string, keyValue: string)
    ensures ValidateApiKey(provider, keyValue) == "" <==> WellFormedKey(provider, Trim(keyValue))
  {
  }

  /** Whitespace around the key never changes the verdict. */
  lemma ValidateApiKeyIgnoresSurroundingWhitespace(provider: string, keyValue: string)
    ensures ValidateApiKey(provider, keyValue) == ValidateApiKey(provider, Trim(keyValue))
  {
    TrimIdempotent(keyValue);
  }

  /** The generic checks come first and hold for every provider: a short key is
      "too short", a long enough key with a space gets the "no spaces" warning. */
  lemma GenericChecksComeFirst(provider: string, keyValue: string)
    ensures |Trim(keyValue)| < MinKeyLength ==> ValidateApiKey(provider, keyValue) == KeyTooShort
    ensures |Trim(keyValue)| >= MinKeyLength && ' ' in Trim(keyValue) ==>
      ValidateApiKey(provider, keyValue) == KeyHasSpaces
  {
  }

  /** Past the generic checks, a known provider's checks run prefix first: a
      key without the provider's prefix gets the prefix warning whatever its
      length, and a key with the prefix but a length out of range gets the
      length warning. */
  lemma ProviderChecksPrefixBeforeLength(provider: string, keyValue: string)
    requires |Trim(keyValue)| >= MinKeyLength && ' ' !in Trim(keyValue)
    ensures var k := Trim(keyValue); var w := ValidateApiKey(provider, keyValue);
      && (provider == "openai" && !("sk-" <= k) ==> w == OpenAiPrefixWarning)
      && (provider == "openai" && "sk-" <= k && !(40 <= |k| <= 70) ==> w == OpenAiLengthWarning)
      && (provider == "gemini" && !("AI" <= k) ==> w == GeminiPrefixWarning)
      && (provider == "gemini" && "AI" <= k && !(35 <= |k| <= 45) ==> w == GeminiLengthWarning)
      && (provider == "claude" && !("sk-ant-" <= k) ==> w == ClaudePrefixWarning)
      && (provider == "claude" && "sk-ant-" <= k && |k| < 90 ==> w == ClaudeLengthWarning)
      && (provider == "grok" && !("xai-" <= k) ==> w == GrokPrefixWarning)
  {
  }

  /** For a provider outside the four, only the generic checks apply. */
  lemma UnknownProviderOnlyGenericChecks(provider: string, keyValue: string)
    requires !IsKnownProvider(provider)
    ensures ValidateApiKey(provider, keyValue) ==
      if |Trim(keyValue)| < MinKeyLength then KeyTooShort
      else if ' ' in Trim(keyValue) then KeyHasSpaces
      else ""
  {
  }

  // ---------------------------------------------------------------------------
  // maskApiKey

  const MaskChar: char := '\U{2022}'

  /** `maskApiKey`: keeps the first and last four characters and hides the middle. */
  function MaskApiKey(key: string): (r: string)
    ensures |r| == |key|
    ensures |key| <= 8 ==> r == key
    ensures |key| > 8 ==> r[..4] == key[..4] && r[|r| - 4..] == key[|key| - 4..]
    ensures |key| > 8 ==> forall i :: 4 <= i < |key| - 4 ==> r[i] == MaskChar
  {
    if |key| <= 8 then key
    else key[..4] + seq(|key| - 8, _ => MaskChar) + key[|key| - 4..]
  }

  // ---------------------------------------------------------------------------
  // Settings state and the active-provider rules

  datatype Theme = Light | Dark | Auto

  datatype ApiKey = ApiKey(id: string, name: string, provider: string, createdAt: string, isActive: bool)

  /** A key as the secure store lists it (before an active flag is attached). */
  datatype StoredKey = StoredKey(id: string, name: string, provider: string, createdAt: string)

  datatype SettingsData = SettingsData(theme: Theme, apiKeys: seq<ApiKey>, activeApiProvider: Option<string>)

  const DefaultSettings := SettingsData(Auto, [], None)

  predicate HasKeysFor(keys: seq<ApiKey>, provider: string) {
    exists i :: 0 <= i < |keys| && keys[i].provider == provider
  }

  /** Each key's `isActive` becomes whether its provider is `active`. */
  function MarkActive(keys: seq<ApiKey>, active: Option<string>): (r: seq<ApiKey>)
    ensures |r| == |keys|
    ensures forall i :: 0 <= i < |keys| ==>
      r[i] == keys[i].(isActive := active == Some(keys[i].provider))
  {
    seq(|keys|, i requires 0 <= i < |keys| => keys[i].(isActive := active == Some(keys[i].provider)))
  }

  /** `setActiveProvider`: nothing happens when the provider has no key; otherwise
      it becomes the active provider and exactly its keys are marked active. */
  function SetActiveProvider(s: SettingsData, provider: string): (r: SettingsData)
    ensures !HasKeysFor(s.apiKeys, provider) ==> r == s
    ensures HasKeysFor(s.apiKeys, provider) ==>
      && r.activeApiProvider == Some(provider)
      && r.theme == s.theme
      && |r.apiKeys| == |s.apiKeys|
      && (forall i :: 0 <= i < |r.apiKeys| ==>
            && r.apiKeys[i].isActive == (s.apiKeys[i].provider == provider)
            && r.apiKeys[i].(isActive := s.apiKeys[i].isActive) == s.apiKeys[i])
  {
    if !HasKeysFor(s.apiKeys, provider) then s
    else s.(activeApiProvider := Some(provider), apiKeys := MarkActive(s.apiKeys, Some(provider)))
  }

  /** Selecting the active provider twice is selecting it once. */
  lemma SetActiveProviderIdempotent(s: SettingsData, provider: string)
    ensures SetActiveProvider(SetActiveProvider(s, provider), provider) == SetActiveProvider(s, provider)
  {
    var r := SetActiveProvider(s, provider);
    if HasKeysFor(s.apiKeys, provider) {
      var i :| 0 <= i < |s.apiKeys| && s.apiKeys[i].provider == provider;
      assert r.apiKeys[i].provider == provider;
      assert MarkActive(r.apiKeys, Some(provider)) == r.apiKeys;
    }
  }

  /** The settings `loadSettings` builds from the stored theme, the store's key
      listing (None when the bridge is missing or the listing failed) and the
      stored active-provider preference. */
  function LoadedSettings(storedTheme: Option<Theme>, listing: Option<seq<StoredKey>>, storedActive: Option<string>): (r: SettingsData)
    ensures r.theme == storedTheme.GetOr(Auto)
    ensures r.activeApiProvider == storedActive
    ensures listing.None? ==> r.apiKeys == []
    ensures listing.Some? ==> |r.apiKeys| == |listing.value|
    ensures listing.Some? ==> forall i :: 0 <= i < |r.apiKeys| ==>
      && r.apiKeys[i].id == listing.value[i].id
      && r.apiKeys[i].name == listing.value[i].name
      && r.apiKeys[i].provider == listing.value[i].provider
      && r.apiKeys[i].createdAt == listing.value[i].createdAt
      && r.apiKeys[i].isActive == (storedActive == Some(listing.value[i].provider))
  {
    var keys := match listing
      case None => []
      case Some(ks) => seq(|ks|, i requires 0 <= i < |ks| =>
                            ApiKey(ks[i].id, ks[i].name, ks[i].provider, ks[i].createdAt, false));
    SettingsData(storedTheme.GetOr(Auto), if storedActive.Some? then MarkActive(keys, storedActive) else keys, storedActive)
  }

  /** The rule `addApiKey` applies before reloading: a newly stored key's provider
      becomes active only if it had no key and no provider was active. */
  predicate ShouldActivateOnAdd(before: SettingsData, provider: string) {
    !HasKeysFor(before.apiKeys, provider) && before.activeApiProvider.None?
  }

  /** The settings after a key for `provider` was stored: the reloaded settings,
      with `provider` made active when `ShouldActivateOnAdd` held beforehand. */
  function SettingsAfterAdd(before: SettingsData, provider: string, reloaded: SettingsData): (r: SettingsData)
    ensures r.apiKeys == reloaded.apiKeys && r.theme == reloaded.theme
    ensures ShouldActivateOnAdd(before, provider) ==> r.activeApiProvider == Some(provider)
    ensures !ShouldActivateOnAdd(before, provider) ==> r.activeApiProvider == reloaded.activeApiProvider
  {
    if ShouldActivateOnAdd(before, provider) then reloaded.(activeApiProvider := Some(provider)) else reloaded
  }

  /** The first key with this id, as `settings.apiKeys.find` returns it. */
  function FindKey(keys: seq<ApiKey>, id: string): (r: Option<ApiKey>)
    ensures r.Some? ==> r.value in keys && r.value.id == id
    ensures r.None? ==> forall i :: 0 <= i < |keys| ==> keys[i].id != id
  {
    if keys == [] then None
    else if keys[0].id == id then Some(keys[0])
    else FindKey(keys[1..], id)
  }

  /** Whether removing the key `id` takes away the last key of the active provider
      (judged on the settings as they were before the removal). */
  predicate RemovesLastActiveKey(before: SettingsData, id: string) {
    match FindKey(before.apiKeys, id)
    case None => false
    case Some(k) =>
      && before.activeApiProvider == Some(k.provider)
      && !(exists i :: 0 <= i < |before.apiKeys| && before.apiKeys[i].provider == k.provider && before.apiKeys[i].id != id)
  }

  /** The settings after the key `id` was deleted: the reloaded settings, with no
      active provider when the last key of the active provider went. */
  function SettingsAfterRemove(before: SettingsData, id: string, reloaded: SettingsData): (r: SettingsData)
    ensures r.apiKeys == reloaded.apiKeys && r.theme == reloaded.theme
    ensures RemovesLastActiveKey(before, id) ==> r.activeApiProvider == None
    ensures !RemovesLastActiveKey(before, id) ==> r.activeApiProvider == reloaded.activeApiProvider
  {
    if RemovesLastActiveKey(before, id) then reloaded.(activeApiProvider := None) else reloaded
  }

  /** Removing a key of a provider that is not active, or one of several keys of
      the active provider, keeps the reloaded active provider. */
  lemma RemoveKeepsActiveWhileKeysRemain(before: SettingsData, id: string, reloaded: SettingsData, other: nat)
    requires other < |before.apiKeys| && before.apiKeys[other].id != id
    requires FindKey(before.apiKeys, id).Some?
    requires before.apiKeys[other].provider == FindKey(before.apiKeys, id).value.provider
    ensures SettingsAfterRemove(before, id, reloaded).activeApiProvider == reloaded.activeApiProvider
  {
  }

  /** What `addApiKey` did. */
  datatype AddOutcome =
    | Ignored                 // name or value blank: nothing happens
    | EncryptionUnavailable   // an alert; nothing is stored
    | StoreFailed             // the store call failed or threw: an alert
    | Stored                  // the key was stored and the settings reloaded

  /** The SettingsModal component's state. `storedTheme` and `storedActiveProvider`
      stand for the two `localStorage` entries it reads and writes. */
  class SettingsPanel {
    var settings: SettingsData
    var newKeyName: string
    var newKeyValue: string
    var selectedProvider: string
    var encryptionAvailable: bool
    var keyValidationWarning: string
    var storedTheme: Option<Theme>
    var storedActiveProvider: Option<string>

    constructor (storedTheme: Option<Theme>, storedActiveProvider: Option<string>)
      ensures settings == DefaultSettings && selectedProvider == "openai"
      ensures newKeyName == "" && newKeyValue == "" && keyValidationWarning == ""
      ensures !encryptionAvailable
      ensures this.storedTheme == storedTheme && this.storedActiveProvider == storedActiveProvider
    {
      settings := DefaultSettings;
      newKeyName, newKeyValue := "", "";
      selectedProvider := "openai";
      encryptionAvailable := false;
      keyValidationWarning := "";
      this.storedTheme := storedTheme;
      this.storedActiveProvider := storedActiveProvider;
    }

    /** `checkEncryption`: without a bridge nothing happens; otherwise the store's
        answer, or false when the query throws (`reply` None). */
    method CheckEncryption(bridgeAvailable: bool, reply: Option<bool>)
      modifies this
      ensures !bridgeAvailable ==> encryptionAvailable == old(encryptionAvailable)
      ensures bridgeAvailable ==> encryptionAvailable == reply.GetOr(false)
      ensures settings == old(settings) && storedActiveProvider == old(storedActiveProvider)
      ensures newKeyName == old(newKeyName) && newKeyValue == old(newKeyValue)
      ensures selectedProvider == old(selectedProvider) && storedTheme == old(storedTheme)
      ensures keyValidationWarning == old(keyValidationWarning)
    {
      if bridgeAvailable {
        encryptionAvailable := reply.GetOr(false);
      }
    }

    /** `loadSettings`, given the store's key listing. When `listApiKeys`
        rejects (`listingThrew`), the handler's catch leaves the settings as they were. */
    method LoadSettings(listing: Option<seq<StoredKey>>, listingThrew: bool)
      modifies this
      ensures listingThrew ==> settings == old(settings)
      ensures !listingThrew ==> settings == LoadedSettings(storedTheme, listing, storedActiveProvider)
      ensures storedTheme == old(storedTheme) && storedActiveProvider == old(storedActiveProvider)
      ensures newKeyName == old(newKeyName) && newKeyValue == old(newKeyValue)
      ensures selectedProvider == old(selectedProvider) && encryptionAvailable == old(encryptionAvailable)
      ensures keyValidationWarning == old(keyValidationWarning)
    {
      if !listingThrew {
        settings := LoadedSettings(storedTheme, listing, storedActiveProvider);
      }
    }

    /** `handleKeyValueChange`. */
    method KeyValueChange(value: string)
      modifies this
      ensures newKeyValue == value
      ensures keyValidationWarning == if Trim(value) != [] then ValidateApiKey(selectedProvider, value) else ""
      ensures settings == old(settings) && selectedProvider == old(selectedProvider) && newKeyName == old(newKeyName)
      ensures storedTheme == old(storedTheme) && storedActiveProvider == old(storedActiveProvider)
      ensures encryptionAvailable == old(encryptionAvailable)
    {
      newKeyValue := value;
      if Trim(value) != [] {
        keyValidationWarning := ValidateApiKey(selectedProvider, value);
      } else {
        keyValidationWarning := "";
      }
    }

    /** `handleProviderChange`: re-checks the typed key against the new provider. */
    method ProviderChange(provider: string)
      requires IsKnownProvider(provider)
      modifies this
      ensures selectedProvider == provider
      ensures keyValidationWarning ==
        if Trim(newKeyValue) != [] then ValidateApiKey(provider, newKeyValue) else old(keyValidationWarning)
      ensures settings == old(settings) && newKeyValue == old(newKeyValue) && newKeyName == old(newKeyName)
      ensures storedTheme == old(storedTheme) && storedActiveProvider == old(storedActiveProvider)
      ensures encryptionAvailable == old(encryptionAvailable)
    {
      selectedProvider := provider;
      if Trim(newKeyValue) != [] {
        keyValidationWarning := ValidateApiKey(provider, newKeyValue);
      }
    }

    /** `handleThemeChange` (the document class change is presentation). */
    method ThemeChange(theme: Theme)
      modifies this
      ensures settings == old(settings).(theme := theme) && storedTheme == Some(theme)
      ensures storedActiveProvider == old(storedActiveProvider)
      ensures newKeyName == old(newKeyName) && newKeyValue == old(newKeyValue)
      ensures selectedProvider == old(selectedProvider) && encryptionAvailable == old(encryptionAvailable)
      ensures keyValidationWarning == old(keyValidationWarning)
    {
      settings := settings.(theme := theme);
      storedTheme := Some(theme);
    }

    /** `setActiveProvider`; the preference is saved only when the provider has keys. */
    method SetActive(provider: string)
      requires IsKnownProvider(provider)
      modifies this
      ensures settings == SetActiveProvider(old(settings), provider)
      ensures storedActiveProvider ==
        if HasKeysFor(old(settings).apiKeys, provider) then Some(provider) else old(storedActiveProvider)
      ensures storedTheme == old(storedTheme)
      ensures newKeyName == old(newKeyName) && newKeyValue == old(newKeyValue)
      ensures selectedProvider == old(selectedProvider) && encryptionAvailable == old(encryptionAvailable)
      ensures keyValidationWarning == old(keyValidationWarning)
    {
      if HasKeysFor(settings.apiKeys, provider) {
        settings := SetActiveProvider(settings, provider);
        storedActiveProvider := Some(provider);
      }
    }

    /** `addApiKey`. `storeSucceeded` is the store's reply to storing
        (provider, trimmed name, trimmed value); `listing` is what the reload
        that follows a successful store lists. */
    method AddApiKey(storeSucceeded: bool, listing: Option<seq<StoredKey>>) returns (outcome: AddOutcome)
      modifies this
      ensures Trim(old(newKeyName)) == [] || Trim(old(newKeyValue)) == [] ==> outcome == Ignored
      ensures outcome == Ignored || outcome == EncryptionUnavailable || outcome == StoreFailed ==>
        && settings == old(settings) && storedActiveProvider == old(storedActiveProvider)
        && newKeyName == old(newKeyName) && newKeyValue == old(newKeyValue)
        && keyValidationWarning == old(keyValidationWarning)
      ensures outcome == Stored <==>
        Trim(old(newKeyName)) != [] && Trim(old(newKeyValue)) != [] && encryptionAvailable && storeSucceeded
      ensures outcome == Stored ==>
        && settings == SettingsAfterAdd(old(settings), selectedProvider,
                                        LoadedSettings(storedTheme, listing, old(storedActiveProvider)))
        && storedActiveProvider ==
             (if ShouldActivateOnAdd(old(settings), selectedProvider) then Some(selectedProvider)
              else old(storedActiveProvider))
        && newKeyName == "" && newKeyValue == "" && keyValidationWarning == ""
      ensures selectedProvider == old(selectedProvider) && storedTheme == old(storedTheme)
      ensures encryptionAvailable == old(encryptionAvailable)
    {
      if Trim(newKeyName) == [] || Trim(newKeyValue) == [] {
        return Ignored;
      }
      if !encryptionAvailable {
        return EncryptionUnavailable;
      }
      if !storeSucceeded {
        return StoreFailed;
      }
      var shouldSetAsActive := ShouldActivateOnAdd(settings, selectedProvider);
      var reloaded := LoadedSettings(storedTheme, listing, storedActiveProvider);
      settings := SettingsAfterAdd(settings, selectedProvider, reloaded);
      if shouldSetAsActive {
        storedActiveProvider := Some(selectedProvider);
      }
      newKeyName, newKeyValue, keyValidationWarning := "", "", "";
      outcome := Stored;
    }

    /** `removeApiKey`. `deleted` is the store's reply; `listing` is what the
        reload that follows a successful deletion lists. */
    method RemoveApiKey(keyId: string, deleted: bool, listing: Option<seq<StoredKey>>)
      modifies this
      ensures !deleted ==> settings == old(settings) && storedActiveProvider == old(storedActiveProvider)
      ensures deleted ==>
        && settings == SettingsAfterRemove(old(settings), keyId,
                                           LoadedSettings(storedTheme, listing, old(storedActiveProvider)))
        && storedActiveProvider ==
             (if RemovesLastActiveKey(old(settings), keyId) then None else old(storedActiveProvider))
      ensures storedTheme == old(storedTheme)
      ensures newKeyName == old(newKeyName) && newKeyValue == old(newKeyValue)
      ensures selectedProvider == old(selectedProvider) && encryptionAvailable == old(encryptionAvailable)
      ensures keyValidationWarning == old(keyValidationWarning)
    {
      if deleted {
        var before := settings;
        LoadSettings(listing, false);
        if RemovesLastActiveKey(before, keyId) {
          settings := settings.(activeApiProvider := None);
          storedActiveProvider := None;
        }
      }
    }
  }
}
