/**
 * The Settings screen: two key fields prefilled from the stored record, and a save that
 * stores the trimmed keys when both are non-blank and then hands control back to the app.
 */
module SettingsComponent {
  import opened Wrappers
  import opened Types
  import opened Json
  import opened Text
  import Storage

  /**
   * The prefilled text of a field: `existing?.<name> ?? ''`. None when the stored value is
   * not a string, since the screen then fails when it trims the field.
   */
  function InitialKey(existing: Option<Json>, name: string): (r: Option<string>)
    ensures existing.None? ==> r == Some("")
    ensures (existing.Some? && existing.value.JObject? && name in existing.value.fields
              && existing.value.fields[name].JString?) ==> r == Some(existing.value.fields[name].s)
  {
    if existing.None? then Some("")
    else
      match GetProperty(existing.value, name)
      case Defined(JString(s)) => Some(s)
      case Defined(JNull) => Some("")
      case Defined(_) => None
      case _ => Some("")
  }

  /** `canSave`: both fields hold something besides whitespace. */
  function CanSave(visionKey: string, claudeKey: string): (r: bool)
    ensures r <==> !AllWhitespace(visionKey) && !AllWhitespace(claudeKey)
  {
    TrimEmptyIffAllWhitespace(visionKey);
    TrimEmptyIffAllWhitespace(claudeKey);
    |Trim(visionKey)| > 0 && |Trim(claudeKey)| > 0
  }

  /** The record a save stores. */
  function TrimmedKeys(visionKey: string, claudeKey: string): ApiKeys {
    ApiKeys(Trim(visionKey), Trim(claudeKey))
  }

  /** A saved record prefills each field with its key. */
  lemma SavedRecordPrefills(keys: ApiKeys)
    ensures InitialKey(Some(Storage.KeysToJson(keys)), Storage.VisionField) == Some(keys.visionApiKey)
    ensures InitialKey(Some(Storage.KeysToJson(keys)), Storage.ClaudeField) == Some(keys.claudeApiKey)
  {
  }

  /** Trimmed keys that can be saved can be saved again, as the same record. */
  lemma TrimmedKeysStable(visionKey: string, claudeKey: string)
    requires CanSave(visionKey, claudeKey)
    ensures var keys := TrimmedKeys(visionKey, claudeKey);
      keys.visionApiKey != "" && keys.claudeApiKey != ""
      && CanSave(keys.visionApiKey, keys.claudeApiKey)
      && TrimmedKeys(keys.visionApiKey, keys.claudeApiKey) == keys
  {
    TrimEmptyIffAllWhitespace(visionKey);
    TrimEmptyIffAllWhitespace(claudeKey);
    TrimIdempotent(visionKey);
    TrimIdempotent(claudeKey);
    TrimEmptyIffAllWhitespace(Trim(visionKey));
    TrimEmptyIffAllWhitespace(Trim(claudeKey));
  }

  /**
   * What a save leaves behind loads back: the stored record is the trimmed pair, the
   * screen reopened shows the trimmed keys, and saving those again stores the same record.
   */
  lemma SavedKeysLoadBack(visionKey: string, claudeKey: string, parse: JsonParser)
    requires Storage.ParsesSavedRecords(parse)
    requires CanSave(visionKey, claudeKey)
    ensures var keys := TrimmedKeys(visionKey, claudeKey);
      var loaded := Storage.LoadFrom(Some(Storage.StringifyApiKeys(keys)), parse);
      && loaded == Some(Storage.KeysToJson(keys))
      && InitialKey(loaded, Storage.VisionField) == Some(Trim(visionKey))
      && InitialKey(loaded, Storage.ClaudeField) == Some(Trim(claudeKey))
      && CanSave(Trim(visionKey), Trim(claudeKey))
      && TrimmedKeys(Trim(visionKey), Trim(claudeKey)) == keys
  {
    var keys := TrimmedKeys(visionKey, claudeKey);
    TrimmedKeysStable(visionKey, claudeKey);
    Storage.SaveLoadRoundTrip(keys, parse);
    SavedRecordPrefills(keys);
  }

  /** The screen as a component holding its state. */
  class SettingsView {
    var visionKey: string
    var claudeKey: string
    var saved: bool

    /** Mounting: the fields prefilled from `loadApiKeys`, nothing saved yet. */
    constructor(store: Storage.LocalStorage, parse: JsonParser)
      requires InitialKey(store.LoadApiKeys(parse), Storage.VisionField).Some?
      requires InitialKey(store.LoadApiKeys(parse), Storage.ClaudeField).Some?
      ensures visionKey == InitialKey(store.LoadApiKeys(parse), Storage.VisionField).value
      ensures claudeKey == InitialKey(store.LoadApiKeys(parse), Storage.ClaudeField).value
      ensures !saved
    {
      var existing := store.LoadApiKeys(parse);
      visionKey := InitialKey(existing, Storage.VisionField).value;
      claudeKey := InitialKey(existing, Storage.ClaudeField).value;
      saved := false;
    }

    /** Typing in the Vision key field. */
    method EditVisionKey(text: string)
      modifies this
      ensures visionKey == text && claudeKey == old(claudeKey) && saved == old(saved)
    {
      visionKey := text;
    }

    /** Typing in the Claude key field. */
    method EditClaudeKey(text: string)
      modifies this
      ensures claudeKey == text && visionKey == old(visionKey) && saved == old(saved)
    {
      claudeKey := text;
    }

    /**
     * `handleSave`: with a blank field nothing happens; otherwise the trimmed keys replace
     * the stored record, the button shows the saved state and `onSave` is scheduled. The
     * fields keep the text as typed.
     */
    method HandleSave(store: Storage.LocalStorage) returns (scheduled: bool)
      modifies this, store
      ensures scheduled == CanSave(old(visionKey), old(claudeKey))
      ensures visionKey == old(visionKey) && claudeKey == old(claudeKey)
      ensures !scheduled ==> store.items == old(store.items) && saved == old(saved)
      ensures scheduled ==>
        store.items == old(store.items)[Storage.StorageKey := Storage.StringifyApiKeys(TrimmedKeys(visionKey, claudeKey))]
        && saved
    {
      if Trim(visionKey) == "" || Trim(claudeKey) == "" {
        return false;
      }
      store.SaveApiKeys(ApiKeys(Trim(visionKey), Trim(claudeKey)));
      saved := true;
      scheduled := true;
    }
  }
}
