/**
  The Settings page: its notification switches, the API-key field that shows a
  mask until the user asks to change it, and the settings record it writes to
  the persistent store under 'settings' when the user saves.
*/
module Settings {

  import opened Wrappers
  import opened Values
  import opened ElectronMain

  /** The key the page writes its settings under. */
  const SettingsKey: string := "settings"

  /** What the API-key field shows, and what is saved, while the key is not being edited: 26 bullets. */
  const ApiKeyMask: string := "••••••••••••••••••••••••••"

  /** The five notification switches. */
  datatype NotificationKey =
    | EmailNotifications
    | DesktopNotifications
    | VideoPerformanceAlerts
    | CommentNotifications
    | WeeklyReports

  datatype NotificationSettings = NotificationSettings(
    emailNotifications: bool,
    desktopNotifications: bool,
    videoPerformanceAlerts: bool,
    commentNotifications: bool,
    weeklyReports: bool)

  /** The switches as the page first shows them. */
  const InitialNotifications: NotificationSettings := NotificationSettings(true, true, true, false, true)

  /** `notificationSettings[k]`. */
  function Flag(n: NotificationSettings, k: NotificationKey): (r: bool)
  {
    match k
    case EmailNotifications => n.emailNotifications
    case DesktopNotifications => n.desktopNotifications
    case VideoPerformanceAlerts => n.videoPerformanceAlerts
    case CommentNotifications => n.commentNotifications
    case WeeklyReports => n.weeklyReports
  }

  /** Every switch is on at first except the one for comments. */
  lemma InitialFlags(k: NotificationKey)
    ensures Flag(InitialNotifications, k) <==> k != CommentNotifications
  {
  }

  /** The record `handleNotificationChange(k)` builds: flag `k` negated, every other flag kept. */
  function Toggle(n: NotificationSettings, k: NotificationKey): (r: NotificationSettings)
    ensures Flag(r, k) == !Flag(n, k)
    ensures forall j :: j != k ==> Flag(r, j) == Flag(n, j)
  {
    match k
    case EmailNotifications => n.(emailNotifications := !n.emailNotifications)
    case DesktopNotifications => n.(desktopNotifications := !n.desktopNotifications)
    case VideoPerformanceAlerts => n.(videoPerformanceAlerts := !n.videoPerformanceAlerts)
    case CommentNotifications => n.(commentNotifications := !n.commentNotifications)
    case WeeklyReports => n.(weeklyReports := !n.weeklyReports)
  }

  /** A toggle changes exactly the switch toggled. */
  lemma FlagAfterToggle(n: NotificationSettings, k: NotificationKey, j: NotificationKey)
    ensures Flag(Toggle(n, k), j) == if j == k then !Flag(n, j) else Flag(n, j)
  {
  }

  /** Toggling the same switch twice gives back the record it started from. */
  lemma ToggleTwice(n: NotificationSettings, k: NotificationKey)
    ensures Toggle(Toggle(n, k), k) == n
  {
  }

  /** Toggles of two switches may happen in either order. */
  lemma TogglesCommute(n: NotificationSettings, j: NotificationKey, k: NotificationKey)
    ensures Toggle(Toggle(n, j), k) == Toggle(Toggle(n, k), j)
  {
  }

  /** The notification record as it is stored. */
  function NotificationsValue(n: NotificationSettings): (v: Value)
    ensures v.Record?
  {
    Record(map[
      "emailNotifications" := Bool(n.emailNotifications),
      "desktopNotifications" := Bool(n.desktopNotifications),
      "videoPerformanceAlerts" := Bool(n.videoPerformanceAlerts),
      "commentNotifications" := Bool(n.commentNotifications),
      "weeklyReports" := Bool(n.weeklyReports)])
  }

  /** Reads a stored notification record back; anything of another shape gives None. */
  function NotificationsOf(v: Value): (r: Option<NotificationSettings>)
  {
    if v.Record?
      && "emailNotifications" in v.fields && v.fields["emailNotifications"].Bool?
      && "desktopNotifications" in v.fields && v.fields["desktopNotifications"].Bool?
      && "videoPerformanceAlerts" in v.fields && v.fields["videoPerformanceAlerts"].Bool?
      && "commentNotifications" in v.fields && v.fields["commentNotifications"].Bool?
      && "weeklyReports" in v.fields && v.fields["weeklyReports"].Bool?
    then
      Some(NotificationSettings(
        v.fields["emailNotifications"].b,
        v.fields["desktopNotifications"].b,
        v.fields["videoPerformanceAlerts"].b,
        v.fields["commentNotifications"].b,
        v.fields["weeklyReports"].b))
    else
      None
  }

  /** The stored notification record reads back as the switches that were stored. */
  lemma NotificationsRoundTrip(n: NotificationSettings)
    ensures NotificationsOf(NotificationsValue(n)) == Some(n)
  {
  }

  /** The `apiKey` entry of the saved record: the typed key while it is being edited, the mask otherwise. */
  function SavedApiKey(apiKey: string, editingApiKey: bool): (r: string)
    ensures editingApiKey ==> r == apiKey
    ensures !editingApiKey ==> r == ApiKeyMask
  {
    if editingApiKey then apiKey else ApiKeyMask
  }

  /** The record `handleSaveSettings` writes under 'settings'. */
  function SettingsValue(aiModel: string, apiKey: string, editingApiKey: bool, n: NotificationSettings,
                         dataExportFormat: string, autoOptimize: bool): (v: Value)
    ensures v.Record?
    ensures v.fields.Keys == {"aiModel", "apiKey", "notificationSettings", "dataExportFormat", "autoOptimize"}
  {
    Record(map[
      "aiModel" := Str(aiModel),
      "apiKey" := Str(SavedApiKey(apiKey, editingApiKey)),
      "notificationSettings" := NotificationsValue(n),
      "dataExportFormat" := Str(dataExportFormat),
      "autoOptimize" := Bool(autoOptimize)])
  }

  /** The saved record carries the model, the switches, the export format and the auto-optimize flag unchanged. */
  lemma SettingsValueCarriesChoices(aiModel: string, apiKey: string, editingApiKey: bool, n: NotificationSettings,
                                    dataExportFormat: string, autoOptimize: bool)
    ensures var v := SettingsValue(aiModel, apiKey, editingApiKey, n, dataExportFormat, autoOptimize);
            && v.fields["aiModel"] == Str(aiModel)
            && NotificationsOf(v.fields["notificationSettings"]) == Some(n)
            && v.fields["dataExportFormat"] == Str(dataExportFormat)
            && v.fields["autoOptimize"] == Bool(autoOptimize)
  {
    NotificationsRoundTrip(n);
  }

  /** Unless the key is being edited the saved record does not depend on the key: it is never written out. */
  lemma SavedRecordHidesKey(aiModel: string, k1: string, k2: string, n: NotificationSettings,
                            dataExportFormat: string, autoOptimize: bool)
    ensures SettingsValue(aiModel, k1, false, n, dataExportFormat, autoOptimize)
         == SettingsValue(aiModel, k2, false, n, dataExportFormat, autoOptimize)
    ensures SettingsValue(aiModel, k1, false, n, dataExportFormat, autoOptimize).fields["apiKey"] == Str(ApiKeyMask)
  {
  }

  /** While the key is being edited the saved record holds it: different keys give different records. */
  lemma SavedRecordRevealsEditedKey(aiModel: string, k1: string, k2: string, n: NotificationSettings,
                                    dataExportFormat: string, autoOptimize: bool)
    requires k1 != k2
    ensures SettingsValue(aiModel, k1, true, n, dataExportFormat, autoOptimize).fields["apiKey"] == Str(k1)
    ensures SettingsValue(aiModel, k1, true, n, dataExportFormat, autoOptimize)
         != SettingsValue(aiModel, k2, true, n, dataExportFormat, autoOptimize)
  {
    var v1 := SettingsValue(aiModel, k1, true, n, dataExportFormat, autoOptimize);
    var v2 := SettingsValue(aiModel, k2, true, n, dataExportFormat, autoOptimize);
    assert v1.fields["apiKey"] != v2.fields["apiKey"];
  }

  /** `v` is a saved settings record whose `apiKey` entry is `key`. */
  predicate SavedKeyIs(v: Value, key: string)
  {
    v.Record? && "apiKey" in v.fields && v.fields["apiKey"] == Str(key)
  }

  /** The page's state; `store` is the application's persistent store. */
  class SettingsPage {
    var aiModel: string
    var apiKey: string
    var editingApiKey: bool
    var notificationSettings: NotificationSettings
    var dataExportFormat: string
    var autoOptimize: bool
    var loading: bool
    var saved: bool
    const store: Store

    /** The page as first shown: GPT-4, the masked key, CSV export, nothing saved yet. */
    constructor (store: Store)
      ensures this.store == store
      ensures aiModel == "gpt-4" && apiKey == ApiKeyMask && !editingApiKey
      ensures notificationSettings == InitialNotifications
      ensures dataExportFormat == "csv" && !autoOptimize && !loading && !saved
    {
      this.store := store;
      aiModel := "gpt-4";
      apiKey := ApiKeyMask;
      editingApiKey := false;
      notificationSettings := InitialNotifications;
      dataExportFormat := "csv";
      autoOptimize := false;
      loading := false;
      saved := false;
    }

    /** The record a save would write now. */
    function CurrentSettings(): (v: Value)
      reads this
    {
      SettingsValue(aiModel, apiKey, editingApiKey, notificationSettings, dataExportFormat, autoOptimize)
    }

    /** `handleNotificationChange(k)`: negates switch `k`; nothing else on the page changes. */
    method HandleNotificationChange(k: NotificationKey)
      modifies this
      ensures notificationSettings == Toggle(old(notificationSettings), k)
      ensures aiModel == old(aiModel) && apiKey == old(apiKey) && editingApiKey == old(editingApiKey)
      ensures dataExportFormat == old(dataExportFormat) && autoOptimize == old(autoOptimize)
      ensures loading == old(loading) && saved == old(saved)
    {
      notificationSettings := Toggle(notificationSettings, k);
    }

    /** The Change/Cancel button next to the key: negates `editingApiKey` and nothing else. */
    method ToggleEditingApiKey()
      modifies this
      ensures editingApiKey == !old(editingApiKey)
      ensures aiModel == old(aiModel) && apiKey == old(apiKey) && notificationSettings == old(notificationSettings)
      ensures dataExportFormat == old(dataExportFormat) && autoOptimize == old(autoOptimize)
      ensures loading == old(loading) && saved == old(saved)
    {
      editingApiKey := !editingApiKey;
    }

    /** Typing in the key field: the field is read-only unless the key is being edited. */
    method TypeApiKey(text: string)
      modifies this
      ensures apiKey == if old(editingApiKey) then text else old(apiKey)
      ensures aiModel == old(aiModel) && editingApiKey == old(editingApiKey)
      ensures notificationSettings == old(notificationSettings)
      ensures dataExportFormat == old(dataExportFormat) && autoOptimize == old(autoOptimize)
      ensures loading == old(loading) && saved == old(saved)
    {
      if editingApiKey {
        apiKey := text;
      }
    }

    /** The auto-optimize checkbox: negates `autoOptimize` and nothing else. */
    method ToggleAutoOptimize()
      modifies this
      ensures autoOptimize == !old(autoOptimize)
      ensures aiModel == old(aiModel) && apiKey == old(apiKey) && editingApiKey == old(editingApiKey)
      ensures notificationSettings == old(notificationSettings) && dataExportFormat == old(dataExportFormat)
      ensures loading == old(loading) && saved == old(saved)
    {
      autoOptimize := !autoOptimize;
    }

    /**
      `handleSaveSettings`, with its delayed step run at once. The spinner
      starts, then the current settings are written under 'settings' without
      being awaited. When that write throws at once the delayed step stops
      there: the spinner keeps turning and nothing else changes. Otherwise the
      spinner stops, the "saved" notice shows and key editing ends, whether or
      not the write is rejected later. The choices themselves are kept.
    */
    method HandleSaveSettings(call: BridgeCall)
      modifies this, store
      ensures call == Completed ==> store.entries == old(store.entries)[SettingsKey := old(CurrentSettings())]
      ensures call != Completed ==> store.entries == old(store.entries)
      ensures call != ThrewAtOnce ==> !loading && saved && !editingApiKey
      ensures call == ThrewAtOnce ==> loading && saved == old(saved) && editingApiKey == old(editingApiKey)
      ensures aiModel == old(aiModel) && apiKey == old(apiKey) && notificationSettings == old(notificationSettings)
      ensures dataExportFormat == old(dataExportFormat) && autoOptimize == old(autoOptimize)
    {
      loading := true;
      var record := CurrentSettings();
      if call == ThrewAtOnce {
        return;
      }
      if call == Completed {
        var _ := store.Set(SettingsKey, record);
      }
      loading := false;
      saved := true;
      editingApiKey := false;
    }

    /** The second timer of `handleSaveSettings`: the "saved" notice goes away. */
    method ExpireSavedNotice()
      modifies this
      ensures !saved
      ensures aiModel == old(aiModel) && apiKey == old(apiKey) && editingApiKey == old(editingApiKey)
      ensures notificationSettings == old(notificationSettings)
      ensures dataExportFormat == old(dataExportFormat) && autoOptimize == old(autoOptimize)
      ensures loading == old(loading)
    {
      saved := false;
    }
  }

  /**
    A save while editing writes the typed key and ends editing, so a second
    save, with no new edit in between, writes the mask instead.
  */
  method SecondSaveHidesKey(page: SettingsPage, typed: string) returns (first: Value)
    requires page.editingApiKey
    modifies page, page.store
    ensures SavedKeyIs(first, typed)
    ensures SettingsKey in page.store.entries && SavedKeyIs(page.store.entries[SettingsKey], ApiKeyMask)
  {
    page.TypeApiKey(typed);
    page.HandleSaveSettings(Completed);
    first := page.store.entries[SettingsKey];
    page.HandleSaveSettings(Completed);
  }
}
