/** lib/data-manager.ts: application settings with the auto-save flag, whole-app export and
    import, the backup history, clear-all, and the storage-usage estimate. */
module DataManagement {
  import opened Seqs
  import opened Text
  import opened LocalStorage
  import opened Progress
  import opened CustomVocabulary

  datatype BackupFrequency = DailyBackup | WeeklyBackup | MonthlyBackup
  datatype Theme = Light | Dark | SystemTheme

  /** `AppSettings`; `speechRate` is a JavaScript number, here an exact real. */
  datatype AppSettings = AppSettings(
    autoSave: bool,
    backupFrequency: BackupFrequency,
    soundEnabled: bool,
    speechRate: real,
    theme: Theme,
    notifications: bool)

  /** `Partial<AppSettings>`: `None` is a key the object does not have. */
  datatype SettingsUpdate = SettingsUpdate(
    autoSave: Option<bool>,
    backupFrequency: Option<BackupFrequency>,
    soundEnabled: Option<bool>,
    speechRate: Option<real>,
    theme: Option<Theme>,
    notifications: Option<bool>)

  /** The settings `loadSettings` falls back to. */
  const DefaultSettings := AppSettings(true, WeeklyBackup, true, 0.8, SystemTheme, true)

  /** `{ ...s, ...u }` */
  function MergeSettings(s: AppSettings, u: SettingsUpdate): AppSettings
  {
    AppSettings(
      Pick(u.autoSave, s.autoSave),
      Pick(u.backupFrequency, s.backupFrequency),
      Pick(u.soundEnabled, s.soundEnabled),
      Pick(u.speechRate, s.speechRate),
      Pick(u.theme, s.theme),
      Pick(u.notifications, s.notifications))
  }

  /** A complete settings object used as an update. */
  function AsUpdate(s: AppSettings): SettingsUpdate
  {
    SettingsUpdate(Some(s.autoSave), Some(s.backupFrequency), Some(s.soundEnabled),
      Some(s.speechRate), Some(s.theme), Some(s.notifications))
  }

  /** The `AppData` document `exportAllData` serialises; `lastBackup` in milliseconds. */
  datatype AppData = AppData(
    progress: UserProgress,
    customWords: seq<CustomWord>,
    settings: AppSettings,
    lastBackup: int,
    version: string)

  const Version := "1.0.0"

  /** What `JSON.parse` gives `importAllData`: a failure with the engine's message (also a
      document that is `null`), or an object whose three required properties are each present
      and truthy (`Some`) or not (`None`). */
  datatype AppDocument =
    | Unreadable(message: string)
    | Parsed(progress: Option<UserProgress>, customWords: Option<seq<CustomWord>>,
             settings: Option<SettingsUpdate>, lastBackup: int)

  /** The document a successful `JSON.parse` of exported data yields. */
  function ToDocument(d: AppData): AppDocument
  {
    Parsed(Some(d.progress), Some(d.customWords), Some(AsUpdate(d.settings)), d.lastBackup)
  }

  datatype Outcome = Outcome(success: bool, message: string)

  const InvalidData := "Invalid data format"

  /** The words `importAllData` adds for `ws`, in order: the seven content fields of each, with
      no notes and a new id made from `now` and `suffix(k)`. */
  function RebuiltWords(ws: seq<CustomWord>, now: nat, suffix: nat -> string): seq<CustomWord>
    decreases |ws|
  {
    if ws == [] then []
    else
      var k := |ws| - 1;
      RebuiltWords(ws[..k], now, suffix)
      + [CustomWord(NewId(now, suffix(k)), ws[k].content.(notes := None), true, now, "user")]
  }

  /** One entry of the "backupHistory" list; `timestamp` in milliseconds, `size` in bytes. */
  datatype BackupInfo = BackupInfo(timestamp: int, size: nat)

  const MaxBackups: nat := 10

  /** `unshift(info)` followed by `splice(10)`. */
  function PushBackup(history: seq<BackupInfo>, info: BackupInfo): seq<BackupInfo>
  {
    Take([info] + history, MaxBackups)
  }

  /** `5 * 1024 * 1024`: the storage quota the estimate assumes. */
  const Available: nat := 5 * 1024 * 1024

  /** What one localStorage entry counts towards `used`. */
  function Weight(m: map<string, string>, k: string): nat
    requires k in m
  {
    |m[k]| + |k|
  }

  /** `used` summed over the keys `ks`, in that order. */
  function UsageOf(m: map<string, string>, ks: seq<string>): nat
    requires forall k :: k in ks ==> k in m
    decreases |ks|
  {
    if ks == [] then 0 else Weight(m, ks[0]) + UsageOf(m, ks[1..])
  }

  /** `ks` lists every key of `m` exactly once: the order `for (const key in localStorage)` visits. */
  ghost predicate Enumerates(ks: seq<string>, m: map<string, string>)
  {
    NoDup(ks) && forall k :: k in ks <==> k in m
  }

  /** The localStorage keys the app writes. */
  const ProgressKey := "englishLearningProgress"
  const CustomWordsKey := "customVocabulary"
  const SettingsKey := "appSettings"
  const BackupKey := "backupHistory"

  /** `getStorageUsage` over the key-to-string view `m` of localStorage, visiting keys in the
      order `ks`: `used` is the sum of key and value lengths, `available` the assumed 5 MiB. */
  method GetStorageUsage(m: map<string, string>, ks: seq<string>) returns (used: nat, available: nat, percentage: real)
    requires Enumerates(ks, m)
    ensures used == UsageOf(m, ks)
    ensures available == 5242880
    ensures percentage * available as real == used as real * 100.0
  {
    used := 0;
    var i := 0;
    while i < |ks|
      invariant 0 <= i <= |ks|
      invariant used + UsageOf(m, ks[i..]) == UsageOf(m, ks)
    {
      assert ks[i..][1..] == ks[i + 1..];
      used := used + |m[ks[i]]| + |ks[i]|;
      i := i + 1;
    }
    available := Available;
    percentage := (used as real / available as real) * 100.0;
  }

  /** `DataManager`: the settings, the auto-save timer handle, and the two managers it
      coordinates. setInterval hands out handles counted up from `nextHandle`; `liveTimers`
      are the handles not yet cleared. */
  class DataManager {
    var settings: AppSettings
    var autoSaveInterval: Option<nat>
    var liveTimers: set<nat>
    var nextHandle: nat
    const settingsStore: Slot<AppSettings>
    const backupStore: Slot<seq<BackupInfo>>
    const progress: ProgressManager
    const vocabulary: CustomVocabularyManager

    /** The only running timer is the held handle; there is none when no handle is held. */
    ghost predicate TimerValid()
      reads this
    {
      (autoSaveInterval.None? ==> liveTimers == {})
      && (autoSaveInterval.Some? ==> liveTimers == {autoSaveInterval.value} && 0 < autoSaveInterval.value < nextHandle)
      && nextHandle > 0
    }

    ghost predicate Valid()
      reads this, progress, progress.progress
    {
      TimerValid() && progress.Valid()
    }

    /** `constructor`: `loadSettings` then `initializeAutoSave`. */
    constructor (settingsStore: Slot<AppSettings>, backupStore: Slot<seq<BackupInfo>>,
                 progress: ProgressManager, vocabulary: CustomVocabularyManager)
      requires progress.Valid()
      ensures Valid()
      ensures this.settingsStore == settingsStore && this.backupStore == backupStore
      ensures this.progress == progress && this.vocabulary == vocabulary
      ensures settings == if settingsStore.value.Some? then settingsStore.value.value else DefaultSettings
      ensures autoSaveInterval.Some? <==> settings.autoSave
    {
      this.settingsStore := settingsStore;
      this.backupStore := backupStore;
      this.progress := progress;
      this.vocabulary := vocabulary;
      settings := if settingsStore.value.Some? then settingsStore.value.value else DefaultSettings;
      autoSaveInterval := None;
      liveTimers := {};
      nextHandle := 1;
      new;
      InitializeAutoSave();
    }

    /** `saveSettings` */
    method SaveSettings()
      modifies settingsStore
      ensures settingsStore.value == Some(settings)
    {
      settingsStore.value := Some(settings);
    }

    /** `getSettings`: a copy of the settings. */
    method GetSettings() returns (s: AppSettings)
      ensures s == settings
    {
      s := settings;
    }

    /** `initializeAutoSave`: clear the held timer, then start one exactly when auto-save is on. */
    method InitializeAutoSave()
      requires TimerValid()
      modifies this`autoSaveInterval, this`liveTimers, this`nextHandle
      ensures TimerValid()
      ensures autoSaveInterval.Some? <==> settings.autoSave
      ensures old(autoSaveInterval).Some? ==> old(autoSaveInterval).value !in liveTimers
      ensures autoSaveInterval.Some? ==> autoSaveInterval.value == old(nextHandle)
    {
      if autoSaveInterval.Some? {
        liveTimers := liveTimers - {autoSaveInterval.value};
        autoSaveInterval := None;
      }
      if settings.autoSave {
        autoSaveInterval := Some(nextHandle);
        liveTimers := liveTimers + {nextHandle};
        nextHandle := nextHandle + 1;
      }
    }

    /** `updateSettings(updates)`: merge, save, and restart auto-save only when the update
        carries `autoSave`. */
    method UpdateSettings(updates: SettingsUpdate)
      requires TimerValid()
      modifies this`settings, this`autoSaveInterval, this`liveTimers, this`nextHandle, settingsStore
      ensures TimerValid()
      ensures settings == MergeSettings(old(settings), updates)
      ensures settingsStore.value == Some(settings)
      ensures updates.autoSave.Some? ==> (autoSaveInterval.Some? <==> settings.autoSave)
      ensures updates.autoSave.Some? && old(autoSaveInterval).Some? ==> old(autoSaveInterval).value !in liveTimers
      ensures updates.autoSave.None? ==> autoSaveInterval == old(autoSaveInterval) && liveTimers == old(liveTimers)
    {
      settings := MergeSettings(settings, updates);
      SaveSettings();
      if updates.autoSave.Some? {
        InitializeAutoSave();
      }
    }

    /** `exportAllData` at time `now`: the document holding the current progress, words and
        settings, version "1.0.0". */
    method ExportAllData(now: int) returns (data: AppData)
      ensures data.progress == progress.progress.Value()
      ensures data.customWords == vocabulary.customWords
      ensures data.settings == settings
      ensures data.lastBackup == now && data.version == "1.0.0"
    {
      var p := progress.GetProgress();
      var ws := vocabulary.GetCustomWords();
      data := AppData(p.Value(), ws, settings, now, Version);
    }

    /** `importAllData` of the parsed document `doc` at time `now`; word `k` of the document gets
        `suffix(k)` as its random id part and `localeDate` renders the backup date. */
    method ImportAllData(doc: AppDocument, now: nat, suffix: nat -> string, localeDate: int -> string)
      returns (r: Outcome)
      requires TimerValid()
      modifies this`settings, this`autoSaveInterval, this`liveTimers, this`nextHandle, settingsStore
      modifies progress.store, vocabulary, vocabulary.store
      ensures TimerValid()
      ensures progress.progress.Value() == old(progress.progress.Value())
      ensures doc.Unreadable? ==>
        r == Outcome(false, "Failed to import data: " + doc.message)
      ensures doc.Parsed? && (doc.progress.None? || doc.customWords.None? || doc.settings.None?) ==>
        r == Outcome(false, InvalidData)
      ensures !r.success ==>
        progress.store.value == old(progress.store.value) && vocabulary.customWords == old(vocabulary.customWords)
        && vocabulary.store.value == old(vocabulary.store.value) && settings == old(settings)
        && settingsStore.value == old(settingsStore.value) && autoSaveInterval == old(autoSaveInterval)
      ensures r.success <==> doc.Parsed? && doc.progress.Some? && doc.customWords.Some? && doc.settings.Some?
      ensures r.success ==>
        progress.store.value == Some(doc.progress.value)
        && vocabulary.customWords == RebuiltWords(doc.customWords.value, now, suffix)
        && vocabulary.store.value == Some(vocabulary.customWords)
        && settings == MergeSettings(old(settings), doc.settings.value)
        && settingsStore.value == Some(settings)
        && r.message == "Successfully imported data from " + localeDate(doc.lastBackup)
      ensures !r.success ==> liveTimers == old(liveTimers)
      ensures r.success && doc.settings.value.autoSave.Some? ==>
        (autoSaveInterval.Some? <==> settings.autoSave)
        && (old(autoSaveInterval).Some? ==> old(autoSaveInterval).value !in liveTimers)
      ensures r.success && doc.settings.value.autoSave.None? ==>
        autoSaveInterval == old(autoSaveInterval) && liveTimers == old(liveTimers)
    {
      if doc.Unreadable? {
        return Outcome(false, "Failed to import data: " + doc.message);
      }
      if doc.progress.None? || doc.customWords.None? || doc.settings.None? {
        return Outcome(false, InvalidData);
      }
      progress.store.value := Some(doc.progress.value);
      vocabulary.ClearAllWords();
      AddImportedWords(doc.customWords.value, now, suffix);
      UpdateSettings(doc.settings.value);
      return Outcome(true, "Successfully imported data from " + localeDate(doc.lastBackup));
    }

    /** The `forEach` of `importAllData`: each imported word is added afresh through `addWord`,
        with the seven content fields copied and its notes dropped; the `i`-th gets the id
        suffix `suffix(i)`. */
    method AddImportedWords(words: seq<CustomWord>, now: nat, suffix: nat -> string)
      requires vocabulary.customWords == [] && vocabulary.store.value == Some([])
      modifies vocabulary, vocabulary.store
      ensures vocabulary.customWords == RebuiltWords(words, now, suffix)
      ensures vocabulary.store.value == Some(vocabulary.customWords)
    {
      var i := 0;
      while i < |words|
        invariant 0 <= i <= |words|
        invariant vocabulary.customWords == RebuiltWords(words[..i], now, suffix)
        invariant vocabulary.store.value == Some(vocabulary.customWords)
      {
        assert words[..i + 1][..i] == words[..i];
        var _ := vocabulary.AddWord(words[i].content.(notes := None), now, suffix(i));
        i := i + 1;
      }
      assert words[..i] == words;
    }

    /** `getBackupHistory`: the stored list, or the empty list when there is none. */
    method GetBackupHistory() returns (history: seq<BackupInfo>)
      ensures history == if backupStore.value.Some? then backupStore.value.value else []
    {
      history := if backupStore.value.Some? then backupStore.value.value else [];
    }

    /** `createBackup` at time `now`, where `size` is the byte size of the exported document:
        the new entry goes first and the list keeps at most ten entries. */
    method CreateBackup(now: int, size: nat) returns (r: Outcome, data: AppData)
      modifies backupStore
      ensures r == Outcome(true, "Backup created successfully")
      ensures data.progress == progress.progress.Value() && data.customWords == vocabulary.customWords
      ensures data.settings == settings && data.lastBackup == now && data.version == Version
      ensures backupStore.value ==
        Some(PushBackup(if old(backupStore.value).Some? then old(backupStore.value).value else [], BackupInfo(now, size)))
    {
      data := ExportAllData(now);
      var history := GetBackupHistory();
      var backups := [BackupInfo(now, size)] + history;
      if |backups| > MaxBackups {
        backups := backups[..MaxBackups];
      } else {
        assert backups[..|backups|] == backups;
      }
      assert backups == PushBackup(history, BackupInfo(now, size));
      backupStore.value := Some(backups);
      r := Outcome(true, "Backup created successfully");
    }

    /** `clearAllData` at time `now`: the four keys removed, the managers reset (which writes the
        default progress and the empty list back), and the settings reset to the defaults and
        saved. The auto-save timer is left as it was. */
    method ClearAllData(now: int) returns (r: Outcome)
      requires Valid()
      modifies progress, progress.store, vocabulary, vocabulary.store, settingsStore, backupStore, this`settings
      ensures Valid()
      ensures r == Outcome(true, "All data cleared successfully")
      ensures backupStore.value == None
      ensures progress.progress.Value() == DefaultProgress(now) && progress.store.value == Some(DefaultProgress(now))
      ensures vocabulary.customWords == [] && vocabulary.store.value == Some([])
      ensures settings == DefaultSettings && settingsStore.value == Some(DefaultSettings)
      ensures autoSaveInterval == old(autoSaveInterval) && liveTimers == old(liveTimers)
    {
      progress.store.value := None;
      vocabulary.store.value := None;
      settingsStore.value := None;
      backupStore.value := None;
      progress.ResetProgress(now);
      vocabulary.ClearAllWords();
      settings := AppSettings(true, WeeklyBackup, true, 0.8, SystemTheme, true);
      SaveSettings();
      r := Outcome(true, "All data cleared successfully");
    }
  }

  // ---------------------------------------------------------------- properties

  /** The merge takes exactly the supplied fields from the update and the rest from the old
      settings; a complete update replaces everything and an empty one changes nothing. */
  lemma MergeSettingsSpec(s: AppSettings, u: SettingsUpdate)
    ensures u.autoSave.Some? ==> MergeSettings(s, u).autoSave == u.autoSave.value
    ensures u.autoSave.None? ==> MergeSettings(s, u).autoSave == s.autoSave
    ensures u.backupFrequency.Some? ==> MergeSettings(s, u).backupFrequency == u.backupFrequency.value
    ensures u.backupFrequency.None? ==> MergeSettings(s, u).backupFrequency == s.backupFrequency
    ensures u.soundEnabled.Some? ==> MergeSettings(s, u).soundEnabled == u.soundEnabled.value
    ensures u.soundEnabled.None? ==> MergeSettings(s, u).soundEnabled == s.soundEnabled
    ensures u.speechRate.Some? ==> MergeSettings(s, u).speechRate == u.speechRate.value
    ensures u.speechRate.None? ==> MergeSettings(s, u).speechRate == s.speechRate
    ensures u.theme.Some? ==> MergeSettings(s, u).theme == u.theme.value
    ensures u.theme.None? ==> MergeSettings(s, u).theme == s.theme
    ensures u.notifications.Some? ==> MergeSettings(s, u).notifications == u.notifications.value
    ensures u.notifications.None? ==> MergeSettings(s, u).notifications == s.notifications
    ensures MergeSettings(s, SettingsUpdate(None, None, None, None, None, None)) == s
    ensures forall t :: MergeSettings(s, AsUpdate(t)) == t
  {
  }

  /** The rebuilt list has one word per document word, in order, with the same content except
      the notes, and every id starts with "custom_". */
  lemma {:induction false} RebuiltWordsSpec(ws: seq<CustomWord>, now: nat, suffix: nat -> string)
    ensures |RebuiltWords(ws, now, suffix)| == |ws|
    ensures forall k :: 0 <= k < |ws| ==>
      RebuiltWords(ws, now, suffix)[k].content == ws[k].content.(notes := None)
      && RebuiltWords(ws, now, suffix)[k].isCustom && RebuiltWords(ws, now, suffix)[k].createdBy == "user"
      && "custom_" <= RebuiltWords(ws, now, suffix)[k].id
    decreases |ws|
  {
    if ws != [] {
      RebuiltWordsSpec(ws[..|ws| - 1], now, suffix);
    }
  }

  /** Export then import: a document produced by `exportAllData` is always accepted, and it
      restores the progress blob and the settings exactly and every custom word's content
      except its notes. */
  lemma ExportImportRoundTrip(d: AppData, old_settings: AppSettings, now: nat, suffix: nat -> string)
    ensures var doc := ToDocument(d);
      doc.Parsed? && doc.progress == Some(d.progress) && doc.customWords.Some? && doc.settings.Some?
      && MergeSettings(old_settings, doc.settings.value) == d.settings
      && |RebuiltWords(doc.customWords.value, now, suffix)| == |d.customWords|
      && forall k :: 0 <= k < |d.customWords| ==>
           RebuiltWords(doc.customWords.value, now, suffix)[k].content == d.customWords[k].content.(notes := None)
  {
    RebuiltWordsSpec(d.customWords, now, suffix);
  }

  /** The history after a backup: the new entry first, then the previous entries in their order,
      at most ten in all. */
  lemma PushBackupSpec(history: seq<BackupInfo>, info: BackupInfo)
    ensures var h := PushBackup(history, info);
      |h| == (if |history| + 1 <= MaxBackups then |history| + 1 else MaxBackups)
      && h[0] == info && h[1..] <= history
  {
    TakeSpec([info] + history, MaxBackups);
    var h := PushBackup(history, info);
    assert h <= [info] + history;
    assert h[1..] == ([info] + history)[1..|h|];
  }

  /** Removing the entry at `i` from the enumeration takes its weight out of the sum. */
  lemma {:induction false} UsageRemove(m: map<string, string>, ks: seq<string>, i: nat)
    requires forall k :: k in ks ==> k in m
    requires i < |ks|
    ensures UsageOf(m, ks) == Weight(m, ks[i]) + UsageOf(m, ks[..i] + ks[i + 1..])
    decreases |ks|
  {
    if i > 0 {
      var rest := ks[1..];
      UsageRemove(m, rest, i - 1);
      assert ks[..i] + ks[i + 1..] == [ks[0]] + (rest[..i - 1] + rest[i..]);
    } else {
      assert ks[..i] + ks[i + 1..] == ks[1..];
    }
  }

  /** `used` does not depend on the order localStorage lists its keys in. */
  lemma {:induction false} UsageOrderIrrelevant(m: map<string, string>, ks1: seq<string>, ks2: seq<string>)
    requires NoDup(ks1) && NoDup(ks2)
    requires forall k :: k in ks1 <==> k in ks2
    requires forall k :: k in ks1 ==> k in m
    ensures UsageOf(m, ks1) == UsageOf(m, ks2)
    decreases |ks1|
  {
    if ks1 != [] {
      var k := ks1[0];
      assert k in ks2;
      var i :| 0 <= i < |ks2| && ks2[i] == k;
      UsageRemove(m, ks2, i);
      RemoveAtSpec(ks2, i);
      RemoveAtSpec(ks1, 0);
      var rest1, rest2 := ks1[1..], ks2[..i] + ks2[i + 1..];
      assert ks1[..0] + ks1[1..] == rest1;
      forall x ensures x in rest1 <==> x in rest2 {
        assert x in rest1 <==> x in ks1 && x != k;
        assert x in rest2 <==> x in ks2 && x != k;
      }
      UsageOrderIrrelevant(m, rest1, rest2);
    }
  }

  /** Giving key `k` a value of length `n` changes the sum by the difference in its weight. */
  lemma {:induction false} UsageUpdate(m: map<string, string>, ks: seq<string>, k: string, v: string)
    requires forall x :: x in ks ==> x in m
    requires NoDup(ks) && k in ks
    ensures UsageOf(m[k := v], ks) + Weight(m, k) == UsageOf(m, ks) + |v| + |k|
    decreases |ks|
  {
    if ks[0] == k {
      assert k !in ks[1..];
      UsageUnchanged(m, ks[1..], k, v);
    } else {
      assert k in ks[1..] by {
        var j :| 0 <= j < |ks| && ks[j] == k;
        assert ks[1..][j - 1] == k;
      }
      UsageUpdate(m, ks[1..], k, v);
    }
  }

  /** Changing a key that is not enumerated leaves the sum alone. */
  lemma {:induction false} UsageUnchanged(m: map<string, string>, ks: seq<string>, k: string, v: string)
    requires forall x :: x in ks ==> x in m
    requires k !in ks
    ensures UsageOf(m[k := v], ks) == UsageOf(m, ks)
    decreases |ks|
  {
    if ks != [] {
      UsageUnchanged(m, ks[1..], k, v);
    }
  }

  /** `setItem(k, v)` never lowers `used` when `k` is new or `v` is at least as long as the
      value it replaces. */
  lemma UsageMonotone(m: map<string, string>, ks: seq<string>, ks2: seq<string>, k: string, v: string)
    requires Enumerates(ks, m) && Enumerates(ks2, m[k := v])
    requires k in m ==> |v| >= |m[k]|
    ensures UsageOf(m[k := v], ks2) >= UsageOf(m, ks)
  {
    var m2 := m[k := v];
    if k in m {
      UsageOrderIrrelevant(m2, ks2, ks);
      UsageUpdate(m, ks, k, v);
    } else {
      var ks3 := ks + [k];
      assert NoDup(ks3) by {
        forall a, b | 0 <= a < b < |ks3| ensures ks3[a] != ks3[b] {
          if b == |ks| { assert ks3[a] in ks; }
        }
      }
      UsageOrderIrrelevant(m2, ks2, ks3);
      UsageUnchanged(m, ks, k, v);
      UsageRemove(m2, ks3, |ks|);
      assert ks3[..|ks|] + ks3[|ks| + 1..] == ks;
    }
  }
}
