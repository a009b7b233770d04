/**
 * The effects of src/lib/backupRestore.ts: creating a backup document from
 * the database, listing backups, restoring (settings only) and deleting. The
 * `backup` folder of Documents (native) and `localStorage` (web) are one
 * `BackupStorage` object: its names in enumeration order and what each holds.
 * `JSON.stringify`/`JSON.parse` are modelled by storing the document itself or
 * a text that does not parse.
 */
module BackupRestore {
  import opened Wrappers
  import opened Strings
  import opened Lists
  import opened Runtime
  import opened AppData
  import opened ErrorLogging
  import opened Gateway
  import opened BackupNames

  /** The `settings` field of a backup document: absent, `{}` (no settings row when it was made), or a settings value. */
  datatype DocSettings = NoSettings | EmptyObject | SavedSettings(settings: Settings)

  datatype BackupDoc = BackupDoc(
    meals: seq<MealEntry>,
    water: seq<WaterEntry>,
    weights: seq<WeightMetric>,
    settings: DocSettings)

  /** What a name holds: a document, or text that `JSON.parse` rejects. */
  datatype Artifact = Document(doc: BackupDoc) | Garbled

  const CreateFailed: string := "Ошибка при создании резервной копии"
  const RestoreFailed: string := "Ошибка при восстановлении из резервной копии"
  const DeleteFailed: string := "Ошибка при удалении резервной копии"
  const Restored: string := "Восстановлена резервная копия"
  const Deleted: string := "Удалена резервная копия"

  /** The info message of a created backup, which names the storage on the web. */
  function Created(platform: Platform): string {
    if platform == Native then "Создана резервная копия" else "Создана резервная копия в localStorage"
  }

  /** The document that `createBackup` writes: the three tables, and `getSettings() || {}`. */
  function SnapshotDoc(meals: seq<MealEntry>, water: seq<WaterEntry>, weights: seq<WeightMetric>, settings: Option<Settings>): BackupDoc {
    BackupDoc(meals, water, weights, if settings.Some? then SavedSettings(settings.value) else EmptyObject)
  }

  class BackupStorage {
    const platform: Platform
    /** The files of `backup` (native) or the keys of `localStorage` (web), in the order they are enumerated. */
    var names: seq<string>
    var contents: map<string, Artifact>

    constructor (platform: Platform)
      ensures this.platform == platform && names == [] && contents == map[] && Valid()
    {
      this.platform := platform;
      names := [];
      contents := map[];
    }

    /** The names are the stored keys, each once. */
    ghost predicate Valid()
      reads this
    {
      && (forall n :: n in contents <==> n in names)
      && (forall i, j :: 0 <= i < j < |names| ==> names[i] != names[j])
    }

    /** `writeFile`/`setItem`: a new name is enumerated last; an existing one is overwritten in place. */
    method Write(name: string, a: Artifact)
      requires Valid()
      modifies this
      ensures Valid() && contents == old(contents)[name := a]
      ensures names == if name in old(names) then old(names) else old(names) + [name]
    {
      if name !in names {
        names := names + [name];
      }
      contents := contents[name := a];
    }

    /** `deleteFile`/`removeItem` of a stored name. */
    method Remove(name: string)
      requires Valid()
      modifies this
      ensures Valid() && contents == old(contents) - {name} && names == Without(old(names), name)
    {
      WithoutCounts(names, name);
      forall n ensures n in Without(names, name) <==> n in names && n != name {
        assert n in Without(names, name) <==> n in multiset(Without(names, name));
      }
      WithoutDistinct(names, name);
      names := Without(names, name);
      contents := contents - {name};
    }
  }

  /** Removing a value from a list without repetitions leaves one without repetitions. */
  lemma {:induction false} WithoutDistinct<T>(s: seq<T>, x: T)
    requires forall i, j :: 0 <= i < j < |s| ==> s[i] != s[j]
    ensures forall i, j :: 0 <= i < j < |Without(s, x)| ==> Without(s, x)[i] != Without(s, x)[j]
  {
    if s != [] {
      var rest := s[1..];
      forall i, j | 0 <= i < j < |rest| ensures rest[i] != rest[j] {
        assert rest[i] == s[i + 1] && rest[j] == s[j + 1];
      }
      WithoutDistinct(rest, x);
      var t := Without(rest, x);
      if s[0] != x {
        assert s[0] !in t by {
          forall k | 0 <= k < |rest| ensures rest[k] != s[0] {
            assert rest[k] == s[k + 1];
          }
          WithoutCounts(rest, x);
          assert multiset(t)[s[0]] == multiset(rest)[s[0]] == 0;
        }
        var r := [s[0]] + t;
        forall i, j | 0 <= i < j < |r| ensures r[i] != r[j] {
          assert r[j] == t[j - 1];
          if i > 0 {
            assert r[i] == t[i - 1];
          }
        }
      }
    }
  }

  /**
   * `createBackup`: reads the tables and the settings, names the backup after
   * `now`, writes the document, logs it and returns the name. A failing
   * read or write is logged and rethrown with the storage untouched.
   */
  method CreateBackup(storage: BackupStorage, db: Database, log: ErrorLog, now: string,
                      readFails: bool, writeFails: bool, logFails: bool)
    returns (r: Result<string, Failure>)
    requires storage.Valid()
    modifies storage, log
    ensures storage.Valid()
    ensures !readFails && !writeFails ==>
      && r == Success(BackupName(now, storage.platform))
      && storage.contents == old(storage.contents)[r.value :=
           Document(SnapshotDoc(db.meals.rows, db.water.rows, db.weights.rows, db.settings))]
      && storage.names == (if r.value in old(storage.names) then old(storage.names) else old(storage.names) + [r.value])
      && log.logs == KeepNewest(old(log.LoadedLogs()) + [LogEntry(now, Info, Created(storage.platform), Some(Text(r.value)))], MaxEntries)
    ensures readFails ==>
      && r == Failure(DatabaseFailure) && unchanged(storage)
      && log.logs == KeepNewest(old(log.LoadedLogs()) + [FailureEntry(now, CreateFailed, DatabaseFailure)], MaxEntries)
    ensures !readFails && writeFails ==>
      && r == Failure(if storage.platform == Native then FileSystemFailure else StorageFailure) && unchanged(storage)
      && log.logs == KeepNewest(old(log.LoadedLogs()) + [FailureEntry(now, CreateFailed, r.error)], MaxEntries)
  {
    if readFails {
      log.LogError(CreateFailed, Some(Thrown(DatabaseFailure)), now, logFails);
      return Failure(DatabaseFailure);
    }
    var doc := SnapshotDoc(db.meals.rows, db.water.rows, db.weights.rows, db.settings);
    var name := BackupName(now, storage.platform);
    if writeFails {
      var f := if storage.platform == Native then FileSystemFailure else StorageFailure;
      log.LogError(CreateFailed, Some(Thrown(f)), now, logFails);
      return Failure(f);
    }
    storage.Write(name, Document(doc));
    log.LogInfo(Created(storage.platform), Some(Text(name)), now, logFails);
    return Success(name);
  }

  /**
   * `getBackupList`: on native the pure listing of the folder (a failing
   * `readdir` gives the empty list); on web a loop over every key that
   * collects the prefixed ones, then the same sort.
   */
  method GetBackupList(storage: BackupStorage, readdirFails: bool) returns (r: seq<BackupInfo>)
    ensures storage.platform == Native ==> r == NativeBackupList(if readdirFails then None else Some(storage.names))
    ensures storage.platform == Web ==> r == SortByDateDesc(Listed(storage.names, Web))
  {
    if storage.platform == Native {
      return NativeBackupList(if readdirFails then None else Some(storage.names));
    }
    var keys := storage.names;
    var backups: seq<BackupInfo> := [];
    for i := 0 to |keys|
      invariant backups == Listed(keys[..i], Web)
    {
      assert keys[..i + 1][..i] == keys[..i];
      var key := keys[i];
      if StartsWith(key, BackupPrefix) {
        var dateString := match Search(key, 0, Web) case Some(g) => g case None => UnknownDate;
        var date := if Search(key, 0, Web).Some? then ReplaceChar(dateString, '-', ':') else UnknownDate;
        backups := backups + [BackupInfo(key, date)];
      }
    }
    assert keys[..|keys|] == keys;
    return SortByDateDesc(backups);
  }

  /**
   * `restoreFromBackup`: reads and parses the named backup (on web a
   * missing key throws "Резервная копия не найдена"), then saves its
   * settings when the document has any, logs and returns true. Tables are
   * not restored. Every failure is logged and rethrown.
   */
  method RestoreFromBackup(storage: BackupStorage, db: Database, log: ErrorLog, name: string,
                           dbFails: bool, saveFails: bool, now: string, logFails: bool)
    returns (r: Result<bool, Failure>)
    modifies db, log
    ensures r.Success? ==> r.value
    ensures name !in storage.contents ==>
      r == Failure(if storage.platform == Native then FileSystemFailure else BackupNotFound)
    ensures name in storage.contents && storage.contents[name].Garbled? ==> r == Failure(BackupUnparsable)
    ensures name in storage.contents && storage.contents[name].Document? && dbFails ==> r == Failure(DatabaseFailure)
    ensures name in storage.contents && storage.contents[name].Document? && !dbFails ==>
      match storage.contents[name].doc.settings
      case SavedSettings(s) =>
        && r == (if saveFails then Failure(DatabaseFailure) else Success(true))
        && db.settings == (if saveFails then old(db.settings) else Some(s))
      case EmptyObject => r == (if saveFails then Failure(DatabaseFailure) else Success(true))
      case NoSettings => r == Success(true)
    ensures r.Failure? ==>
      && db.settings == old(db.settings)
      && log.logs == KeepNewest(old(log.LoadedLogs()) + [FailureEntry(now, RestoreFailed, r.error)], MaxEntries)
    ensures r.Success? && (name !in storage.contents || !storage.contents[name].doc.settings.SavedSettings?) ==>
      db.settings == old(db.settings)
    ensures r.Success? ==>
      log.logs == KeepNewest(old(log.LoadedLogs()) + [LogEntry(now, Info, Restored, Some(Text(name)))], MaxEntries)
  {
    var f: Failure;
    if name !in storage.contents {
      f := if storage.platform == Native then FileSystemFailure else BackupNotFound;
    } else if storage.contents[name].Garbled? {
      f := BackupUnparsable;
    } else if dbFails {
      f := DatabaseFailure;
    } else {
      var doc := storage.contents[name].doc;
      if doc.settings.SavedSettings? {
        var saved := db.SaveSettings(doc.settings.settings, saveFails);
        if saved.Success? {
          log.LogInfo(Restored, Some(Text(name)), now, logFails);
          return Success(true);
        }
      } else if doc.settings.NoSettings? || !saveFails {
        log.LogInfo(Restored, Some(Text(name)), now, logFails);
        return Success(true);
      }
      f := DatabaseFailure;
    }
    log.LogError(RestoreFailed, Some(Thrown(f)), now, logFails);
    return Failure(f);
  }

  /**
   * The backup round trip: with settings stored, a backup is created, any
   * other settings are saved afterwards, and the backup is restored, all
   * without failures. The restore succeeds and brings back the settings that
   * were stored when the backup was made.
   */
  method BackupRoundTrip(storage: BackupStorage, db: Database, log: ErrorLog, other: Settings, now: string, logFails: bool)
    returns (r: Result<bool, Failure>)
    requires storage.Valid() && db.settings.Some?
    modifies storage, db, log
    ensures r == Success(true) && db.settings == old(db.settings)
  {
    var created := CreateBackup(storage, db, log, now, false, false, logFails);
    var overwritten := db.SaveSettings(other, false);
    r := RestoreFromBackup(storage, db, log, created.value, false, false, now, logFails);
  }

  /**
   * `deleteBackup`: on native deletes the file (a missing file or a failing
   * delete throws); on web removes the key, which never throws. Logs and
   * returns true; a failure is logged and rethrown.
   */
  method DeleteBackup(storage: BackupStorage, log: ErrorLog, name: string, deleteFails: bool, now: string, logFails: bool)
    returns (r: Result<bool, Failure>)
    requires storage.Valid()
    modifies storage, log
    ensures storage.Valid()
    ensures r.Success? ==> r.value
    ensures storage.platform == Native && (name !in old(storage.contents) || deleteFails) ==>
      && r == Failure(FileSystemFailure) && unchanged(storage)
      && log.logs == KeepNewest(old(log.LoadedLogs()) + [FailureEntry(now, DeleteFailed, FileSystemFailure)], MaxEntries)
    ensures storage.platform == Web || (name in old(storage.contents) && !deleteFails) ==>
      && r == Success(true)
      && storage.contents == old(storage.contents) - {name}
      && storage.names == Without(old(storage.names), name)
      && log.logs == KeepNewest(old(log.LoadedLogs()) + [LogEntry(now, Info, Deleted, Some(Text(name)))], MaxEntries)
  {
    if storage.platform == Native && (name !in storage.contents || deleteFails) {
      log.LogError(DeleteFailed, Some(Thrown(FileSystemFailure)), now, logFails);
      return Failure(FileSystemFailure);
    }
    if name in storage.contents {
      storage.Remove(name);
    } else {
      WithoutAbsent(storage.names, name);
    }
    log.LogInfo(Deleted, Some(Text(name)), now, logFails);
    return Success(true);
  }
}
