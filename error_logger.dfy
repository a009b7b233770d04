/**
 * The error log of src/lib/errorLogger.ts: an in-memory list of entries capped
 * at the newest 500, mirrored to a file (native) or to `localStorage` (web).
 * The module-level `inMemoryLogs` and `isInitialized` become the fields of one
 * `ErrorLog` object; the persisted copy is the field `stored`, and the time of
 * each call is a parameter.
 */
module ErrorLogging {
  import opened Wrappers
  import opened Strings
  import opened Runtime

  datatype Level = Error | Warn | Info

  /** What a caller attaches to an entry: free text or a thrown error. */
  datatype Payload = Text(text: string) | Thrown(failure: Failure)

  datatype LogEntry = LogEntry(timestamp: string, level: Level, message: string, data: Option<Payload>)

  /**
   * The persisted copy: nothing (no file, a file that cannot be read, or no
   * `localStorage` key), a list that parses, or text that `JSON.parse` rejects.
   */
  datatype Stored = Missing | Saved(entries: seq<LogEntry>) | Corrupt

  /** What `exportLogs` returns when there is something to export. */
  datatype Export = ExportedTo(notice: string) | Content(entries: seq<LogEntry>)

  /** The cap on the in-memory log. */
  const MaxEntries: nat := 500

  /** `logs.length > n ? logs.slice(-n) : logs`: the newest `n` entries, in their original order. */
  function KeepNewest(logs: seq<LogEntry>, n: nat): (r: seq<LogEntry>)
    ensures |r| == if |logs| <= n then |logs| else n
    ensures r == logs[|logs| - |r|..]
  {
    if |logs| > n then logs[|logs| - n..] else logs
  }

  /** After an append the new entry is the last one and the log respects the cap. */
  lemma AppendKeepsEntry(logs: seq<LogEntry>, entry: LogEntry)
    ensures var r := KeepNewest(logs + [entry], MaxEntries);
      |r| <= MaxEntries && r != [] && r[|r| - 1] == entry
  {
  }

  /** The entry that `logError(message, error)` writes for a thrown `f`. */
  function FailureEntry(now: string, message: string, f: Failure): LogEntry {
    LogEntry(now, Error, message, Some(Thrown(f)))
  }

  /** Below the cap nothing is dropped. */
  lemma KeepNewestBelowCap(logs: seq<LogEntry>, n: nat)
    requires |logs| <= n
    ensures KeepNewest(logs, n) == logs
  {
  }

  /** The name of an exported file: the timestamp with every `:` made `-`, so it never holds a colon. */
  function ExportFileName(now: string): (r: string)
    ensures r == "logs_" + ReplaceChar(now, ':', '-') + ".json"
    ensures ':' !in r
  {
    ReplaceCharRemoves(now, ':', '-');
    "logs_" + ReplaceChar(now, ':', '-') + ".json"
  }

  class ErrorLog {
    /** `Capacitor.isNativePlatform()` */
    const platform: Platform
    /** `inMemoryLogs` */
    var logs: seq<LogEntry>
    /** `isInitialized` */
    var initialized: bool
    /** The file `error_logs.json` (native) or the key `error_logs` (web). */
    var stored: Stored
    /** The files written to the Documents directory by exports. */
    var documents: map<string, seq<LogEntry>>

    constructor (platform: Platform, stored: Stored)
      ensures this.platform == platform && this.stored == stored
      ensures logs == [] && !initialized && documents == map[]
    {
      this.platform := platform;
      this.stored := stored;
      logs := [];
      initialized := false;
      documents := map[];
    }

    /** Whether `initLogger` leaves the logger initialized: it fails only on a copy that does not parse. */
    predicate LoadsCleanly()
      reads this
    {
      initialized || !stored.Corrupt?
    }

    /**
     * The in-memory log once `initLogger` has run: unchanged when already
     * initialized, empty after a parse failure, the saved list when there is
     * one, and on a missing copy the empty list on native (the read failure
     * falls back to `'[]'`) but the current list on web (nothing is assigned).
     */
    function LoadedLogs(): seq<LogEntry>
      reads this
    {
      if initialized then logs
      else match stored
        case Corrupt => []
        case Saved(entries) => entries
        case Missing => if platform == Native then [] else logs
    }

    /** `initLogger`: does nothing once initialized; otherwise loads the persisted copy, and on a parse failure empties the log and stays uninitialized. */
    method InitLogger()
      modifies this
      ensures old(initialized) ==> logs == old(logs) && initialized
      ensures logs == old(LoadedLogs())
      ensures initialized == old(LoadsCleanly())
      ensures stored == old(stored) && documents == old(documents)
    {
      if initialized {
        return;
      }
      match stored
      case Corrupt =>
        logs := [];
      case Saved(entries) =>
        logs := entries;
        initialized := true;
      case Missing =>
        if platform == Native {
          logs := [];
        }
        initialized := true;
    }

    /**
     * `writeToLog`: initializes when needed, appends the entry, keeps the
     * newest 500, and persists the result; a failing write (`persistFails`)
     * is swallowed and the in-memory append stands.
     */
    method WriteToLog(entry: LogEntry, persistFails: bool)
      modifies this
      ensures logs == KeepNewest(old(LoadedLogs()) + [entry], MaxEntries)
      ensures |logs| <= MaxEntries && logs[|logs| - 1] == entry
      ensures initialized == old(LoadsCleanly())
      ensures stored == if persistFails then old(stored) else Saved(logs)
      ensures documents == old(documents)
    {
      if !initialized {
        InitLogger();
      }
      var appended := logs + [entry];
      AppendKeepsEntry(logs, entry);
      logs := appended;
      if |logs| > MaxEntries {
        logs := logs[|logs| - MaxEntries..];
      }
      assert logs == KeepNewest(appended, MaxEntries);
      if !persistFails {
        stored := Saved(logs);
      }
    }

    /** `logError`: writes an entry of level "error" stamped with `now`. */
    method LogError(message: string, data: Option<Payload>, now: string, persistFails: bool)
      modifies this
      ensures logs == KeepNewest(old(LoadedLogs()) + [LogEntry(now, Error, message, data)], MaxEntries)
      ensures initialized == old(LoadsCleanly())
      ensures stored == if persistFails then old(stored) else Saved(logs)
      ensures documents == old(documents)
    {
      WriteToLog(LogEntry(now, Error, message, data), persistFails);
    }

    /** `logWarning`: writes an entry of level "warn" stamped with `now`. */
    method LogWarning(message: string, data: Option<Payload>, now: string, persistFails: bool)
      modifies this
      ensures logs == KeepNewest(old(LoadedLogs()) + [LogEntry(now, Warn, message, data)], MaxEntries)
      ensures initialized == old(LoadsCleanly())
      ensures stored == if persistFails then old(stored) else Saved(logs)
      ensures documents == old(documents)
    {
      WriteToLog(LogEntry(now, Warn, message, data), persistFails);
    }

    /** `logInfo`: writes an entry of level "info" stamped with `now`. */
    method LogInfo(message: string, data: Option<Payload>, now: string, persistFails: bool)
      modifies this
      ensures logs == KeepNewest(old(LoadedLogs()) + [LogEntry(now, Info, message, data)], MaxEntries)
      ensures initialized == old(LoadsCleanly())
      ensures stored == if persistFails then old(stored) else Saved(logs)
      ensures documents == old(documents)
    {
      WriteToLog(LogEntry(now, Info, message, data), persistFails);
    }

    /** `getLogs`: initializes when needed and returns a copy of the log. */
    method GetLogs() returns (r: seq<LogEntry>)
      modifies this
      ensures r == logs == old(LoadedLogs())
      ensures initialized == old(LoadsCleanly())
      ensures stored == old(stored) && documents == old(documents)
    {
      if !initialized {
        InitLogger();
      }
      r := logs;
    }

    /** `clearLogs`: empties the log and persists the empty list; a failing write is swallowed. The initialized flag is left as it is. */
    method ClearLogs(persistFails: bool)
      modifies this
      ensures logs == [] && initialized == old(initialized)
      ensures stored == if persistFails then old(stored) else Saved([])
      ensures documents == old(documents)
    {
      logs := [];
      if !persistFails {
        stored := Saved([]);
      }
    }

    /**
     * `exportLogs`: `null` for an empty log; otherwise on native a file named
     * after `now` in Documents and a notice naming it (a failing write
     * propagates), and on web the content itself.
     */
    method ExportLogs(now: string, writeFails: bool) returns (r: Result<Option<Export>, Failure>)
      modifies this
      ensures logs == old(LoadedLogs()) && initialized == old(LoadsCleanly()) && stored == old(stored)
      ensures r == Success(None) <==> logs == []
      ensures logs != [] && platform == Web ==> r == Success(Some(Content(logs)))
      ensures logs != [] && platform == Native && writeFails ==>
        r == Failure(FileSystemFailure) && documents == old(documents)
      ensures logs != [] && platform == Native && !writeFails ==>
        && r == Success(Some(ExportedTo("Logs exported to Documents/" + ExportFileName(now))))
        && documents == old(documents)[ExportFileName(now) := logs]
      ensures logs == [] || platform == Web ==> documents == old(documents)
    {
      if !initialized {
        InitLogger();
      }
      if logs == [] {
        return Success(None);
      }
      if platform == Native {
        var fileName := ExportFileName(now);
        if writeFails {
          return Failure(FileSystemFailure);
        }
        documents := documents[fileName := logs];
        return Success(Some(ExportedTo("Logs exported to Documents/" + fileName)));
      } else {
        return Success(Some(Content(logs)));
      }
    }
  }
}
