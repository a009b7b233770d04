/** Optional values and results: JavaScript's `undefined`/`null` and thrown errors. */
module Wrappers {

  /** A value that may be absent (`undefined` or `null` in the source). */
  datatype Option<+T> = None | Some(value: T) {
    function GetOr(default: T): T {
      match this
      case Some(v) => v
      case None => default
    }
  }

  /** The outcome of an operation that may throw: `Success` is a normal return, `Failure` a thrown error. */
  datatype Result<+T, +E> = Success(value: T) | Failure(error: E) {
    predicate IsFailure() {
      Failure?
    }

    function PropagateFailure<U>(): Result<U, E>
      requires Failure?
    {
      Failure(error)
    }

    function Extract(): T
      requires Success?
    {
      value
    }
  }
}

/** What the application learns from its host (Capacitor) and the errors its I/O can raise. */
module Runtime {

  /** `Capacitor.isNativePlatform()`: files on a device, or `localStorage` in a browser. */
  datatype Platform = Native | Web

  /** The kinds of error that the database, the file system and the backup engine throw. */
  datatype Failure =
    | DatabaseFailure      // a query or statement of the embedded database failed
    | FileSystemFailure    // a file could not be read, written or deleted
    | StorageFailure       // `localStorage` refused a write
    | BackupNotFound       // "Резервная копия не найдена"
    | BackupUnparsable     // `JSON.parse` of a backup document threw
}
