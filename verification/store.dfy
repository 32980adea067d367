/**
 * The on-disk cache directory used by both layers: one file per key holding
 * a JSON-encoded entry. The directory is modelled as a map from key to what
 * the file holds; a missing file and a file that does not parse both read as
 * "no entry". Each layer owns its own directory object.
 */
module Store {
  import opened Wrappers

  /** The persisted entry shape; `error` is part of the shape but never written. */
  datatype Entry<T> = Entry(data: T, timestamp: int, error: Option<string>)

  /** What a key's file holds: a parseable entry, or content JSON cannot parse. */
  datatype Slot<T> = Parsed(entry: Entry<T>) | Unparseable

  /**
   * How a write can fail. `Unwritten`: creating the directory or opening the
   * file failed and the file is as before. `Truncated`: the file was opened
   * for writing (and so emptied) before the write failed.
   */
  datatype IoFault = Unwritten(reason: string) | Truncated(reason: string)

  datatype WriteResult = Written | WriteFailed(reason: string)

  /** The entry a read of `key` yields. */
  function Lookup<T>(files: map<string, Slot<T>>, key: string): Option<Entry<T>> {
    if key in files && files[key].Parsed? then Some(files[key].entry) else None
  }

  /** The file a successful write leaves: the data stamped with the write time. */
  function Saved<T>(data: T, savedAt: int): Slot<T> {
    Parsed(Entry(data, savedAt, None))
  }

  /** The directory after a failed write. */
  function AfterFault<T>(files: map<string, Slot<T>>, key: string, fault: IoFault): map<string, Slot<T>> {
    match fault
    case Unwritten(_) => files
    case Truncated(_) => files[key := Unparseable]
  }

  class CacheDir<T> {
    var files: map<string, Slot<T>>

    /** Opens a directory holding `existing` (possibly empty, possibly left by an earlier run). */
    constructor (existing: map<string, Slot<T>>)
      ensures files == existing
    {
      files := existing;
    }

    /** Reads an entry; a missing or unparseable file yields None and never fails. */
    method Get(key: string) returns (cached: Option<Entry<T>>)
      ensures cached.Some? <==> key in files && files[key].Parsed?
      ensures cached.Some? ==> cached.value == files[key].entry
    {
      if key in files && files[key].Parsed? {
        cached := Some(files[key].entry);
      } else {
        cached := None;
      }
    }

    /**
     * Writes `{data, timestamp: savedAt}` under `key`, replacing the whole
     * file; `fault` is how the file system answers.
     */
    method Set(key: string, data: T, savedAt: int, fault: Option<IoFault>) returns (result: WriteResult)
      modifies this
      ensures fault.None? ==> result == Written && files == old(files)[key := Saved(data, savedAt)]
      ensures fault.Some? ==> result == WriteFailed(fault.value.reason) && files == AfterFault(old(files), key, fault.value)
    {
      match fault
      case None =>
        files := files[key := Saved(data, savedAt)];
        result := Written;
      case Some(Unwritten(why)) =>
        result := WriteFailed(why);
      case Some(Truncated(why)) =>
        files := files[key := Unparseable];
        result := WriteFailed(why);
    }
  }

  /** A successful write followed by a read of the same key yields exactly what was written. */
  method WriteThenRead<T>(existing: map<string, Slot<T>>, key: string, data: T, savedAt: int)
    returns (cached: Option<Entry<T>>)
    ensures cached == Some(Entry(data, savedAt, None))
  {
    var dir := new CacheDir<T>(existing);
    var _ := dir.Set(key, data, savedAt, None);
    cached := dir.Get(key);
  }

  /** A write touches only its own key. */
  lemma WriteIsolatesKeys<T>(files: map<string, Slot<T>>, key: string, other: string, data: T, savedAt: int, fault: Option<IoFault>)
    requires other != key
    ensures Lookup(files[key := Saved(data, savedAt)], other) == Lookup(files, other)
    ensures fault.Some? ==> Lookup(AfterFault(files, key, fault.value), other) == Lookup(files, other)
  {
  }
}
