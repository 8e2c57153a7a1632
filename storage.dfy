/**
  The outside world the launcher reads and writes: the file system, seen as the
  set of paths that exist together with what each file parses to as JSON, and
  which paths refuse to be opened or written.  Text parsing and serialisation
  of JSON are not modelled: a file holds its parsed document directly.
 */
module Storage {

  /** A JSON value, as far as the configuration reader tells values apart:
      a string, or anything else (number, boolean, null, array, object). */
  datatype JsonValue = JString(text: string) | JOther

  /** What the bytes of a file parse to as a JSON document: the null document
      (text that is not valid JSON, an empty file included), a document whose
      top level is an array, or an object with its members. */
  datatype Document =
    | NullDocument
    | ArrayDocument
    | ObjectDocument(members: map<string, JsonValue>)

  /** The file system.  `entries` holds every existing path (directories
      included) with what it parses to; opening a path in `unreadable` for
      reading fails, opening a path in `unwritable` for writing fails, a
      write to a path in `writeErrors` reports a negative byte count, and for
      a path in `flushErrors` the write is accepted into the file's buffer but
      flushing it when the file is closed fails, so nothing reaches the file. */
  datatype Disk = Disk(
    entries: map<string, Document>,
    unreadable: set<string>,
    unwritable: set<string>,
    writeErrors: set<string>,
    flushErrors: set<string>)

  /** QFile::exists */
  predicate Exists(disk: Disk, path: string) {
    path in disk.entries
  }
}
