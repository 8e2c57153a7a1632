/**
  The launcher's persisted configuration: three path strings stored as a JSON
  object under the keys "xray_path", "data_path" and "config_path".  Loading is
  lenient, field by field; saving always writes all three keys.
 */
module Config {

  import opened Optional
  import opened Storage

  const XrayPathKey: string := "xray_path"
  const DataPathKey: string := "data_path"
  const ConfigPathKey: string := "config_path"

  /** The three configured paths, as a value. */
  datatype Paths = Paths(xrayPath: string, dataPath: string, configPath: string)

  /** A fresh configuration: every path is the empty string. */
  const EmptyPaths := Paths("", "", "")

  /** The message appended to the caller's error text; each one names the file. */
  datatype ConfigError =
    | OpenForReadFailed(path: string)
    | InvalidJson(path: string)
    | OpenForWriteFailed(path: string)
    | WriteFailed(path: string)

  /** The string stored under `key`, or `fallback` when the key is absent or
      holds something other than a string. */
  function StringMember(members: map<string, JsonValue>, key: string, fallback: string): string {
    if key in members && members[key].JString? then members[key].text else fallback
  }

  /** The fields an object document assigns over `prior`. */
  function ReadPaths(members: map<string, JsonValue>, prior: Paths): Paths {
    Paths(StringMember(members, XrayPathKey, prior.xrayPath),
          StringMember(members, DataPathKey, prior.dataPath),
          StringMember(members, ConfigPathKey, prior.configPath))
  }

  /** The object document written for `p`. */
  function Encode(p: Paths): map<string, JsonValue> {
    map[XrayPathKey := JString(p.xrayPath),
        DataPathKey := JString(p.dataPath),
        ConfigPathKey := JString(p.configPath)]
  }

  /** What loading from `path` returns, the fields afterwards, and the error
      it appends, if any. */
  datatype LoadResult = LoadResult(ok: bool, paths: Paths, error: Option<ConfigError>)

  /** Loading over the fields `prior`: a missing file is a first run; an
      unreadable file or a document that is not an object is an error that
      leaves the fields alone; an object assigns each field it holds as a string. */
  function Load(prior: Paths, path: string, disk: Disk): LoadResult {
    if !Exists(disk, path) then LoadResult(true, prior, None)
    else if path in disk.unreadable then LoadResult(false, prior, Some(OpenForReadFailed(path)))
    else match disk.entries[path]
      case ObjectDocument(members) => LoadResult(true, ReadPaths(members, prior), None)
      case _ => LoadResult(false, prior, Some(InvalidJson(path)))
  }

  /** What saving to `path` returns, the disk afterwards, and the error it
      appends, if any. */
  datatype SaveResult = SaveResult(ok: bool, disk: Disk, error: Option<ConfigError>)

  /** Saving `p`: a failed open leaves the disk alone; a successful open
      creates or truncates the file, and a failed write leaves it empty.  The
      write goes through the file's buffer, which is flushed only when the file
      is closed after the result is decided, so a failed flush still reports
      success and leaves the file empty. */
  function Save(p: Paths, path: string, disk: Disk): SaveResult {
    if path in disk.unwritable then
      SaveResult(false, disk, Some(OpenForWriteFailed(path)))
    else if path in disk.writeErrors then
      SaveResult(false, disk.(entries := disk.entries[path := NullDocument]), Some(WriteFailed(path)))
    else if path in disk.flushErrors then
      SaveResult(true, disk.(entries := disk.entries[path := NullDocument]), None)
    else
      SaveResult(true, disk.(entries := disk.entries[path := ObjectDocument(Encode(p))]), None)
  }

  /** The caller's error text after an operation that may append one message. */
  function Appended(error: seq<ConfigError>, e: Option<ConfigError>): seq<ConfigError> {
    match e
    case None => error
    case Some(m) => error + [m]
  }

  class LauncherConfig {
    var xrayPath: string
    var dataPath: string
    var configPath: string

    /** The three fields as a value. */
    function Value(): Paths
      reads this
    {
      Paths(xrayPath, dataPath, configPath)
    }

    constructor ()
      ensures Value() == EmptyPaths
    {
      xrayPath, dataPath, configPath := "", "", "";
    }

    /** Reads the configuration file at `path`, keeping every field the file
        does not supply as a string. */
    method LoadFromDisk(path: string, disk: Disk, error: seq<ConfigError>)
      returns (ok: bool, errorOut: seq<ConfigError>)
      modifies this
      ensures var r := Load(old(Value()), path, disk);
        ok == r.ok && Value() == r.paths && errorOut == Appended(error, r.error)
    {
      if !Exists(disk, path) {
        return true, error;
      }
      if path in disk.unreadable {
        return false, error + [OpenForReadFailed(path)];
      }
      var document := disk.entries[path];
      if !document.ObjectDocument? {
        return false, error + [InvalidJson(path)];
      }
      var json := document.members;
      if XrayPathKey in json && json[XrayPathKey].JString? {
        xrayPath := json[XrayPathKey].text;
      }
      if DataPathKey in json && json[DataPathKey].JString? {
        dataPath := json[DataPathKey].text;
      }
      if ConfigPathKey in json && json[ConfigPathKey].JString? {
        configPath := json[ConfigPathKey].text;
      }
      return true, error;
    }

    /** The JSON object saveToDisk builds: exactly the three keys, each
        holding its field as a string, so that reading it back over any
        prior fields gives this configuration. */
    method ToJson() returns (json: map<string, JsonValue>)
      ensures json == Encode(Value())
      ensures json.Keys == {XrayPathKey, DataPathKey, ConfigPathKey}
      ensures forall k :: k in json ==> json[k].JString?
      ensures forall prior :: ReadPaths(json, prior) == Value()
    {
      json := map[];
      json := json[XrayPathKey := JString(xrayPath)];
      json := json[DataPathKey := JString(dataPath)];
      json := json[ConfigPathKey := JString(configPath)];
    }

    /** Writes the configuration to `path`, truncating the file; the fields
        themselves are not changed. */
    method SaveToDisk(path: string, disk: Disk, error: seq<ConfigError>)
      returns (ok: bool, diskOut: Disk, errorOut: seq<ConfigError>)
      ensures var r := Save(Value(), path, disk);
        ok == r.ok && diskOut == r.disk && errorOut == Appended(error, r.error)
      ensures ok && path !in disk.unreadable && path !in disk.flushErrors ==>
        forall prior :: Load(prior, path, diskOut) == LoadResult(true, Value(), None)
      ensures ok && path !in disk.unreadable && path in disk.flushErrors ==>
        forall prior :: Load(prior, path, diskOut) == LoadResult(false, prior, Some(InvalidJson(path)))
    {
      if path in disk.unwritable {
        return false, disk, error + [OpenForWriteFailed(path)];
      }
      diskOut := disk.(entries := disk.entries[path := NullDocument]);
      var json := ToJson();
      if path in disk.writeErrors {
        return false, diskOut, error + [WriteFailed(path)];
      }
      if path in disk.flushErrors {
        // the buffered bytes are lost when the file is closed; nobody checks
        return true, diskOut, error;
      }
      diskOut := diskOut.(entries := diskOut.entries[path := ObjectDocument(json)]);
      ok, errorOut := true, error;
    }
  }

  /** Loading never fails when the file is absent, and otherwise succeeds
      exactly when the file opens and holds an object. */
  lemma LoadSucceedsIffObjectOrMissing(prior: Paths, path: string, disk: Disk)
    ensures Load(prior, path, disk).ok <==>
      !Exists(disk, path) || (path !in disk.unreadable && disk.entries[path].ObjectDocument?)
  {
  }

  /** A missing file is a first run: success, no message, fields untouched. */
  lemma LoadMissingFileIsFirstRun(prior: Paths, path: string, disk: Disk)
    requires !Exists(disk, path)
    ensures Load(prior, path, disk) == LoadResult(true, prior, None)
  {
  }

  /** Every failed load leaves the fields as they were and appends exactly
      one message, which names the file; a successful load appends none. */
  lemma LoadFailureKeepsFields(prior: Paths, path: string, disk: Disk)
    ensures var r := Load(prior, path, disk);
      (!r.ok ==> r.paths == prior && r.error.Some? && r.error.value.path == path) &&
      (r.ok <==> r.error.None?)
  {
  }

  /** Each field is taken from its own key alone: two objects that agree on
      a key give the same value for that field, whatever the other keys hold,
      and a key that is absent or not a string keeps the prior value. */
  lemma ReadPathsFieldByField(m1: map<string, JsonValue>, m2: map<string, JsonValue>, prior: Paths)
    ensures (XrayPathKey in m1) == (XrayPathKey in m2) && (XrayPathKey in m1 ==> m1[XrayPathKey] == m2[XrayPathKey])
      ==> ReadPaths(m1, prior).xrayPath == ReadPaths(m2, prior).xrayPath
    ensures (DataPathKey in m1) == (DataPathKey in m2) && (DataPathKey in m1 ==> m1[DataPathKey] == m2[DataPathKey])
      ==> ReadPaths(m1, prior).dataPath == ReadPaths(m2, prior).dataPath
    ensures (ConfigPathKey in m1) == (ConfigPathKey in m2) && (ConfigPathKey in m1 ==> m1[ConfigPathKey] == m2[ConfigPathKey])
      ==> ReadPaths(m1, prior).configPath == ReadPaths(m2, prior).configPath
    ensures !(XrayPathKey in m1 && m1[XrayPathKey].JString?) ==> ReadPaths(m1, prior).xrayPath == prior.xrayPath
    ensures !(DataPathKey in m1 && m1[DataPathKey].JString?) ==> ReadPaths(m1, prior).dataPath == prior.dataPath
    ensures !(ConfigPathKey in m1 && m1[ConfigPathKey].JString?) ==> ReadPaths(m1, prior).configPath == prior.configPath
  {
  }

  /** Keys other than the three are ignored. */
  lemma ReadPathsIgnoresUnknownKeys(members: map<string, JsonValue>, prior: Paths)
    ensures ReadPaths(members, prior) ==
      ReadPaths(map k | k in members && k in {XrayPathKey, DataPathKey, ConfigPathKey} :: members[k], prior)
  {
  }

  /** A successful save stores exactly the three keys, all strings, empty
      ones included; a failed one appends a message naming the file.  Saving
      fails exactly when the open fails or the write reports an error; a
      failed flush at close is not seen and still counts as success. */
  lemma SaveWritesThreeKeys(p: Paths, path: string, disk: Disk)
    ensures var r := Save(p, path, disk);
      (r.ok <==> path !in disk.unwritable && path !in disk.writeErrors) &&
      (r.ok ==> r.error.None? && Exists(r.disk, path)) &&
      (!r.ok ==> r.error.Some? && r.error.value.path == path)
    ensures var r := Save(p, path, disk);
      r.ok && path in disk.flushErrors ==> r.disk.entries[path] == NullDocument
    ensures var r := Save(p, path, disk);
      r.ok && path !in disk.flushErrors ==>
        r.disk.entries[path].ObjectDocument? &&
        r.disk.entries[path].members.Keys == {XrayPathKey, DataPathKey, ConfigPathKey} &&
        r.disk.entries[path].members[XrayPathKey] == JString(p.xrayPath) &&
        r.disk.entries[path].members[DataPathKey] == JString(p.dataPath) &&
        r.disk.entries[path].members[ConfigPathKey] == JString(p.configPath)
  {
  }

  /** Saving touches no file but its own, nor the failure sets. */
  lemma SaveTouchesOnlyItsFile(p: Paths, path: string, disk: Disk, other: string)
    requires other != path
    ensures var d := Save(p, path, disk).disk;
      d.unreadable == disk.unreadable && d.unwritable == disk.unwritable &&
      d.writeErrors == disk.writeErrors && d.flushErrors == disk.flushErrors &&
      Exists(d, other) == Exists(disk, other) &&
      (Exists(disk, other) ==> d.entries[other] == disk.entries[other])
  {
  }

  /** The keys saved are the keys loaded: a successful save followed by a
      load of the same (readable) file gives back the saved fields, whatever
      the fields were before the load, all-empty paths included, provided
      the buffered data reached the file. */
  lemma SaveLoadRoundTrip(p: Paths, path: string, disk: Disk, prior: Paths)
    requires Save(p, path, disk).ok
    requires path !in disk.unreadable && path !in disk.flushErrors
    ensures Load(prior, path, Save(p, path, disk).disk) == LoadResult(true, p, None)
  {
  }

  /** A save that fails at the write leaves an empty file, which a later
      load rejects as invalid JSON without touching the fields. */
  lemma FailedWriteLeavesInvalidFile(p: Paths, path: string, disk: Disk, prior: Paths)
    requires path !in disk.unwritable && path in disk.writeErrors
    requires path !in disk.unreadable
    ensures Load(prior, path, Save(p, path, disk).disk) == LoadResult(false, prior, Some(InvalidJson(path)))
  {
  }

  /** A save whose flush at close fails reports success, yet the next load
      finds an empty file, rejects it as invalid JSON and keeps the fields. */
  lemma UnseenFlushFailureLosesConfig(p: Paths, path: string, disk: Disk, prior: Paths)
    requires path !in disk.unwritable && path !in disk.writeErrors && path in disk.flushErrors
    requires path !in disk.unreadable
    ensures Save(p, path, disk).ok && Save(p, path, disk).error.None?
    ensures Load(prior, path, Save(p, path, disk).disk) == LoadResult(false, prior, Some(InvalidJson(path)))
  {
  }
}
