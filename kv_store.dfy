/** The store: an in-memory map mirrored by an append-only log file. */
module KvStore {
  import opened Outcomes
  import opened LogFormat
  import opened LineParse
  import opened LogReplay

  /** How one attempt to write to the log file turns out. */
  datatype IoOutcome =
    | Written                        // the file opened and the whole text was written
    | OpenFails                      // the file could not be opened; nothing was written
    | WriteFails(bytesWritten: nat)  // the file opened but the write stopped after some characters

  /** The text a write of content actually leaves at the end of the file. */
  function Appended(content: string, io: IoOutcome): (r: string)
    ensures r <= content
    ensures io.Written? ==> r == content
    ensures io.OpenFails? ==> r == []
    ensures io.WriteFails? ==> |r| == if io.bytesWritten < |content| then io.bytesWritten else |content|
  {
    match io
    case Written => content
    case OpenFails => []
    case WriteFails(n) => if n < |content| then content[..n] else content
  }

  class KVStore {
    /** The in-memory map from key to value. */
    var store: map<string, string>
    /** The contents of the log file at logPath. */
    var logFile: string
    const logPath: string

    /** True when replaying the log file from scratch rebuilds the map. */
    ghost predicate LogReplaysToStore()
      reads this
    {
      Replay(Lines(logFile), map[]) == Ok(store)
    }

    /** The struct literal NewKVStore builds: an empty map over the given file. */
    constructor Init(logPath: string, file: string)
      ensures this.logPath == logPath && store == map[] && logFile == file
    {
      this.logPath := logPath;
      store := map[];
      logFile := file;
    }

    /** Opens (creating it if absent, which makes file empty) the log at logPath and replays
        it into a fresh map. Either open failing is an I/O error; a PUT line without a value
        makes replay panic, which the model reports as IndexOutOfRange. */
    static method NewKVStore(logPath: string, file: string, openFails: bool, readOpenFails: bool)
      returns (kv: KVStore?, err: Option<Error>)
      ensures openFails || readOpenFails ==> kv == null && err == Some(IoError)
      ensures !openFails && !readOpenFails && Replay(Lines(file), map[]).Ok? ==>
        err == None && kv != null && fresh(kv) && kv.logPath == logPath && kv.logFile == file &&
        kv.store == Replay(Lines(file), map[]).value && kv.LogReplaysToStore()
      ensures !openFails && !readOpenFails && Replay(Lines(file), map[]).Err? ==>
        kv == null && err == Some(IndexOutOfRange)
    {
      if openFails {
        return null, Some(IoError);
      }
      var created := new KVStore.Init(logPath, file);
      var loadErr := created.LoadFromLog(readOpenFails);
      if loadErr.Some? {
        return null, loadErr;
      }
      return created, None;
    }

    /** Reads the log file line by line and applies each line to the map with the
        apply-only helpers, never writing to the log. */
    method LoadFromLog(readOpenFails: bool) returns (err: Option<Error>)
      modifies this`store
      ensures readOpenFails ==> err == Some(IoError) && store == old(store)
      ensures !readOpenFails && Replay(Lines(logFile), old(store)).Ok? ==>
        err == None && store == Replay(Lines(logFile), old(store)).value
      ensures !readOpenFails && Replay(Lines(logFile), old(store)).Err? ==> err == Some(IndexOutOfRange)
    {
      if readOpenFails {
        return Some(IoError);
      }
      var lines := Lines(logFile);
      assert lines[0..] == lines;
      ReplayFromIsReplay(lines, 0, store);
      var i := 0;
      while i < |lines|
        invariant 0 <= i <= |lines|
        invariant ReplayFrom(lines, i, store) == Replay(lines, old(store))
      {
        var panicked := ReplayLine(lines[i]);
        if panicked {
          return Some(IndexOutOfRange);
        }
        i := i + 1;
      }
      return None;
    }

    /** The body of the replay loop for one line: splits it into at most three fields, skips it
        when it has fewer than two, and applies a PUT or DELETE with the apply-only helpers. A
        PUT line without a value field indexes past the fields; that is reported as panicked. */
    method ReplayLine(line: string) returns (panicked: bool)
      modifies this`store
      ensures Apply(old(store), ParseLine(line)) == if panicked then Err(IndexOutOfRange) else Ok(store)
    {
      ParseLineByFields(line);
      var parts := SplitN3(line);
      if |parts| < 2 {
        return false;
      }
      var op := parts[0];
      var key := parts[1];
      if op == "PUT" {
        if |parts| < 3 {
          return true;
        }
        PutReplay(key, parts[2]);
      } else if op == "DELETE" {
        var _ := DeleteReplay(key);
      }
      return false;
    }

    /** Opens the log file and appends cmd, a space and payload. A failed open is returned as
        an error; a failed write is reported nowhere and still returns no error. */
    method WriteToLog(cmd: string, payload: string, io: IoOutcome) returns (err: Option<Error>)
      modifies this`logFile
      ensures logFile == old(logFile) + Appended(LogEntry(cmd, payload), io)
      ensures err == if io.OpenFails? then Some(IoError) else None
    {
      if io.OpenFails? {
        return Some(IoError);
      }
      var content := LogEntry(cmd, payload);
      logFile := logFile + Appended(content, io);
      return None;
    }

    /** Appends the PUT record and sets the key, whatever became of the write. */
    method Put(key: string, value: string, io: IoOutcome)
      modifies this`store, this`logFile
      ensures store == old(store)[key := value]
      ensures logFile == old(logFile) + Appended(PutRecord(key, value), io)
      ensures old(LogReplaysToStore() && AtLineBoundary(logFile)) && io.Written? && PutRoundTrips(key, value) ==>
        LogReplaysToStore() && AtLineBoundary(logFile)
    {
      ghost var before, file := store, logFile;
      var keyVal := key + " " + value + "\n";
      var _ := WriteToLog("PUT", keyVal, io);
      store := store[key := value];
      if Replay(Lines(file), map[]) == Ok(before) && AtLineBoundary(file) && io.Written? && PutRoundTrips(key, value) {
        PutRecordReplays(file, map[], before, key, value);
      }
    }

    /** Sets the key in the map only; used by replay, never writes to the log. */
    method PutReplay(key: string, value: string)
      modifies this`store
      ensures store == old(store)[key := value]
      ensures logFile == old(logFile)
    {
      store := store[key := value];
    }

    /** Looks the key up; changes neither the map nor the log. */
    method Get(key: string) returns (value: string, err: Option<Error>)
      ensures key in store ==> value == store[key] && err == None
      ensures key !in store ==> value == "" && err == Some(KeyNotFound)
    {
      if key !in store {
        return "", Some(KeyNotFound);
      }
      return store[key], None;
    }

    /** Deletes a present key after appending its DELETE record; an absent key is an error that
        touches neither the map nor the log. */
    method Delete(key: string, io: IoOutcome) returns (err: Option<Error>)
      modifies this`store, this`logFile
      ensures key !in old(store) ==> err == Some(KeyNotFound) && store == old(store) && logFile == old(logFile)
      ensures key in old(store) ==>
        err == None && store == old(store) - {key} && logFile == old(logFile) + Appended(DeleteRecord(key), io)
      ensures old(LogReplaysToStore() && AtLineBoundary(logFile)) && io.Written? && DeleteRoundTrips(key) ==>
        LogReplaysToStore()
    {
      if key !in store {
        return Some(KeyNotFound);
      }
      ghost var before, file := store, logFile;
      var _ := WriteToLog("DELETE", key, io);
      store := store - {key};
      if Replay(Lines(file), map[]) == Ok(before) && AtLineBoundary(file) && io.Written? && DeleteRoundTrips(key) {
        DeleteRecordReplays(file, map[], before, key);
      }
      return None;
    }

    /** Removes the key from the map only; used by replay, never writes to the log. An absent
        key is reported and leaves the map as it was. */
    method DeleteReplay(key: string) returns (err: Option<Error>)
      modifies this`store
      ensures key !in old(store) ==> err == Some(KeyNotFound) && store == old(store)
      ensures key in old(store) ==> err == None
      ensures store == old(store) - {key}
      ensures logFile == old(logFile)
    {
      if key !in store {
        assert store - {key} == store;
        return Some(KeyNotFound);
      }
      store := store - {key};
      return None;
    }
  }
}
