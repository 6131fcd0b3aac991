/** A client of the store: the walkthrough of putting two keys, deleting one, reading both and
    reopening the log, checked against the contracts of KVStore alone. */
module Scenario {
  import opened Outcomes
  import opened LogFormat
  import opened LogReplay
  import opened KvStore

  /** Opens a store over an empty (just created) log. */
  method OpenEmpty() returns (kv: KVStore)
    ensures fresh(kv) && kv.store == map[] && kv.LogReplaysToStore() && AtLineBoundary(kv.logFile)
  {
    var created, err := KVStore.NewKVStore("db.txt", "", false, false);
    assert Replay(Lines(""), map[]) == Ok(map[]);
    kv := created;
  }

  /** Puts "name" and then "role"; the log still replays to the map. */
  method PutNameAndRole(kv: KVStore)
    modifies kv
    requires kv.LogReplaysToStore() && AtLineBoundary(kv.logFile)
    ensures kv.store == old(kv.store)["name" := "Drew"]["role" := "Engineer"]
    ensures kv.LogReplaysToStore() && AtLineBoundary(kv.logFile)
  {
    assert PutRoundTrips("name", "Drew") && PutRoundTrips("role", "Engineer");
    kv.Put("name", "Drew", Written);
    kv.Put("role", "Engineer", Written);
  }

  /** Deletes the present key "role"; the log replays to the map but no longer ends a line. */
  method DeleteRole(kv: KVStore)
    modifies kv
    requires kv.LogReplaysToStore() && AtLineBoundary(kv.logFile) && "role" in kv.store
    ensures kv.store == old(kv.store) - {"role"} && kv.LogReplaysToStore()
    ensures kv.logFile == old(kv.logFile) + DeleteRecord("role")
  {
    assert DeleteRoundTrips("role");
    var deleted := kv.Delete("role", Written);
  }

  /** Opens an empty log, puts "name" and "role", deletes "role" and reads both keys back. */
  method PutPutDelete() returns (kv: KVStore, name: string, nameErr: Option<Error>, roleErr: Option<Error>)
    ensures fresh(kv)
    ensures kv.store == map["name" := "Drew"] && kv.LogReplaysToStore()
    ensures name == "Drew" && nameErr == None && roleErr == Some(KeyNotFound)
  {
    kv := OpenEmpty();
    PutNameAndRole(kv);
    DeleteRole(kv);
    assert "name"[0] != "role"[0];
    assert kv.store == map["name" := "Drew"];

    name, nameErr := kv.Get("name");
    var role;
    role, roleErr := kv.Get("role");
  }

  /** Reopening the log left by PutPutDelete reproduces both reads. */
  method ReopenAfterDelete() returns (name: string, nameErr: Option<Error>, roleErr: Option<Error>)
    ensures name == "Drew" && nameErr == None && roleErr == Some(KeyNotFound)
  {
    var kv, _, _, _ := PutPutDelete();
    var reopened, reopenErr := KVStore.NewKVStore("db.txt", kv.logFile, false, false);
    assert reopened != null && reopened.store == map["name" := "Drew"];
    name, nameErr := reopened.Get("name");
    var role;
    role, roleErr := reopened.Get("role");
  }
}
