/** The session directory shared by the Python worker and the Node.js service: one
    `<session_id>.json` file per session. A write goes to `<id>.json.tmp` and is
    renamed into place, so a reader sees either the old file or the whole new one;
    the model therefore treats a put as one atomic map update. */
module SessionFiles {
  import opened Base
  import opened Json

  /** What a reader finds in `<id>.json`: a parsed JSON object, a file that is empty
      or white space only, text that is not JSON, or a file whose reading raises (no
      read permission, for instance). */
  datatype Entry = Valid(doc: Dict) | Empty | Corrupt | Unreadable

  /** The directory, keyed by session id (the file name without `.json`). */
  type Store = map<string, Entry>

  /** The entries the Python reader gives up on and deletes. */
  predicate Discardable(e: Entry) {
    e.Empty? || e.Corrupt?
  }

  /** Whether `k` is still in the directory after the Python reader visited it, given
      `locked`, the ids whose file the system refuses to delete: `os.remove` raising
      is caught with the rest, and the file stays. */
  predicate PyKeeps(s: Store, k: string, locked: set<string>) {
    k in s && (!Discardable(s[k]) || k in locked)
  }

  /** Result of a store operation: the boolean it returns and the directory after it. */
  datatype Write = Write(ok: bool, store: Store)

  /** Result of a read: the parsed record (if any) and the directory after the read,
      since readers delete files they cannot use. */
  datatype Read = Read(found: Option<Dict>, store: Store)

  /** The directory after the Python reader has visited every file: the empty and
      corrupt entries are gone unless their removal failed; parseable and unreadable
      entries stay as they were. */
  function Swept(s: Store, locked: set<string>): (s': Store)
    ensures forall k :: k in s' <==> PyKeeps(s, k, locked)
    ensures forall k :: k in s && s[k].Valid? ==> k in s'
    ensures forall k :: k in s' ==> k in s && s'[k] == s[k]
  {
    map k | k in s && (!Discardable(s[k]) || k in locked) :: s[k]
  }

  /** A second sweep finds nothing more to delete. */
  lemma SweptIdempotent(s: Store, locked: set<string>)
    ensures Swept(Swept(s, locked), locked) == Swept(s, locked)
  {
  }
}

/** `SessionManager` of the Python worker. */
module PySessionStore {
  import opened Base
  import opened Json
  import opened SessionFiles

  /** The only keys `store_session` writes. */
  const StoredKeys: set<string> := {
    "session_id", "bank_config", "transfer_data", "timestamp", "status",
    "driver_session_id", "automation_instance", "browser_pid", "current_url", "otp_detected"
  }

  /** The object `store_session` serialises: a fixed set of keys, `status` defaulting to
      `'waiting_otp'` and `otp_detected` to False when absent, the others to None, and the
      timestamp always the time of the write. */
  function StorageRecord(id: string, data: Dict, now: string): (r: Dict)
    requires "bank_config" in data && "transfer_data" in data
    ensures "session_id" in r && r["session_id"] == Str(id) && "timestamp" in r && r["timestamp"] == Str(now)
    ensures "bank_config" in r && r["bank_config"] == data["bank_config"]
    ensures "transfer_data" in r && r["transfer_data"] == data["transfer_data"]
    ensures "status" in r && r["status"] == if "status" in data then data["status"] else Str("waiting_otp")
    ensures "otp_detected" in r && ("otp_detected" !in data ==> r["otp_detected"] == Bool(false))
  {
    map k | k in StoredKeys ::
      if k == "session_id" then Str(id)
      else if k == "timestamp" then Str(now)
      else PyGet(data, k, StoredDefault(k))
  }

  /** What `store_session` writes for a kept key the caller did not pass. */
  function StoredDefault(k: string): Value {
    if k == "status" then Str("waiting_otp") else if k == "otp_detected" then Bool(false) else Null
  }

  /** `store_session`: a missing `bank_config` or `transfer_data` (a KeyError) or a failed
      write leaves the directory as it was and returns False. */
  function StoreSession(s: Store, id: string, data: Dict, now: string, writeOk: bool): (w: Write)
    ensures w.ok <==> "bank_config" in data && "transfer_data" in data && writeOk
    ensures !w.ok ==> w.store == s
    ensures w.ok ==> id in w.store && w.store[id].Valid?
    ensures w.ok ==> w.store[id].doc == StorageRecord(id, data, now)
    ensures forall k :: k != id ==> (k in w.store <==> k in s)
    ensures forall k :: k != id && k in s ==> w.store[k] == s[k]
  {
    if "bank_config" in data && "transfer_data" in data && writeOk then
      Write(true, s[id := Valid(StorageRecord(id, data, now))])
    else
      Write(false, s)
  }

  /** `get_session`: a missing file reads as None; an empty or unparseable file reads as
      None and is deleted, unless the deletion raises (`locked`), which the outer
      `except` turns into None with the file kept; a file whose reading raises reads
      as None and is kept. There is no expiry by age. */
  function GetSession(s: Store, id: string, locked: set<string>): (r: Read)
    ensures r.found.Some? <==> id in s && s[id].Valid?
    ensures r.found.Some? ==> r.found.value == s[id].doc
    ensures id in r.store <==> PyKeeps(s, id, locked)
    ensures id in r.store ==> r.store[id] == s[id]
    ensures forall k :: k != id ==> (k in r.store <==> k in s)
    ensures forall k :: k != id && k in s ==> r.store[k] == s[k]
  {
    if id !in s then Read(None, s)
    else match s[id]
      case Valid(doc) => Read(Some(doc), s)
      case Unreadable => Read(None, s)
      case _ => Read(None, if id in locked then s else s - {id})
  }

  /** `update_session`: merge `updates` over the stored record (Python `dict.update`)
      and store the result again; a record that is absent, unusable or empty (`{}` is
      falsy in Python) gives False. */
  function UpdateSession(s: Store, id: string, updates: Dict, now: string, writeOk: bool, locked: set<string>): (w: Write)
    ensures w.ok ==> id in s && s[id].Valid? && PyTruthy(Obj(s[id].doc)) && writeOk
    ensures id !in s ==> w == Write(false, s)
    ensures w.ok ==> id in w.store && w.store[id].Valid?
    ensures id in w.store <==> PyKeeps(s, id, locked)
    ensures id in s && s[id].Valid? ==> id in w.store && w.store[id].Valid?
    ensures id in w.store && !s[id].Valid? ==> w.store[id] == s[id]
    ensures forall k :: k != id ==> (k in w.store <==> k in s)
    ensures forall k :: k != id && k in s ==> w.store[k] == s[k]
  {
    if id in s && s[id].Valid? && PyTruthy(Obj(s[id].doc)) then
      var w := StoreSession(s, id, Merged(s[id].doc, updates, now), now, writeOk);
      assert PyKeeps(s, id, locked) && id in w.store && w.store[id].Valid?;
      w
    else
      var g := GetSession(s, id, locked);
      assert id in g.store ==> g.store[id] == s[id];
      Write(false, g.store)
  }

  /** `update_session_status`: set `status` and store again. */
  function UpdateSessionStatus(s: Store, id: string, status: string, now: string, writeOk: bool, locked: set<string>): (w: Write)
    ensures w.ok ==> id in w.store && w.store[id].Valid? && "status" in w.store[id].doc && w.store[id].doc["status"] == Str(status)
    ensures !w.ok ==> forall k :: k != id && k in s ==> k in w.store && w.store[k] == s[k]
  {
    if id in s && s[id].Valid? && PyTruthy(Obj(s[id].doc)) then
      StoreSession(s, id, s[id].doc["status" := Str(status)]["timestamp" := Str(now)], now, writeOk)
    else
      Write(false, GetSession(s, id, locked).store)
  }

  /** `delete_session`: removes the file if present and reports True; when the removal
      raises (`locked`) it reports False and the file stays. */
  function DeleteSession(s: Store, id: string, locked: set<string>): (w: Write)
    ensures w.ok <==> id !in s || id !in locked
    ensures w.ok ==> id !in w.store
    ensures !w.ok ==> w.store == s
    ensures forall k :: k != id ==> (k in w.store <==> k in s)
    ensures forall k :: k != id && k in s ==> w.store[k] == s[k]
  {
    if id in s && id in locked then Write(false, s) else Write(true, s - {id})
  }

  /** `is_browser_alive`: a falsy pid is dead; otherwise the process table decides
      (`pidExists`). A pid psutil cannot take (a string, a fraction) raises, which
      reads as dead; Python's `True` is the pid 1. */
  function IsBrowserAlive(pid: Option<Value>, pidExists: int -> bool): (alive: bool)
    ensures alive ==> PyTruthyOpt(pid)
    ensures alive ==> (pid.value.Num? && pidExists(pid.value.n.Floor)) || (pid.value == Bool(true) && pidExists(1))
    ensures pid.Some? && pid.value.Num? && pid.value.n != 0.0 && pid.value.n == pid.value.n.Floor as real ==>
              (alive <==> pidExists(pid.value.n.Floor))
  {
    if !PyTruthyOpt(pid) then false
    else match pid.value
      case Num(n) => n == n.Floor as real && pidExists(n.Floor)
      case Bool(_) => pidExists(1)
      case _ => false
  }

  /** The directory walk shared by `list_active_sessions` and `cleanup_expired_sessions`:
      `get_session` on every id, collecting those whose record is truthy. */
  method SweepDirectory(s: Store, locked: set<string>) returns (truthy: set<string>, s': Store)
    ensures truthy == set k | k in s && s[k].Valid? && PyTruthy(Obj(s[k].doc))
    ensures s' == Swept(s, locked)
  {
    truthy := {};
    s' := s;
    var todo := s.Keys;
    while todo != {}
      invariant todo <= s.Keys
      invariant forall k :: k in s' ==> k in s && s'[k] == s[k]
      invariant forall k :: k in todo ==> k in s'
      invariant forall k :: k in s && k !in todo ==> (k in s' <==> PyKeeps(s, k, locked))
      invariant truthy == set k | k in s && k !in todo && s[k].Valid? && PyTruthy(Obj(s[k].doc))
      decreases todo
    {
      var id :| id in todo;
      var r := GetSession(s', id, locked);
      if r.found.Some? && PyTruthy(Obj(r.found.value)) {
        truthy := truthy + {id};
      }
      s' := r.store;
      todo := todo - {id};
    }
  }

  /** `list_active_sessions`: the ids whose file parses to a non-empty object; empty and
      corrupt files are deleted on the way when the system allows it. */
  method ListActiveSessions(s: Store, locked: set<string>) returns (ids: set<string>, s': Store)
    ensures forall k :: k in ids <==> k in s && s[k].Valid? && PyTruthy(Obj(s[k].doc))
    ensures s' == Swept(s, locked)
  {
    ids, s' := SweepDirectory(s, locked);
  }

  /** `cleanup_expired_sessions`: deletes exactly the empty and corrupt files whose
      removal succeeds. No parseable session is ever removed, whatever its age, and
      neither is a file that cannot be read. */
  method CleanupExpiredSessions(s: Store, locked: set<string>) returns (s': Store)
    ensures forall k :: k in s && !Discardable(s[k]) ==> k in s' && s'[k] == s[k]
    ensures forall k :: k in s && Discardable(s[k]) ==> (k in s' <==> k in locked)
    ensures forall k :: k in s' ==> k in s && s'[k] == s[k]
    ensures s'.Keys <= s.Keys
  {
    var _, swept := SweepDirectory(s, locked);
    s' := swept;
  }

  /** Reading right after a successful store returns every field `store_session` keeps,
      unchanged, with the timestamp of the write. */
  lemma StoreThenGet(s: Store, id: string, data: Dict, now: string)
    requires "bank_config" in data && "transfer_data" in data
    ensures var w := StoreSession(s, id, data, now, true);
            && w.ok
            && GetSession(w.store, id, {}) == Read(Some(StorageRecord(id, data, now)), w.store)
            && var rec := GetSession(w.store, id, {}).found.value;
            && rec.Keys == StoredKeys
            && rec["timestamp"] == Str(now)
            && (forall k :: k in data && k in StoredKeys - {"session_id", "timestamp"} ==> rec[k] == data[k])
            && "transaction_id" !in rec
  {
    StorageRecordKeys(id, data, now);
    assert "transaction_id" !in StoredKeys by {
      assert forall k :: k in StoredKeys ==> |k| != 14;
    }
  }

  /** A failed store, whatever the reason, leaves the previous record in place. */
  lemma StoreIsAllOrNothing(s: Store, id: string, data: Dict, now: string, writeOk: bool, locked: set<string>)
    requires !writeOk || "bank_config" !in data || "transfer_data" !in data
    ensures StoreSession(s, id, data, now, writeOk) == Write(false, s)
    ensures id in s ==> GetSession(StoreSession(s, id, data, now, writeOk).store, id, locked) == GetSession(s, id, locked)
  {
  }

  /** `delete_session` is idempotent, and after a successful one the session reads as
      None; a failed one changes nothing and fails again. */
  lemma DeleteIdempotent(s: Store, id: string, locked: set<string>)
    ensures DeleteSession(DeleteSession(s, id, locked).store, id, locked) == DeleteSession(s, id, locked)
    ensures DeleteSession(s, id, locked).ok ==> GetSession(DeleteSession(s, id, locked).store, id, locked).found.None?
  {
  }

  /** A file that cannot be read, or an unusable one that cannot be deleted, reads as
      None, stays in place through every reader, and is never listed. */
  lemma FailedReadKeepsFile(s: Store, id: string, locked: set<string>)
    requires id in s && (s[id].Unreadable? || (Discardable(s[id]) && id in locked))
    ensures GetSession(s, id, locked) == Read(None, s)
    ensures id in Swept(s, locked) && Swept(s, locked)[id] == s[id]
  {
  }

  /** `update_session_status` is `update_session` with the single update `status`. */
  lemma UpdateStatusIsUpdate(s: Store, id: string, status: string, now: string, writeOk: bool, locked: set<string>)
    ensures UpdateSessionStatus(s, id, status, now, writeOk, locked) == UpdateSession(s, id, map["status" := Str(status)], now, writeOk, locked)
  {
    if id in s && s[id].Valid? && PyTruthy(Obj(s[id].doc)) {
      var d := s[id].doc;
      MergedSingle(d, "status", Str(status), now);
      var m := Merged(d, map["status" := Str(status)], now);
      assert UpdateSessionStatus(s, id, status, now, writeOk, locked) == StoreSession(s, id, m, now, writeOk);
    }
  }

  /** Merging a single update is setting that key and then the time. */
  lemma MergedSingle(d: Dict, k: string, v: Value, now: string)
    ensures d[k := v]["timestamp" := Str(now)] == Merged(d, map[k := v], now)
  {
  }

  /** The record holds exactly the kept keys: each one the caller passed keeps its
      value (except the id and the time), and a missing handle is None. */
  lemma StorageRecordKeys(id: string, data: Dict, now: string)
    requires "bank_config" in data && "transfer_data" in data
    ensures var r := StorageRecord(id, data, now);
            && r.Keys == StoredKeys
            && (forall k :: k in StoredKeys && k != "session_id" && k != "timestamp" && k in data ==> r[k] == data[k])
            && (forall k :: k in {"driver_session_id", "automation_instance", "browser_pid", "current_url"} && k !in data ==> r[k] == Null)
  {
  }

  /** The merged record of `update_session`: the stored record, then the updates, then
      the time of the update. */
  function Merged(d: Dict, updates: Dict, now: string): (m: Dict)
    ensures "timestamp" in m && m["timestamp"] == Str(now)
    ensures forall k :: k != "timestamp" ==> (k in m <==> k in d || k in updates)
    ensures forall k :: k != "timestamp" && k in updates ==> m[k] == updates[k]
    ensures forall k :: k != "timestamp" && k !in updates && k in d ==> m[k] == d[k]
  {
    d + updates + map["timestamp" := Str(now)]
  }

  /** A merge keeps the two payload fields of the stored record. */
  lemma MergedKeepsPayload(d: Dict, updates: Dict, now: string)
    requires "bank_config" in d && "transfer_data" in d
    ensures "bank_config" in Merged(d, updates, now) && "transfer_data" in Merged(d, updates, now)
  {
    assert "bank_config" != "timestamp" && "transfer_data" != "timestamp";
  }

  /** The record `update_session` writes when the stored one has both payload fields. */
  lemma UpdateWritesMergedRecord(s: Store, id: string, updates: Dict, now: string, locked: set<string>)
    requires id in s && s[id].Valid?
    requires "bank_config" in s[id].doc && "transfer_data" in s[id].doc
    ensures var merged := Merged(s[id].doc, updates, now);
            && "bank_config" in merged && "transfer_data" in merged
            && UpdateSession(s, id, updates, now, true, locked) == Write(true, s[id := Valid(StorageRecord(id, merged, now))])
  {
    var d := s[id].doc;
    assert PyTruthy(Obj(d)) by {
      assert "bank_config" in d.Keys;
    }
    MergedKeepsPayload(d, updates, now);
  }

  /** `update_session` always stamps the record with the time of the update. */
  lemma UpdateStampsTime(s: Store, id: string, updates: Dict, now: string, locked: set<string>)
    requires id in s && s[id].Valid?
    requires "bank_config" in s[id].doc && "transfer_data" in s[id].doc
    ensures var w := UpdateSession(s, id, updates, now, true, locked);
            && w.ok && id in w.store && w.store[id].Valid?
            && Lookup(w.store[id].doc, "timestamp") == Some(Str(now))
  {
    UpdateWritesMergedRecord(s, id, updates, now, locked);
  }

  /** `update_session` on a usable record: each kept field `k` takes the update's value
      when the update names it and keeps its stored value otherwise. */
  lemma UpdateMerges(s: Store, id: string, updates: Dict, now: string, k: string, locked: set<string>)
    requires id in s && s[id].Valid?
    requires "bank_config" in s[id].doc && "transfer_data" in s[id].doc
    requires k in StoredKeys && k != "session_id" && k != "timestamp"
    ensures var w := UpdateSession(s, id, updates, now, true, locked);
            && w.ok && id in w.store && w.store[id].Valid?
            && (k in updates ==> Lookup(w.store[id].doc, k) == Some(updates[k]))
            && (k !in updates && k in s[id].doc ==> Lookup(w.store[id].doc, k) == Some(s[id].doc[k]))
  {
    var merged := Merged(s[id].doc, updates, now);
    UpdateWritesMergedRecord(s, id, updates, now, locked);
    StorageRecordKeys(id, merged, now);
  }

  /** `update_session` on a record that still carries its two payload fields succeeds
      and leaves exactly the keys `store_session` keeps. */
  lemma UpdateKeepsStoredKeys(s: Store, id: string, updates: Dict, now: string, locked: set<string>)
    requires id in s && s[id].Valid?
    requires "bank_config" in s[id].doc && "transfer_data" in s[id].doc
    ensures var w := UpdateSession(s, id, updates, now, true, locked);
            && w.ok && id in w.store && w.store[id].Valid? && w.store[id].doc.Keys == StoredKeys
  {
    UpdateWritesMergedRecord(s, id, updates, now, locked);
    StorageRecordKeys(id, Merged(s[id].doc, updates, now), now);
  }

  /** A status update on a record that carries its two payload fields lands: the
      record keeps those fields and now holds the new status. */
  lemma StatusUpdateLands(s: Store, id: string, status: string, now: string, locked: set<string>)
    requires id in s && s[id].Valid?
    requires "bank_config" in s[id].doc && "transfer_data" in s[id].doc
    ensures var w := UpdateSession(s, id, map["status" := Str(status)], now, true, locked);
            && w.ok && id in w.store && w.store[id].Valid?
            && "bank_config" in w.store[id].doc && "transfer_data" in w.store[id].doc
            && "status" in w.store[id].doc && w.store[id].doc["status"] == Str(status)
  {
    var merged := Merged(s[id].doc, map["status" := Str(status)], now);
    UpdateWritesMergedRecord(s, id, map["status" := Str(status)], now, locked);
    assert "status" != "timestamp";
    assert "status" in merged && merged["status"] == Str(status);
  }
}
