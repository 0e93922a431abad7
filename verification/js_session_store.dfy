/** The Node.js side of the session directory: `storeSessionToFile`,
    `getSessionFromFile` and `listActiveSessionsFromFiles`. */
module JsSessionStore {
  import opened Base
  import opened Json
  import opened SessionFiles
  import Py = PySessionStore

  /** JavaScript `a || b || fallback` over property reads. */
  function JsOrElse(a: Option<Value>, b: Option<Value>, fallback: Value): (v: Value)
    ensures JsTruthyOpt(a) ==> v == a.value
    ensures !JsTruthyOpt(a) && JsTruthyOpt(b) ==> v == b.value
    ensures !JsTruthyOpt(a) && !JsTruthyOpt(b) ==> v == fallback
  {
    if JsTruthyOpt(a) then a.value else if JsTruthyOpt(b) then b.value else fallback
  }

  /** JavaScript `a ?? fallback`: only `null` and `undefined` give way. */
  function Coalesce(a: Option<Value>, fallback: Value): (v: Value)
    ensures a.Some? && !a.value.Null? ==> v == a.value
    ensures a.None? || a.value.Null? ==> v == fallback
  {
    if a.Some? && !a.value.Null? then a.value else fallback
  }

  /** The fields `storeSessionToFile` copies only when the caller supplied them. */
  const PassThroughKeys: set<string> := {"transaction_id", "browser_pid", "driver_session_id", "current_url"}

  /** The object `storeSessionToFile` serialises. Properties read from a missing key are
      `undefined` and `JSON.stringify` omits them; anything else the caller passed
      (for instance `debugger_port`) is not written. */
  function FileRecord(id: string, data: Dict, now: string): (r: Dict)
    ensures "session_id" in r && r["session_id"] == Str(id)
    ensures "timestamp" in r && r["timestamp"] == (if JsTruthyOpt(Lookup(data, "timestamp")) then data["timestamp"] else Str(now))
    ensures "bank_config" in r && "transfer_data" in r && "status" in r && "otp_detected" in r
    ensures r["bank_config"] == JsOrElse(Lookup(data, "bank_config"), Lookup(data, "bankConfig"), Obj(map[]))
    ensures r["transfer_data"] == JsOrElse(Lookup(data, "transfer_data"), Lookup(data, "transferData"), Obj(map[]))
    ensures r["status"] == (if JsTruthyOpt(Lookup(data, "status")) then data["status"] else Str("waiting_otp"))
    ensures r["otp_detected"] == Coalesce(Lookup(data, "otp_detected"), Bool(false))
    ensures forall k :: k in PassThroughKeys ==>
              (k in r <==> k in data) && (k in r ==> r[k] == data[k])
  {
    var passed := map k | k in PassThroughKeys && k in data :: data[k];
    var fixed := map[
      "session_id" := Str(id),
      "timestamp" := if JsTruthyOpt(Lookup(data, "timestamp")) then data["timestamp"] else Str(now),
      "bank_config" := JsOrElse(Lookup(data, "bank_config"), Lookup(data, "bankConfig"), Obj(map[])),
      "transfer_data" := JsOrElse(Lookup(data, "transfer_data"), Lookup(data, "transferData"), Obj(map[])),
      "status" := if JsTruthyOpt(Lookup(data, "status")) then data["status"] else Str("waiting_otp"),
      "otp_detected" := Coalesce(Lookup(data, "otp_detected"), Bool(false))
    ];
    PassThroughNotFixed();
    assert fixed.Keys == FixedFileKeys;
    passed + fixed
  }

  /** The fields `storeSessionToFile` always writes. */
  const FixedFileKeys: set<string> := {"session_id", "timestamp", "bank_config", "transfer_data", "status", "otp_detected"}

  /** No pass-through field is one of the fixed ones. */
  lemma PassThroughNotFixed()
    ensures forall k :: k in PassThroughKeys ==> k !in FixedFileKeys
  {
    forall k | k in PassThroughKeys
      ensures k !in FixedFileKeys
    {
      if k == "browser_pid" {
        assert k[1] == 'r' && "bank_config"[1] == 'a';
      } else if k == "current_url" {
        assert k[0] == 'c' && "bank_config"[0] == 'b';
      } else {
        assert |k| == 14 || |k| == 17;
      }
    }
  }

  /** `storeSessionToFile`: every field has a default, so only the write itself can fail,
      and a failed write leaves the directory as it was. */
  function StoreSessionToFile(s: Store, id: string, data: Dict, now: string, writeOk: bool): (w: Write)
    ensures w.ok <==> writeOk
    ensures !w.ok ==> w.store == s
    ensures w.ok ==> id in w.store && w.store[id] == Valid(FileRecord(id, data, now))
    ensures forall k :: k != id ==> (k in w.store <==> k in s)
    ensures forall k :: k != id && k in s ==> w.store[k] == s[k]
  {
    if writeOk then Write(true, s[id := Valid(FileRecord(id, data, now))]) else Write(false, s)
  }

  /** Whether `k` is still in the directory after the Node.js reader visited it: only
      a corrupt file is deleted, and only when `unlinkSync` does not throw. */
  predicate JsKeeps(s: Store, k: string, locked: set<string>) {
    k in s && (!s[k].Corrupt? || k in locked)
  }

  /** `getSessionFromFile`: a missing, empty or unreadable file reads as null and is
      kept; an unparseable file reads as null and is deleted, unless `unlinkSync`
      throws (`locked`), which is logged and the file kept. */
  function GetSessionFromFile(s: Store, id: string, locked: set<string>): (r: Read)
    ensures r.found.Some? <==> id in s && s[id].Valid?
    ensures r.found.Some? ==> r.found.value == s[id].doc
    ensures id in r.store <==> JsKeeps(s, id, locked)
    ensures id in r.store ==> r.store[id] == s[id]
    ensures forall k :: k != id ==> (k in r.store <==> k in s)
    ensures forall k :: k != id && k in s ==> r.store[k] == s[k]
  {
    if id in s && s[id].Corrupt? && id !in locked then Read(None, s - {id})
    else if id in s && s[id].Valid? then Read(Some(s[id].doc), s)
    else Read(None, s)
  }

  /** `listActiveSessionsFromFiles`: every parsed record is a truthy object in
      JavaScript, so the ids listed are exactly those of parseable files; corrupt files
      are deleted when `unlinkSync` succeeds, and every other file is kept. */
  method ListActiveSessionsFromFiles(s: Store, locked: set<string>) returns (ids: set<string>, s': Store)
    ensures forall k :: k in ids <==> k in s && s[k].Valid?
    ensures forall k :: k in s' <==> JsKeeps(s, k, locked)
    ensures forall k :: k in s' ==> k in s && s'[k] == s[k]
  {
    ids := {};
    s' := s;
    var todo := s.Keys;
    while todo != {}
      invariant todo <= s.Keys
      invariant forall k :: k in s' ==> k in s && s'[k] == s[k]
      invariant forall k :: k in todo ==> k in s'
      invariant forall k :: k in s && k !in todo ==> (k in s' <==> JsKeeps(s, k, locked))
      invariant forall k :: k in ids <==> k in s && k !in todo && s[k].Valid?
      decreases todo
    {
      var id :| id in todo;
      var r := GetSessionFromFile(s', id, locked);
      if r.found.Some? {
        ids := ids + {id};
      }
      s' := r.store;
      todo := todo - {id};
    }
  }

  /** Reading right after a successful write returns the normalised record. */
  lemma StoreThenGet(s: Store, id: string, data: Dict, now: string)
    ensures var w := StoreSessionToFile(s, id, data, now, true);
            && w.ok
            && GetSessionFromFile(w.store, id, {}) == Read(Some(FileRecord(id, data, now)), w.store)
  {
  }

  /** The two readers disagree on an empty file: Python deletes it when it can, and
      Node.js always keeps it. */
  lemma EmptyFileHandlingDiffers(s: Store, id: string, locked: set<string>)
    requires id in s && s[id] == Empty
    ensures Py.GetSession(s, id, locked).found.None? && GetSessionFromFile(s, id, locked).found.None?
    ensures id !in Py.GetSession(s, id, locked).store <==> id !in locked
    ensures GetSessionFromFile(s, id, locked).store == s
  {
  }

  /** The two readers agree on everything else: the same record is found, and a
      corrupt or unreadable file is handled alike. */
  lemma ReadersAgreeOffEmpty(s: Store, id: string, locked: set<string>)
    requires id !in s || !s[id].Empty?
    ensures Py.GetSession(s, id, locked) == GetSessionFromFile(s, id, locked)
  {
  }

  /** The two listings disagree on a file holding `{}`: it is falsy in Python, so only
      Node.js lists it; neither deletes it. */
  lemma EmptyObjectListingDiffers(s: Store, id: string)
    requires id in s && s[id] == Valid(map[])
    ensures Py.GetSession(s, id, {}).found == Some(map[]) && !PyTruthy(Obj(map[]))
    ensures GetSessionFromFile(s, id, {}).found == Some(map[]) && JsTruthy(Obj(map[]))
  {
  }

  /** A record the Node.js service wrote with a `transaction_id` loses that field the
      first time the Python worker updates it, because `store_session` keeps a fixed
      set of keys; the payload fields survive. */
  lemma PythonUpdateDropsTransactionId(s: Store, id: string, data: Dict, now: string, updates: Dict, later: string)
    requires "transaction_id" in data
    ensures "transaction_id" in FileRecord(id, data, now)
    ensures StoreSessionToFile(s, id, data, now, true).store == s[id := Valid(FileRecord(id, data, now))]
    ensures var py := Py.UpdateSession(s[id := Valid(FileRecord(id, data, now))], id, updates, later, true, {});
            && py.ok && id in py.store && py.store[id].Valid?
            && "transaction_id" !in py.store[id].doc
  {
    var rec := FileRecord(id, data, now);
    assert "transaction_id" in PassThroughKeys;
    Py.UpdateKeepsStoredKeys(s[id := Valid(rec)], id, updates, later, {});
    TransactionIdNotStored();
  }

  /** `transaction_id` is not among the keys the Python store keeps; every kept key has
      a different length. */
  lemma TransactionIdNotStored()
    ensures "transaction_id" !in Py.StoredKeys
  {
    assert forall k :: k in Py.StoredKeys ==> |k| != 14;
  }

  /** Only the listed fields and the caller's pass-through fields are written. */
  lemma FileRecordKeys(id: string, data: Dict, now: string)
    ensures FileRecord(id, data, now).Keys == FixedFileKeys + (PassThroughKeys * data.Keys)
    ensures "debugger_port" !in FileRecord(id, data, now)
  {
    var r := FileRecord(id, data, now);
    assert r.Keys == FixedFileKeys + (PassThroughKeys * data.Keys);
    assert "debugger_port" !in FixedFileKeys && "debugger_port" !in PassThroughKeys by {
      assert |"debugger_port"| == 13 && "transfer_data"[0] == 't';
    }
  }
}
