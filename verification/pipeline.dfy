/** How the pieces meet: the checkpoint the worker prints, the session the service
    registers from it, the command line of the OTP worker, the request the client
    sends with the code, and what the service makes of the OTP worker's output. */
module Pipeline {
  import opened Base
  import opened Json
  import opened Strings
  import opened SessionFiles
  import opened Types
  import Py = PySessionStore
  import JsSessionStore
  import Scraper
  import Orchestrator
  import Server
  import App

  /** The worker's checkpoint object passes the service's checkpoint test and carries
      the browser pid but no `transactionId` and no `otpDetected`. */
  lemma CheckpointDocProps(sid: string, h: Scraper.Handles, now: string)
    requires sid != ""
    ensures var v := Obj(Scraper.CheckpointDoc(sid, h, now));
            && Orchestrator.IsCheckpoint(v) && v.fields["sessionId"] == Str(sid)
            && Prop(v, "transactionId").None? && Prop(v, "otpDetected").None?
            && Prop(v, "browserPid") == Some(h.browserPid)
  {
    var d := Scraper.CheckpointDoc(sid, h, now);
    assert forall k :: k in d ==> |k| != 13;
    assert "otpDetected" != "requiresOtp";
    assert forall k :: k in d && k != "requiresOtp" ==> |k| != 11;
    assert Prop(Obj(d), "requiresOtp") == Some(Bool(true)) && Prop(Obj(d), "sessionId") == Some(Str(sid));
  }

  /** The record the service builds from a checkpoint without a transaction id or an
      OTP flag: status 'submit_otp', the original payload, the browser pid, no
      transaction id and `otp_detected` false. */
  lemma CheckpointRecordOf(v: Value, pid: Value, bank: Value, td: Value, iso: string)
    requires Prop(v, "transactionId").None? && Prop(v, "otpDetected").None? && Prop(v, "browserPid") == Some(pid)
    ensures var data := Orchestrator.CheckpointRecord(v, bank, td, iso);
            && "transaction_id" !in data
            && "browser_pid" in data && data["browser_pid"] == pid
            && data["otp_detected"] == Bool(false)
            && data["status"] == Str("submit_otp") && data["bank_config"] == bank
  {
    Orchestrator.CheckpointRecordCarriesHandles(v, bank, td, iso);
  }

  /** The file `storeSessionToFile` writes for such a record. */
  lemma FileRecordOfCheckpoint(sid: string, data: Dict, iso: string, pid: Value, bank: Value)
    requires "transaction_id" !in data
    requires "browser_pid" in data && data["browser_pid"] == pid
    requires "otp_detected" in data && data["otp_detected"] == Bool(false)
    requires "status" in data && data["status"] == Str("submit_otp")
    requires "bank_config" in data && data["bank_config"] == bank
    ensures var rec := JsSessionStore.FileRecord(sid, data, iso);
            && rec["session_id"] == Str(sid) && rec["status"] == Str("submit_otp")
            && rec["otp_detected"] == Bool(false)
            && "transaction_id" !in rec
            && "browser_pid" in rec && rec["browser_pid"] == pid
            && (JsTruthy(bank) ==> rec["bank_config"] == bank)
  {
    assert "transaction_id" in JsSessionStore.PassThroughKeys && "browser_pid" in JsSessionStore.PassThroughKeys;
    JsSessionStore.FileRecordKeys(sid, data, iso);
    assert |"transaction_id"| == 14;
  }

  /** A checkpoint the service reads after a clean exit, with a string session id, the
      browser pid and no transaction id or OTP flag, registers the session and leaves
      a file the worker's OTP run can use: its `session_id` names its own file, its
      status is 'submit_otp' and it holds the bank and the browser pid. */
  lemma HandOff(svc: Orchestrator.Svc, bank: Value, td: Value, v: Value, sid: string, pid: Value, ms: int, iso: string)
    requires Orchestrator.IsCheckpoint(v) && v.fields["sessionId"] == Str(sid) && JsTruthy(bank)
    requires Prop(v, "transactionId").None? && Prop(v, "otpDetected").None? && Prop(v, "browserPid") == Some(pid)
    ensures var r := Orchestrator.PerformTransfer(svc, [Orchestrator.Closed(Some(0), "", Some(v), ms, iso, true)], bank, td);
            && r.settled == Some(v)
            && Str(sid) in r.svc.sessions && r.svc.sessions[Str(sid)] == Orchestrator.Session(bank, td, ms)
            && Scraper.Usable(r.svc.store, sid)
            && var rec := r.svc.store[sid].doc;
               && Lookup(rec, "session_id") == Some(Str(sid)) && Lookup(rec, "status") == Some(Str("submit_otp"))
               && Lookup(rec, "bank_config") == Some(bank)
               && Lookup(rec, "otp_detected") == Some(Bool(false))
               && "transaction_id" !in rec
               && Lookup(rec, "browser_pid") == Some(pid)
  {
    Orchestrator.CheckpointRegisters(svc, bank, td, v, ms, iso);
    var data := Orchestrator.CheckpointRecord(v, bank, td, iso);
    CheckpointRecordOf(v, pid, bank, td, iso);
    FileRecordOfCheckpoint(sid, data, iso, pid, bank);
    var rec := JsSessionStore.FileRecord(sid, data, iso);
    var r := Orchestrator.PerformTransfer(svc, [Orchestrator.Closed(Some(0), "", Some(v), ms, iso, true)], bank, td);
    assert r.svc.store == svc.store[sid := Valid(rec)];
    assert "session_id" in rec.Keys;
    assert PyTruthy(Obj(rec));
  }

  /** The hand-off for the checkpoint the worker actually prints. */
  lemma CheckpointHandOff(svc: Orchestrator.Svc, bank: Value, td: Value, sid: string, h: Scraper.Handles,
                          now: string, ms: int, iso: string)
    requires sid != "" && JsTruthy(bank)
    ensures var v := Obj(Scraper.CheckpointDoc(sid, h, now));
            var r := Orchestrator.PerformTransfer(svc, [Orchestrator.Closed(Some(0), "", Some(v), ms, iso, true)], bank, td);
            && r.settled == Some(v)
            && Str(sid) in r.svc.sessions
            && Scraper.Usable(r.svc.store, sid)
            && var rec := r.svc.store[sid].doc;
               && Lookup(rec, "session_id") == Some(Str(sid)) && Lookup(rec, "status") == Some(Str("submit_otp"))
               && "transaction_id" !in rec && Lookup(rec, "browser_pid") == Some(h.browserPid)
  {
    CheckpointDocProps(sid, h, now);
    HandOff(svc, bank, td, Obj(Scraper.CheckpointDoc(sid, h, now)), sid, h.browserPid, ms, iso);
  }

  /** The service's OTP command line is read by the worker's `main` as an OTP
      submission for that session and code. */
  lemma OtpChildDispatch(sid: Value, code: Value, payload: string, parse: string -> Option<Value>)
    ensures var argv := ["automation/bank_scraper.py", payload, "submit_otp", Orchestrator.JsString(sid), Orchestrator.JsString(code)];
            Scraper.Dispatch(argv, parse) == Scraper.OtpMode(Orchestrator.JsString(sid), Orchestrator.JsString(code))
  {
  }

  /** The login request with non-empty fields passes the service's validation. */
  lemma LoginRequestComplete(bank: Bank, username: string, password: string, iban: string)
    requires bank.id != "" && username != "" && password != "" && iban != ""
    ensures Server.Complete(App.LoginRequest(bank, username, password, iban))
  {
    var req := TransferRequest(bank.id, username, password, iban, App.TransferAmount, Some(App.Description), None);
    RequestRoundTrip(req);
  }

  /** Adding the code and the session id to a complete request keeps it complete and
      leaves the bank id alone. */
  lemma ResendKeepsRequest(p: Dict, code: string, sid: Value)
    requires Server.Complete(p) && code != "" && JsTruthy(sid)
    ensures var sent := p["otpCode" := Str(code)]["sessionId" := sid];
            && Server.Complete(sent)
            && Lookup(sent, "otpCode") == Some(Str(code)) && Lookup(sent, "sessionId") == Some(sid)
            && sent["bankId"] == p["bankId"]
  {
    assert "bankId" != "otpCode" && "bankId" != "sessionId";
    assert "amount" != "otpCode" && "amount" != "sessionId";
    assert "otpCode" != "sessionId";
    assert |"username"| == 8 && |"password"| == 8 && |"receiverIban"| == 12;
  }

  /** The request the client posts with a code, in real mode and for a listed bank,
      reaches the service's `submitOtp` with the session id the client kept and the
      code as a string. */
  lemma ClientOtpRequestReachesSubmitOtp(st: App.State, code: string, outcome: App.ApiOutcome, iso: string,
                                         bank: Bank, username: string, password: string,
                                         banks: seq<Bank>, nowMs: nat, iso2: string, txn: string)
    requires st.bank.Some? && JsTruthyOpt(st.sessionId)
    requires st.pending == Some(App.LoginRequest(bank, username, password, st.receiverIban))
    requires bank.id != "" && username != "" && password != "" && st.receiverIban != "" && code != ""
    requires bank in banks
    ensures var sent := App.SubmitOtp(st, code, outcome, iso).sent;
            && sent.Some?
            && Server.HandleTransfer(sent.value, banks, Server.Flags(false, true), nowMs, iso2, txn)
               == Server.CallSubmitOtp(st.sessionId.value, Str(code))
  {
    var req := TransferRequest(bank.id, username, password, st.receiverIban, App.TransferAmount, Some(App.Description), None);
    var p := App.LoginRequest(bank, username, password, st.receiverIban);
    assert p == EncodeRequest(req);
    LoginRequestComplete(bank, username, password, st.receiverIban);
    ResendKeepsRequest(p, code, st.sessionId.value);
    var sent := p["otpCode" := Str(code)]["sessionId" := st.sessionId.value];
    assert sent["bankId"] == Str(bank.id);
    var i :| 0 <= i < |banks| && banks[i] == bank;
    assert Server.FindBank(banks, sent["bankId"]).Some?;
    assert App.SubmitOtp(st, code, outcome, iso).sent == Some(sent);
    assert JsTruthyOpt(Lookup(sent, "otpCode")) && JsTruthyOpt(Lookup(sent, "sessionId"));
    var r := Server.HandleTransfer(sent, banks, Server.Flags(false, true), nowMs, iso2, txn);
    assert r.CallSubmitOtp?;
    assert sent["sessionId"] == st.sessionId.value && sent["otpCode"] == Str(code);
  }

  /** As written, the worker's OTP run on a usable record whose browser has died
      prints `null` and exits with status 0. */
  lemma DeadBrowserPrintsNull(argv: seq<string>, parse: string -> Option<Value>, s: Store,
                              worker: Scraper.WorkerEnv, setup: Step<()>, otp: Scraper.OtpEnv, now: string)
    requires |argv| == 5 && argv[2] == "submit_otp"
    requires Scraper.Usable(s, argv[3])
    requires !Py.IsBrowserAlive(Lookup(s[argv[3]].doc, "browser_pid"), otp.pidExists)
    ensures var e := Scraper.Main(argv, parse, s, worker, setup, otp, now);
            e.printed == Scraper.JsonNull && e.code == 0
  {
    assert Scraper.Dispatch(argv, parse) == Scraper.OtpMode(argv[3], argv[4]);
    assert Scraper.SubmitOtpToSession(s, argv[3], argv[4], setup, otp).result == Ok(None);
  }

  /** ... and the service, whose JSON parser reads that line as `null`, reports it to
      the client as a successful OTP verification whose message is the text `null`. */
  lemma NullReplyReadsAsSuccess(parse: string -> Option<Value>, iso: string)
    requires parse("null") == Some(Null)
    ensures var reply := Orchestrator.ChunkReply("null\n", parse, iso);
            Lookup(reply, "success") == Some(Bool(true)) && Lookup(reply, "message") == Some(Str("null"))
  {
    var text := "null\n";
    TrimNull();
    assert parse(Trim(text)) == Some(Null);
    Orchestrator.NullOutputReadsAsSuccess(text, parse, iso);
  }

  lemma TrimNull()
    ensures Trim("null\n") == "null"
  {
    var s := "null\n";
    assert !IsSpace(s[0]);
    assert TrimStart(s) == s;
    assert IsSpace(s[4]) && s[..4] == "null";
    assert TrimEnd(s) == TrimEnd("null");
    assert !IsSpace("null"[3]);
    assert TrimEnd("null") == "null";
  }

  /** With the dead-browser case handled, the same submission reaches the client as a
      failure carrying the expiry message. */
  lemma IntendedDeadBrowserReportedAsFailure(s: Store, id: string, code: string, setup: Step<()>, otp: Scraper.OtpEnv,
                                             text: string, parse: string -> Option<Value>, iso: string)
    requires Scraper.Usable(s, id) && "bank_config" in s[id].doc
    requires Lookup(s[id].doc, "session_id") == Some(Str(id))
    requires !Py.IsBrowserAlive(Lookup(s[id].doc, "browser_pid"), otp.pidExists)
    requires setup.Ok?
    requires parse(Trim(text)) == Some(Obj(FailureDoc("Browser session expired", otp.now)))
    ensures Scraper.SubmitOtpToSessionIntended(s, id, code, setup, otp).result
            == Ok(Some(FailureDoc("Browser session expired", otp.now)))
    ensures var reply := Orchestrator.ChunkReply(text, parse, iso);
            Lookup(reply, "success") == Some(Bool(false)) && Lookup(reply, "message") == Some(Str("Browser session expired"))
  {
    Scraper.IntendedReportsExpiry(s, id, code, setup, otp);
    FailureReplyReadsAsFailure(text, parse, iso, "Browser session expired", otp.now);
  }

  /** A failure object printed by the worker reaches the client as a failure with its
      message. */
  lemma FailureReplyReadsAsFailure(text: string, parse: string -> Option<Value>, iso: string, message: string, now: string)
    requires message != ""
    requires parse(Trim(text)) == Some(Obj(FailureDoc(message, now)))
    ensures var reply := Orchestrator.ChunkReply(text, parse, iso);
            Lookup(reply, "success") == Some(Bool(false)) && Lookup(reply, "message") == Some(Str(message))
  {
    FailureDocReads(message, now);
    var reply := Orchestrator.ChunkReply(text, parse, iso);
    assert "success" in reply && reply["success"] == Bool(false);
    assert "message" in reply && reply["message"] == Str(message);
  }
}
