/** The Node.js automation service (`PythonAutomationService`): it spawns the worker
    for a transfer, keeps the sessions that stopped at an OTP checkpoint in memory and
    in the session directory, and spawns a second worker to submit an OTP code. A
    child process is seen through the events it produces. */
module Orchestrator {
  import opened Base
  import opened Json
  import opened Strings
  import opened SessionFiles
  import JsSessionStore

  /** One `activeSessions` entry; `since` is its creation time in milliseconds. The
      entry always holds the child process that reported the checkpoint. */
  datatype Session = Session(bankConfig: Value, transferData: Value, since: int)

  /** The `activeSessions` map, keyed by the worker's `sessionId` value. */
  type Sessions = map<Value, Session>

  /** The service's state: the in-memory sessions and the session directory. */
  datatype Svc = Svc(sessions: Sessions, store: Store)

  /** `activeSessions.get(id)`. JavaScript `Map` compares objects by identity, and an
      object taken from a request is never the object a worker reply produced, so an
      object key never matches. */
  function GetActive(sessions: Sessions, id: Value): (r: Option<Session>)
    ensures r.Some? <==> !id.Obj? && id in sessions
    ensures r.Some? ==> r.value == sessions[id]
  {
    if !id.Obj? && id in sessions then Some(sessions[id]) else None
  }

  // ---------------------------------------------------------------------------
  // performTransfer

  /** What happens to the worker spawned by `performTransfer`: it cannot be started;
      it closes (`parsed` is `JSON.parse` of its trimmed standard output, None when
      that throws; `ms` and `iso` are the clock; `storeOk` whether the session file
      write succeeds); or the ten-minute timer fires with the output seen so far. */
  datatype Event =
    | SpawnError(reason: string, iso: string)
    | Closed(code: Option<int>, stderr: string, parsed: Option<Value>, ms: int, iso: string, storeOk: bool)
    | TimerFired(stdoutSoFar: string, iso: string)

  /** The promise's settled value (None while pending), whether the timer sent
      SIGTERM, and the service state. */
  datatype Run = Run(settled: Option<Value>, killed: bool, svc: Svc)

  /** The substring whose presence in the output stops the timer from killing the
      worker; it matches the worker's `json.dumps` spacing. */
  const OtpMarker: string := "\"requiresOtp\": true"

  /** The close handler's test for an OTP checkpoint: `result.requiresOtp && result.sessionId`. */
  predicate IsCheckpoint(v: Value) {
    JsTruthyOpt(Prop(v, "requiresOtp")) && JsTruthyOpt(Prop(v, "sessionId"))
  }

  /** The worker-reported properties of a checkpoint record, under their file names.
      Properties the worker did not report are `undefined` and stay out. */
  function ReportedHandles(v: Value): Dict {
    var d1 := WithOpt(map[], "transaction_id", Prop(v, "transactionId"));
    var d2 := WithOpt(d1, "browser_pid", Prop(v, "browserPid"));
    var d3 := WithOpt(d2, "driver_session_id", Prop(v, "driverSessionId"));
    var d4 := WithOpt(d3, "debugger_port", Prop(v, "debuggerPort"));
    WithOpt(d4, "current_url", Prop(v, "currentUrl"))
  }

  /** The object handed to `storeSessionToFile` at a checkpoint: the payload of the
      original request, status 'submit_otp', the time, and the worker's handles. */
  function CheckpointRecord(v: Value, bank: Value, td: Value, iso: string): (d: Dict)
    ensures "bank_config" in d && d["bank_config"] == bank
    ensures "transfer_data" in d && d["transfer_data"] == td
    ensures "status" in d && d["status"] == Str("submit_otp")
    ensures "timestamp" in d && d["timestamp"] == Str(iso)
    ensures "otp_detected" in d
    ensures d["otp_detected"] == (if JsTruthyOpt(Prop(v, "otpDetected")) then Prop(v, "otpDetected").value else Bool(false))
  {
    ReportedHandles(v)["bank_config" := bank]["transfer_data" := td]["status" := Str("submit_otp")]
      ["otp_detected" := JsOr(Prop(v, "otpDetected"), Some(Bool(false))).value]["timestamp" := Str(iso)]
  }

  /** A checkpoint record carries the transaction id and the browser handles exactly
      when the worker reported them. */
  lemma CheckpointRecordCarriesHandles(v: Value, bank: Value, td: Value, iso: string)
    ensures var d := CheckpointRecord(v, bank, td, iso);
            && Lookup(d, "transaction_id") == Prop(v, "transactionId")
            && Lookup(d, "browser_pid") == Prop(v, "browserPid")
            && Lookup(d, "current_url") == Prop(v, "currentUrl")
  {
    var h := ReportedHandles(v);
    HandlesCarried(v);
    FixedKeysLeaveHandles(h, bank, td, v, iso, "transaction_id");
    FixedKeysLeaveHandles(h, bank, td, v, iso, "browser_pid");
    FixedKeysLeaveHandles(h, bank, td, v, iso, "current_url");
  }

  /** The handles the worker reported, under their file names. */
  lemma HandlesCarried(v: Value)
    ensures var h := ReportedHandles(v);
            && Lookup(h, "transaction_id") == Prop(v, "transactionId")
            && Lookup(h, "browser_pid") == Prop(v, "browserPid")
            && Lookup(h, "current_url") == Prop(v, "currentUrl")
  {
    var d1 := WithOpt(map[], "transaction_id", Prop(v, "transactionId"));
    var d2 := WithOpt(d1, "browser_pid", Prop(v, "browserPid"));
    var d3 := WithOpt(d2, "driver_session_id", Prop(v, "driverSessionId"));
    var d4 := WithOpt(d3, "debugger_port", Prop(v, "debuggerPort"));
    assert "transaction_id" != "browser_pid" && "transaction_id" != "driver_session_id";
    assert "transaction_id" != "debugger_port" && "transaction_id" != "current_url";
    assert "browser_pid" != "driver_session_id" && "browser_pid" != "debugger_port" && "browser_pid" != "current_url";
    assert Lookup(d4, "transaction_id") == Prop(v, "transactionId");
    assert Lookup(d4, "browser_pid") == Prop(v, "browserPid");
  }

  /** The fixed fields of a checkpoint record do not touch the handle `k`. */
  lemma FixedKeysLeaveHandles(h: Dict, bank: Value, td: Value, v: Value, iso: string, k: string)
    requires k == "transaction_id" || k == "browser_pid" || k == "current_url"
    requires h == ReportedHandles(v)
    ensures Lookup(CheckpointRecord(v, bank, td, iso), k) == Lookup(h, k)
  {
    var r1 := h["bank_config" := bank];
    var r2 := r1["transfer_data" := td];
    var r3 := r2["status" := Str("submit_otp")];
    var r4 := r3["otp_detected" := JsOr(Prop(v, "otpDetected"), Some(Bool(false))).value];
    var r5 := r4["timestamp" := Str(iso)];
    assert CheckpointRecord(v, bank, td, iso) == r5;
    HandleKeyNotFixed(k);
    LookupOther(h, "bank_config", bank, k);
    LookupOther(r1, "transfer_data", td, k);
    LookupOther(r2, "status", Str("submit_otp"), k);
    LookupOther(r3, "otp_detected", JsOr(Prop(v, "otpDetected"), Some(Bool(false))).value, k);
    LookupOther(r4, "timestamp", Str(iso), k);
  }

  /** No handle key is one of the fixed fields of a checkpoint record. */
  lemma HandleKeyNotFixed(k: string)
    requires k == "transaction_id" || k == "browser_pid" || k == "current_url"
    ensures k != "bank_config" && k != "transfer_data" && k != "status" && k != "otp_detected" && k != "timestamp"
  {
    if k == "transaction_id" {
      assert |k| == 14;
    } else if k == "browser_pid" {
      assert k[1] == 'r' && "bank_config"[1] == 'a';
    } else {
      assert k[0] == 'c' && "bank_config"[0] == 'b';
    }
  }

  /** Setting one key leaves what the others read. */
  lemma LookupOther(m: Dict, a: string, x: Value, k: string)
    requires k != a
    ensures Lookup(m[a := x], k) == Lookup(m, k)
  {
  }

  /** The value a handler passes to `resolve`, or None when it does not call it. */
  function Outcome(e: Event): (r: Option<Value>)
    ensures e.SpawnError? ==> r == Some(Obj(FailureDoc("Failed to start automation: " + e.reason, e.iso)))
    ensures e.Closed? && e.code != Some(0) ==>
              r == Some(Obj(FailureDoc("Automation process failed: " + (if e.stderr != "" then e.stderr else "Unknown error"), e.iso)))
    ensures e.Closed? && e.code == Some(0) ==>
              r == Some(if e.parsed.None? || e.parsed.value.Null? then Obj(FailureDoc("Failed to parse automation result", e.iso)) else e.parsed.value)
    ensures e.TimerFired? ==> (r.None? <==> Contains(e.stdoutSoFar, OtpMarker))
  {
    match e
    case SpawnError(reason, iso) => Some(Obj(FailureDoc("Failed to start automation: " + reason, iso)))
    case Closed(code, stderr, parsed, _, iso, _) =>
      if code == Some(0) then
        if parsed.None? || parsed.value.Null? then Some(Obj(FailureDoc("Failed to parse automation result", iso)))
        else Some(parsed.value)
      else
        Some(Obj(FailureDoc("Automation process failed: " + (if stderr != "" then stderr else "Unknown error"), iso)))
    case TimerFired(so, iso) =>
      if Contains(so, OtpMarker) then None
      else Some(Obj(FailureDoc("Automation timeout - process took too long", iso)))
  }

  /** The side effects of a handler: a checkpoint registers the session in memory and
      starts the session file write. */
  function Effect(e: Event, bank: Value, td: Value, svc: Svc): (r: Svc)
    ensures forall k :: k in svc.sessions ==> k in r.sessions
    ensures forall k :: k in r.sessions && k !in svc.sessions ==>
              e.Closed? && e.code == Some(0) && e.parsed.Some? && IsCheckpoint(e.parsed.value) && k == e.parsed.value.fields["sessionId"]
  {
    match e
    case Closed(code, _, parsed, ms, iso, storeOk) =>
      if code == Some(0) && parsed.Some? && !parsed.value.Null? && IsCheckpoint(parsed.value) then
        var v := parsed.value;
        var sid := v.fields["sessionId"];
        var sessions := svc.sessions[sid := Session(bank, td, ms)];
        var store :=
          if sid.Str? then JsSessionStore.StoreSessionToFile(svc.store, sid.s, CheckpointRecord(v, bank, td, iso), iso, storeOk).store
          else svc.store;
        Svc(sessions, store)
      else svc
    case _ => svc
  }

  /** One event: the first `resolve` settles the promise and later ones are ignored,
      but every handler still runs its side effects. */
  function Handle(run: Run, e: Event, bank: Value, td: Value): (r: Run)
    ensures run.settled.Some? ==> r.settled == run.settled
    ensures run.settled.None? ==> r.settled == Outcome(e)
    ensures r.killed <==> run.killed || (e.TimerFired? && !Contains(e.stdoutSoFar, OtpMarker))
  {
    var killed := run.killed || (e.TimerFired? && !Contains(e.stdoutSoFar, OtpMarker));
    var settled := if run.settled.Some? then run.settled else Outcome(e);
    Run(settled, killed, Effect(e, bank, td, run.svc))
  }

  /** The events of one `performTransfer` call in the order they happen: a settled
      promise stays settled, a killed worker stays killed, and no session is lost. */
  function RunEvents(run: Run, events: seq<Event>, bank: Value, td: Value): (r: Run)
    ensures run.settled.Some? ==> r.settled == run.settled
    ensures run.killed ==> r.killed
    ensures forall k :: k in run.svc.sessions ==> k in r.svc.sessions
    decreases |events|
  {
    if events == [] then run else RunEvents(Handle(run, events[0], bank, td), events[1..], bank, td)
  }

  /** The first value any handler resolves with, if one does. */
  function FirstOutcome(events: seq<Event>): Option<Value>
    decreases |events|
  {
    if events == [] then None
    else if Outcome(events[0]).Some? then Outcome(events[0])
    else FirstOutcome(events[1..])
  }

  /** `performTransfer`: a fresh pending promise driven by the process's events. It
      settles with the first value any handler resolves with, and keeps every session
      already registered. */
  function PerformTransfer(svc: Svc, events: seq<Event>, bank: Value, td: Value): (r: Run)
    ensures r.settled == FirstOutcome(events)
    ensures forall k :: k in svc.sessions ==> k in r.svc.sessions
  {
    FirstOutcomeWins(Run(None, false, svc), events, bank, td);
    RunEvents(Run(None, false, svc), events, bank, td)
  }

  /** The promise settles with the first value resolved, and once settled it never
      changes. */
  lemma {:induction false} FirstOutcomeWins(run: Run, events: seq<Event>, bank: Value, td: Value)
    ensures RunEvents(run, events, bank, td).settled == if run.settled.Some? then run.settled else FirstOutcome(events)
    decreases |events|
  {
    if events != [] {
      FirstOutcomeWins(Handle(run, events[0], bank, td), events[1..], bank, td);
    }
  }

  /** Sessions are only ever added while a transfer runs, and only the ids of
      checkpoints the worker reported. */
  lemma {:induction false} SessionsOnlyGrow(run: Run, events: seq<Event>, bank: Value, td: Value)
    ensures var r := RunEvents(run, events, bank, td);
            && (forall k :: k in run.svc.sessions ==> k in r.svc.sessions)
            && (forall k :: k in r.svc.sessions && k !in run.svc.sessions ==>
                  exists i :: 0 <= i < |events| && events[i].Closed? && events[i].parsed.Some?
                              && IsCheckpoint(events[i].parsed.value) && k == events[i].parsed.value.fields["sessionId"])
    decreases |events|
  {
    if events != [] {
      var h := Handle(run, events[0], bank, td);
      SessionsOnlyGrow(h, events[1..], bank, td);
      var r := RunEvents(run, events, bank, td);
      forall k | k in r.svc.sessions && k !in run.svc.sessions
        ensures exists i :: 0 <= i < |events| && events[i].Closed? && events[i].parsed.Some?
                            && IsCheckpoint(events[i].parsed.value) && k == events[i].parsed.value.fields["sessionId"]
      {
        if k in h.svc.sessions {
          assert events[0].Closed? && events[0].parsed.Some? && IsCheckpoint(events[0].parsed.value);
        } else {
          var i :| 0 <= i < |events[1..]| && events[1..][i].Closed? && events[1..][i].parsed.Some?
                   && IsCheckpoint(events[1..][i].parsed.value) && k == events[1..][i].parsed.value.fields["sessionId"];
          assert events[i + 1] == events[1..][i];
        }
      }
    }
  }

  /** A clean exit reporting a checkpoint with a string id settles the promise with the
      worker's reply, registers the session and writes its file with status
      'submit_otp'. */
  lemma CheckpointRegisters(svc: Svc, bank: Value, td: Value, v: Value, ms: int, iso: string)
    requires IsCheckpoint(v) && v.fields["sessionId"].Str?
    ensures var sid := v.fields["sessionId"];
            var r := PerformTransfer(svc, [Closed(Some(0), "", Some(v), ms, iso, true)], bank, td);
            && r.settled == Some(v) && !r.killed
            && sid in r.svc.sessions && r.svc.sessions[sid] == Session(bank, td, ms)
            && r.svc.store == svc.store[sid.s := Valid(JsSessionStore.FileRecord(sid.s, CheckpointRecord(v, bank, td, iso), iso))]
  {
    var e := Closed(Some(0), "", Some(v), ms, iso, true);
    var h := Handle(Run(None, false, svc), e, bank, td);
    CheckpointHandled(svc, bank, td, v, ms, iso);
    assert [e][1..] == [];
    assert RunEvents(Run(None, false, svc), [e], bank, td) == RunEvents(h, [], bank, td) == h;
    assert PerformTransfer(svc, [e], bank, td) == h;
  }

  /** The single handler step behind `CheckpointRegisters`. */
  lemma CheckpointHandled(svc: Svc, bank: Value, td: Value, v: Value, ms: int, iso: string)
    requires IsCheckpoint(v) && v.fields["sessionId"].Str?
    ensures var sid := v.fields["sessionId"];
            var w := JsSessionStore.StoreSessionToFile(svc.store, sid.s, CheckpointRecord(v, bank, td, iso), iso, true);
            Handle(Run(None, false, svc), Closed(Some(0), "", Some(v), ms, iso, true), bank, td)
              == Run(Some(v), false, Svc(svc.sessions[sid := Session(bank, td, ms)], w.store))
  {
    var e := Closed(Some(0), "", Some(v), ms, iso, true);
    assert Outcome(e) == Some(v);
  }

  // ---------------------------------------------------------------------------
  // submitOtp

  /** JavaScript `String(v)` for the values a request can carry as a session id or code;
      a number is rendered through its integer part. */
  function JsString(v: Value): (t: string)
    ensures v.Str? ==> t == v.s
  {
    match v
    case Str(s) => s
    case Null => "null"
    case Bool(b) => if b then "true" else "false"
    case Num(n) => if n < 0.0 then "-" + NatToString(-n.Floor) else NatToString(n.Floor)
    case Obj(_) => "[object Object]"
  }

  /** What becomes of the spawned OTP worker: it never writes to standard output, it
      writes a first chunk, or `spawn` fails (the interpreter is missing, say) and the
      child emits an `error` event. */
  datatype ChildOutput = NoOutput | Chunk(text: string) | SpawnFailed(reason: string)

  /** The promise of `submitOtp`: settled with a value, still pending, or never settled
      because the service itself went down: the OTP child has no `error` listener, so
      Node.js throws the unhandled `error` event and the process exits. */
  datatype OtpReply = Answered(doc: Dict) | Pending | ServiceCrashed(reason: string)

  /** The command line of the spawned OTP worker (None when none is spawned) and the reply. */
  datatype OtpCall = OtpCall(argv: Option<seq<string>>, reply: OtpReply)

  /** The reply built from the worker's first output chunk: a parsed value is read for
      `success` and `message`; anything `JSON.parse` rejects, and `null` (reading a
      property of it throws), is taken as plain text and reported as a success. */
  function ChunkReply(text: string, parse: string -> Option<Value>, iso: string): (d: Dict)
    ensures var p := parse(Trim(text));
            p.Some? && !p.value.Null? ==>
              && ("success" in d <==> Prop(p.value, "success").Some?)
              && ("success" in d ==> d["success"] == Prop(p.value, "success").value)
              && "message" in d
              && d["message"] == (if JsTruthyOpt(Prop(p.value, "message")) then Prop(p.value, "message").value
                                  else Str("OTP verification result received"))
    ensures var p := parse(Trim(text));
            p.None? || p.value.Null? ==> d == map["success" := Bool(true), "message" := Str(Trim(text)), "timestamp" := Str(iso)]
  {
    var msg := Trim(text);
    var p := parse(msg);
    if p.Some? && !p.value.Null? then ParsedReply(p.value, iso)
    else map["success" := Bool(true), "message" := Str(msg), "timestamp" := Str(iso)]
  }

  /** The reply for a parsed, non-null chunk: its `success` if it has one, and its
      `message` when truthy. */
  function ParsedReply(v: Value, iso: string): (d: Dict)
    ensures "success" in d <==> Prop(v, "success").Some?
    ensures "success" in d ==> d["success"] == Prop(v, "success").value
    ensures "message" in d
    ensures d["message"] == (if JsTruthyOpt(Prop(v, "message")) then Prop(v, "message").value
                             else Str("OTP verification result received"))
  {
    var message := if JsTruthyOpt(Prop(v, "message")) then Prop(v, "message").value else Str("OTP verification result received");
    assert "message"[0] != "success"[0];
    var d := WithOpt(map["message" := message, "timestamp" := Str(iso)], "success", Prop(v, "success"));
    assert "message" in d && d["message"] == message;
    d
  }

  /** `submitOtp`: an unknown session is answered at once; otherwise a new worker is
      spawned with the stored payload, the session id and the code, and its first
      output chunk settles the reply. A worker that cannot be spawned takes the whole
      service down. The close handler is attached to the old process, which has
      already exited, so the session is never removed here. */
  function SubmitOtp(sessions: Sessions, sid: Value, code: Value, payload: string,
                     out: ChildOutput, parse: string -> Option<Value>, iso: string): (c: OtpCall)
    ensures GetActive(sessions, sid).None? <==> c.argv.None?
    ensures c.argv.None? ==> c.reply == Answered(FailureDoc("Session expired or not found", iso))
    ensures c.argv.Some? ==> c.argv.value == ["automation/bank_scraper.py", payload, "submit_otp", JsString(sid), JsString(code)]
    ensures c.argv.Some? ==> (c.reply.Pending? <==> out.NoOutput?)
    ensures c.argv.Some? ==> (c.reply.ServiceCrashed? <==> out.SpawnFailed?)
    ensures c.argv.Some? && out.SpawnFailed? ==> c.reply.reason == out.reason
    ensures c.argv.Some? && out.Chunk? ==> c.reply == Answered(ChunkReply(out.text, parse, iso))
  {
    match GetActive(sessions, sid)
    case None => OtpCall(None, Answered(FailureDoc("Session expired or not found", iso)))
    case Some(_) =>
      var argv := ["automation/bank_scraper.py", payload, "submit_otp", JsString(sid), JsString(code)];
      match out
      case NoOutput => OtpCall(Some(argv), Pending)
      case Chunk(text) => OtpCall(Some(argv), Answered(ChunkReply(text, parse, iso)))
      case SpawnFailed(reason) => OtpCall(Some(argv), ServiceCrashed(reason))
  }

  /** A worker that prints `null` is reported as a successful verification with the
      message "null". */
  lemma NullOutputReadsAsSuccess(text: string, parse: string -> Option<Value>, iso: string)
    requires parse(Trim(text)) == Some(Null)
    ensures ChunkReply(text, parse, iso)["success"] == Bool(true)
    ensures ChunkReply(text, parse, iso)["message"] == Str(Trim(text))
  {
    var msg := Trim(text);
    var d := map["success" := Bool(true), "message" := Str(msg), "timestamp" := Str(iso)];
    assert ChunkReply(text, parse, iso) == d;
    assert d["success"] == Bool(true) && d["message"] == Str(msg) by {
      assert "success"[0] != "message"[0];
    }
  }

  /** A worker that cannot be started is reported by `performTransfer`, which listens
      for `error`, but takes the service down in `submitOtp`, which does not. */
  lemma SpawnFailureOnlyReportedByTransfer(svc: Svc, bank: Value, td: Value, sessions: Sessions, sid: Value, code: Value,
                                           payload: string, reason: string, parse: string -> Option<Value>, iso: string)
    requires GetActive(sessions, sid).Some?
    ensures PerformTransfer(svc, [SpawnError(reason, iso)], bank, td).settled
            == Some(Obj(FailureDoc("Failed to start automation: " + reason, iso)))
    ensures SubmitOtp(sessions, sid, code, payload, SpawnFailed(reason), parse, iso).reply == ServiceCrashed(reason)
  {
    assert FirstOutcome([SpawnError(reason, iso)]) == Outcome(SpawnError(reason, iso));
  }

  // ---------------------------------------------------------------------------
  // cleanupExpiredSessions

  /** How long an in-memory session lives, in milliseconds. */
  const SessionLifetime: int := 300000

  predicate Expired(s: Session, now: int) {
    now - s.since > SessionLifetime
  }

  /** `cleanupExpiredSessions`: drops exactly the sessions older than five minutes and
      leaves the session directory alone. */
  method CleanupExpiredSessions(sessions: Sessions, now: int) returns (r: Sessions)
    ensures forall k :: k in r <==> k in sessions && !Expired(sessions[k], now)
    ensures forall k :: k in r ==> r[k] == sessions[k]
  {
    r := sessions;
    var todo := sessions.Keys;
    while todo != {}
      invariant todo <= sessions.Keys
      invariant forall k :: k in r ==> k in sessions && r[k] == sessions[k]
      invariant forall k :: k in todo ==> k in r
      invariant forall k :: k in sessions && k !in todo ==> (k in r <==> !Expired(sessions[k], now))
      decreases todo
    {
      var id :| id in todo;
      if Expired(sessions[id], now) {
        r := r - {id};
      }
      todo := todo - {id};
    }
  }
}
