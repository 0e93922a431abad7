/** The Python worker `bank_scraper.py`: the decisions it takes around browser steps.
    Every browser or driver call is an oracle that either returns or raises. */
module Scraper {
  import opened Base
  import opened Json
  import opened Strings
  import opened FeeRule
  import opened Amounts
  import opened SessionFiles
  import Py = PySessionStore

  const SuccessMessage: string := "Transferência realizada com sucesso"
  const TransferFailedMessage: string := "Erro na transferência"
  const OtpFailurePrefix: string := "Erro na verificação OTP: "

  /** Python `v[k]` on a parsed JSON value: a dict without `k` raises KeyError (whose
      text is the quoted key); any other value raises TypeError. */
  function PyIndex(v: Value, k: string): (r: Step<Value>)
    ensures r.Ok? <==> v.Obj? && k in v.fields
    ensures r.Ok? ==> r.value == v.fields[k]
    ensures v.Obj? && k !in v.fields ==> r == Throws("'" + k + "'")
  {
    match v
    case Obj(f) => if k in f then Ok(f[k]) else Throws("'" + k + "'")
    case Str(_) => Throws("string indices must be integers, not 'str'")
    case _ => Throws("'" + PyTypeName(v) + "' object is not subscriptable")
  }

  // ---------------------------------------------------------------------------
  // Searching lists in order

  /** `find_first_selector`: the first selector, in list order, for which the driver
      finds an element (`finds`); its bare `except` makes a lookup that raises move on. */
  function FindFirstSelector(selectors: seq<string>, finds: string -> bool): (r: Option<string>)
    ensures r.Some? <==> exists j :: 0 <= j < |selectors| && finds(selectors[j])
    ensures r.Some? ==> exists j :: 0 <= j < |selectors| && selectors[j] == r.value && finds(selectors[j])
                          && forall i :: 0 <= i < j ==> !finds(selectors[i])
  {
    match FindFirst(selectors, finds)
    case Some(j) => Some(selectors[j])
    case None => None
  }

  // ---------------------------------------------------------------------------
  // verify_transfer_success

  /** What waiting for the bank's success element gives: nothing within the timeout,
      or an element with its `class` attribute and text. */
  datatype SuccessElement = TimedOut | Found(classes: string, text: string)

  /** The `{"status": …, "message": …}` dict `verify_transfer_success` returns. */
  datatype Verdict = Verdict(status: bool, message: string)

  /** `verify_transfer_success`: a class containing "success" (in any case) wins, even
      when "danger" is present too; the element text is reported capitalised. */
  function VerifyTransferSuccess(e: SuccessElement): (v: Verdict)
    ensures v.status <==> e.Found? && Contains(Lower(e.classes), "success")
    ensures e.Found? && (v.status || Contains(Lower(e.classes), "danger")) ==> v.message == Capitalize(e.text)
    ensures e.Found? && !Contains(Lower(e.classes), "success") && !Contains(Lower(e.classes), "danger") ==>
              v.message == "No clear success/danger class found: " + e.classes
    ensures e.TimedOut? ==> v == Verdict(false, "Success message not found within timeout")
  {
    match e
    case TimedOut => Verdict(false, "Success message not found within timeout")
    case Found(classes, text) =>
      var feedback := Capitalize(text);
      if Contains(Lower(classes), "success") then Verdict(true, feedback)
      else if Contains(Lower(classes), "danger") then Verdict(false, feedback)
      else Verdict(false, "No clear success/danger class found: " + classes)
  }

  /** The classification does not depend on the case of the class attribute. */
  lemma VerdictIgnoresClassCase(classes: string, text: string)
    ensures VerifyTransferSuccess(Found(classes, text)).status == VerifyTransferSuccess(Found(Lower(classes), text)).status
  {
    LowerIdempotent(classes);
  }

  // ---------------------------------------------------------------------------
  // detect_otp_requirement

  /** The generic OTP input selectors, tried after the bank's own `otpInputField`. */
  const GenericOtpSelectors: seq<string> := [
    "input[type=\"text\"][placeholder*=\"código\"]",
    "input[type=\"text\"][placeholder*=\"OTP\"]",
    "input[type=\"text\"][placeholder*=\"SMS\"]",
    "input[type=\"password\"][placeholder*=\"código\"]",
    "input[name*=\"otp\"]",
    "input[id*=\"otp\"]",
    "input[id*=\"sms\"]",
    "input[id*=\"token\"]",
    "input[class*=\"otp\"]",
    "input[class*=\"sms\"]",
    "input[class*=\"token\"]",
    "input[placeholder*=\"verificação\"]",
    "input[placeholder*=\"verificacion\"]",
    "input[placeholder*=\"autenticação\"]",
    "input[placeholder*=\"autenticacion\"]",
    "input[name*=\"codigo\"]",
    "input[name*=\"verification\"]",
    "input[id*=\"verification\"]"
  ]

  /** The phrases whose presence in the page, ignoring case, signals an OTP step. */
  const OtpTextPatterns: seq<string> := [
    "código de verificação", "código SMS", "token", "OTP", "verificação",
    "autenticação", "código enviado", "verification code", "SMS code"
  ]

  /** The selectors `detect_otp_requirement` waits for, in order. */
  function OtpFieldSelectors(bankSelector: Option<string>): (sels: seq<string>)
    ensures bankSelector.Some? ==> |sels| == |GenericOtpSelectors| + 1 && sels[0] == bankSelector.value
    ensures |sels| >= |GenericOtpSelectors| && sels[|sels| - |GenericOtpSelectors|..] == GenericOtpSelectors
  {
    (if bankSelector.Some? then [bankSelector.value] else []) + GenericOtpSelectors
  }

  /** The text check: the lower-cased page contains a lower-cased pattern. */
  function PageMentionsOtp(page: string): (found: bool)
    ensures found <==> exists i :: 0 <= i < |OtpTextPatterns| && Contains(Lower(page), Lower(OtpTextPatterns[i]))
  {
    FindFirst(OtpTextPatterns, (p: string) => Contains(Lower(page), Lower(p))).Some?
  }

  /** What waiting (up to eight seconds) for one OTP selector gives: an element, the
      `TimeoutException` the loop catches, or any other exception (an invalid selector,
      a lost browser), which it does not catch. */
  datatype Wait = Located | TimesOut | Raises(message: string)

  /** Every wait times out. */
  predicate AllTimeOut(sels: seq<string>, wait: string -> Wait) {
    forall j :: 0 <= j < |sels| ==> wait(sels[j]).TimesOut?
  }

  /** The wait for `sels[j]` is the first, in order, that does not time out. */
  predicate FirstSettled(sels: seq<string>, wait: string -> Wait, j: int) {
    0 <= j < |sels| && !wait(sels[j]).TimesOut? && forall i :: 0 <= i < j ==> wait(sels[i]).TimesOut?
  }

  /** The selector loop of `detect_otp_requirement`: the first wait, in order, that does
      not time out decides (an element gives `Ok(true)`, an exception leaves with it);
      None when every wait times out. */
  function SelectorLoop(sels: seq<string>, wait: string -> Wait): (r: Option<Step<bool>>)
    ensures r.None? <==> AllTimeOut(sels, wait)
    ensures forall j :: FirstSettled(sels, wait, j) ==>
              r == Some(if wait(sels[j]).Raises? then Throws(wait(sels[j]).message) else Ok(true))
    ensures r.Some? && r.value.Throws? ==>
              exists j :: FirstSettled(sels, wait, j) && wait(sels[j]) == Raises(r.value.message)
  {
    match FindFirst(sels, (sel: string) => !wait(sel).TimesOut?)
    case None => None
    case Some(j) =>
      assert FirstSettled(sels, wait, j);
      Some(if wait(sels[j]).Raises? then Throws(wait(sels[j]).message) else Ok(true))
  }

  /** `detect_otp_requirement`: the selectors are waited for in order. The first wait
      that does not time out decides: an element means an OTP step, and an exception
      leaves the function. When every wait times out, the page source (None when
      reading it raises) is searched for an OTP phrase. */
  function DetectOtpRequirement(bankSelector: Option<string>, wait: string -> Wait, page: Option<string>): (r: Step<bool>)
    ensures AllTimeOut(OtpFieldSelectors(bankSelector), wait) ==> r == Ok(page.Some? && PageMentionsOtp(page.value))
    ensures forall j :: FirstSettled(OtpFieldSelectors(bankSelector), wait, j) ==>
              r == (if wait(OtpFieldSelectors(bankSelector)[j]).Raises?
                    then Throws(wait(OtpFieldSelectors(bankSelector)[j]).message) else Ok(true))
    ensures r.Throws? ==> exists j :: FirstSettled(OtpFieldSelectors(bankSelector), wait, j)
                                      && wait(OtpFieldSelectors(bankSelector)[j]) == Raises(r.message)
  {
    var sels := OtpFieldSelectors(bankSelector);
    var loop := SelectorLoop(sels, wait);
    if loop.Some? then loop.value else Ok(page.Some? && PageMentionsOtp(page.value))
  }

  /** When no wait raises, the detection never raises, and it reports an OTP step iff
      some selector locates an element or the readable page mentions an OTP phrase. */
  lemma DetectWithoutErrors(bankSelector: Option<string>, wait: string -> Wait, page: Option<string>)
    requires forall j :: 0 <= j < |OtpFieldSelectors(bankSelector)| ==> !wait(OtpFieldSelectors(bankSelector)[j]).Raises?
    ensures DetectOtpRequirement(bankSelector, wait, page)
            == Ok((exists j :: 0 <= j < |OtpFieldSelectors(bankSelector)| && wait(OtpFieldSelectors(bankSelector)[j]).Located?)
                  || (page.Some? && PageMentionsOtp(page.value)))
  {
    var sels := OtpFieldSelectors(bankSelector);
    var r := DetectOtpRequirement(bankSelector, wait, page);
    if j :| 0 <= j < |sels| && wait(sels[j]).Located? {
      var k := FindFirst(sels, (sel: string) => !wait(sel).TimesOut?);
      assert k.Some?;
      assert wait(sels[k.value]).Located?;
      assert r == Ok(true);
    } else {
      assert forall j :: 0 <= j < |sels| ==> wait(sels[j]).TimesOut?;
    }
  }

  /** A bank OTP selector whose wait raises (a malformed CSS selector, say) makes the
      detection raise before any generic selector or the page text is tried. */
  lemma BadBankSelectorRaises(sel: string, wait: string -> Wait, page: Option<string>)
    requires wait(sel).Raises?
    ensures DetectOtpRequirement(Some(sel), wait, page) == Throws(wait(sel).message)
  {
    var sels := OtpFieldSelectors(Some(sel));
    assert sels[0] == sel;
  }

  /** The text check is insensitive to the case of the page. */
  lemma OtpTextIgnoresCase(page: string)
    ensures PageMentionsOtp(page) == PageMentionsOtp(Lower(page))
  {
    LowerIdempotent(page);
  }

  // ---------------------------------------------------------------------------
  // find_chrome_debugger_port

  const DebugFlag: string := "--remote-debugging-port="

  /** The ports probed over HTTP before falling back to the browser's command line. */
  const CommonPorts: seq<int> := [9222, 9223, 9224, 9225, 9226]

  /** The port parse of `find_chrome_debugger_port`: the integer between the first
      `--remote-debugging-port=` and the next space (or the end). A slice `int()`
      rejects gives None, as the surrounding `except` does. */
  function ParseDebuggerPort(cmdline: string): (port: Option<int>)
    ensures port.Some? ==> Contains(cmdline, DebugFlag)
  {
    var at := Find(cmdline, DebugFlag, 0);
    if at == -1 then None
    else
      var start := at + |DebugFlag|;
      var end := Find(cmdline, " ", start);
      var stop := if end == -1 then |cmdline| else end;
      ParseInt(cmdline[start..stop])
  }

  /** The first occurrence of `sub` stays first when text is appended. */
  lemma FindSurvivesAppend(prefix: string, sub: string, tail: string)
    requires forall i :: 0 <= i < |prefix| ==> !OccursAt(prefix + sub, sub, i)
    ensures Find(prefix + sub + tail, sub, 0) == |prefix|
  {
    var c := prefix + sub + tail;
    assert OccursAt(c, sub, |prefix|) by {
      assert c[|prefix|..|prefix| + |sub|] == sub;
    }
    forall i | 0 <= i < |prefix|
      ensures !OccursAt(c, sub, i)
    {
      assert !OccursAt(prefix + sub, sub, i);
      if i + |sub| <= |c| {
        assert c[i..i + |sub|] == (prefix + sub)[i..i + |sub|];
      }
    }
  }

  /** After a run without spaces (a run of digits, say) the next space, if any, is the
      first character of `rest`. */
  lemma SpaceEndsDigits(p: string, digits: string, rest: string)
    requires forall i :: 0 <= i < |digits| ==> digits[i] != ' '
    requires rest == [] || rest[0] == ' '
    ensures var c := p + digits + rest;
            var end := Find(c, " ", |p|);
            (if end == -1 then |c| else end) == |p| + |digits|
  {
    var c := p + digits + rest;
    var start := |p|;
    forall i | start <= i < start + |digits|
      ensures !OccursAt(c, " ", i)
    {
      assert c[i] == digits[i - start];
      assert c[i..i + 1] == [c[i]];
    }
    if rest == [] {
      assert Find(c, " ", start) == -1;
    } else {
      assert OccursAt(c, " ", start + |digits|) by {
        assert c[start + |digits|..start + |digits| + 1] == [' '];
      }
    }
  }

  /** Whatever stands between the first flag and the next space (or the end) is read
      with `int()`: the port is its value when it is a well-formed integer, and there
      is no port when it is not ("abc", "", "8o"). With the acceptance condition of
      `ParseInt`, this fixes both the value and the no-port case. */
  lemma ParsePortIsParseInt(pre: string, t: string, rest: string)
    requires forall i :: 0 <= i < |pre| ==> !OccursAt(pre + DebugFlag, DebugFlag, i)
    requires forall i :: 0 <= i < |t| ==> t[i] != ' '
    requires rest == [] || rest[0] == ' '
    ensures ParseDebuggerPort(pre + DebugFlag + t + rest) == ParseInt(t)
  {
    var head := pre + DebugFlag;
    var c := head + t + rest;
    assert c == pre + DebugFlag + (t + rest);
    FindSurvivesAppend(pre, DebugFlag, t + rest);
    assert Find(c, DebugFlag, 0) == |pre|;
    var start := |pre| + |DebugFlag|;
    assert start == |head|;
    SpaceEndsDigits(head, t, rest);
    var end := Find(c, " ", start);
    var stop := if end == -1 then |c| else end;
    assert stop == start + |t|;
    assert c[start..stop] == t;
  }

  /** A command line carrying the flag with a port, followed by nothing or by a space,
      gives that port back. */
  lemma ParsePortRoundTrip(pre: string, n: nat, rest: string)
    requires forall i :: 0 <= i < |pre| ==> !OccursAt(pre + DebugFlag, DebugFlag, i)
    requires rest == [] || rest[0] == ' '
    ensures ParseDebuggerPort(pre + DebugFlag + NatToString(n) + rest) == Some(n)
  {
    var digits := NatToString(n);
    assert forall i :: 0 <= i < |digits| ==> digits[i] != ' ' by {
      forall i | 0 <= i < |digits| ensures digits[i] != ' ' {
        assert IsDigit(digits[i]);
      }
    }
    ParsePortIsParseInt(pre, digits, rest);
    ParseIntOfNat(n);
  }

  /** A signed port after the flag is still a port. */
  lemma SignedPortAccepted()
    ensures ParseDebuggerPort(DebugFlag + "+80") == Some(80)
  {
    var t := "+80";
    assert DebugFlag + t == [] + DebugFlag + t + [];
    ParsePortIsParseInt([], t, []);
    var d := t[1..];
    assert t[0] == '+' && d == "80" && AllDigits(d);
    assert d[..1] == "8" && DigitsValue("8") == 8 by {
      assert "8"[..0] == [];
    }
    assert DigitsValue(d) == 80;
  }

  /** A slice `int()` rejects is no port. */
  lemma NonIntegerPortRejected()
    ensures ParseDebuggerPort(DebugFlag + "abc") == None
  {
    var t := "abc";
    assert DebugFlag + t == [] + DebugFlag + t + [];
    ParsePortIsParseInt([], t, []);
    assert !IsDigit(t[0]) && t[0] != '+' && t[0] != '-';
  }

  /** `find_chrome_debugger_port` as written: the first common port, in order, whose
      probe answers (`answers`; a probe that raises does not answer). The command-line
      fallback calls `psutil`, which the module never imports; the NameError is caught,
      so `cmdline` is never looked at. */
  function FindDebuggerPort(answers: int -> bool, cmdline: Option<string>): (port: Option<int>)
    ensures port.Some? ==> port.value in CommonPorts && answers(port.value)
    ensures port.Some? ==> exists j :: 0 <= j < |CommonPorts| && CommonPorts[j] == port.value
                                        && forall k :: 0 <= k < j ==> !answers(CommonPorts[k])
    ensures port.None? <==> forall j :: 0 <= j < |CommonPorts| ==> !answers(CommonPorts[j])
  {
    match FindFirst(CommonPorts, answers)
    case Some(j) => Some(CommonPorts[j])
    case None => None
  }

  /** The evident intent: when no common port answers, read the port from the
      browser's command line (None when the process cannot be inspected). */
  function FindDebuggerPortIntended(answers: int -> bool, cmdline: Option<string>): (port: Option<int>)
    ensures (exists j :: 0 <= j < |CommonPorts| && answers(CommonPorts[j])) ==> port == FindDebuggerPort(answers, cmdline)
    ensures (forall j :: 0 <= j < |CommonPorts| ==> !answers(CommonPorts[j])) ==>
              port == (if cmdline.Some? then ParseDebuggerPort(cmdline.value) else None)
  {
    match FindFirst(CommonPorts, answers)
    case Some(j) => Some(CommonPorts[j])
    case None => if cmdline.Some? then ParseDebuggerPort(cmdline.value) else None
  }

  /** A browser started with `--remote-debugging-port=<n>` while none of the common
      ports answers: the port is in its command line, the code as written still
      reports none, and the intended fallback finds it. */
  lemma CmdlinePortIgnored(answers: int -> bool, n: nat)
    requires forall j :: 0 <= j < |CommonPorts| ==> !answers(CommonPorts[j])
    ensures var cmd := DebugFlag + NatToString(n);
            && ParseDebuggerPort(cmd) == Some(n)
            && FindDebuggerPort(answers, Some(cmd)).None?
            && FindDebuggerPortIntended(answers, Some(cmd)) == Some(n)
  {
    FlagThenPort(n);
  }

  /** The flag followed by a port and nothing else. */
  lemma FlagThenPort(n: nat)
    ensures ParseDebuggerPort(DebugFlag + NatToString(n)) == Some(n)
  {
    ParsePortRoundTrip([], n, []);
    var cmd := DebugFlag + NatToString(n);
    assert [] + DebugFlag + NatToString(n) + [] == cmd by {
      assert [] + DebugFlag == DebugFlag;
      assert cmd + [] == cmd;
    }
  }

  // ---------------------------------------------------------------------------
  // perform_transfer (the second definition, which Python binds)

  /** The browser handles reported at an OTP checkpoint. */
  datatype Handles = Handles(browserPid: Value, driverSessionId: Value, currentUrl: Value)

  /** What the browser steps of one run do, and the identifiers and clock it draws.
      `confirm` is Ok(true) when confirmation landed on an OTP page. */
  datatype WorkerEnv = WorkerEnv(
    setup: Step<()>, toLogin: Step<()>, login: Step<()>, toTransfers: Step<()>, fill: Step<()>,
    confirm: Step<bool>, submitOtp: Step<()>, verify: Step<SuccessElement>, handles: Step<Handles>,
    sessionId: string, transactionId: string, now: string)

  /** Which `return` of `perform_transfer` produced the dict it hands back. */
  datatype Reply = Transferred(doc: Dict) | AwaitingOtp(doc: Dict) | Failed(doc: Dict)

  /** The dict returned and the in-process `active_sessions` ids afterwards. */
  datatype WorkerRun = WorkerRun(reply: Reply, active: set<string>)

  /** Every key lookup and browser step up to and including confirmation succeeds. */
  predicate ReachesConfirmation(td: Value, bank: Value, env: WorkerEnv) {
    && PyIndex(bank, "name").Ok? && env.setup.Ok? && PyIndex(bank, "loginUrl").Ok? && env.toLogin.Ok?
    && PyIndex(td, "username").Ok? && PyIndex(td, "password").Ok? && env.login.Ok?
    && env.toTransfers.Ok? && env.fill.Ok? && env.confirm.Ok?
  }

  /** `'otpCode' in transfer_data and transfer_data['otpCode']`. */
  predicate HasOtpCode(td: Value) {
    td.Obj? && PyTruthyOpt(Lookup(td.fields, "otpCode"))
  }

  /** The run stops at the OTP page to wait for a code. */
  predicate StopsForOtp(td: Value, bank: Value, env: WorkerEnv) {
    ReachesConfirmation(td, bank, env) && env.confirm.value && !HasOtpCode(td)
  }

  /** The success element was found and classified as a success. */
  predicate Verified(env: WorkerEnv) {
    env.verify.Ok? && VerifyTransferSuccess(env.verify.value).status
  }

  /** The `details` object of a completed transfer. */
  function Details(amount: Value, iban: Value, fee: real): Dict {
    map["amount" := amount, "receiverIban" := iban, "fee" := Num(fee)]
  }

  /** The success dict, built from `transfer_data`; reading `amount` or `receiverIban`
      or computing the fee may raise. */
  function SuccessDoc(td: Value, txn: string, now: string): (r: Step<Dict>)
    ensures r.Ok? <==> PyIndex(td, "amount").Ok? && PyIndex(td, "receiverIban").Ok? && PyFee(td.fields["amount"]).Ok?
    ensures r.Ok? ==> "details" in r.value
                      && r.value["details"] == Obj(Details(td.fields["amount"], td.fields["receiverIban"], PyFee(td.fields["amount"]).value))
  {
    match PyIndex(td, "amount")
    case Throws(m) => Throws(m)
    case Ok(amount) =>
      match PyIndex(td, "receiverIban")
      case Throws(m) => Throws(m)
      case Ok(iban) =>
        match PyFee(amount)
        case Throws(m) => Throws(m)
        case Ok(fee) =>
          Ok(map["success" := Bool(true), "transactionId" := Str(txn), "message" := Str(SuccessMessage),
                 "timestamp" := Str(now), "details" := Obj(Details(amount, iban, fee))])
  }

  /** The dict printed at an OTP checkpoint: it asks for an OTP under the session id
      and passes the browser handles on, but carries no `transactionId`, no
      `debuggerPort` and no `otpDetected`, so the service stores none of them. */
  function CheckpointDoc(sid: string, h: Handles, now: string): (d: Dict)
    ensures "requiresOtp" in d && d["requiresOtp"] == Bool(true) && "sessionId" in d && d["sessionId"] == Str(sid)
    ensures "browserPid" in d && d["browserPid"] == h.browserPid
    ensures "transactionId" !in d && "debuggerPort" !in d && "otpDetected" !in d
  {
    var d := map["success" := Bool(false), "driverSessionId" := h.driverSessionId, "currentUrl" := h.currentUrl,
        "otpMessage" := Str("Código de verificação necessário. Verifique o seu telemóvel."),
        "message" := Str("Verificação OTP necessária"), "timestamp" := Str(now),
        "browserPid" := h.browserPid, "sessionId" := Str(sid), "requiresOtp" := Bool(true)];
    assert forall k :: k in d ==> |k| != 13 && |k| != 12;
    assert "otpDetected" != "requiresOtp";
    assert forall k :: k in d && k != "requiresOtp" ==> |k| != 11;
    d
  }

  /** The `except` branch: `del active_sessions[self.session_id]` when the id is set
      (a non-empty string) and registered. */
  function Forget(active: set<string>, sid: string): (a: set<string>)
    ensures sid != "" ==> sid !in a
    ensures a - {sid} == active - {sid}
  {
    if sid != "" && sid in active then active - {sid} else active
  }

  /** `perform_transfer`. Without an OTP code it stops at the OTP page, registers the
      session in `active_sessions` and reports the checkpoint; with one it submits the
      code and verifies. Any exception gives the one fixed failure dict and forgets a
      session registered by this run. */
  function PerformTransfer(td: Value, bank: Value, env: WorkerEnv, active: set<string>): (r: WorkerRun)
    ensures r.reply.AwaitingOtp? <==> StopsForOtp(td, bank, env) && env.handles.Ok?
    ensures r.reply.AwaitingOtp? ==>
              r.reply.doc == CheckpointDoc(env.sessionId, env.handles.value, env.now) && r.active == active + {env.sessionId}
    ensures r.reply.Transferred? <==>
              && ReachesConfirmation(td, bank, env)
              && (env.confirm.value ==> HasOtpCode(td) && env.submitOtp.Ok?)
              && Verified(env) && SuccessDoc(td, env.transactionId, env.now).Ok?
    ensures r.reply.Transferred? ==> r.reply.doc == SuccessDoc(td, env.transactionId, env.now).value && r.active == active
    ensures r.reply.Failed? ==> r.reply.doc == FailureDoc(TransferFailedMessage, env.now)
    ensures r.reply.Failed? ==>
              r.active == if StopsForOtp(td, bank, env) then Forget(active + {env.sessionId}, env.sessionId) else active
  {
    var failed := Failed(FailureDoc(TransferFailedMessage, env.now));
    if !ReachesConfirmation(td, bank, env) then WorkerRun(failed, active)
    else if env.confirm.value then
      if HasOtpCode(td) then
        if env.submitOtp.Throws? || !Verified(env) then WorkerRun(failed, active)
        else match SuccessDoc(td, env.transactionId, env.now)
          case Ok(doc) => WorkerRun(Transferred(doc), active)
          case Throws(_) => WorkerRun(failed, active)
      else
        var registered := active + {env.sessionId};
        match env.handles
        case Ok(h) => WorkerRun(AwaitingOtp(CheckpointDoc(env.sessionId, h, env.now)), registered)
        case Throws(_) => WorkerRun(failed, Forget(registered, env.sessionId))
    else if !Verified(env) then WorkerRun(failed, active)
    else match SuccessDoc(td, env.transactionId, env.now)
      case Ok(doc) => WorkerRun(Transferred(doc), active)
      case Throws(_) => WorkerRun(failed, active)
  }

  /** A run touches no session but its own, and a run that does not end at the
      checkpoint leaves no new session registered. */
  lemma RunTouchesOnlyItsSession(td: Value, bank: Value, env: WorkerEnv, active: set<string>)
    requires env.sessionId != "" && env.sessionId !in active
    ensures var r := PerformTransfer(td, bank, env, active);
            && r.active - {env.sessionId} == active - {env.sessionId}
            && (env.sessionId in r.active <==> r.reply.AwaitingOtp?)
  {
  }

  // ---------------------------------------------------------------------------
  // continue_with_existing_session

  /** The oracles of an OTP continuation: the process table, whether reattaching to
      the browser worked, the fallback re-login, the OTP submission and the success
      element, whether session writes succeed, the ids whose file the system refuses
      to delete, and the identifiers and clock. */
  datatype OtpEnv = OtpEnv(
    pidExists: int -> bool, reconnected: bool, relogin: Step<()>, submitOtp: Step<()>,
    verify: Step<SuccessElement>, writeOk: bool, locked: set<string>, transactionId: string, now: string)

  /** The value returned (or the exception raised), the statuses written in order, and
      the session directory afterwards. */
  datatype Continuation = Continuation(result: Step<Dict>, trail: seq<string>, store: Store)

  /** The success element was found after the code was submitted and reads as success. */
  predicate OtpVerified(env: OtpEnv) {
    env.verify.Ok? && VerifyTransferSuccess(env.verify.value).status
  }

  /** `session_manager.update_session(id, {'status': status})`. */
  function SetStatus(s: Store, id: string, status: string, env: OtpEnv): (r: Store)
    ensures id in r <==> PyKeeps(s, id, env.locked)
    ensures id in r ==> (r[id].Valid? <==> s[id].Valid?)
    ensures id in r && !s[id].Valid? ==> r[id] == s[id]
    ensures forall k :: k != id ==> (k in r <==> k in s)
    ensures forall k :: k != id && k in s ==> r[k] == s[k]
  {
    Py.UpdateSession(s, id, map["status" := Str(status)], env.now, env.writeOk, env.locked).store
  }

  /** `session_data['transfer_data']`. */
  function TransferDataOf(data: Dict): (r: Step<Value>)
    ensures r.Ok? <==> "transfer_data" in data
  {
    if "transfer_data" in data then Ok(data["transfer_data"]) else Throws("'transfer_data'")
  }

  /** The success dict of a continuation, or the exception building it raises: it is
      built exactly when the record has `transfer_data` with an amount the fee rule
      accepts and a receiver IBAN, and it carries the run's transaction id. */
  function ContinuationDoc(data: Dict, env: OtpEnv): (r: Step<Dict>)
    ensures r.Ok? <==>
              && "transfer_data" in data && PyIndex(data["transfer_data"], "amount").Ok?
              && PyIndex(data["transfer_data"], "receiverIban").Ok? && PyFee(data["transfer_data"].fields["amount"]).Ok?
    ensures r.Ok? ==> "success" in r.value && r.value["success"] == Bool(true)
                      && "transactionId" in r.value && r.value["transactionId"] == Str(env.transactionId)
    ensures "transfer_data" !in data ==> r == Throws("'transfer_data'")
  {
    match TransferDataOf(data)
    case Throws(m) => Throws(m)
    case Ok(td) => SuccessDoc(td, env.transactionId, env.now)
  }

  /** `continue_with_existing_session`. A missing or empty record is reported without
      any write; a record without `bank_config` raises; a dead browser marks the
      session 'failed'; otherwise the status goes to 'processing_otp' and then to
      'completed' or 'failed'. The record itself is never deleted. */
  function ContinueWithExistingSession(s: Store, id: string, code: string, env: OtpEnv): (c: Continuation)
    ensures id in c.store <==> PyKeeps(s, id, env.locked)
    ensures id in c.store ==> (c.store[id].Valid? <==> s[id].Valid?)
    ensures id in c.store && !s[id].Valid? ==> c.store[id] == s[id]
    ensures forall k :: k != id ==> (k in c.store <==> k in s)
    ensures forall k :: k != id && k in s ==> c.store[k] == s[k]
    ensures c.trail == [] <==> !(id in s && s[id].Valid? && PyTruthy(Obj(s[id].doc)) && "bank_config" in s[id].doc)
    ensures c.trail == [] && c.result.Ok? ==> c.result.value == FailureDoc("Session not found", env.now)
    ensures c.trail != [] ==> c.trail[0] == "failed" || c.trail[0] == "processing_otp"
    ensures c.trail == ["processing_otp", "completed"] <==>
              c.trail != [] && c.trail[0] == "processing_otp" && env.submitOtp.Ok? && OtpVerified(env)
              && ContinuationDoc(s[id].doc, env).Ok?
    ensures c.trail == ["processing_otp", "completed"] ==> c.result == ContinuationDoc(s[id].doc, env)
    ensures c.trail != [] && c.trail != ["processing_otp", "completed"] ==> c.trail[|c.trail| - 1] == "failed"
    ensures c.result.Throws? ==> c.trail == [] && c.store == Py.GetSession(s, id, env.locked).store
  {
    var g := Py.GetSession(s, id, env.locked);
    if g.found.None? || !PyTruthy(Obj(g.found.value)) then
      Continuation(Ok(FailureDoc("Session not found", env.now)), [], g.store)
    else
      var data := g.found.value;
      if "bank_config" !in data then Continuation(Throws("'bank_config'"), [], g.store)
      else ContinueLiveSession(g.store, id, data, env)
  }

  /** The statuses the continuation writes once the record was read, in order: the
      browser check and the re-login fail at once; otherwise 'processing_otp' comes
      first, then 'completed' when the transfer was verified, and 'failed' after any
      error, including one building the success dict. */
  function LiveTrail(data: Dict, env: OtpEnv): (t: seq<string>)
    ensures t != [] && (t[0] == "failed" || t[0] == "processing_otp")
    ensures t == ["processing_otp", "completed"] <==>
              t[0] == "processing_otp" && env.submitOtp.Ok? && OtpVerified(env) && ContinuationDoc(data, env).Ok?
    ensures t != ["processing_otp", "completed"] ==> t[|t| - 1] == "failed"
  {
    if !Py.IsBrowserAlive(Lookup(data, "browser_pid"), env.pidExists) then ["failed"]
    else if !env.reconnected && env.relogin.Throws? then ["failed"]
    else if env.submitOtp.Throws? || !OtpVerified(env) then ["processing_otp", "failed"]
    else if ContinuationDoc(data, env).Throws? then ["processing_otp", "completed", "failed"]
    else ["processing_otp", "completed"]
  }

  /** The browser is attached again: either reattaching worked or the fallback
      re-login returned. */
  predicate Reattached(env: OtpEnv) {
    env.reconnected || env.relogin.Ok?
  }

  /** The dict the continuation returns once the record was read: the success dict
      when the trail completed, and otherwise a failure dict whose message names what
      went wrong. An exception from the re-login, the OTP submission, the success
      check or the success dict is reported behind the 'Erro na verificação OTP: '
      prefix; a negative verdict carries its own message, or a fixed one when that
      is empty. */
  function LiveResult(data: Dict, env: OtpEnv): (d: Dict)
    ensures LiveTrail(data, env) == ["processing_otp", "completed"] ==> ContinuationDoc(data, env) == Ok(d)
    ensures LiveTrail(data, env) != ["processing_otp", "completed"] ==> "success" in d && d["success"] == Bool(false)
    ensures !Py.IsBrowserAlive(Lookup(data, "browser_pid"), env.pidExists) ==> d == FailureDoc("Browser session expired", env.now)
    ensures Py.IsBrowserAlive(Lookup(data, "browser_pid"), env.pidExists) && !Reattached(env) ==>
              d == FailureDoc(OtpFailurePrefix + env.relogin.message, env.now)
    ensures Py.IsBrowserAlive(Lookup(data, "browser_pid"), env.pidExists) && Reattached(env) && env.submitOtp.Throws? ==>
              d == FailureDoc(OtpFailurePrefix + env.submitOtp.message, env.now)
    ensures Py.IsBrowserAlive(Lookup(data, "browser_pid"), env.pidExists) && Reattached(env) && env.submitOtp.Ok?
            && env.verify.Throws? ==>
              d == FailureDoc(OtpFailurePrefix + env.verify.message, env.now)
    ensures Py.IsBrowserAlive(Lookup(data, "browser_pid"), env.pidExists) && Reattached(env) && env.submitOtp.Ok?
            && env.verify.Ok? && !OtpVerified(env) ==>
              var m := VerifyTransferSuccess(env.verify.value).message;
              d == FailureDoc(if m != "" then m else "Transfer verification failed after OTP", env.now)
    ensures Py.IsBrowserAlive(Lookup(data, "browser_pid"), env.pidExists) && Reattached(env) && env.submitOtp.Ok?
            && OtpVerified(env) && ContinuationDoc(data, env).Throws? ==>
              d == FailureDoc(OtpFailurePrefix + ContinuationDoc(data, env).message, env.now)
  {
    if !Py.IsBrowserAlive(Lookup(data, "browser_pid"), env.pidExists) then FailureDoc("Browser session expired", env.now)
    else if !Reattached(env) then FailureDoc(OtpFailurePrefix + env.relogin.message, env.now)
    else if env.submitOtp.Throws? then FailureDoc(OtpFailurePrefix + env.submitOtp.message, env.now)
    else if env.verify.Throws? then FailureDoc(OtpFailurePrefix + env.verify.message, env.now)
    else
      var v := VerifyTransferSuccess(env.verify.value);
      if !v.status then
        FailureDoc(if v.message != "" then v.message else "Transfer verification failed after OTP", env.now)
      else
        match ContinuationDoc(data, env)
        case Ok(doc) => doc
        case Throws(m) => FailureDoc(OtpFailurePrefix + m, env.now)
  }

  /** The session directory after `update_session` wrote each status of `trail` in
      turn. Only the session's own file changes, and a readable record stays
      readable. */
  function ApplyStatuses(s: Store, id: string, trail: seq<string>, env: OtpEnv): (r: Store)
    ensures trail != [] ==> (id in r <==> PyKeeps(s, id, env.locked))
    ensures trail == [] ==> r == s
    ensures id in r ==> id in s && (r[id].Valid? <==> s[id].Valid?)
    ensures id in r && !s[id].Valid? ==> r[id] == s[id]
    ensures forall k :: k != id ==> (k in r <==> k in s)
    ensures forall k :: k != id && k in s ==> r[k] == s[k]
    decreases |trail|
  {
    if trail == [] then s else ApplyStatuses(SetStatus(s, id, trail[0], env), id, trail[1..], env)
  }

  /** When every write succeeds, each status lands in turn and the last one stays. */
  lemma {:induction false} StatusesLand(s: Store, id: string, trail: seq<string>, env: OtpEnv)
    requires env.writeOk && trail != []
    requires id in s && s[id].Valid? && "bank_config" in s[id].doc && "transfer_data" in s[id].doc
    ensures var r := ApplyStatuses(s, id, trail, env);
            && id in r && r[id].Valid? && "bank_config" in r[id].doc && "transfer_data" in r[id].doc
            && "status" in r[id].doc && r[id].doc["status"] == Str(trail[|trail| - 1])
    decreases |trail|
  {
    Py.StatusUpdateLands(s, id, trail[0], env.now, env.locked);
    if |trail| > 1 {
      StatusesLand(SetStatus(s, id, trail[0], env), id, trail[1..], env);
    }
  }

  /** The part of `continue_with_existing_session` after the record was read: the
      browser check, the status writes and the verification. Every path writes at
      least one status and none raises. */
  function ContinueLiveSession(s: Store, id: string, data: Dict, env: OtpEnv): (c: Continuation)
    ensures c.result.Ok? && c.trail == LiveTrail(data, env)
    ensures id in c.store <==> PyKeeps(s, id, env.locked)
    ensures id in c.store ==> (c.store[id].Valid? <==> s[id].Valid?)
    ensures id in c.store && !s[id].Valid? ==> c.store[id] == s[id]
    ensures forall k :: k != id ==> (k in c.store <==> k in s)
    ensures forall k :: k != id && k in s ==> c.store[k] == s[k]
  {
    var trail := LiveTrail(data, env);
    Continuation(Ok(LiveResult(data, env)), trail, ApplyStatuses(s, id, trail, env))
  }

  /** When every session write succeeds, the status left in the session file is the
      last one the continuation wrote: 'completed' on success, 'failed' otherwise. */
  lemma ContinuationStatusLands(s: Store, id: string, code: string, env: OtpEnv)
    requires env.writeOk
    requires id in s && s[id].Valid? && "bank_config" in s[id].doc && "transfer_data" in s[id].doc
    ensures var c := ContinueWithExistingSession(s, id, code, env);
            && c.trail != []
            && id in c.store && c.store[id].Valid? && "status" in c.store[id].doc
            && c.store[id].doc["status"] == Str(c.trail[|c.trail| - 1])
  {
    var data := s[id].doc;
    assert PyTruthy(Obj(data)) by {
      assert "bank_config" in data.Keys;
    }
    assert Py.GetSession(s, id, env.locked).store == s;
    StatusesLand(s, id, LiveTrail(data, env), env);
  }

  // ---------------------------------------------------------------------------
  // submit_otp_to_session

  /** The file name `continue_with_existing_session` is handed: the record's own
      `session_id` formatted by Python (`None` when it is missing or null). */
  function RecordId(v: Option<Value>): (id: string)
    ensures v.Some? && v.value.Str? ==> id == v.value.s
    ensures v.None? || v.value.Null? ==> id == "None"
  {
    if v.None? then "None"
    else match v.value
      case Str(t) => t
      case Bool(b) => if b then "True" else "False"
      case _ => "None"
  }

  /** The value `submit_otp_to_session` returns (None when it falls off its end) or the
      exception it lets escape, and the session directory afterwards. */
  datatype OtpAttempt = OtpAttempt(result: Step<Option<Dict>>, store: Store)

  /** Lifts a continuation's outcome into the attempt's result. */
  function Returned(r: Step<Dict>): (o: Step<Option<Dict>>)
    ensures o.Ok? <==> r.Ok?
    ensures o.Ok? ==> o.value == Some(r.value)
    ensures o.Throws? ==> o.message == r.message
  {
    match r
    case Ok(d) => Ok(Some(d))
    case Throws(m) => Throws(m)
  }

  /** The record `submit_otp_to_session` works on, and whether it is usable: present
      after the directory sweep and a non-empty object. */
  predicate Usable(s: Store, id: string) {
    id in s && s[id].Valid? && PyTruthy(Obj(s[id].doc))
  }

  /** `submit_otp_to_session` as written. It sweeps the directory, reads the record and
      returns 'Session not found' for a missing or empty one. With a live browser the
      attach branch always ends in its `except` (it logs an unbound name), which builds
      a new driver (`setup`) and continues under the record's own `session_id`. With a
      dead browser there is no branch at all and the function returns None. */
  function SubmitOtpToSession(s: Store, id: string, code: string, setup: Step<()>, env: OtpEnv): (a: OtpAttempt)
    ensures !Usable(s, id) ==> a == OtpAttempt(Ok(Some(FailureDoc("Session not found", env.now))), Swept(s, env.locked))
    ensures a.result == Ok(None) <==>
              Usable(s, id) && !Py.IsBrowserAlive(Lookup(s[id].doc, "browser_pid"), env.pidExists)
    ensures a.result == Ok(None) ==> a.store == Swept(s, env.locked)
    ensures Usable(s, id) && Py.IsBrowserAlive(Lookup(s[id].doc, "browser_pid"), env.pidExists) && setup.Ok? ==>
              var c := ContinueWithExistingSession(Swept(s, env.locked), RecordId(Lookup(s[id].doc, "session_id")), code, env);
              a == OtpAttempt(Returned(c.result), c.store)
    ensures forall k :: k in a.store <==> PyKeeps(s, k, env.locked)
    ensures forall k :: k in a.store ==> k in s && (a.store[k].Valid? <==> s[k].Valid?)
  {
    var s0 := Swept(s, env.locked);
    var g := Py.GetSession(s0, id, env.locked);
    if g.found.None? || !PyTruthy(Obj(g.found.value)) then
      OtpAttempt(Ok(Some(FailureDoc("Session not found", env.now))), g.store)
    else
      var data := g.found.value;
      if !Py.IsBrowserAlive(Lookup(data, "browser_pid"), env.pidExists) then OtpAttempt(Ok(None), g.store)
      else if setup.Throws? then OtpAttempt(Throws(setup.message), g.store)
      else
        var c := ContinueWithExistingSession(g.store, RecordId(Lookup(data, "session_id")), code, env);
        OtpAttempt(Returned(c.result), c.store)
  }

  /** `submit_otp_to_session` with the dead-browser case handled: the continuation runs
      whatever the browser state, so a dead browser is reported as 'Browser session
      expired' and the session is marked failed, instead of returning None. */
  function SubmitOtpToSessionIntended(s: Store, id: string, code: string, setup: Step<()>, env: OtpEnv): (a: OtpAttempt)
    ensures a.result != Ok(None)
    ensures Usable(s, id) && Py.IsBrowserAlive(Lookup(s[id].doc, "browser_pid"), env.pidExists) ==>
              a == SubmitOtpToSession(s, id, code, setup, env)
    ensures !Usable(s, id) ==> a == SubmitOtpToSession(s, id, code, setup, env)
    ensures forall k :: k in a.store <==> PyKeeps(s, k, env.locked)
  {
    var s0 := Swept(s, env.locked);
    var g := Py.GetSession(s0, id, env.locked);
    if g.found.None? || !PyTruthy(Obj(g.found.value)) then
      OtpAttempt(Ok(Some(FailureDoc("Session not found", env.now))), g.store)
    else if setup.Throws? then OtpAttempt(Throws(setup.message), g.store)
    else
      var c := ContinueWithExistingSession(g.store, RecordId(Lookup(g.found.value, "session_id")), code, env);
      OtpAttempt(Returned(c.result), c.store)
  }

  /** For a record the store wrote itself (its `session_id` names its own file) and a
      dead browser, the corrected function reports the expiry and marks the session
      failed, where the function as written returns None and writes nothing. */
  lemma IntendedReportsExpiry(s: Store, id: string, code: string, setup: Step<()>, env: OtpEnv)
    requires Usable(s, id) && "bank_config" in s[id].doc
    requires Lookup(s[id].doc, "session_id") == Some(Str(id))
    requires !Py.IsBrowserAlive(Lookup(s[id].doc, "browser_pid"), env.pidExists)
    requires setup.Ok?
    ensures SubmitOtpToSession(s, id, code, setup, env).result == Ok(None)
    ensures SubmitOtpToSessionIntended(s, id, code, setup, env).result
            == Ok(Some(FailureDoc("Browser session expired", env.now)))
  {
    assert Swept(s, env.locked)[id] == s[id];
  }

  // ---------------------------------------------------------------------------
  // main

  /** What the command line asks for. */
  datatype Mode = Usage | OtpMode(sessionId: string, code: string) | TransferMode(td: Value, bank: Value) | BadInput(message: string)

  /** The argument handling of `main`; `parse` is `json.loads`, None when it raises
      `JSONDecodeError`. The OTP form never parses its JSON argument. */
  function Dispatch(argv: seq<string>, parse: string -> Option<Value>): (m: Mode)
    ensures m.Usage? <==> |argv| < 2
    ensures m.OtpMode? <==> |argv| >= 4 && argv[2] == "submit_otp"
    ensures m.OtpMode? ==> m.sessionId == argv[3] && m.code == (if |argv| > 4 then argv[4] else "")
    ensures m == BadInput("Invalid JSON input data") <==> |argv| >= 2 && !m.OtpMode? && parse(argv[1]).None?
    ensures m.TransferMode? <==>
              && |argv| >= 2 && !(|argv| >= 4 && argv[2] == "submit_otp") && parse(argv[1]).Some?
              && PyIndex(parse(argv[1]).value, "transferData").Ok? && PyIndex(parse(argv[1]).value, "bankConfig").Ok?
    ensures m.TransferMode? ==>
              m.td == parse(argv[1]).value.fields["transferData"] && m.bank == parse(argv[1]).value.fields["bankConfig"]
  {
    if |argv| < 2 then Usage
    else if |argv| >= 4 && argv[2] == "submit_otp" then OtpMode(argv[3], if |argv| > 4 then argv[4] else "")
    else match parse(argv[1])
      case None => BadInput("Invalid JSON input data")
      case Some(input) =>
        match PyIndex(input, "transferData")
        case Throws(m) => BadInput("Automation error: " + m)
        case Ok(td) =>
          match PyIndex(input, "bankConfig")
          case Throws(m) => BadInput("Automation error: " + m)
          case Ok(bank) => TransferMode(td, bank)
  }

  /** What `main` writes to standard output. */
  datatype Printed = UsageText | JsonDoc(doc: Dict) | JsonNull

  /** The printed line, the exit status and the session directory afterwards. */
  datatype Exit = Exit(printed: Printed, code: int, store: Store)

  /** `main`. A transfer run starts with no registered sessions and leaves the session
      directory alone; an OTP run goes through `submit_otp_to_session`; an exception
      escaping it is printed as 'Automation error: ...' with exit status 1. */
  function Main(argv: seq<string>, parse: string -> Option<Value>, s: Store, worker: WorkerEnv,
                setup: Step<()>, otp: OtpEnv, now: string): (e: Exit)
    ensures e.printed.UsageText? <==> |argv| < 2
    ensures e.code == 0 || e.code == 1
    ensures Dispatch(argv, parse).TransferMode? ==>
              var m := Dispatch(argv, parse);
              e == Exit(JsonDoc(PerformTransfer(m.td, m.bank, worker, {}).reply.doc), 0, s)
    ensures Dispatch(argv, parse).OtpMode? ==>
              var m := Dispatch(argv, parse);
              var a := SubmitOtpToSession(s, m.sessionId, m.code, setup, otp);
              && e.store == a.store
              && (e.code == 0 <==> a.result.Ok?)
              && (a.result.Ok? ==> e.printed == if a.result.value.Some? then JsonDoc(a.result.value.value) else JsonNull)
              && (a.result.Throws? ==> e.printed == JsonDoc(FailureDoc("Automation error: " + a.result.message, now)))
    ensures e.printed.JsonNull? ==> e.code == 0 && Dispatch(argv, parse).OtpMode?
    ensures Dispatch(argv, parse).BadInput? ==> e == Exit(JsonDoc(FailureDoc(Dispatch(argv, parse).message, now)), 1, s)
  {
    match Dispatch(argv, parse)
    case Usage => Exit(UsageText, 1, s)
    case BadInput(m) => Exit(JsonDoc(FailureDoc(m, now)), 1, s)
    case TransferMode(td, bank) => Exit(JsonDoc(PerformTransfer(td, bank, worker, {}).reply.doc), 0, s)
    case OtpMode(id, code) =>
      var a := SubmitOtpToSession(s, id, code, setup, otp);
      match a.result
      case Ok(Some(d)) => Exit(JsonDoc(d), 0, a.store)
      case Ok(None) => Exit(JsonNull, 0, a.store)
      case Throws(m) => Exit(JsonDoc(FailureDoc("Automation error: " + m, now)), 1, a.store)
  }
}
