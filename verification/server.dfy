/** `POST /api/transfer` of `backend/server.js`: request validation, the bank lookup
    and the routing between the demo answers and the automation service. */
module Server {
  import opened Base
  import opened Json
  import opened Strings
  import opened FeeRule
  import opened Amounts
  import opened Types

  /** `DEMO_MODE === 'true'` and `REAL_TRANSACTIONS === 'true'`, read once at start-up. */
  datatype Flags = Flags(demoMode: bool, realMode: bool)

  /** The flags from the process environment: only the exact text `true` turns one on. */
  function FlagsOf(env: map<string, string>): (f: Flags)
    ensures f.demoMode <==> "DEMO_MODE" in env && env["DEMO_MODE"] == "true"
    ensures f.realMode <==> "REAL_TRANSACTIONS" in env && env["REAL_TRANSACTIONS"] == "true"
  {
    Flags("DEMO_MODE" in env && env["DEMO_MODE"] == "true",
          "REAL_TRANSACTIONS" in env && env["REAL_TRANSACTIONS"] == "true")
  }

  /** What the handler does with a request: answer it directly, or hand it to the
      automation service's `submitOtp` or `performTransfer`. */
  datatype Route =
    | Respond(status: int, body: Dict)
    | CallSubmitOtp(sessionId: Value, otpCode: Value)
    | CallPerformTransfer(transferData: Value, bankConfig: Value)

  const IncompleteMessage: string := "Dados de transferência incompletos"
  const UnsupportedBankMessage: string := "Banco não suportado"
  const NotConfiguredMessage: string := "Sistema não configurado. Configure DEMO_MODE ou REAL_TRANSACTIONS."
  const OtpRequiredMessage: string := "Verificação OTP necessária"
  const DemoSuccessMessage: string := "Transferência realizada com sucesso (DEMO)"

  /** The five properties the handler requires. */
  const RequiredFields: set<string> := {"bankId", "username", "password", "receiverIban", "amount"}

  /** The five properties that must all be truthy: a complete body holds each of
      them, and none is null, false, zero or the empty string. */
  predicate Complete(body: Dict)
    ensures Complete(body) ==>
              forall k :: k in RequiredFields ==>
                k in body && body[k] != Null && body[k] != Bool(false) && body[k] != Num(0.0) && body[k] != Str("")
  {
    && JsTruthyOpt(Lookup(body, "bankId")) && JsTruthyOpt(Lookup(body, "username"))
    && JsTruthyOpt(Lookup(body, "password")) && JsTruthyOpt(Lookup(body, "receiverIban"))
    && JsTruthyOpt(Lookup(body, "amount"))
  }

  /** `angolanBanks.find(b => b.id === bankId)`: strict equality, so only a string
      `bankId` can match. */
  function FindBank(banks: seq<Bank>, bankId: Value): (r: Option<Bank>)
    ensures r.Some? <==> exists i :: 0 <= i < |banks| && Str(banks[i].id) == bankId
    ensures r.Some? ==> exists i :: 0 <= i < |banks| && banks[i] == r.value && Str(banks[i].id) == bankId
                          && forall j :: 0 <= j < i ==> Str(banks[j].id) != bankId
  {
    match FindFirst(banks, (b: Bank) => Str(b.id) == bankId)
    case Some(i) => Some(banks[i])
    case None => None
  }

  /** The demo checkpoint answer: it asks for an OTP under the session id `DEMO_`
      followed by the clock, which reads back as that millisecond count. */
  function DemoCheckpoint(bank: Bank, nowMs: nat, iso: string): (d: Dict)
    ensures "requiresOtp" in d && d["requiresOtp"] == Bool(true)
    ensures "sessionId" in d && d["sessionId"].Str? && |d["sessionId"].s| > 5 && d["sessionId"].s[..5] == "DEMO_"
    ensures ParseInt(d["sessionId"].s[5..]) == Some(nowMs)
  {
    var id := "DEMO_" + NatToString(nowMs);
    assert id[5..] == NatToString(nowMs);
    ParseIntOfNat(nowMs);
    map["success" := Bool(false), "requiresOtp" := Bool(true), "sessionId" := Str(id),
        "otpMessage" := Str("Código de verificação enviado para o seu telemóvel registado no " + bank.name),
        "message" := Str(OtpRequiredMessage), "timestamp" := Str(iso)]
  }

  /** The `details` of a demo transfer; the fee is `calculateFee` on the raw amount. */
  function DemoDetails(body: Dict, bank: Bank): Dict
    requires "amount" in body && "receiverIban" in body
  {
    map["amount" := body["amount"], "receiverIban" := body["receiverIban"],
        "fee" := JsFee(body["amount"]), "bankName" := Str(bank.name)]
  }

  /** The demo success answer: its fee is the worker's rule on a numeric amount, and
      `null` exactly when JavaScript reads the amount as NaN. */
  function DemoSuccess(body: Dict, bank: Bank, txn: string, iso: string): (d: Dict)
    requires "amount" in body && "receiverIban" in body
    ensures "success" in d && d["success"] == Bool(true)
    ensures "details" in d && d["details"].Obj? && "fee" in d["details"].fields
    ensures body["amount"].Num? ==> d["details"].fields["fee"] == Num(Fee(body["amount"].n))
    ensures d["details"].fields["fee"].Null? <==> JsNumber(body["amount"]).None?
  {
    map["success" := Bool(true), "transactionId" := Str(txn), "message" := Str(DemoSuccessMessage),
        "timestamp" := Str(iso), "details" := Obj(DemoDetails(body, bank))]
  }

  /** The handler of `POST /api/transfer`. Validation comes first, then the bank
      lookup; the demo mode wins over the real one; in real mode only a request with
      both an OTP code and a session id goes to `submitOtp`. `nowMs`, `iso` and `txn`
      are the clock and the generated transaction id. */
  function HandleTransfer(body: Dict, banks: seq<Bank>, flags: Flags, nowMs: nat, iso: string, txn: string): (r: Route)
    ensures !Complete(body) ==> r == Respond(400, FailureDoc(IncompleteMessage, iso))
    ensures Complete(body) && FindBank(banks, body["bankId"]).None? ==> r == Respond(400, FailureDoc(UnsupportedBankMessage, iso))
    ensures r.CallSubmitOtp? || r.CallPerformTransfer? ==> Complete(body) && flags.realMode && !flags.demoMode
    ensures r.CallSubmitOtp? <==>
              Complete(body) && FindBank(banks, body["bankId"]).Some? && !flags.demoMode && flags.realMode
              && JsTruthyOpt(Lookup(body, "otpCode")) && JsTruthyOpt(Lookup(body, "sessionId"))
    ensures r.CallSubmitOtp? ==> r == CallSubmitOtp(body["sessionId"], body["otpCode"])
    ensures r.CallPerformTransfer? ==>
              r == CallPerformTransfer(Obj(body), BankJson(FindBank(banks, body["bankId"]).value))
    ensures Complete(body) && FindBank(banks, body["bankId"]).Some? && !flags.demoMode && !flags.realMode ==>
              r == Respond(400, FailureDoc(NotConfiguredMessage, iso))
    ensures Complete(body) && FindBank(banks, body["bankId"]).Some? && flags.demoMode ==>
              var bank := FindBank(banks, body["bankId"]).value;
              r == Respond(200, if JsTruthyOpt(Lookup(body, "otpCode")) then DemoSuccess(body, bank, txn, iso)
                                else DemoCheckpoint(bank, nowMs, iso))
  {
    if !Complete(body) then Respond(400, FailureDoc(IncompleteMessage, iso))
    else match FindBank(banks, body["bankId"])
      case None => Respond(400, FailureDoc(UnsupportedBankMessage, iso))
      case Some(bank) =>
        if flags.demoMode then
          if !JsTruthyOpt(Lookup(body, "otpCode")) then Respond(200, DemoCheckpoint(bank, nowMs, iso))
          else Respond(200, DemoSuccess(body, bank, txn, iso))
        else if flags.realMode then
          if JsTruthyOpt(Lookup(body, "otpCode")) && JsTruthyOpt(Lookup(body, "sessionId")) then
            CallSubmitOtp(body["sessionId"], body["otpCode"])
          else CallPerformTransfer(Obj(body), BankJson(bank))
        else Respond(400, FailureDoc(NotConfiguredMessage, iso))
  }

  /** An amount of zero is rejected as incomplete, whatever else the request holds. */
  lemma ZeroAmountRejected(body: Dict, banks: seq<Bank>, flags: Flags, nowMs: nat, iso: string, txn: string)
    requires "amount" in body && body["amount"] == Num(0.0)
    ensures HandleTransfer(body, banks, flags, nowMs, iso, txn) == Respond(400, FailureDoc(IncompleteMessage, iso))
  {
  }

  /** An OTP resubmission without the credentials never reaches the automation. */
  lemma OtpWithoutCredentialsRejected(body: Dict, banks: seq<Bank>, flags: Flags, nowMs: nat, iso: string, txn: string)
    requires !JsTruthyOpt(Lookup(body, "username")) || !JsTruthyOpt(Lookup(body, "password"))
    ensures HandleTransfer(body, banks, flags, nowMs, iso, txn) == Respond(400, FailureDoc(IncompleteMessage, iso))
  {
  }

  /** The demo fee on a numeric amount is the worker's `calculate_fee`. */
  lemma DemoFeeMatchesWorker(body: Dict, bank: Bank, n: real)
    requires "amount" in body && body["amount"] == Num(n) && "receiverIban" in body
    ensures DemoDetails(body, bank)["fee"] == Num(Fee(n))
    ensures PyFee(body["amount"]) == Ok(Fee(n))
  {
  }

  /** The demo session id starts with `DEMO_` and names the time it was issued: two
      checkpoints issued at different milliseconds get different ids. */
  lemma DemoSessionIdsDiffer(bank: Bank, a: nat, b: nat, iso: string)
    requires a != b
    ensures DemoCheckpoint(bank, a, iso)["sessionId"] != DemoCheckpoint(bank, b, iso)["sessionId"]
  {
    NatToStringInjective(a, b);
    assert ("DEMO_" + NatToString(a))[5..] == NatToString(a);
    assert ("DEMO_" + NatToString(b))[5..] == NatToString(b);
  }
}
