/** `BankAutomationService` of `backend/services/bankAutomation.js`: a single
    Selenium run whose browser steps are oracles, and the shape of its result. */
module BackendAutomation {
  import opened Base
  import opened Json
  import opened FeeRule
  import opened Amounts

  const SuccessMessage: string := "Transferência realizada com sucesso"
  const ErrorPrefix: string := "Erro na automação: "
  const VerificationFailed: string := "Transfer verification failed"

  /** The browser steps in order (starting the driver when there is none, opening the
      login page, logging in, opening transfers, filling the form, confirming), each
      returning or throwing, and whether the success element appeared. The success
      check catches its own errors, so it only answers yes or no. */
  datatype Steps = Steps(start: Step<()>, open: Step<()>, login: Step<()>, toTransfers: Step<()>,
                         fill: Step<()>, confirm: Step<()>, verified: bool)

  /** The first step that throws, in the order the run takes them. */
  function FirstError(s: Steps): (r: Option<string>)
    ensures r.None? <==> s.start.Ok? && s.open.Ok? && s.login.Ok? && s.toTransfers.Ok? && s.fill.Ok? && s.confirm.Ok?
  {
    if s.start.Throws? then Some(s.start.message)
    else if s.open.Throws? then Some(s.open.message)
    else if s.login.Throws? then Some(s.login.message)
    else if s.toTransfers.Throws? then Some(s.toTransfers.message)
    else if s.fill.Throws? then Some(s.fill.message)
    else if s.confirm.Throws? then Some(s.confirm.message)
    else None
  }

  /** `calculateFee` on a property that may be `undefined` (which multiplies to NaN
      and serialises as `null`). */
  function FeeOf(amount: Option<Value>): (fee: Value)
    ensures fee.Num? ==> MinFee <= fee.n <= MaxFee
    ensures amount.Some? && amount.value.Num? ==> fee == Num(Fee(amount.value.n))
  {
    if amount.Some? then JsFee(amount.value) else Null
  }

  /** `performTransfer(request, bank)`: every failure, a thrown step or a success
      element that never appears, becomes one failure object whose message carries
      the error's text. */
  function PerformTransfer(request: Value, steps: Steps, txn: string, iso: string): (d: Dict)
    ensures "success" in d && (d["success"] == Bool(true) <==> FirstError(steps).None? && steps.verified)
    ensures d["success"] == Bool(true) ==>
              && "transactionId" in d && d["transactionId"] == Str(txn)
              && "details" in d && d["details"].Obj?
              && var details := d["details"].fields;
                 && ("amount" in details <==> Prop(request, "amount").Some?)
                 && ("receiverIban" in details <==> Prop(request, "receiverIban").Some?)
                 && "fee" in details && details["fee"] == FeeOf(Prop(request, "amount"))
    ensures FirstError(steps).Some? ==> d == FailureDoc(ErrorPrefix + FirstError(steps).value, iso)
    ensures FirstError(steps).None? && !steps.verified ==> d == FailureDoc(ErrorPrefix + VerificationFailed, iso)
  {
    match FirstError(steps)
    case Some(m) => FailureDoc(ErrorPrefix + m, iso)
    case None =>
      if !steps.verified then FailureDoc(ErrorPrefix + VerificationFailed, iso)
      else
        var fee := map["fee" := FeeOf(Prop(request, "amount"))];
        var details := WithOpt(WithOpt(fee, "amount", Prop(request, "amount")), "receiverIban", Prop(request, "receiverIban"));
        map["success" := Bool(true), "transactionId" := Str(txn), "message" := Str(SuccessMessage),
            "timestamp" := Str(iso), "details" := Obj(details)]
  }
}

/** `BankAutomationService` of `src/services/bankAutomation.ts`: the browser-side
    simulation, typed by `TransferRequest` and `TransferResponse`. */
module FrontendAutomation {
  import opened Base
  import opened FeeRule
  import opened Types

  const SuccessMessage: string := "Transferência realizada com sucesso"
  const CredentialsMessage: string := "Erro ao processar a transferência. Verifique as suas credenciais."

  /** `performTransfer(request, bank)`: `simulated` is whether the simulated steps
      completed or threw. */
  function PerformTransfer(request: TransferRequest, simulated: Step<()>, txn: string, iso: string): (r: TransferResponse)
    ensures r.success <==> simulated.Ok?
    ensures r.success ==>
              && r.transactionId == Some(txn) && r.message == SuccessMessage
              && r.details == Some(Details(request.amount, request.receiverIban, Some(FrontendFee(request.amount)), None))
    ensures !r.success ==> r == TransferResponse(false, None, CredentialsMessage, iso, None, None, None, None)
  {
    match simulated
    case Ok(_) =>
      TransferResponse(true, Some(txn), SuccessMessage, iso, None, None, None,
                       Some(Details(request.amount, request.receiverIban, Some(FrontendFee(request.amount)), None)))
    case Throws(_) => TransferResponse(false, None, CredentialsMessage, iso, None, None, None, None)
  }
}

/** How the two simulated automations' success answers compare. */
module AutomationFees {
  import opened Base
  import opened Json
  import opened FeeRule
  import opened Types
  import BackendAutomation
  import FrontendAutomation

  /** On the same numeric amount, the Node.js automation and the browser-side
      simulation report the same fee up to 1000000 AOA, and the browser side reports
      more above it. */
  lemma ReportedFeesAgreeIffBelowCap(request: TransferRequest, steps: BackendAutomation.Steps, txn: string, iso: string)
    requires BackendAutomation.FirstError(steps).None? && steps.verified
    ensures var b := BackendAutomation.PerformTransfer(Obj(EncodeRequest(request)), steps, txn, iso);
            var f := FrontendAutomation.PerformTransfer(request, Ok(()), txn, iso);
            && b["details"].fields["fee"] == Num(Fee(request.amount))
            && f.details.value.fee == Some(FrontendFee(request.amount))
            && (Fee(request.amount) == FrontendFee(request.amount) <==> request.amount <= 1000000.0)
  {
    FrontendAgreesIffBelowCap(request.amount);
  }
}
