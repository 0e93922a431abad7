/** The client's screen state machine (`src/App.tsx`). Each handler is taken from
    its start to the state it leaves behind; the awaited API call is an input, and
    the request the handler posts is part of its result. */
module App {
  import opened Base
  import opened Json
  import opened Types

  /** `AppState`. */
  datatype Screen = BankSelection | Login | Processing | OtpRequired | ResultView

  /** The component's state. `result` and `pending` hold the JSON the handlers store;
      `sessionId` is None for `null`. */
  datatype State = State(
    screen: Screen, bank: Option<Bank>, loading: bool, result: Option<Value>, receiverIban: string,
    step: int, pending: Option<Dict>, sessionId: Option<Value>)

  const Initial: State := State(BankSelection, None, false, None, "", 1, None, None)

  /** The fixed demo amount and description of every request. */
  const TransferAmount: real := 1.0
  const Description: string := "Pagamento de produtos"
  const LoginErrorMessage: string := "Erro inesperado durante a transferência."
  const OtpErrorMessage: string := "Erro na verificação OTP. Tente novamente."

  /** How an awaited API call ends: with the response's JSON, or by throwing. */
  datatype ApiOutcome = Answer(doc: Value) | Raised

  /** A handler's end state and the request body it posted, if any. */
  datatype Transition = Transition(next: State, sent: Option<Dict>)

  /** The processing view shows the OTP wait exactly at step 4. */
  predicate WaitingForOtp(st: State) {
    st.step == 4
  }

  /** `handleBankSelect`. */
  function SelectBank(st: State, bank: Bank): (t: Transition)
    ensures t.next.screen == Login && t.next.bank == Some(bank) && t.sent.None?
    ensures t.next.(screen := st.screen, bank := st.bank) == st
  {
    Transition(st.(screen := Login, bank := Some(bank)), None)
  }

  /** `handleBack`: back to the bank list; nothing else is cleared. */
  function Back(st: State): (t: Transition)
    ensures t.next.screen == BankSelection && t.next.bank.None? && t.sent.None?
    ensures t.next.(screen := st.screen, bank := st.bank) == st
  {
    Transition(st.(screen := BankSelection, bank := None), None)
  }

  /** The body `handleLogin` posts: it reads back as a typed request for the chosen
      bank, the fixed amount and description, and no OTP code. */
  function LoginRequest(bank: Bank, username: string, password: string, iban: string): (d: Dict)
    ensures DecodeRequest(d) == Some(TransferRequest(bank.id, username, password, iban, TransferAmount, Some(Description), None))
  {
    var r := TransferRequest(bank.id, username, password, iban, TransferAmount, Some(Description), None);
    RequestRoundTrip(r);
    EncodeRequest(r)
  }

  /** Whether a result asks for an OTP; reading a property of `null` throws. */
  function AsksForOtp(doc: Value): Option<bool> {
    if doc.Null? then None else Some(JsTruthyOpt(Prop(doc, "requiresOtp")))
  }

  /** `handleLogin`: without a bank nothing happens. Otherwise the processing steps
      run to step 3 (step 4 when `coin` comes up), the request is posted, and the
      result either asks for an OTP, which keeps the request and the session id, or
      is shown. Loading always ends. */
  function SubmitLogin(st: State, username: string, password: string, coin: bool, outcome: ApiOutcome, iso: string): (t: Transition)
    ensures st.bank.None? ==> t == Transition(st, None)
    ensures st.bank.Some? ==>
              && t.sent == Some(LoginRequest(st.bank.value, username, password, st.receiverIban))
              && !t.next.loading && t.next.bank == st.bank && t.next.step == (if coin then 4 else 3)
    ensures st.bank.Some? && outcome.Answer? && AsksForOtp(outcome.doc) == Some(true) ==>
              && t.next.screen == OtpRequired && t.next.pending == t.sent && t.next.result == st.result
              && t.next.sessionId == (if JsTruthyOpt(Prop(outcome.doc, "sessionId")) then Prop(outcome.doc, "sessionId") else None)
    ensures st.bank.Some? && outcome.Answer? && AsksForOtp(outcome.doc) == Some(false) ==>
              t.next.screen == ResultView && t.next.result == Some(outcome.doc)
    ensures st.bank.Some? && (outcome.Raised? || AsksForOtp(outcome.doc).None?) ==>
              t.next.screen == ResultView && t.next.result == Some(Obj(FailureDoc(LoginErrorMessage, iso)))
  {
    match st.bank
    case None => Transition(st, None)
    case Some(bank) =>
      var request := LoginRequest(bank, username, password, st.receiverIban);
      var shown := st.(loading := false, step := if coin then 4 else 3);
      var failed := shown.(screen := ResultView, result := Some(Obj(FailureDoc(LoginErrorMessage, iso))));
      match outcome
      case Raised => Transition(failed, Some(request))
      case Answer(doc) =>
        match AsksForOtp(doc)
        case None => Transition(failed, Some(request))
        case Some(true) =>
          var sid := if JsTruthyOpt(Prop(doc, "sessionId")) then Prop(doc, "sessionId") else None;
          Transition(shown.(screen := OtpRequired, pending := Some(request), sessionId := sid), Some(request))
        case Some(false) => Transition(shown.(screen := ResultView, result := Some(doc)), Some(request))
  }

  /** `handleOtpSubmit`: nothing happens without a bank, a pending request and a
      session id; otherwise the pending request is posted again with the code and the
      session id, and whatever comes back is shown. */
  function SubmitOtp(st: State, code: string, outcome: ApiOutcome, iso: string): (t: Transition)
    ensures st.bank.None? || st.pending.None? || !JsTruthyOpt(st.sessionId) ==> t == Transition(st, None)
    ensures st.bank.Some? && st.pending.Some? && JsTruthyOpt(st.sessionId) ==>
              && t.sent == Some(st.pending.value["otpCode" := Str(code)]["sessionId" := st.sessionId.value])
              && t.next.screen == ResultView && !t.next.loading && t.next.step == 5
              && t.next.result == Some(if outcome.Answer? then outcome.doc else Obj(FailureDoc(OtpErrorMessage, iso)))
  {
    if st.bank.None? || st.pending.None? || !JsTruthyOpt(st.sessionId) then Transition(st, None)
    else
      var request := st.pending.value["otpCode" := Str(code)]["sessionId" := st.sessionId.value];
      var shown := if outcome.Answer? then outcome.doc else Obj(FailureDoc(OtpErrorMessage, iso));
      Transition(st.(screen := ResultView, loading := false, step := 5, result := Some(shown)), Some(request))
  }

  /** `handleNewTransfer`: back to the bank list with everything of the last transfer
      forgotten. */
  function NewTransfer(st: State): (t: Transition)
    ensures t.next.screen == BankSelection && t.next.step == 1 && t.sent.None?
    ensures t.next.bank.None? && t.next.result.None? && t.next.pending.None? && t.next.sessionId.None?
    ensures t.next.loading == st.loading && t.next.receiverIban == st.receiverIban
  {
    Transition(st.(screen := BankSelection, bank := None, result := None, pending := None, sessionId := None, step := 1), None)
  }

  /** `handleOtpBack`: back to the processing view, waiting at step 4. */
  function OtpBack(st: State): (t: Transition)
    ensures t.next.screen == Processing && WaitingForOtp(t.next) && t.sent.None?
    ensures t.next.(screen := st.screen, step := st.step) == st
  {
    Transition(st.(screen := Processing, step := 4), None)
  }

  /** What the user (or the mount effect) can do. */
  datatype Event =
    | PickBank(bank: Bank)
    | PressBack
    | EnterCredentials(username: string, password: string, coin: bool, outcome: ApiOutcome, iso: string)
    | EnterOtp(code: string, outcome: ApiOutcome, iso: string)
    | PressOtpBack
    | PressNewTransfer
    | IbanLoaded(iban: string)

  /** The events the rendered screen offers: each component is shown only on its
      screen and only with the data it needs. The processing view offers nothing, and
      the two forms that post a request are shown only with a bank selected. */
  predicate Enabled(st: State, e: Event)
    ensures Enabled(st, e) && st.screen == Processing ==> e.IbanLoaded?
    ensures Enabled(st, e) && (e.EnterCredentials? || e.EnterOtp?) ==> st.bank.Some?
  {
    match e
    case PickBank(_) => st.screen == BankSelection
    case PressBack => st.screen == Login && st.bank.Some?
    case EnterCredentials(_, _, _, _, _) => st.screen == Login && st.bank.Some?
    case EnterOtp(_, _, _) => st.screen == OtpRequired && st.bank.Some?
    case PressOtpBack => st.screen == OtpRequired && st.bank.Some?
    case PressNewTransfer => st.screen == ResultView && st.result.Some? && JsTruthy(st.result.value)
    case IbanLoaded(_) => true
  }

  /** One event. Only the IBAN load changes the receiver IBAN, and only the two
      submit handlers post a request; the login one always does once a bank is
      selected. */
  function Next(st: State, e: Event): (t: Transition)
    ensures e.IbanLoaded? ==> t.next.receiverIban == e.iban && t.next.(receiverIban := st.receiverIban) == st
    ensures !e.IbanLoaded? ==> t.next.receiverIban == st.receiverIban
    ensures t.sent.Some? ==> e.EnterCredentials? || e.EnterOtp?
    ensures e.EnterCredentials? && st.bank.Some? ==> t.sent.Some?
  {
    match e
    case PickBank(b) => SelectBank(st, b)
    case PressBack => Back(st)
    case EnterCredentials(u, p, coin, outcome, iso) => SubmitLogin(st, u, p, coin, outcome, iso)
    case EnterOtp(code, outcome, iso) => SubmitOtp(st, code, outcome, iso)
    case PressOtpBack => OtpBack(st)
    case PressNewTransfer => NewTransfer(st)
    case IbanLoaded(iban) => Transition(st.(receiverIban := iban), None)
  }

  /** What every reachable state satisfies: the screens that show a bank have one,
      the OTP screen has a request to resend, the result screen has a result, and the
      step is one of the five the processing view knows. */
  predicate Wf(st: State) {
    && (st.screen in {Login, Processing, OtpRequired} ==> st.bank.Some?)
    && (st.screen == OtpRequired ==> st.pending.Some?)
    && (st.screen == ResultView ==> st.result.Some?)
    && 1 <= st.step <= 5
  }

  lemma InitialWf()
    ensures Wf(Initial)
  {
  }

  /** Every event the screen offers keeps the state well formed. */
  lemma NextPreservesWf(st: State, e: Event)
    requires Wf(st) && Enabled(st, e)
    ensures Wf(Next(st, e).next)
  {
  }

  /** Going back from the OTP form leaves the processing view, which offers nothing:
      only a page reload leaves it. */
  lemma OtpBackIsADeadEnd(st: State, e: Event)
    requires Enabled(st, PressOtpBack)
    ensures var s := Next(st, PressOtpBack).next;
            s.screen == Processing && WaitingForOtp(s) && (Enabled(s, e) <==> e.IbanLoaded?)
  {
  }

  /** A checkpoint answered without a session id leaves the OTP form unable to do
      anything with a code. */
  lemma CheckpointWithoutSessionIdBlocksOtp(st: State, u: string, p: string, coin: bool, doc: Value, iso: string,
                                           code: string, outcome: ApiOutcome, iso2: string)
    requires st.bank.Some? && AsksForOtp(doc) == Some(true) && !JsTruthyOpt(Prop(doc, "sessionId"))
    ensures var s := SubmitLogin(st, u, p, coin, Answer(doc), iso).next;
            s.screen == OtpRequired && SubmitOtp(s, code, outcome, iso2) == Transition(s, None)
  {
  }
}
