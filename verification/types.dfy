/** The shapes the browser client and the server exchange (`src/types/bank.ts`): the
    bank description, the transfer request and the transfer response. */
module Types {
  import opened Base
  import opened Json

  /** A supported bank. `selectors` holds the CSS selectors the automation uses, by
      role; the optional ones may be missing. */
  datatype Bank = Bank(id: string, name: string, logo: string, icon: string, primaryColor: string,
                       loginUrl: string, selectors: map<string, string>)

  /** The keys of a bank object. */
  const BankKeys: set<string> := {"id", "name", "logo", "icon", "primaryColor", "loginUrl", "selectors"}

  /** The selectors as a JSON object of strings. */
  function SelectorsJson(sels: map<string, string>): (v: Value)
    ensures v.Obj? && v.fields.Keys == sels.Keys
    ensures forall k :: k in sels ==> v.fields[k] == Str(sels[k])
  {
    Obj(map k | k in sels :: Str(sels[k]))
  }

  /** The bank as a JSON object, as the server hands it to the worker: exactly the
      seven properties of `Bank`, the selectors as an object of strings (the worker
      reads `bank_config['selectors']`), and nothing lost on the way. */
  function BankJson(b: Bank): (v: Value)
    ensures v.Obj? && v.fields.Keys == BankKeys
    ensures v.fields["id"] == Str(b.id) && v.fields["name"] == Str(b.name) && v.fields["loginUrl"] == Str(b.loginUrl)
    ensures v.fields["selectors"] == SelectorsJson(b.selectors)
    ensures BankOf(v) == Some(b)
  {
    var f := map["selectors" := SelectorsJson(b.selectors), "logo" := Str(b.logo), "icon" := Str(b.icon),
                 "primaryColor" := Str(b.primaryColor), "loginUrl" := Str(b.loginUrl),
                 "name" := Str(b.name), "id" := Str(b.id)];
    assert f["id"] == Str(b.id) && f["name"] == Str(b.name) && f["logo"] == Str(b.logo);
    assert f["icon"] == Str(b.icon) && f["primaryColor"] == Str(b.primaryColor) && f["loginUrl"] == Str(b.loginUrl);
    SelectorsRoundTrip(b.selectors);
    Obj(f)
  }

  /** A string property of an object, if it is one. */
  function StrProp(d: Dict, k: string): (r: Option<string>)
    ensures r.Some? <==> k in d && d[k].Str?
  {
    if k in d && d[k].Str? then Some(d[k].s) else None
  }

  /** Reads selectors back from an object whose every property is a string. */
  function SelectorsOf(v: Value): (r: Option<map<string, string>>)
    ensures r.Some? <==> v.Obj? && forall k :: k in v.fields ==> v.fields[k].Str?
    ensures r.Some? ==> SelectorsJson(r.value) == v
  {
    if v.Obj? && forall k :: k in v.fields ==> v.fields[k].Str? then
      var m := map k | k in v.fields :: v.fields[k].s;
      assert SelectorsJson(m).fields == v.fields;
      Some(m)
    else None
  }

  /** Selectors survive the trip through JSON. */
  lemma SelectorsRoundTrip(sels: map<string, string>)
    ensures SelectorsOf(SelectorsJson(sels)) == Some(sels)
  {
    var v := SelectorsJson(sels);
    var m := map k | k in v.fields :: v.fields[k].s;
    assert m == sels;
  }

  /** Reads a bank back from its JSON form: six string properties and the selectors. */
  function BankOf(v: Value): (r: Option<Bank>)
    ensures r.Some? ==> v.Obj?
  {
    if !v.Obj? then None
    else
      var f := v.fields;
      match (StrProp(f, "id"), StrProp(f, "name"), StrProp(f, "logo"), StrProp(f, "icon"),
             StrProp(f, "primaryColor"), StrProp(f, "loginUrl"))
      case (Some(id), Some(name), Some(logo), Some(icon), Some(color), Some(url)) =>
        if "selectors" in f && SelectorsOf(f["selectors"]).Some? then
          Some(Bank(id, name, logo, icon, color, url, SelectorsOf(f["selectors"]).value))
        else None
      case _ => None
  }

  /** `TransferRequest`: what the client posts to `/api/transfer`. */
  datatype TransferRequest = TransferRequest(
    bankId: string, username: string, password: string, receiverIban: string, amount: real,
    description: Option<string>, otpCode: Option<string>)

  /** An optional string property; `JSON.stringify` leaves out an `undefined` one. */
  function OptStr(o: Option<string>): Option<Value> {
    match o
    case Some(s) => Some(Str(s))
    case None => None
  }

  /** The request body `JSON.stringify` produces. */
  function EncodeRequest(r: TransferRequest): (d: Dict)
    ensures "bankId" in d && d["bankId"] == Str(r.bankId)
    ensures "amount" in d && d["amount"] == Num(r.amount)
  {
    var opt := WithOpt(WithOpt(map[], "description", OptStr(r.description)), "otpCode", OptStr(r.otpCode));
    opt["username" := Str(r.username)]["password" := Str(r.password)]["receiverIban" := Str(r.receiverIban)]
       ["amount" := Num(r.amount)]["bankId" := Str(r.bankId)]
  }

  /** A string property, if the object holds one. */
  function StrField(d: Dict, k: string): Option<string> {
    if k in d && d[k].Str? then Some(d[k].s) else None
  }

  /** Reads a body back as a `TransferRequest`: every required property with its
      declared type, and the optional ones when they are strings. */
  function DecodeRequest(d: Dict): (r: Option<TransferRequest>)
    ensures r.Some? ==> "bankId" in d && d["bankId"] == Str(r.value.bankId)
    ensures r.Some? ==> "amount" in d && d["amount"] == Num(r.value.amount)
  {
    if StrField(d, "bankId").Some? && StrField(d, "username").Some? && StrField(d, "password").Some?
       && StrField(d, "receiverIban").Some? && "amount" in d && d["amount"].Num?
       && ("description" in d ==> d["description"].Str?) && ("otpCode" in d ==> d["otpCode"].Str?)
    then
      Some(TransferRequest(StrField(d, "bankId").value, StrField(d, "username").value, StrField(d, "password").value,
                           StrField(d, "receiverIban").value, d["amount"].n,
                           StrField(d, "description"), StrField(d, "otpCode")))
    else None
  }

  /** Decoding an encoded request gives the request back. */
  lemma RequestRoundTrip(r: TransferRequest)
    ensures DecodeRequest(EncodeRequest(r)) == Some(r)
  {
    var opt := WithOpt(WithOpt(map[], "description", OptStr(r.description)), "otpCode", OptStr(r.otpCode));
    var d := EncodeRequest(r);
    assert "description" != "otpCode";
    assert "description" in opt <==> r.description.Some?;
    assert |"description"| == 11 && |"otpCode"| == 7;
    assert StrField(d, "description") == r.description;
    assert StrField(d, "otpCode") == r.otpCode;
  }

  /** The `details` of a completed transfer. */
  datatype Details = Details(amount: real, receiverIban: string, fee: Option<real>, exchangeRate: Option<real>)

  /** `TransferResponse`: what the server answers. */
  datatype TransferResponse = TransferResponse(
    success: bool, transactionId: Option<string>, message: string, timestamp: string,
    requiresOtp: Option<bool>, sessionId: Option<string>, otpMessage: Option<string>, details: Option<Details>)
}
