/** Small shared vocabulary: optional values and the outcome of a step that may throw. */
module Base {

  /** A value that may be absent (Python `None`, JavaScript `undefined`). */
  datatype Option<+T> = None | Some(value: T) {
    function GetOr(default: T): T {
      match this
      case Some(v) => v
      case None => default
    }
  }

  /** The outcome of an external step (a browser action, a driver query) that either
      returns a value or raises an exception carrying a message. */
  datatype Step<+T> = Ok(value: T) | Throws(message: string)

  /** The index of the first element, in list order, that `hit` accepts. This is the
      loop of `find_first_selector`, of the port probe, of the OTP checks and of the
      server's bank lookup. */
  function FindFirst<T>(xs: seq<T>, hit: T -> bool): (r: Option<nat>)
    ensures r.Some? ==> r.value < |xs| && hit(xs[r.value])
    ensures r.Some? ==> forall j :: 0 <= j < r.value ==> !hit(xs[j])
    ensures r.None? <==> forall j :: 0 <= j < |xs| ==> !hit(xs[j])
  {
    if xs == [] then None
    else if hit(xs[0]) then Some(0)
    else match FindFirst(xs[1..], hit)
      case Some(i) => Some(i + 1)
      case None => None
  }
}

/** JSON documents as both the Python worker and the Node.js service see them. */
module Json {
  import opened Base

  /** A JSON value. Arrays never reach a decision in this system and are not modelled. */
  datatype Value = Null | Bool(b: bool) | Num(n: real) | Str(s: string) | Obj(fields: map<string, Value>)

  /** A JSON object: a Python `dict` or a JavaScript plain object. */
  type Dict = map<string, Value>

  /** Key lookup that distinguishes a missing key (None) from a key bound to `null`. */
  function Lookup(d: Dict, k: string): (r: Option<Value>)
    ensures r.Some? <==> k in d
    ensures r.Some? ==> r.value == d[k]
  {
    if k in d then Some(d[k]) else None
  }

  /** Python `d.get(k, default)`: the default is used only when the key is missing,
      not when it is bound to `None`. */
  function PyGet(d: Dict, k: string, default: Value): Value {
    Lookup(d, k).GetOr(default)
  }

  /** JavaScript property access `v.k` on a value that is not `null`: `undefined`
      (None) unless `v` is an object that holds `k`. */
  function Prop(v: Value, k: string): Option<Value> {
    if v.Obj? then Lookup(v.fields, k) else None
  }

  /** JavaScript truthiness (NaN is not a JSON value and is not modelled). */
  predicate JsTruthy(v: Value) {
    match v
    case Null => false
    case Bool(b) => b
    case Num(n) => n != 0.0
    case Str(s) => s != ""
    case Obj(_) => true
  }

  /** JavaScript truthiness of a property read; `undefined` is falsy. */
  predicate JsTruthyOpt(o: Option<Value>) {
    o.Some? && JsTruthy(o.value)
  }

  /** Python truthiness: unlike JavaScript, an empty dict is falsy. */
  predicate PyTruthy(v: Value) {
    match v
    case Null => false
    case Bool(b) => b
    case Num(n) => n != 0.0
    case Str(s) => s != ""
    case Obj(f) => |f| > 0
  }

  /** Python truthiness of `d.get(k)`; a missing key reads as `None`. */
  predicate PyTruthyOpt(o: Option<Value>) {
    o.Some? && PyTruthy(o.value)
  }

  /** JavaScript `a || b`. */
  function JsOr(a: Option<Value>, b: Option<Value>): Option<Value> {
    if JsTruthyOpt(a) then a else b
  }

  /** Adds `k` to an object literal whose property may be `undefined`;
      `JSON.stringify` leaves such a property out. */
  function WithOpt(d: Dict, k: string, o: Option<Value>): (r: Dict)
    ensures k in r <==> o.Some?
    ensures o.Some? ==> r[k] == o.value
    ensures forall j :: j in d && j != k ==> j in r && r[j] == d[j]
    ensures forall j :: j in r && j != k ==> j in d
  {
    if o.Some? then d[k := o.value] else d - {k}
  }

  /** The `{success: false, message, timestamp}` object every failure path of the
      service resolves with. */
  function FailureDoc(message: string, timestamp: string): Dict {
    map["success" := Bool(false), "message" := Str(message), "timestamp" := Str(timestamp)]
  }

  /** The two fields a reader of a failure object looks at. */
  lemma FailureDocReads(message: string, timestamp: string)
    ensures Prop(Obj(FailureDoc(message, timestamp)), "success") == Some(Bool(false))
    ensures Prop(Obj(FailureDoc(message, timestamp)), "message") == Some(Str(message))
  {
    assert "message" != "timestamp" && "success" != "timestamp" && "success" != "message";
  }

  lemma JsAndPyTruthinessDiffer()
    ensures JsTruthy(Obj(map[])) && !PyTruthy(Obj(map[]))
    ensures forall v: Value :: !v.Obj? ==> (JsTruthy(v) <==> PyTruthy(v))
  {
  }
}

/** Character and string helpers with the semantics of the Python and JavaScript
    built-ins the system uses. */
module Strings {
  import opened Base

  predicate IsDigit(c: char) {
    '0' <= c <= '9'
  }

  predicate AllDigits(s: string) {
    forall i :: 0 <= i < |s| ==> IsDigit(s[i])
  }

  function DigitChar(d: nat): (c: char)
    requires d < 10
    ensures IsDigit(c) && c as int - '0' as int == d
  {
    ('0' as int + d) as char
  }

  /** Decimal value of a string of ASCII digits, most significant digit first. */
  function DigitsValue(s: string): nat
    requires AllDigits(s)
  {
    if s == [] then 0 else 10 * DigitsValue(s[..|s| - 1]) + (s[|s| - 1] as int - '0' as int)
  }

  /** Decimal rendering of a natural number (`String(n)` in JavaScript, `str(n)` in Python). */
  function NatToString(n: nat): (s: string)
    ensures 1 <= |s| && AllDigits(s)
    ensures |s| > 1 ==> s[0] != '0'
    ensures n < 10 <==> |s| == 1
  {
    if n < 10 then [DigitChar(n)] else NatToString(n / 10) + [DigitChar(n % 10)]
  }

  /** Reading back a rendered number gives the number. */
  lemma {:induction false} NatToStringValue(n: nat)
    ensures DigitsValue(NatToString(n)) == n
  {
    if n >= 10 {
      var s := NatToString(n);
      assert s[..|s| - 1] == NatToString(n / 10);
      NatToStringValue(n / 10);
    }
  }

  lemma NatToStringInjective(a: nat, b: nat)
    ensures NatToString(a) == NatToString(b) ==> a == b
  {
    NatToStringValue(a);
    NatToStringValue(b);
  }

  /** Python `int(t)` on the forms the model admits: an optional sign followed by one
      or more ASCII digits. */
  function ParseInt(t: string): (r: Option<int>)
    ensures r.Some? <==> |t| > 0 && (AllDigits(t) || ((t[0] == '+' || t[0] == '-') && |t| > 1 && AllDigits(t[1..])))
    ensures AllDigits(t) && |t| > 0 ==> r == Some(DigitsValue(t))
    ensures |t| > 1 && t[0] == '-' && AllDigits(t[1..]) ==> r == Some(-(DigitsValue(t[1..]) as int))
  {
    if |t| > 0 && (t[0] == '+' || t[0] == '-') then
      var d := t[1..];
      if |d| > 0 && AllDigits(d) then
        var v: int := DigitsValue(d);
        Some(if t[0] == '-' then -v else v)
      else None
    else if |t| > 0 && AllDigits(t) then Some(DigitsValue(t))
    else None
  }

  lemma ParseIntOfNat(n: nat)
    ensures ParseInt(NatToString(n)) == Some(n)
  {
    NatToStringValue(n);
  }

  predicate OccursAt(s: string, sub: string, i: int) {
    0 <= i && i + |sub| <= |s| && s[i..i + |sub|] == sub
  }

  /** Substring test (`sub in s` in Python, `s.includes(sub)` in JavaScript). */
  predicate Contains(s: string, sub: string) {
    exists i :: 0 <= i <= |s| - |sub| && OccursAt(s, sub, i)
  }

  /** Python `s.find(sub, start)`: the least index at or after `start` where `sub`
      occurs, or -1. */
  function Find(s: string, sub: string, start: nat): (r: int)
    ensures r == -1 || (start <= r && OccursAt(s, sub, r))
    ensures r == -1 ==> forall i :: start <= i ==> !OccursAt(s, sub, i)
    ensures r != -1 ==> forall i :: start <= i < r ==> !OccursAt(s, sub, i)
    decreases |s| - start
  {
    if start + |sub| > |s| then -1
    else if OccursAt(s, sub, start) then start
    else Find(s, sub, start + 1)
  }

  /** Case mapping for ASCII and the Latin-1 letters that map inside Latin-1. */
  function LowerChar(c: char): char {
    if 'A' <= c <= 'Z' || ('À' <= c <= 'Þ' && c != '×') then (c as int + 32) as char else c
  }

  function UpperChar(c: char): char {
    if 'a' <= c <= 'z' || ('à' <= c <= 'þ' && c != '÷') then (c as int - 32) as char else c
  }

  /** `s.lower()` / `s.toLowerCase()`. */
  function Lower(s: string): (r: string)
    ensures |r| == |s|
    ensures forall i :: 0 <= i < |s| ==> r[i] == LowerChar(s[i])
  {
    seq(|s|, i requires 0 <= i < |s| => LowerChar(s[i]))
  }

  /** Lower-casing twice is lower-casing once. */
  lemma LowerIdempotent(s: string)
    ensures Lower(Lower(s)) == Lower(s)
  {
    forall i | 0 <= i < |s|
      ensures Lower(Lower(s))[i] == Lower(s)[i]
    {
      var c := s[i];
      assert LowerChar(LowerChar(c)) == LowerChar(c);
    }
  }

  /** Python `s.capitalize()`: first character upper case, the rest lower case. */
  function Capitalize(s: string): (r: string)
    ensures |r| == |s|
    ensures |s| > 0 ==> r[0] == UpperChar(s[0])
    ensures forall i :: 0 < i < |s| ==> r[i] == LowerChar(s[i])
  {
    if s == [] then [] else [UpperChar(s[0])] + Lower(s[1..])
  }

  /** Capitalising changes only case: the lower-cased text is the same. */
  lemma CapitalizeKeepsLower(s: string)
    ensures Lower(Capitalize(s)) == Lower(s)
  {
    if s != [] {
      assert LowerChar(UpperChar(s[0])) == LowerChar(s[0]);
      assert forall i :: 0 <= i < |s| ==> Lower(Capitalize(s))[i] == Lower(s)[i];
    }
  }

  /** What JavaScript's `trim()` and `Number()` strip: the white space and line
      terminators of ECMAScript, that is tab, vertical tab, form feed, the space
      separators of Unicode, the byte order mark, and the four line terminators. */
  predicate IsSpace(c: char) {
    c in SpaceChars || '\U{2000}' <= c <= '\U{200A}'
  }

  const SpaceChars: set<char> := {
    '\t', '\U{B}', '\U{C}', ' ', '\U{A0}', '\U{FEFF}', '\U{1680}', '\U{202F}', '\U{205F}', '\U{3000}',
    '\n', '\r', '\U{2028}', '\U{2029}'
  }

  function TrimStart(s: string): (r: string)
    ensures |r| <= |s| && r == s[|s| - |r|..]
    ensures r == [] || !IsSpace(r[0])
  {
    if |s| > 0 && IsSpace(s[0]) then TrimStart(s[1..]) else s
  }

  function TrimEnd(s: string): (r: string)
    ensures |r| <= |s| && r == s[..|r|]
    ensures r == [] || !IsSpace(r[|r| - 1])
  {
    if |s| > 0 && IsSpace(s[|s| - 1]) then TrimEnd(s[..|s| - 1]) else s
  }

  /** JavaScript `s.trim()`. */
  function Trim(s: string): (r: string)
    ensures r == [] || (!IsSpace(r[0]) && !IsSpace(r[|r| - 1]))
    ensures Contains(s, r)
  {
    var t := TrimStart(s);
    var r := TrimEnd(t);
    assert OccursAt(s, r, |s| - |t|);
    r
  }

  predicate AllSpace(w: string) {
    forall i :: 0 <= i < |w| ==> IsSpace(w[i])
  }

  /** Trimming removes only white space: `s` is some white space, the trimmed text,
      and some more white space. */
  lemma TrimStripsOnlySpace(s: string)
    ensures var t := TrimStart(s);
            var p := |s| - |t|;
            var q := p + |Trim(s)|;
            && q <= |s| && s == s[..p] + Trim(s) + s[q..]
            && AllSpace(s[..p]) && AllSpace(s[q..])
  {
    var t := TrimStart(s);
    var r := TrimEnd(t);
    TrimStartStripsSpace(s);
    TrimEndStripsSpace(t);
    StripShape(s, t, r);
    assert Trim(s) == r;
  }

  /** The slice arithmetic behind `TrimStripsOnlySpace`: `t` is a suffix of `s` and `r`
      a prefix of `t`. */
  lemma StripShape(s: string, t: string, r: string)
    requires |t| <= |s| && t == s[|s| - |t|..] && |r| <= |t| && r == t[..|r|]
    requires AllSpace(s[..|s| - |t|]) && AllSpace(t[|r|..])
    ensures var p := |s| - |t|;
            var q := p + |r|;
            && q <= |s| && s == s[..p] + r + s[q..]
            && AllSpace(s[..p]) && AllSpace(s[q..])
  {
    var p := |s| - |t|;
    assert t[|r|..] == s[p + |r|..];
    assert s == s[..p] + t && t == r + t[|r|..];
  }

  lemma {:induction false} TrimStartStripsSpace(s: string)
    ensures AllSpace(s[..|s| - |TrimStart(s)|])
  {
    if |s| > 0 && IsSpace(s[0]) {
      TrimStartStripsSpace(s[1..]);
      var n := |s| - |TrimStart(s)|;
      assert s[..n] == [s[0]] + s[1..][..n - 1];
    }
  }

  lemma {:induction false} TrimEndStripsSpace(s: string)
    ensures AllSpace(s[|TrimEnd(s)|..])
  {
    if |s| > 0 && IsSpace(s[|s| - 1]) {
      var u := s[..|s| - 1];
      TrimEndStripsSpace(u);
      assert s[|TrimEnd(s)|..] == u[|TrimEnd(u)|..] + [s[|s| - 1]];
    }
  }

  /** Trimming leaves a string that starts and ends with a digit alone. */
  lemma TrimKeepsDigits(s: string)
    requires |s| > 0 && IsDigit(s[0]) && IsDigit(s[|s| - 1])
    ensures Trim(s) == s
  {
    assert !IsSpace(s[0]);
    assert TrimStart(s) == s;
    assert !IsSpace(s[|s| - 1]);
    assert TrimEnd(s) == s;
  }
}
