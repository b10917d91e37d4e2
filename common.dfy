/** Values, errors and audit entries shared by every service of the back office. */
module Common {

  datatype Option<+T> = None | Some(value: T)

  /** A JavaScript value as the services receive it from a request body, a route
      parameter or a result row. Only integral numbers are modelled. */
  datatype Value = Num(n: int) | Str(s: string) | Bool(b: bool) | Null | Undefined

  /** JavaScript truthiness, as used by `x || null`, `if (x)` and `&&`. */
  predicate Truthy(v: Value) {
    match v
    case Num(n) => n != 0
    case Str(s) => s != ""
    case Bool(b) => b
    case Null => false
    case Undefined => false
  }

  /** `x || null`: the value itself when it is truthy, null otherwise. */
  function OrNull(v: Value): (r: Value)
    ensures Truthy(r) <==> Truthy(v)
    ensures Truthy(v) ==> r == v
    ensures !Truthy(v) ==> r == Null
  {
    if Truthy(v) then v else Null
  }

  function Digit(d: nat): (c: char)
    requires d < 10
    ensures '0' <= c <= '9'
    ensures c as int - '0' as int == d
  {
    ['0', '1', '2', '3', '4', '5', '6', '7', '8', '9'][d]
  }

  predicate IsDigits(s: string) {
    forall i :: 0 <= i < |s| ==> '0' <= s[i] <= '9'
  }

  /** The number a string of decimal digits denotes, most significant first. */
  function DecimalValue(s: string): nat
    requires IsDigits(s)
    decreases |s|
  {
    if s == [] then 0
    else DecimalValue(s[..|s| - 1]) * 10 + (s[|s| - 1] as int - '0' as int)
  }

  /** The decimal digits of a natural number, most significant first, without
      a leading zero. */
  function NatToString(n: nat): (s: string)
    ensures |s| >= 1 && IsDigits(s)
    ensures DecimalValue(s) == n
    ensures s[0] == '0' ==> n == 0
  {
    if n < 10 then [Digit(n)]
    else
      var prefix := NatToString(n / 10);
      var s := prefix + [Digit(n % 10)];
      assert s[..|s| - 1] == prefix;
      s
  }

  function IntToString(n: int): string {
    if n < 0 then "-" + NatToString(-n) else NatToString(n)
  }

  const TRUE := "true"
  const FALSE := "false"
  const NULL := "null"
  const UNDEFINED := "undefined"

  /** The status a stored procedure reports, and the message a service
      returns, when all went well. */
  const SUCCESS := "SUCCESS"

  /** `String(v)`, which is also what a template literal `${v}` inserts. */
  function JsString(v: Value): string {
    match v
    case Num(n) => IntToString(n)
    case Str(s) => s
    case Bool(b) => if b then TRUE else FALSE
    case Null => NULL
    case Undefined => UNDEFINED
  }

  /** What an `HttpBadRequest` carries besides its message. */
  datatype ErrorData =
    | NoData                                       // `[]`, or no second argument
    | Detail(text: string)                         // a string
    | MessageData(message: string)                 // `{ message }`
    | FieldErrors(errors: seq<(string, string)>)   // `{ errors }`

  datatype Error =
    | BadRequest(message: string, data: ErrorData)   // HttpBadRequest (400)
    | Forbidden(message: string)                     // HttpForbidden (403)
    | Fault(name: string)                            // any other error: transport, SQL, TypeError

  /** How a promise settles: an async service call or a collaborator's reply. */
  datatype Settled<+T> = Resolved(value: T) | Rejected(error: Error)

  datatype Remark = Success | Failed   // the "success" / "failed" remarks column

  /** One row of `admin_audit_trails`. Every audit write in these services
      passes `cpo_id: null`, so the column is not represented. */
  datatype AuditEntry = AuditEntry(adminId: Value, action: string, remarks: Remark)

  /** `obj[key]` on an object given as its entries in insertion order:
      the value of the first entry with that key, or `undefined`. */
  function Lookup(entries: seq<(string, Value)>, key: string): Value
    decreases |entries|
  {
    if entries == [] then Undefined
    else if entries[0].0 == key then entries[0].1
    else Lookup(entries[1..], key)
  }

  /** A missing key reads as `undefined`; otherwise the first entry with the
      key gives the value. */
  lemma {:induction false} LookupSpec(entries: seq<(string, Value)>, key: string)
    ensures (forall i :: 0 <= i < |entries| ==> entries[i].0 != key) ==> Lookup(entries, key) == Undefined
    ensures forall i :: (0 <= i < |entries| && entries[i].0 == key &&
                         forall j :: 0 <= j < i ==> entries[j].0 != key) ==> Lookup(entries, key) == entries[i].1
    decreases |entries|
  {
    if entries != [] && entries[0].0 != key {
      LookupSpec(entries[1..], key);
      assert forall i :: 0 < i < |entries| ==> entries[i] == entries[1..][i - 1];
    }
  }

  /** The string members of a list of values, in order. `x === s` for a
      string `s` holds exactly when `x` is the string `s`. */
  function StringsOf(vs: seq<Value>): (ss: seq<string>)
    ensures forall s :: s in ss <==> Str(s) in vs
  {
    if vs == [] then []
    else
      var rest := StringsOf(vs[1..]);
      assert forall v :: v in vs <==> v == vs[0] || v in vs[1..];
      (if vs[0].Str? then [vs[0].s] else []) + rest
  }

  /** Concatenation regroups. */
  lemma Associative<T>(a: seq<T>, b: seq<T>, c: seq<T>)
    ensures a + (b + c) == a + b + c
  {
  }
}
