/** The Python values the orchestrator passes around: JSON documents (config,
    backend replies, ledger payloads), exceptions and the outcome of one call. */
module Values {
  import opened Text

  datatype Option<+T> = None | Some(value: T)

  /** A JSON document as json.load / r.json() yields it (numbers are integers here). */
  datatype Json =
    | JNull
    | JBool(b: bool)
    | JInt(i: int)
    | JStr(s: string)
    | JList(items: seq<Json>)
    | JObj(fields: map<string, Json>)

  /** The blocking path (ingest_scroll, _safe_call, time.sleep) or the
      non-blocking one (ingest_scroll_async, _safe_call_async, asyncio.sleep). */
  datatype Mode = Blocking | NonBlocking

  /** A raised Python exception, known by str(e). */
  datatype Exception = Exception(message: string)

  /** What one call of an operation did: return a value or raise. */
  datatype Attempt<+T> = Succeeded(value: T) | Raised(exc: Exception)

  /** What a whole modelled Python call did, seen by its caller. */
  datatype Result<+T> = Ok(value: T) | Err(exc: Exception)

  /** dict.get(key, default). */
  function Get(fields: map<string, Json>, key: string, default: Json): (v: Json)
    ensures key in fields ==> v == fields[key]
    ensures key !in fields ==> v == default
  {
    if key in fields then fields[key] else default
  }

  /** type(x).__name__ of the Python object json.load builds for a document. */
  function TypeName(j: Json): (name: string)
    ensures name in {"NoneType", "bool", "int", "str", "list", "dict"}
    ensures name == "dict" <==> j.JObj?
  {
    match j
    case JNull => "NoneType"
    case JBool(_) => "bool"
    case JInt(_) => "int"
    case JStr(_) => "str"
    case JList(_) => "list"
    case JObj(_) => "dict"
  }

  /** Python truthiness, as `x or {}` uses it: the falsy values are exactly
      None, False, 0, "", [] and {}. */
  predicate Truthy(j: Json)
    ensures Truthy(j) <==> j !in {JNull, JBool(false), JInt(0), JStr(""), JList([]), JObj(map[])}
  {
    match j
    case JNull => false
    case JBool(b) => b
    case JInt(i) => i != 0
    case JStr(s) => s != ""
    case JList(items) => items != []
    case JObj(fields) => fields != map[]
  }

  /** The integer a bool or int stands for in Python arithmetic and comparison. */
  function AsNumber(j: Json): (n: Option<int>)
    ensures n.Some? <==> (j.JInt? || j.JBool?)
  {
    match j
    case JInt(i) => Some(i)
    case JBool(b) => Some(if b then 1 else 0)
    case _ => None
  }

  /** The default of sys.set_int_max_str_digits: int() refuses a decimal
      string of more digits than this with ValueError. */
  const MaxStrDigits := 4300

  /** int(s) for an optionally signed string of ASCII digits; None where int()
      raises ValueError, which includes a string of more than MaxStrDigits digits. */
  function ParseInt(s: string): (n: Option<int>)
    ensures n.Some? <==>
      || (AllDigits(s) && 1 <= |s| <= MaxStrDigits)
      || (2 <= |s| <= MaxStrDigits + 1 && (s[0] == '+' || s[0] == '-') && AllDigits(s[1..]))
  {
    if |s| >= 2 && (s[0] == '+' || s[0] == '-') && AllDigits(s[1..]) then
      if |s| - 1 > MaxStrDigits then None
      else
        var magnitude: int := DigitsValue(s[1..]);
        Some(if s[0] == '-' then -magnitude else magnitude)
    else if s != [] && AllDigits(s) && |s| <= MaxStrDigits then Some(DigitsValue(s))
    else None
  }

  /** int() reads back the decimal spelling of every number of at most
      MaxStrDigits digits, signed or not, and refuses every longer one. */
  lemma ParseIntReadsDecimal(n: nat)
    ensures ParseInt(DecimalString(n)) == if |DecimalString(n)| <= MaxStrDigits then Some(n) else None
    ensures ParseInt("-" + DecimalString(n)) ==
      if |DecimalString(n)| <= MaxStrDigits then Some(-(n as int)) else None
  {
    DecimalRoundTrip(n);
    var s := DecimalString(n);
    assert ("-" + s)[1..] == s;
  }

  /** int(x) for a JSON value: None where Python raises TypeError or ValueError. */
  function PyInt(j: Json): (n: Option<int>)
    ensures j.JInt? ==> n == Some(j.i)
    ensures (j.JNull? || j.JList? || j.JObj?) ==> n.None?
    ensures j.JStr? ==> n == ParseInt(j.s)
  {
    match j
    case JStr(s) => ParseInt(s)
    case _ => AsNumber(j)
  }
}
