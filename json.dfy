/** JSON values as Python's json module delivers them, and Python's `str()` of a scalar. */
module Json {

  /** A decoded JSON value; numbers are limited to integers. */
  datatype Json =
    | JString(str: string)
    | JNumber(num: int)
    | JBool(b: bool)
    | JNull
    | JArray(items: seq<Json>)
    | JObject(fields: map<string, Json>)

  /** The number a string of decimal digits, most significant first, denotes. */
  function DecimalValue(s: string): int
  {
    if s == [] then 0
    else DecimalValue(s[..|s| - 1]) * 10 + (s[|s| - 1] as int - '0' as int)
  }

  /** The decimal digits of a natural number, most significant first: reading them back gives
      the number, with no leading zero. */
  function Digits(n: nat): (r: string)
    ensures |r| >= 1
    ensures forall i :: 0 <= i < |r| ==> '0' <= r[i] <= '9'
    ensures DecimalValue(r) == n
    ensures n < 10 || r[0] != '0'
  {
    var d := ['0' + (n % 10) as char];
    if n < 10 then d
    else
      var r := Digits(n / 10) + d;
      assert r[..|r| - 1] == Digits(n / 10);
      r
  }

  /** What `'%s' % j` writes for a decoded value: a string as itself, numbers in decimal,
      `True`/`False`/`None` for the other scalars. Lists and objects get a fixed placeholder. */
  function Str(j: Json): (r: string)
    ensures j.JString? ==> r == j.str
  {
    match j
    case JString(s) => s
    case JNumber(n) => if n < 0 then "-" + Digits(-n) else Digits(n)
    case JBool(b) => if b then "True" else "False"
    case JNull => "None"
    case JArray(_) => "[...]"
    case JObject(_) => "{...}"
  }
}
