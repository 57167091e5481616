// JSON values, and the JSON text codec of the JavaScript runtime as a pair of functions.

module Json {
  import opened Text

  const MAX_SAFE_INTEGER := 9007199254740991

  type SafeInt = n: int | -MAX_SAFE_INTEGER <= n <= MAX_SAFE_INTEGER

  function Pow2(n: nat): nat {
    if n == 0 then 1 else 2 * Pow2(n - 1)
  }

  // The finite doubles that are no safe integers, as m * 2^e in lowest terms: m is odd and has at most 53 bits.
  predicate InLowestTerms(m: int, e: int) {
    && m % 2 == 1 && -MAX_SAFE_INTEGER <= m <= MAX_SAFE_INTEGER && -1074 <= e <= 971
    && (e < 0 || (if m < 0 then -m else m) * Pow2(e) > MAX_SAFE_INTEGER)
  }

  type Other = p: (int, int) | InLowestTerms(p.0, p.1) witness (1, -1)

  // The numbers of JSON in JavaScript: the finite doubles other than minus zero, each in one way.
  datatype Number = Whole(n: SafeInt) | Double(d: Other)

  datatype Json =
    | JNull
    | JBool(b: bool)
    | JNum(n: Number)
    | JStr(s: string)
    | JArr(items: seq<Json>)
    | JObj(fields: map<string, Json>)

  // JSON.stringify and JSON.parse; parse is None when it throws.
  datatype Codec = Codec(stringify: Json -> string, parse: string -> Option<Json>)

  // What the ECMAScript specification says of the two functions together. Module Assumptions gives such a codec.
  ghost predicate Faithful(codec: Codec) {
    forall j: Json :: codec.parse(codec.stringify(j)) == Some(j)
  }

  // The string in a field of an object, when there is one.
  function StringField(j: Json, name: string): Option<string> {
    if j.JObj? && name in j.fields && j.fields[name].JStr? then Some(j.fields[name].s) else None
  }

  predicate HasString(j: Json, name: string) {
    StringField(j, name).Some?
  }
}
