/** The values `json.loads` produces, seen as Python objects: their truth
    value, `dict.get`, iteration, subscription, hashing, `str()` and the
    exceptions these raise on a value of the wrong type. */
module PyJson {
  import opened Results

  /** A parsed JSON document. Numbers are integers; an object lists the
      entries of the dict `json.loads` builds, in insertion order, each key
      once. */
  datatype Json =
    | JNull
    | JBool(b: bool)
    | JNum(n: int)
    | JStr(s: string)
    | JArr(items: seq<Json>)
    | JObj(fields: seq<Field>)

  datatype Field = Field(key: string, value: Json)

  /** The exceptions a malformed document makes the planner raise. */
  datatype PyError =
    | AttributeError(typeName: string, attr: string)
    | NotIterable(typeName: string)
    | Unhashable(typeName: string)
    | NotSubscriptable(typeName: string)
    | IndicesMustBeIntegers(typeName: string)
    | IndexOutOfRange(typeName: string)
    | KeyError(key: Json)

  /** `type(v).__name__` */
  function TypeName(v: Json): string
  {
    match v
    case JNull => "NoneType"
    case JBool(_) => "bool"
    case JNum(_) => "int"
    case JStr(_) => "str"
    case JArr(_) => "list"
    case JObj(_) => "dict"
  }

  /** Python truth value: None, False, 0, "", [] and {} are false. */
  predicate Truthy(v: Json)
  {
    match v
    case JNull => false
    case JBool(b) => b
    case JNum(n) => n != 0
    case JStr(s) => s != ""
    case JArr(items) => items != []
    case JObj(fields) => fields != []
  }

  /** Lists and dicts cannot be hashed; the other JSON values can. */
  predicate Hashable(v: Json)
  {
    !v.JArr? && !v.JObj?
  }

  predicate HasKey(fields: seq<Field>, key: string)
  {
    exists i :: 0 <= i < |fields| && fields[i].key == key
  }

  /** `d.get(key, default)` on a dict. */
  function Lookup(fields: seq<Field>, key: string, default: Json): (v: Json)
    ensures !HasKey(fields, key) ==> v == default
    ensures HasKey(fields, key) ==> Field(key, v) in fields
  {
    if fields == [] then default
    else if fields[0].key == key then fields[0].value
    else
      assert HasKey(fields, key) ==> HasKey(fields[1..], key) by {
        if HasKey(fields, key) {
          var i :| 0 <= i < |fields| && fields[i].key == key;
          assert fields[1..][i - 1] == fields[i];
        }
      }
      Lookup(fields[1..], key, default)
  }

  /** When the key is present the default is never consulted. */
  lemma {:induction false} LookupIgnoresDefault(fields: seq<Field>, key: string, d1: Json, d2: Json)
    requires HasKey(fields, key)
    ensures Lookup(fields, key, d1) == Lookup(fields, key, d2)
  {
    if fields[0].key != key {
      var i :| 0 <= i < |fields| && fields[i].key == key;
      assert fields[1..][i - 1] == fields[i];
      LookupIgnoresDefault(fields[1..], key, d1, d2);
    }
  }

  /** `v.get(key, default)`: only a dict has a `get` method. */
  function PyGet(v: Json, key: string, default: Json): Result<Json, PyError>
  {
    if v.JObj? then Success(Lookup(v.fields, key, default))
    else Failure(AttributeError(TypeName(v), "get"))
  }

  /** What `for x in v` visits: a list's items, a string's characters, a
      dict's keys. */
  function Iterate(v: Json): (r: Result<seq<Json>, PyError>)
    ensures r.Success? <==> v.JArr? || v.JStr? || v.JObj?
    ensures r.Failure? ==> r == Failure(NotIterable(TypeName(v)))
    ensures v.JArr? ==> r == Success(v.items)
    ensures v.JStr? ==>
      |r.value| == |v.s| && forall k :: 0 <= k < |v.s| ==> r.value[k] == JStr([v.s[k]])
    ensures v.JObj? ==>
      |r.value| == |v.fields| && forall k :: 0 <= k < |v.fields| ==> r.value[k] == JStr(v.fields[k].key)
  {
    match v
    case JArr(items) => Success(items)
    case JStr(s) => Success(seq(|s|, i requires 0 <= i < |s| => JStr([s[i]])))
    case JObj(fields) => Success(seq(|fields|, i requires 0 <= i < |fields| => JStr(fields[i].key)))
    case _ => Failure(NotIterable(TypeName(v)))
  }

  /** `v[key]` with a string key. */
  function Subscript(v: Json, key: string): (r: Result<Json, PyError>)
    ensures r.Success? <==> v.JObj? && HasKey(v.fields, key)
    ensures r.Success? ==> Field(key, r.value) in v.fields
    ensures v.JObj? && !HasKey(v.fields, key) ==> r == Failure(KeyError(JStr(key)))
    ensures v.JArr? || v.JStr? ==> r == Failure(IndicesMustBeIntegers(TypeName(v)))
  {
    match v
    case JObj(fields) =>
      if HasKey(fields, key) then Success(Lookup(fields, key, JNull))
      else Failure(KeyError(JStr(key)))
    case JArr(_) => Failure(IndicesMustBeIntegers("list"))
    case JStr(_) => Failure(IndicesMustBeIntegers("str"))
    case _ => Failure(NotSubscriptable(TypeName(v)))
  }

  /** `v[0]`. A dict's keys are strings, so 0 is never one of them. */
  function IndexZero(v: Json): (r: Result<Json, PyError>)
    ensures r.Success? <==> (v.JArr? && v.items != []) || (v.JStr? && v.s != [])
    ensures v.JArr? && v.items != [] ==> r == Success(v.items[0])
    ensures v.JStr? && v.s != [] ==> r == Success(JStr([v.s[0]]))
    ensures v.JObj? ==> r == Failure(KeyError(JNum(0)))
    ensures (v.JArr? || v.JStr?) && r.Failure? ==> r == Failure(IndexOutOfRange(TypeName(v)))
  {
    match v
    case JArr(items) =>
      if items == [] then Failure(IndexOutOfRange("list")) else Success(items[0])
    case JStr(s) =>
      if s == [] then Failure(IndexOutOfRange("str")) else Success(JStr([s[0]]))
    case JObj(_) => Failure(KeyError(JNum(0)))
    case _ => Failure(NotSubscriptable(TypeName(v)))
  }

  function DigitChar(d: nat): char
    requires d < 10
  {
    "0123456789"[d]
  }

  /** The decimal digits of `n`, most significant first. */
  function NatToDecimal(n: nat): (r: string)
    ensures |r| > 0
    ensures forall k :: 0 <= k < |r| ==> '0' <= r[k] <= '9'
  {
    if n < 10 then [DigitChar(n)] else NatToDecimal(n / 10) + [DigitChar(n % 10)]
  }

  /** `str(n)` for an int: a minus sign exactly when `n` is negative. */
  function IntToDecimal(n: int): (r: string)
    ensures |r| > 0
    ensures r[0] == '-' <==> n < 0
  {
    if n < 0 then "-" + NatToDecimal(-n) else NatToDecimal(n)
  }

  function EscapeChar(c: char, quote: char): string
  {
    if c == '\\' then "\\\\"
    else if c == quote then ['\\', quote]
    else if c == '\n' then "\\n"
    else if c == '\r' then "\\r"
    else if c == '\t' then "\\t"
    else [c]
  }

  function Escape(s: string, quote: char): string
  {
    if s == [] then [] else EscapeChar(s[0], quote) + Escape(s[1..], quote)
  }

  /** `repr()` of a str: single quotes unless the text holds a single quote
      and no double quote. */
  function QuoteString(s: string): string
  {
    var quote := if '\'' in s && '"' !in s then '"' else '\'';
    [quote] + Escape(s, quote) + [quote]
  }

  function Join(parts: seq<string>, sep: string): string
  {
    if parts == [] then ""
    else if |parts| == 1 then parts[0]
    else parts[0] + sep + Join(parts[1..], sep)
  }

  /** `repr(v)`: never empty; a string is quoted, a list bracketed and a
      dict braced. */
  function Repr(v: Json): (r: string)
    ensures |r| > 0
    ensures v.JStr? ==> |r| >= 2 && r[0] == r[|r| - 1] && r[0] in "'\""
    ensures v.JArr? ==> r[0] == '[' && r[|r| - 1] == ']'
    ensures v.JObj? ==> r[0] == '{' && r[|r| - 1] == '}'
  {
    match v
    case JNull => "None"
    case JBool(b) => if b then "True" else "False"
    case JNum(n) => IntToDecimal(n)
    case JStr(s) => QuoteString(s)
    case JArr(items) =>
      "[" + Join(seq(|items|, i requires 0 <= i < |items| => Repr(items[i])), ", ") + "]"
    case JObj(fields) =>
      "{" + Join(seq(|fields|, i requires 0 <= i < |fields| =>
                   QuoteString(fields[i].key) + ": " + Repr(fields[i].value)), ", ") + "}"
  }

  /** `str(v)`, which is what an f-string substitutes: a string is itself,
      and only the empty string gives the empty text; `str(True)` is "True",
      which is not `str(1)`. */
  function Str(v: Json): (r: string)
    ensures v.JStr? ==> r == v.s
    ensures r == "" <==> v == JStr("")
    ensures v.JBool? ==> r == (if v.b then "True" else "False")
    ensures v.JNum? ==> r == IntToDecimal(v.n)
  {
    if v.JStr? then v.s else Repr(v)
  }

  /** `str(e)` for the exceptions above, as CPython 3.11 to 3.13 word
      them: never empty; the message of a type error on a value names its
      type in quotes; a KeyError's message is the `repr` of its key. */
  function Message(e: PyError): (m: string)
    ensures |m| > 0
    ensures e.AttributeError? || e.NotIterable? || e.NotSubscriptable? ==>
      |m| >= |e.typeName| + 2 && m[..|e.typeName| + 2] == "'" + e.typeName + "'"
    ensures e.Unhashable? ==>
      |m| >= |e.typeName| + 2 && m[|m| - |e.typeName| - 2..] == "'" + e.typeName + "'"
    ensures e.KeyError? ==> m == Repr(e.key)
  {
    match e
    case AttributeError(t, a) => "'" + t + "' object has no attribute '" + a + "'"
    case NotIterable(t) => "'" + t + "' object is not iterable"
    case Unhashable(t) => "unhashable type: '" + t + "'"
    case NotSubscriptable(t) => "'" + t + "' object is not subscriptable"
    case IndicesMustBeIntegers(t) =>
      if t == "list" then "list indices must be integers or slices, not str"
      else "string indices must be integers, not 'str'"
    case IndexOutOfRange(t) =>
      (if t == "list" then "list" else "string") + " index out of range"
    case KeyError(k) => Repr(k)
  }
}
