/**
  Python values as the hooks see them: the arguments of the scheduler and
  worker callbacks, the fields of the records they push, and the metadata the
  consumers decode. Only the behaviour the hooks rely on is modelled:
  truthiness, `str()`, subscripting and subtraction.
 */
module Values {

  datatype Option<T> = None | Some(value: T)

  /** The exceptions the hooks can raise or swallow. `BrokerError` is any
      exception raised by a call into the broker client library. */
  datatype Error =
    | KeyError
    | IndexError
    | TypeError
    | NameError
    | AttributeError
    | ValueError
    | BrokerError

  datatype Result<T> = Ok(value: T) | Err(error: Error)

  /** A Python value. `Num` stands for an int, and also for a float whose
      value is modelled by an integer (timestamps, durations); `Dict` keeps
      its entries in insertion order, as Python does; `Obj` is any other
      object (a set, a float shown as text, a task object), known only by
      the text `str()` gives for it. */
  datatype Value =
    | Str(s: string)
    | Num(n: int)
    | NoneV
    | Tuple(items: seq<Value>)
    | List(items: seq<Value>)
    | Dict(entries: seq<(Value, Value)>)
    | Obj(text: string)

  /** A flat record: a Python dict with string keys, as pushed to the broker.
      A payload `str(d).encode("utf-8")` is modelled as the dict `d` itself. */
  type Record = map<string, Value>

  /** Python truthiness, as `if kwargs.get(...)` uses it. Objects are truthy
      unless they define their own length or boolean conversion, which `Obj`
      does not model. */
  predicate Truthy(v: Value) {
    match v
    case Str(s) => s != ""
    case Num(n) => n != 0
    case NoneV => false
    case Tuple(items) => items != []
    case List(items) => items != []
    case Dict(entries) => entries != []
    case Obj(_) => true
  }

  /** `d.get(k)`: the value under `k`, or None when `k` is absent. */
  function Get(d: Record, k: string): (r: Value)
    ensures k !in d ==> r == NoneV
    ensures k in d ==> r == d[k]
  {
    if k in d then d[k] else NoneV
  }

  function DigitChar(d: nat): (c: char)
    requires d < 10
    ensures '0' <= c <= '9'
  {
    "0123456789"[d]
  }

  /** Decimal digits of a natural number, most significant first. */
  function NatToString(n: nat): (r: string)
    ensures |r| > 0
    ensures forall i :: 0 <= i < |r| ==> '0' <= r[i] <= '9'
    decreases n
  {
    if n < 10 then [DigitChar(n)] else NatToString(n / 10) + [DigitChar(n % 10)]
  }

  /** `str(i)` for an integer: an optional minus sign, then the digits. */
  function IntToString(i: int): (r: string)
    ensures |r| > 0
    ensures r[0] == '-' || '0' <= r[0] <= '9'
  {
    if i < 0 then "-" + NatToString(-i) else NatToString(i)
  }

  /** The strings of `parts` separated by `sep`, as `sep.join(parts)`. */
  function Join(parts: seq<string>, sep: string): string
  {
    if |parts| == 0 then ""
    else if |parts| == 1 then parts[0]
    else parts[0] + sep + Join(parts[1..], sep)
  }

  /** Python's `repr()`. String escapes are not modelled: a string is shown
      between single quotes as it is. */
  function Repr(v: Value): (r: string)
    ensures |r| > 0 || v.Obj?
    decreases v
  {
    match v
    case Str(s) => "'" + s + "'"
    case Num(n) => IntToString(n)
    case NoneV => "None"
    case Tuple(items) =>
      var parts := seq(|items|, i requires 0 <= i < |items| => Repr(items[i]));
      if |items| == 1 then "(" + parts[0] + ",)" else "(" + Join(parts, ", ") + ")"
    case List(items) =>
      "[" + Join(seq(|items|, i requires 0 <= i < |items| => Repr(items[i])), ", ") + "]"
    case Dict(entries) =>
      "{" + Join(seq(|entries|, i requires 0 <= i < |entries| =>
                       Repr(entries[i].0) + ": " + Repr(entries[i].1)), ", ") + "}"
    case Obj(text) => text
  }

  /** Python's `str()`: a string is itself, anything else its `repr()`. */
  function ToStr(v: Value): (r: string)
    ensures v.Str? ==> r == v.s
  {
    if v.Str? then v.s else Repr(v)
  }

  /** Stringifying a value that was already stringified changes nothing, so
      fields written as `str(x)` keep their value when they are re-tagged. */
  lemma ToStrIdempotent(v: Value)
    ensures ToStr(Str(ToStr(v))) == ToStr(v)
  {
  }

  /** `str(v) == t` for a text `t` that starts with a lower-case letter holds
      exactly for the string `t` itself and an object shown as `t`: numbers,
      None, strings' reprs, tuples, lists and dicts all start with a digit, a
      sign, a capital, a quote or a bracket. */
  lemma ToStrEqualsWord(v: Value, t: string)
    requires |t| > 0 && 'a' <= t[0] <= 'z'
    ensures ToStr(v) == t <==> v == Str(t) || v == Obj(t)
  {
  }

  /** `obj[k]`: list and tuple indices (negative ones count from the end),
      one-character slices of strings, dict lookup by the first entry whose
      key is `k`; anything else is not subscriptable. */
  function GetItem(v: Value, k: Value): (r: Result<Value>)
    ensures r.Err? && r.error == KeyError ==> v.Dict?
    ensures r.Ok? && v.Dict? ==> (k, r.value) in v.entries
    ensures (v.NoneV? || v.Num? || v.Obj?) ==> r == Err(TypeError)
  {
    match v
    case List(items) => IndexSeq(items, k)
    case Tuple(items) => IndexSeq(items, k)
    case Str(s) =>
      if !k.Num? then Err(TypeError)
      else if 0 <= k.n < |s| then Ok(Str([s[k.n]]))
      else if -|s| <= k.n < 0 then Ok(Str([s[|s| + k.n]]))
      else Err(IndexError)
    case Dict(entries) => Lookup(entries, k)
    case _ => Err(TypeError)
  }

  /** Indexing a list or tuple by an integer, Python style. */
  function IndexSeq(items: seq<Value>, k: Value): (r: Result<Value>)
    ensures r.Ok? ==> r.value in items
    ensures k.Num? && 0 <= k.n < |items| ==> r == Ok(items[k.n])
    ensures !k.Num? ==> r == Err(TypeError)
  {
    if !k.Num? then Err(TypeError)
    else if 0 <= k.n < |items| then Ok(items[k.n])
    else if -|items| <= k.n < 0 then Ok(items[|items| + k.n])
    else Err(IndexError)
  }

  /** The value of the first entry whose key is `k`; KeyError when none is. */
  function Lookup(entries: seq<(Value, Value)>, k: Value): (r: Result<Value>)
    ensures r.Ok? ==> (k, r.value) in entries
    ensures r.Err? ==> r.error == KeyError && forall i :: 0 <= i < |entries| ==> entries[i].0 != k
  {
    if |entries| == 0 then Err(KeyError)
    else if entries[0].0 == k then Ok(entries[0].1)
    else Lookup(entries[1..], k)
  }

  /** `a - b`: defined on numbers only. */
  function Sub(a: Value, b: Value): (r: Result<Value>)
    ensures r.Ok? <==> a.Num? && b.Num?
    ensures r.Ok? ==> r.value == Num(a.n - b.n)
    ensures r.Err? ==> r.error == TypeError
  {
    if a.Num? && b.Num? then Ok(Num(a.n - b.n)) else Err(TypeError)
  }

  /** The position Python uses for an index `i` of a slice of a sequence of
      length `n`: negative indices count from the end, and both kinds are
      clamped to the sequence. */
  function ClampIndex(n: nat, i: int): (k: nat)
    ensures k <= n
    ensures 0 <= i <= n ==> k == i
    ensures -(n as int) <= i < 0 ==> k == n + i
  {
    if i < 0 then (if n + i < 0 then 0 else n + i) else if i > n then n else i
  }

  /** Python's `s[i:]`. */
  function SliceFrom<T>(s: seq<T>, i: int): seq<T>
  {
    s[ClampIndex(|s|, i)..]
  }

  /** Python's `s[:j]`. */
  function SliceTo<T>(s: seq<T>, j: int): seq<T>
  {
    s[..ClampIndex(|s|, j)]
  }
}
