/** Values decoded by Python's `json.loads`, and the Python operations the
    tools apply to them. Every operation either yields a value or raises; a
    raise carries the text `str(e)` of the exception. */
module PyJson {
  import opened Optional
  import opened Text

  /** A decoded JSON value. A number with a fraction or exponent decodes to a
      Python float, represented here by its exact value. */
  datatype Json =
    | Null
    | Bool(b: bool)
    | Int(i: int)
    | Float(f: real)
    | Str(s: string)
    | Arr(items: seq<Json>)
    | Obj(fields: map<string, Json>)

  /** The outcome of evaluating a Python expression: its value, or the text
      of the exception it raises. */
  datatype Py<+T> = Ok(value: T) | Raised(text: string) {

    predicate IsFailure() {
      Raised?
    }

    function PropagateFailure<U>(): Py<U>
      requires Raised?
    {
      Raised(text)
    }

    function Extract(): T
      requires Ok?
    {
      value
    }
  }

  /** The outcome of one HTTP request whose body is decoded as JSON.
      `FetchFailed` is an exception of the HTTP library's own error class:
      `URLError` for urllib, `RequestException` for requests. With requests
      that class also covers a reply that does not decode, since its
      `JSONDecodeError` is a `RequestException`. `FetchRaised` is any other
      exception raised while reading or decoding the reply, such as
      `json.loads` failing on a urllib reply. */
  datatype Transport = Received(body: Json) | FetchFailed(reason: string) | FetchRaised(reason: string)

  /** `type(j).__name__`. */
  function TypeName(j: Json): string {
    match j
    case Null => "NoneType"
    case Bool(_) => "bool"
    case Int(_) => "int"
    case Float(_) => "float"
    case Str(_) => "str"
    case Arr(_) => "list"
    case Obj(_) => "dict"
  }

  /** Python truthiness, as `if x:` and `not x` read it. */
  predicate Truthy(j: Json) {
    match j
    case Null => false
    case Bool(b) => b
    case Int(i) => i != 0
    case Float(f) => f != 0.0
    case Str(s) => s != ""
    case Arr(xs) => xs != []
    case Obj(m) => m != map[]
  }

  /** The text of the `AttributeError` raised by `j.attr` on a value without it. */
  function NoAttribute(j: Json, attr: string): string {
    "'" + TypeName(j) + "' object has no attribute '" + attr + "'"
  }

  /** `j.get(key, default)`: only a dict has `get`. */
  function Get(j: Json, key: string, default: Json): (r: Py<Json>)
    ensures r.Ok? <==> j.Obj?
  {
    match j
    case Obj(m) => Ok(if key in m then m[key] else default)
    case _ => Raised(NoAttribute(j, "get"))
  }

  /** `outer` is absent from `m` or holds a dict, so `.get(outer, {})` can
      be followed by another `.get`. */
  predicate DictOrAbsent(m: map<string, Json>, outer: string) {
    outer !in m || m[outer].Obj?
  }

  /** The value under `m[outer][inner]` when both keys are present, else
      `default`. */
  function Inner(m: map<string, Json>, outer: string, inner: string, default: Json): Json {
    if outer in m && m[outer].Obj? && inner in m[outer].fields then m[outer].fields[inner] else default
  }

  /** `j.get(outer, {}).get(inner, default)`: a nested lookup with a default. */
  function Nested(j: Json, outer: string, inner: string, default: Json): (r: Py<Json>)
    ensures r.Ok? <==> j.Obj? && DictOrAbsent(j.fields, outer)
    ensures r.Ok? ==> r.value == Inner(j.fields, outer, inner, default)
  {
    var o :- Get(j, outer, Obj(map[]));
    Get(o, inner, default)
  }

  /** `j[key]` with a string key. */
  function Item(j: Json, key: string): (r: Py<Json>)
    ensures r.Ok? <==> j.Obj? && key in j.fields
  {
    match j
    case Obj(m) => if key in m then Ok(m[key]) else Raised("'" + key + "'")
    case Arr(_) => Raised("list indices must be integers or slices, not str")
    case Str(_) => Raised(StringIndexText)
    case _ => Raised("'" + TypeName(j) + "' object is not subscriptable")
  }

  /** `j[i]` with a non-negative integer index. */
  function At(j: Json, i: nat): Py<Json> {
    match j
    case Arr(xs) => if i < |xs| then Ok(xs[i]) else Raised("list index out of range")
    case Str(s) => if i < |s| then Ok(Str([s[i]])) else Raised("string index out of range")
    case Obj(_) => Raised(DecimalText(i))
    case _ => Raised("'" + TypeName(j) + "' object is not subscriptable")
  }

  /** `len(j)`. */
  function Len(j: Json): Py<nat> {
    match j
    case Str(s) => Ok(|s|)
    case Arr(xs) => Ok(|xs|)
    case Obj(m) => Ok(|m|)
    case _ => Raised("object of type '" + TypeName(j) + "' has no len()")
  }

  /** `key in j` for a string `key`: a dict tests its keys, a list its
      elements, a string its substrings. */
  function Has(j: Json, key: string): Py<bool> {
    match j
    case Obj(m) => Ok(key in m)
    case Arr(xs) => Ok(Str(key) in xs)
    case Str(s) => Ok(Contains(s, key))
    case _ => Raised("argument of type '" + TypeName(j) + "' is not iterable")
  }

  /** The values `for x in j` visits, for a loop whose body raises
      `stringUse` at its first use of a string element. A list yields its
      elements; a non-empty dict or string yields strings (its keys or its
      characters), so the loop raises at the first visit. */
  function Elements(j: Json, stringUse: string): (r: Py<seq<Json>>)
    ensures j.Arr? ==> r == Ok(j.items)
    ensures r.Ok? <==> j.Arr? || j == Obj(map[]) || j == Str("")
  {
    match j
    case Arr(xs) => Ok(xs)
    case Obj(m) => if m == map[] then Ok([]) else Raised(stringUse)
    case Str(s) => if s == [] then Ok([]) else Raised(stringUse)
    case _ => Raised("'" + TypeName(j) + "' object is not iterable")
  }

  /** The text of the `TypeError` raised by `s[key]` on a string `s`. */
  const StringIndexText := "string indices must be integers, not 'str'"

  /** A loop that applies `f` to each element in order and collects the
      results; the first element on which `f` raises ends it with that
      raise. */
  function MapAll<A, B>(xs: seq<A>, f: A -> Py<B>): (r: Py<seq<B>>)
    ensures r.Ok? ==> |r.value| == |xs| && forall i :: 0 <= i < |xs| ==> f(xs[i]) == Ok(r.value[i])
    ensures r.Raised? ==> exists i :: 0 <= i < |xs| && f(xs[i]) == Raised(r.text)
                                      && forall j :: 0 <= j < i ==> f(xs[j]).Ok?
  {
    if xs == [] then Ok([])
    else
      var init := xs[..|xs| - 1];
      assert forall j :: 0 <= j < |init| ==> init[j] == xs[j];
      var head := MapAll(init, f);
      if head.Raised? then head.PropagateFailure()
      else
        var last := f(xs[|xs| - 1]);
        if last.Raised? then last.PropagateFailure()
        else Ok(head.value + [last.value])
  }

  /** `m.get(key, default)` on a value known to be a dict. */
  function Lookup(m: map<string, Json>, key: string, default: Json): (r: Json)
    ensures key in m ==> r == m[key]
    ensures key !in m ==> r == default
  {
    if key in m then m[key] else default
  }

  /** `str(j)` as an f-string formats it. Floats, lists and dicts are shown by
      a placeholder naming their type. */
  function Show(j: Json): string {
    match j
    case Null => "None"
    case Bool(b) => if b then "True" else "False"
    case Int(i) => IntText(i)
    case Str(s) => s
    case _ => "<" + TypeName(j) + ">"
  }

  /** The error `int()` raises for an argument of the wrong type. */
  function IntArgumentError(j: Json): string {
    "int() argument must be a string, a bytes-like object or a real number, not '" + TypeName(j) + "'"
  }

  /** `int(s)` for a string: its decimal integer, or the error `int()`
      raises. */
  function IntOfText(s: string): (r: Py<int>)
    ensures r.Ok? <==> ParseInt(s).Some?
    ensures r.Ok? ==> Some(r.value) == ParseInt(s)
    ensures r.Raised? ==> r.text == "invalid literal for int() with base 10: '" + s + "'"
  {
    var n := ParseInt(s);
    if n.Some? then Ok(n.value) else Raised("invalid literal for int() with base 10: '" + s + "'")
  }

  /** `int(f)` for a float: the fraction is dropped toward zero. */
  function Truncate(f: real): (n: int)
    ensures f >= 0.0 ==> n as real <= f < n as real + 1.0
    ensures f < 0.0 ==> n as real - 1.0 < f <= n as real
  {
    if f >= 0.0 then f.Floor else -((-f).Floor)
  }

  /** `int(j)`: booleans count as 0 and 1, floats truncate toward zero,
      strings are parsed as decimal integers. */
  function ToInt(j: Json): (r: Py<int>)
    ensures j.Int? ==> r == Ok(j.i)
    ensures j.Str? ==> (r.Ok? <==> ParseInt(j.s).Some?) && (r.Ok? ==> Some(r.value) == ParseInt(j.s))
    ensures j.Float? && j.f >= 0.0 ==> r.Ok? && r.value as real <= j.f < r.value as real + 1.0
    ensures j.Float? && j.f < 0.0 ==> r.Ok? && r.value as real - 1.0 < j.f <= r.value as real
    ensures j.Null? || j.Arr? || j.Obj? ==> r.Raised?
  {
    if j.Int? then Ok(j.i)
    else if j.Bool? then Ok(if j.b then 1 else 0)
    else if j.Float? then Ok(Truncate(j.f))
    else if j.Str? then IntOfText(j.s)
    else Raised(IntArgumentError(j))
  }
}
