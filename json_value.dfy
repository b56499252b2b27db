/**
 * A parsed JSON or YAML document as the import code walks it, with the few Python
 * operations the walk uses on it: truthiness, `type(x).__name__`, `d.get(k, default)`,
 * iteration, `k in x` and `x[k]`. Objects keep their keys in document order.
 */
module JsonValue {
  import opened Wrappers
  import opened Text
  import PyDict

  datatype Json =
    | JNull
    | JBool(b: bool)
    | JNum(n: int)
    | JStr(s: string)
    | JArr(items: seq<Json>)
    | JObj(fields: seq<(string, Json)>)

  type Fields = seq<(string, Json)>

  /** The Python exception a walk over an unexpected shape raises. */
  datatype PyError = AttributeError | TypeError | KeyError | RecursionError | ValidationError

  /** Python truthiness: `None`, `False`, `0` and empty strings, lists and dicts are false. */
  predicate Truthy(j: Json)
  {
    match j
    case JNull => false
    case JBool(b) => b
    case JNum(n) => n != 0
    case JStr(s) => s != ""
    case JArr(items) => items != []
    case JObj(fields) => fields != []
  }

  /** `type(j).__name__`. */
  function TypeName(j: Json): string
  {
    match j
    case JNull => "NoneType"
    case JBool(_) => "bool"
    case JNum(_) => "int"
    case JStr(_) => "str"
    case JArr(_) => "list"
    case JObj(_) => "dict"
  }

  /** `key in d` for a dict. */
  predicate Has(d: Fields, key: string)
  {
    key in PyDict.Keys(d)
  }

  /** `d.get(key, default)` for a dict. */
  function GetOr(d: Fields, key: string, default: Json): Json
  {
    PyDict.GetOr(d, key, default)
  }

  /** What `for x in j` visits: list items, dict keys, or the characters of a string. */
  function Iterate(j: Json): (r: Result<seq<Json>, PyError>)
    ensures r.Err? <==> j.JNull? || j.JBool? || j.JNum?
    ensures j.JArr? ==> r == Ok(j.items)
  {
    match j
    case JArr(items) => Ok(items)
    case JObj(fields) => Ok(seq(|fields|, i requires 0 <= i < |fields| => JStr(fields[i].0)))
    case JStr(s) => Ok(seq(|s|, i requires 0 <= i < |s| => JStr([s[i]])))
    case _ => Err(TypeError)
  }

  /** `key in j`: a dict key, a list item equal to the string, or a substring. */
  function In(j: Json, key: string): (r: Result<bool, PyError>)
    ensures j.JObj? ==> r == Ok(Has(j.fields, key))
    ensures r.Err? <==> j.JNull? || j.JBool? || j.JNum?
  {
    match j
    case JObj(fields) => Ok(Has(fields, key))
    case JArr(items) => Ok(JStr(key) in items)
    case JStr(s) => Ok(Text.Contains(s, key))
    case _ => Err(TypeError)
  }

  /** `j[key]` with a string key: only a dict holding the key answers. */
  function Subscript(j: Json, key: string): (r: Result<Json, PyError>)
    ensures r.Ok? <==> j.JObj? && Has(j.fields, key)
    ensures r.Ok? ==> PyDict.Get(j.fields, key) == Some(r.value)
  {
    match j
    case JObj(fields) =>
      if Has(fields, key) then Ok(PyDict.Get(fields, key).value) else Err(KeyError)
    case _ => Err(TypeError)
  }

  /** A loop that appends `f(x)` for each `x` in order; the first exception aborts it. */
  function Collect<A, B>(xs: seq<A>, f: A -> Result<B, PyError>): Result<seq<B>, PyError>
  {
    if xs == [] then Ok([])
    else match Collect(xs[..|xs| - 1], f)
      case Err(e) => Err(e)
      case Ok(front) =>
        match f(xs[|xs| - 1])
        case Err(e) => Err(e)
        case Ok(b) => Ok(front + [b])
  }

  /** The loop succeeds exactly when every step does, and then keeps each step's value in order. */
  lemma {:induction false} CollectOk<A, B>(xs: seq<A>, f: A -> Result<B, PyError>)
    ensures Collect(xs, f).Ok? <==> forall i :: 0 <= i < |xs| ==> f(xs[i]).Ok?
    ensures Collect(xs, f).Ok? ==>
              |Collect(xs, f).value| == |xs| && forall i :: 0 <= i < |xs| ==> f(xs[i]) == Ok(Collect(xs, f).value[i])
  {
    if xs != [] {
      var front := xs[..|xs| - 1];
      CollectOk(front, f);
      assert forall i :: 0 <= i < |front| ==> front[i] == xs[i];
    }
  }

  /** Once a prefix of the loop has raised, the whole loop raises the same exception. */
  lemma {:induction false} CollectErrSticks<A, B>(xs: seq<A>, f: A -> Result<B, PyError>, n: nat)
    requires n <= |xs| && Collect(xs[..n], f).Err?
    ensures Collect(xs, f) == Collect(xs[..n], f)
    decreases |xs| - n
  {
    if n < |xs| {
      assert xs[..n + 1][..n] == xs[..n];
      CollectErrSticks(xs, f, n + 1);
    } else {
      assert xs[..n] == xs;
    }
  }

  lemma CollectSnoc<A, B>(xs: seq<A>, f: A -> Result<B, PyError>, i: nat)
    requires i < |xs|
    ensures Collect(xs[..i + 1], f) ==
              match Collect(xs[..i], f)
              case Err(e) => Err(e)
              case Ok(front) => (match f(xs[i]) case Err(e) => Err(e) case Ok(b) => Ok(front + [b]))
  {
    assert xs[..i + 1][..i] == xs[..i];
  }
}
