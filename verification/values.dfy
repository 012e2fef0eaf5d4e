/** Values shared by every adapter and by the JSON endpoint: the JSON
    values Python's `json` module produces, the Python values a tool can
    return, and the outcome of calling a tool (a return or a raise). */
module Values {

  datatype Option<+T> = None | Some(value: T)

  datatype Result<+T, +E> = Success(value: T) | Failure(error: E)

  /** An octet, as produced by `str.encode()` and consumed by Base64. */
  type Byte = x: int | 0 <= x < 256

  /** A decoded JSON value. Numbers are integers only; objects keep the
      order of their members, as a Python dict keeps insertion order. */
  datatype Json =
    | JNull
    | JBool(b: bool)
    | JInt(i: int)
    | JString(s: string)
    | JArray(items: seq<Json>)
    | JObject(members: seq<(string, Json)>)

  /** Index of the first occurrence of `c` in `s`, or `|s|` when there
      is none; the readers of error strings and credentials cut there. */
  function IndexOf(s: string, c: char): (k: nat)
    ensures k <= |s|
    ensures forall i :: 0 <= i < k ==> s[i] != c
    ensures k < |s| ==> s[k] == c
    decreases |s|
  {
    if |s| == 0 || s[0] == c then 0 else 1 + IndexOf(s[1..], c)
  }

  /** The value bound to `key` when `pairs` is read as a Python dict:
      the last pair with that key wins. */
  function Lookup<V>(pairs: seq<(string, V)>, key: string): (r: Option<V>)
    ensures r.None? <==> forall i :: 0 <= i < |pairs| ==> pairs[i].0 != key
    ensures r.Some? ==> exists i :: 0 <= i < |pairs| && pairs[i] == (key, r.value)
    decreases |pairs|
  {
    if |pairs| == 0 then None
    else if pairs[|pairs| - 1].0 == key then Some(pairs[|pairs| - 1].1)
    else Lookup(pairs[..|pairs| - 1], key)
  }

  /** A key bound by pair `i` and by no later pair looks up to that pair's value. */
  lemma {:induction false} LookupAt<V>(pairs: seq<(string, V)>, i: int)
    requires 0 <= i < |pairs|
    requires forall j :: i < j < |pairs| ==> pairs[j].0 != pairs[i].0
    ensures Lookup(pairs, pairs[i].0) == Some(pairs[i].1)
    decreases |pairs|
  {
    if i < |pairs| - 1 {
      LookupAt(pairs[..|pairs| - 1], i);
    }
  }

  /** A pair appended last decides its own key (JSON decoding keeps the
      last duplicate) and leaves every other key as it was. */
  lemma LookupAppend<V>(pairs: seq<(string, V)>, k: string, v: V, key: string)
    ensures Lookup(pairs + [(k, v)], key) == if key == k then Some(v) else Lookup(pairs, key)
  {
    assert (pairs + [(k, v)])[..|pairs|] == pairs;
  }

  /** One step of a path into an object. */
  lemma AtObject(members: seq<(string, Json)>, i: int, path: seq<string>)
    requires 0 <= i < |members|
    requires forall j :: i < j < |members| ==> members[j].0 != members[i].0
    ensures At(JObject(members), [members[i].0] + path) == At(members[i].1, path)
  {
    LookupAt(members, i);
    assert ([members[i].0] + path)[1..] == path;
  }

  /** The keys of a list of pairs, in order. */
  function Keys<V>(pairs: seq<(string, V)>): (ks: seq<string>)
    ensures |ks| == |pairs|
    ensures forall i :: 0 <= i < |pairs| ==> ks[i] == pairs[i].0
  {
    seq(|pairs|, i requires 0 <= i < |pairs| => pairs[i].0)
  }

  /** Follows a path of object keys from `j`, as `j[k1][k2]...` would. */
  function At(j: Json, path: seq<string>): Option<Json>
    decreases |path|
  {
    if path == [] then Some(j)
    else match j
      case JObject(members) =>
        (match Lookup(members, path[0])
         case Some(child) => At(child, path[1..])
         case None => None)
      case _ => None
  }

  /** Python truthiness of a decoded JSON value. */
  predicate Truthy(j: Json)
  {
    match j
    case JNull => false
    case JBool(b) => b
    case JInt(i) => i != 0
    case JString(s) => s != ""
    case JArray(items) => items != []
    case JObject(members) => members != []
  }

  /** How `json.dumps` rejects a value it cannot render. */
  datatype DumpsError = DumpsTypeError | DumpsValueError(msg: string)

  /** A value a tool can return: JSON data, or any other Python object,
      given by its `str()` text and the way `json.dumps` rejects it. */
  datatype PyValue = PyJson(json: Json) | PyObject(repr: string, dumpsError: DumpsError)

  /** What calling a tool does: returns a value or raises an exception
      whose `str()` is `msg`. */
  datatype Invocation = Returned(value: PyValue) | Raised(msg: string)

  /** A tool result that is the Python string `s`. */
  function StringResult(s: string): Invocation
  {
    Returned(PyJson(JString(s)))
  }
}
