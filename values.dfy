/**
 * The values the service passes around once a request body has been decoded:
 * a JSON-like value type, Python dictionaries as ordered entry lists, the
 * HTTP error every failure ends in, and the result type of the endpoints.
 */
module Values {

  datatype Option<+T> = None | Some(value: T)

  /** An `HTTPException`: its status code and its `detail` text. */
  datatype HttpError = HttpError(status: int, detail: string)

  /** What an endpoint returns: its response, or the error it raises. */
  datatype Result<+T> = Success(value: T) | Failure(error: HttpError)

  /**
   * A decoded JSON value. `Dict` keeps its entries in insertion order, as a
   * Python `dict` does; floating-point numbers are not modelled.
   */
  datatype Value =
    | Null
    | Bool(b: bool)
    | Int(i: int)
    | Str(s: string)
    | List(items: seq<Value>)
    | Dict(entries: seq<(string, Value)>)

  /** The keys of a dictionary, in iteration order (`list(d.keys())`). */
  function Keys<V>(d: seq<(string, V)>): seq<string>
  {
    seq(|d|, i requires 0 <= i < |d| => d[i].0)
  }

  predicate Distinct(s: seq<string>)
  {
    forall i, j :: 0 <= i < j < |s| ==> s[i] != s[j]
  }

  /** `d.get(k)`: the value of the first entry with key `k`. */
  function Lookup<V>(d: seq<(string, V)>, k: string): Option<V>
  {
    if d == [] then None
    else if d[0].0 == k then Some(d[0].1)
    else Lookup(d[1..], k)
  }

  /**
   * `d[k] = v` on a Python dictionary: an existing key keeps its place and
   * takes the new value, a new key is appended; every other key keeps its
   * value.
   */
  function Assign<V>(d: seq<(string, V)>, k: string, v: V): (r: seq<(string, V)>)
    ensures Keys(r) == if k in Keys(d) then Keys(d) else Keys(d) + [k]
    ensures forall k' :: Lookup(r, k') == if k' == k then Some(v) else Lookup(d, k')
  {
    if d == [] then [(k, v)]
    else if d[0].0 == k then
      ConsFacts((k, v), d[1..]);
      UnconsKeys(d);
      [(k, v)] + d[1..]
    else
      var rest := Assign(d[1..], k, v);
      ConsFacts(d[0], rest);
      UnconsKeys(d);
      assert k in Keys(d) <==> k in Keys(d[1..]);
      [d[0]] + rest
  }

  /** The keys and lookups of a dictionary with one entry put in front. */
  lemma ConsFacts<V>(e: (string, V), d: seq<(string, V)>)
    ensures Keys([e] + d) == [e.0] + Keys(d)
    ensures forall k' :: Lookup([e] + d, k') == if k' == e.0 then Some(e.1) else Lookup(d, k')
  {
    var r := [e] + d;
    assert r[0] == e && r[1..] == d;
  }

  lemma UnconsKeys<V>(d: seq<(string, V)>)
    requires d != []
    ensures Keys(d) == [d[0].0] + Keys(d[1..])
  {
  }

  /** Assigning adds no entry other than the assigned one. */
  lemma {:induction false} AssignEntries<V>(d: seq<(string, V)>, k: string, v: V)
    ensures forall e :: e in Assign(d, k, v) ==> e in d || e == (k, v)
  {
    if d != [] && d[0].0 != k {
      AssignEntries(d[1..], k, v);
    }
  }

  /** A key is found by `Lookup` exactly when it is one of the keys. */
  lemma {:induction false} LookupFound<V>(d: seq<(string, V)>, k: string)
    ensures Lookup(d, k).Some? <==> k in Keys(d)
  {
    if d != [] {
      assert Keys(d) == [d[0].0] + Keys(d[1..]);
      LookupFound(d[1..], k);
    }
  }

  /** Assigning keeps the keys of a dictionary free of duplicates. */
  lemma AssignKeepsDistinct<V>(d: seq<(string, V)>, k: string, v: V)
    requires Distinct(Keys(d))
    ensures Distinct(Keys(Assign(d, k, v)))
  {
  }
}
