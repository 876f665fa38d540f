/** Decoded JSON documents as Python sees them after `json.loads`, the exceptions the scraper can
    raise, and the Python operations the extractors apply to decoded values: `x[key]`,
    `x.get(key, default)`, iteration, `.values()`, truthiness, `int(x)` and `float(x)`. */
module Json {
  import opened Wrappers
  import opened Text

  /** JSON numbers are integers in this model (Python floats are abstracted to their integer value). */
  datatype Json =
    | JNull
    | JBool(b: bool)
    | JNum(n: int)
    | JStr(s: string)
    | JArr(items: seq<Json>)
    | JObj(fields: seq<(string, Json)>)

  /** Which of the two `json.loads` calls of the embedded-state extractor failed. */
  datatype Stage = Outer | Inner

  /** The Python exceptions that can escape from, or be caught inside, the modelled code. */
  datatype Exc =
    | KeyError(key: string)
    | TypeError
    | ValueError
    | AttributeError
    | RuntimeError(message: string)
    | DecodeError(stage: Stage)
    | UnboundLocalError

  /** `json.loads`: `None` stands for `json.JSONDecodeError`. The decoder itself is a library
      function and is a parameter of the model. */
  type Loads = string -> Option<Json>

  // ---------------------------------------------------------------------------
  // Objects as Python dicts

  /** The value a dict built from `fields` holds for `k`: the one given last. */
  function Get(fields: seq<(string, Json)>, k: string): Option<Json>
    decreases |fields|
  {
    if |fields| == 0 then None
    else if fields[|fields| - 1].0 == k then Some(fields[|fields| - 1].1)
    else Get(fields[..|fields| - 1], k)
  }

  predicate DistinctKeys(fields: seq<(string, Json)>) {
    forall i, j :: 0 <= i < j < |fields| ==> fields[i].0 != fields[j].0
  }

  /** In an object whose keys are distinct, a key's value is the one written beside it. */
  lemma {:induction false} GetDistinct(fields: seq<(string, Json)>, i: nat)
    requires DistinctKeys(fields) && i < |fields|
    ensures Get(fields, fields[i].0) == Some(fields[i].1)
    decreases |fields|
  {
    if i != |fields| - 1 {
      GetDistinct(fields[..|fields| - 1], i);
    }
  }

  /** A key's value is the one given at its last occurrence. */
  lemma {:induction false} GetLast(fields: seq<(string, Json)>, k: string, i: nat)
    requires i < |fields| && fields[i].0 == k
    requires forall j :: i < j < |fields| ==> fields[j].0 != k
    ensures Get(fields, k) == Some(fields[i].1)
    decreases |fields|
  {
    if i != |fields| - 1 {
      GetLast(fields[..|fields| - 1], k, i);
    }
  }

  /** A key that never occurs has no value. */
  lemma {:induction false} GetNone(fields: seq<(string, Json)>, k: string)
    requires forall j :: 0 <= j < |fields| ==> fields[j].0 != k
    ensures Get(fields, k) == None
    decreases |fields|
  {
    if |fields| > 0 {
      GetNone(fields[..|fields| - 1], k);
    }
  }

  /** The entries of the dict `json.loads` builds from `fields`, in iteration order: each
      distinct key once, where it first appears, with the value it was given last. */
  function DictOf(fields: seq<(string, Json)>): (d: seq<(string, Json)>)
    ensures DistinctKeys(d)
    ensures forall k :: Lookup(d, k) == Get(fields, k)
    decreases |fields|
  {
    if |fields| == 0 then []
    else
      var front := DictOf(fields[..|fields| - 1]);
      var last := fields[|fields| - 1];
      InsertLookup(front, last.0, last.1);
      Insert(front, last.0, last.1)
  }

  /** Assigning `d[k] = v` to a dict given by its distinct entries. */
  function Insert(d: seq<(string, Json)>, k: string, v: Json): (r: seq<(string, Json)>)
    requires DistinctKeys(d)
    ensures DistinctKeys(r)
    ensures forall j :: 0 <= j < |r| ==> r[j].0 == k || exists i :: 0 <= i < |d| && d[i].0 == r[j].0
    decreases |d|
  {
    if |d| == 0 then [(k, v)]
    else if d[0].0 == k then [(k, v)] + d[1..]
    else
      var rest := Insert(d[1..], k, v);
      assert forall j :: 0 <= j < |rest| ==> rest[j].0 != d[0].0 by {
        forall j | 0 <= j < |rest| ensures rest[j].0 != d[0].0 {
          if rest[j].0 != k {
            var i :| 0 <= i < |d[1..]| && d[1..][i].0 == rest[j].0;
            assert d[i + 1].0 == rest[j].0;
          }
        }
      }
      [d[0]] + rest
  }

  function Lookup(d: seq<(string, Json)>, k: string): Option<Json>
    decreases |d|
  {
    if |d| == 0 then None else if d[0].0 == k then Some(d[0].1) else Lookup(d[1..], k)
  }

  lemma {:induction false} InsertLookup(d: seq<(string, Json)>, k: string, v: Json)
    requires DistinctKeys(d)
    ensures forall k' :: Lookup(Insert(d, k, v), k') == if k' == k then Some(v) else Lookup(d, k')
    decreases |d|
  {
    if |d| > 0 && d[0].0 != k {
      InsertLookup(d[1..], k, v);
    } else if |d| > 0 {
      forall k' | k' != k ensures Lookup(d[1..], k') == Lookup(d, k') {
      }
    }
  }

  // ---------------------------------------------------------------------------
  // Python operations on decoded values

  /** `x[key]` for a string key. */
  function Index(x: Json, key: string): (r: Result<Json, Exc>)
    ensures r.Success? <==> x.JObj? && Get(x.fields, key).Some?
    ensures r.Success? ==> Some(r.value) == Get(x.fields, key)
    ensures r.Failure? ==> r.error == if x.JObj? then KeyError(key) else TypeError
  {
    match x
    case JObj(fields) =>
      (match Get(fields, key)
       case Some(v) => Success(v)
       case None => Failure(KeyError(key)))
    case _ => Failure(TypeError)
  }

  /** `x.get(key, default)` */
  function DictGet(x: Json, key: string, default: Json): (r: Result<Json, Exc>)
    ensures r.Success? <==> x.JObj?
    ensures r.Success? ==> r.value == Get(x.fields, key).GetOr(default)
    ensures r.Failure? ==> r.error == AttributeError
  {
    match x
    case JObj(fields) => Success(Get(fields, key).GetOr(default))
    case _ => Failure(AttributeError)
  }

  /** What `for y in x` visits: list items, dict keys, or the characters of a string. */
  function Iterate(x: Json): (r: Result<seq<Json>, Exc>)
    ensures r.Failure? <==> !(x.JArr? || x.JObj? || x.JStr?)
    ensures x.JArr? ==> r == Success(x.items)
    ensures x.JStr? ==> r.Success? && |r.value| == |x.s|
  {
    match x
    case JArr(items) => Success(items)
    case JObj(fields) =>
      var d := DictOf(fields);
      Success(seq(|d|, i requires 0 <= i < |d| => JStr(d[i].0)))
    case JStr(s) => Success(seq(|s|, i requires 0 <= i < |s| => JStr([s[i]])))
    case _ => Failure(TypeError)
  }

  /** `x.values()` */
  function Values(x: Json): (r: Result<seq<Json>, Exc>)
    ensures r.Success? <==> x.JObj?
    ensures r.Failure? ==> r.error == AttributeError
  {
    match x
    case JObj(fields) =>
      var d := DictOf(fields);
      Success(seq(|d|, i requires 0 <= i < |d| => d[i].1))
    case _ => Failure(AttributeError)
  }

  /** `bool(x)` */
  predicate Truthy(x: Json) {
    match x
    case JNull => false
    case JBool(b) => b
    case JNum(n) => n != 0
    case JStr(s) => s != ""
    case JArr(items) => items != []
    case JObj(fields) => fields != []
  }

  /** `int(x)` */
  function IntOf(x: Json): (r: Result<int, Exc>)
    ensures r.Failure? ==> r.error == (if x.JStr? then ValueError else TypeError)
    ensures x.JNum? ==> r == Success(x.n)
  {
    match x
    case JNum(n) => Success(n)
    case JBool(b) => Success(if b then 1 else 0)
    case JStr(s) =>
      (match ParseInt(s)
       case Some(n) => Success(n)
       case None => Failure(ValueError))
    case _ => Failure(TypeError)
  }

  /** `float(x)`, its value abstracted to an integer: only the integer spellings of a number
      are read from a string. */
  function FloatOf(x: Json): (r: Result<int, Exc>)
    ensures r.Failure? ==> r.error == (if x.JStr? then ValueError else TypeError)
    ensures x.JNum? ==> r == Success(x.n)
  {
    IntOf(x)
  }

  /** `hash(x)` succeeds: lists and dicts are unhashable. */
  predicate Hashable(x: Json) {
    !x.JArr? && !x.JObj?
  }
}
