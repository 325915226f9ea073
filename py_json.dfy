/** JSON documents as Python's json module decodes them, and the few Python
    operators the integration applies to them (subscript, `in`, `len`,
    `dict.get`, truthiness, `{**a, **b}`), each with the exception Python
    raises when the operand has the wrong shape. */
module PyJson {

  /** A decoded JSON value. `JNull` is Python's `None`: the integration never
      tells a JSON null from a missing result, and neither does this model. */
  datatype Json =
    | JNull
    | JBool(b: bool)
    | JNum(x: real)
    | JStr(s: string)
    | JArr(items: seq<Json>)
    | JObj(fields: map<string, Json>)

  /** Why a `ValueError` was raised by the fetch code. */
  datatype ValueProblem =
    | HttpStatus(status: int)          // `HTTP <status>: <text>`
    | BadJson                          // the body is not JSON
    | NoResult                         // the API returned null
    | NoObservations                   // `observations` missing or empty
    | ApiErrors(messages: seq<string>) // the payload's `errors` list

  /** The Python exceptions that the modelled code raises or catches. */
  datatype Exc =
    | KeyError
    | IndexError
    | TypeError
    | AttributeError
    | ValueError(problem: ValueProblem)
    | TimeoutError
    | ClientError

  /** The outcome of evaluating a Python expression: a value, or an exception. */
  datatype Py<+T> = Ok(value: T) | Raise(exc: Exc) {
    predicate IsFailure() { Raise? }
    function PropagateFailure<U>(): Py<U> requires Raise? { Raise(exc) }
    function Extract(): T requires Ok? { value }
  }

  datatype Option<+T> = None | Some(value: T)

  /** Python's truth value of a decoded JSON value. */
  predicate Truthy(j: Json) {
    match j
    case JNull => false
    case JBool(b) => b
    case JNum(x) => x != 0.0
    case JStr(s) => |s| > 0
    case JArr(a) => |a| > 0
    case JObj(m) => |m| > 0
  }

  /** `j[k]` with a string key. */
  function GetKey(j: Json, k: string): (r: Py<Json>)
    ensures r.Ok? <==> j.JObj? && k in j.fields
    ensures r.Ok? ==> r.value == j.fields[k]
    ensures r.Raise? ==> r.exc == (if j.JObj? then KeyError else TypeError)
  {
    match j
    case JObj(m) => if k in m then Ok(m[k]) else Raise(KeyError)
    case _ => Raise(TypeError)
  }

  /** The position Python reads for index `i` of a sequence of length `n`,
      counting from the end when `i` is negative. */
  function Position(i: int, n: nat): (p: nat)
    requires -(n as int) <= i < n
    ensures p < n
    ensures i >= 0 ==> p == i
  {
    if i < 0 then i + n else i
  }

  /** `j[i]` with an integer index: lists and strings (one-character string)
      index from either end; a JSON object has only string keys. */
  function GetIndex(j: Json, i: int): (r: Py<Json>)
    ensures 0 <= i && j.JArr? && i < |j.items| ==> r == Ok(j.items[i])
    ensures j.JArr? && i >= |j.items| ==> r == Raise(IndexError)
    ensures r.Raise? ==> r.exc in {KeyError, IndexError, TypeError}
  {
    match j
    case JArr(a) =>
      if -|a| <= i < |a| then Ok(a[Position(i, |a|)]) else Raise(IndexError)
    case JStr(s) =>
      if -|s| <= i < |s| then Ok(JStr([s[Position(i, |s|)]])) else Raise(IndexError)
    case JObj(_) => Raise(KeyError)
    case _ => Raise(TypeError)
  }

  /** `p` occurs as a contiguous piece of `s` (Python's `p in s` on strings). */
  predicate IsSubstring(p: string, s: string)
    decreases |s|
  {
    (|p| <= |s| && s[..|p|] == p) || (|s| > 0 && IsSubstring(p, s[1..]))
  }

  /** `k in j` with a string `k`: a key of an object, an element of a list, or a
      substring of a string; any other operand raises TypeError. */
  function Contains(j: Json, k: string): (r: Py<bool>)
    ensures j.JObj? ==> r == Ok(k in j.fields)
    ensures j.JArr? ==> r == Ok(JStr(k) in j.items)
    ensures r.Raise? <==> !(j.JObj? || j.JArr? || j.JStr?)
    ensures r.Raise? ==> r.exc == TypeError
  {
    match j
    case JObj(m) => Ok(k in m)
    case JArr(a) => Ok(JStr(k) in a)
    case JStr(s) => Ok(IsSubstring(k, s))
    case _ => Raise(TypeError)
  }

  /** `len(j)`. */
  function Len(j: Json): (r: Py<nat>)
    ensures r.Ok? <==> j.JArr? || j.JStr? || j.JObj?
    ensures j.JArr? ==> r == Ok(|j.items|)
    ensures r.Raise? ==> r.exc == TypeError
  {
    match j
    case JArr(a) => Ok(|a|)
    case JStr(s) => Ok(|s|)
    case JObj(m) => Ok(|m|)
    case _ => Raise(TypeError)
  }

  /** `j.get(k, default)`: only a dict has `get`; anything else raises
      AttributeError. */
  function DictGet(j: Json, k: string, default: Json): (r: Py<Json>)
    ensures r.Ok? <==> j.JObj?
    ensures j.JObj? && k in j.fields ==> r == Ok(j.fields[k])
    ensures j.JObj? && k !in j.fields ==> r == Ok(default)
    ensures r.Raise? ==> r.exc == AttributeError
  {
    match j
    case JObj(m) => Ok(if k in m then m[k] else default)
    case _ => Raise(AttributeError)
  }

  /** `{**a, **b}`: both operands must be mappings; on a shared key the value of
      `b` wins. */
  function Merge(a: Json, b: Json): (r: Py<Json>)
    ensures r.Ok? <==> a.JObj? && b.JObj?
    ensures r.Ok? ==> r.value.JObj? && r.value.fields.Keys == a.fields.Keys + b.fields.Keys
    ensures r.Ok? ==> forall k :: k in b.fields ==> r.value.fields[k] == b.fields[k]
    ensures r.Ok? ==> forall k :: k in a.fields && k !in b.fields ==> r.value.fields[k] == a.fields[k]
    ensures r.Raise? ==> r.exc == TypeError
  {
    if a.JObj? && b.JObj? then Ok(JObj(a.fields + b.fields)) else Raise(TypeError)
  }

  /** Python's `j == k` for an integer `k` (a bool compares as 0 or 1). */
  predicate EqualsInt(j: Json, k: int) {
    match j
    case JNum(x) => x == k as real
    case JBool(b) => (if b then 1 else 0) == k
    case _ => false
  }

  /** Python's `j in codes` for a collection of integer codes. */
  predicate CodeIn(j: Json, codes: set<int>)
    ensures CodeIn(j, codes) <==> exists k :: k in codes && EqualsInt(j, k)
  {
    match j
    case JNum(x) => x.Floor as real == x && x.Floor in codes
    case JBool(b) => (if b then 1 else 0) in codes
    case _ => false
  }

  /** `a or b` on two values. */
  function Or(a: Json, b: Json): (r: Json)
    ensures Truthy(a) ==> r == a
    ensures !Truthy(a) ==> r == b
  {
    if Truthy(a) then a else b
  }
}
