/**
 JSON-shaped values as the Python code sees them after `json.loads`, and the
 few pieces of Python object semantics the library leans on: subscripting
 (`obj[key]`), truthiness, the `in` operator, iteration, `isinstance` and
 `int()` on a string. Every Python exception the code can raise or catch is a
 constructor of `Error`, so "raises KeyError" becomes `Err(KeyError(k))`.
 */
module Py {
  import Text

  /** A decoded JSON document: `None`, `bool`, `int`, `str`, `list`, `dict`. */
  datatype Json =
    | JNull
    | JBool(b: bool)
    | JInt(i: int)
    | JStr(s: string)
    | JArr(elems: seq<Json>)
    | JObj(fields: map<string, Json>)

  /** The key in `obj[key]`: a string literal or an integer. */
  datatype Key = Name(name: string) | Index(index: int)

  /** The exceptions the library raises, propagates or catches. */
  datatype Error =
    | KeyError(key: Key)
    | IndexError
    | TypeError
    | ValueError
    | AttributeError
    | AuthenticationError
    | UnexpectedError

  datatype Option<+T> = None | Some(value: T)

  /** A Python expression's outcome: a value, or the exception it raises. */
  datatype Result<+T> = Ok(value: T) | Err(error: Error) {
    predicate IsFailure() {
      Err?
    }

    function PropagateFailure<U>(): Result<U>
      requires Err?
    {
      Err(error)
    }

    function Extract(): T
      requires Ok?
    {
      value
    }
  }

  /** `except KeyError` */
  predicate IsKeyError(e: Error) {
    e.KeyError?
  }

  /** The position Python's `xs[i]` reads in a sequence of length `n`, negative
      indices counting from the end; `None` when it raises IndexError. */
  function Position(i: int, n: nat): (p: Option<nat>)
    ensures p.Some? <==> -(n as int) <= i < n
    ensures p.Some? ==> p.value < n && (p.value == i || p.value == n + i)
  {
    if 0 <= i < n then Some(i)
    else if -(n as int) <= i < 0 then Some(n + i)
    else None
  }

  /** The kinds of object `obj[key]` is defined on: every dict, and
      lists and strings for an integer key. */
  predicate Subscriptable(obj: Json, key: Key) {
    obj.JObj? || (key.Index? && (obj.JArr? || obj.JStr?))
  }

  /** Python's `obj[key]`. */
  function Subscript(obj: Json, key: Key): (r: Result<Json>)
    ensures r.Err? ==> r.error == KeyError(key) || r.error == IndexError || r.error == TypeError
    ensures r == Err(TypeError) <==> !Subscriptable(obj, key)
    ensures r.Err? && r.error.KeyError? ==> obj.JObj? && (key.Index? || key.name !in obj.fields)
    ensures r == Err(IndexError) <==> key.Index? && (obj.JArr? || obj.JStr?) && Position(key.index, Len(obj)).None?
  {
    match key
    case Name(k) =>
      (match obj
       case JObj(m) => if k in m then Ok(m[k]) else Err(KeyError(key))
       case _ => Err(TypeError))
    case Index(i) =>
      (match obj
       case JArr(xs) =>
         (match Position(i, |xs|)
          case Some(p) => Ok(xs[p])
          case None => Err(IndexError))
       case JStr(s) =>
         (match Position(i, |s|)
          case Some(p) => Ok(JStr([s[p]]))
          case None => Err(IndexError))
       // a JSON object's keys are strings, so an integer key is never found
       case JObj(_) => Err(KeyError(key))
       case _ => Err(TypeError))
  }

  /** `len(obj)` for lists and strings. */
  function Len(obj: Json): nat {
    match obj
    case JArr(xs) => |xs|
    case JStr(s) => |s|
    case _ => 0
  }

  /** `xs[i]` on a list: in range from either end, or IndexError. */
  lemma ListSubscript(xs: seq<Json>, i: int)
    ensures Subscript(JArr(xs), Index(i))
         == (if -|xs| <= i < |xs| then Ok(xs[if i < 0 then |xs| + i else i]) else Err(IndexError))
  {
  }

  /** The chained subscript `obj[k0][k1]...[kn]`, evaluated left to right. */
  function Walk(obj: Json, keys: seq<Key>): Result<Json>
    decreases |keys|
  {
    if keys == [] then Ok(obj)
    else
      var next :- Subscript(obj, keys[0]);
      Walk(next, keys[1..])
  }

  /** A chain of subscripts can be evaluated in two halves. */
  lemma {:induction false} WalkAppend(obj: Json, a: seq<Key>, b: seq<Key>)
    ensures Walk(obj, a + b) == (match Walk(obj, a) case Ok(v) => Walk(v, b) case Err(e) => Err(e))
    decreases |a|
  {
    if a == [] {
      assert a + b == b;
    } else {
      assert (a + b)[0] == a[0];
      assert (a + b)[1..] == a[1..] + b;
      match Subscript(obj, a[0])
      case Ok(next) => WalkAppend(next, a[1..], b);
      case Err(_) =>
    }
  }

  /** A chain of subscripts fails with the error of the first step that fails. */
  lemma {:induction false} WalkFails(obj: Json, keys: seq<Key>, k: nat)
    requires k < |keys|
    requires Walk(obj, keys[..k]).Ok?
    requires Subscript(Walk(obj, keys[..k]).value, keys[k]).Err?
    ensures Walk(obj, keys) == Err(Subscript(Walk(obj, keys[..k]).value, keys[k]).error)
  {
    WalkAppend(obj, keys[..k], keys[k..]);
    assert keys[..k] + keys[k..] == keys;
  }

  /** Python truthiness: `None`, `False`, `0`, `""`, `[]` and `{}` are false. */
  predicate Truthy(j: Json) {
    match j
    case JNull => false
    case JBool(b) => b
    case JInt(i) => i != 0
    case JStr(s) => s != []
    case JArr(xs) => xs != []
    case JObj(m) => m != map[]
  }

  /** Python's `key in container` for a string `key`: a dict tests its keys, a list
      its elements, a string its substrings; anything else raises TypeError. */
  function Contains(container: Json, key: string): (r: Result<bool>)
    ensures r.Err? <==> !(container.JObj? || container.JArr? || container.JStr?)
    ensures r.Err? ==> r.error == TypeError
    ensures container.JObj? ==> r == Ok(key in container.fields)
    ensures container.JStr? ==> (r.value <==> exists i :: Text.OccursAt(key, container.s, i))
  {
    match container
    case JObj(m) => Ok(key in m)
    case JArr(xs) => Ok(JStr(key) in xs)
    case JStr(s) => Ok(Text.IsSubstring(key, s))
    case _ => Err(TypeError)
  }

  /** The elements `for x in obj` visits. A list yields its elements and a string
      its one-character strings; scalars are not iterable. Python yields a dict's
      keys in insertion order, which `JObj` does not keep, so only the empty dict
      is iterated here. */
  function Iterate(obj: Json): (r: Result<seq<Json>>)
    ensures r.Err? ==> r.error == TypeError
    ensures obj.JArr? ==> r == Ok(obj.elems)
    ensures obj.JStr? ==> r.Ok? && |r.value| == |obj.s|
  {
    match obj
    case JArr(xs) => Ok(xs)
    case JStr(s) => Ok(seq(|s|, i requires 0 <= i < |s| => JStr([s[i]])))
    case JObj(m) => if m == map[] then Ok([]) else Err(TypeError)
    case _ => Err(TypeError)
  }

  /** `for x in obj[k0]...[kn]` */
  function IterateAt(obj: Json, keys: seq<Key>): Result<seq<Json>> {
    var v :- Walk(obj, keys);
    Iterate(v)
  }

  /** The classes `isinstance` is asked about. */
  datatype PyType = NoneType | BoolType | IntType | StrType | ListType | DictType

  /** `isinstance(v, t)`; `bool` is a subclass of `int`. */
  predicate IsInstance(v: Json, t: PyType) {
    match t
    case NoneType => v.JNull?
    case BoolType => v.JBool?
    case IntType => v.JInt? || v.JBool?
    case StrType => v.JStr?
    case ListType => v.JArr?
    case DictType => v.JObj?
  }

  /** The digits of an `int()` literal, underscores dropped, as a number. */
  function GroupsValue(d: string): nat
    requires Text.DigitGroups(d)
  {
    Text.DigitsValue(Text.RemoveUnderscores(d))
  }

  /** Python's `int(s)` on a string: surrounding whitespace, an optional sign, then
      digits with single underscores between them; anything else raises ValueError. */
  function PyInt(s: string): (r: Result<int>)
    ensures r.Err? ==> r.error == ValueError
    ensures r.Ok? ==> Text.Strip(s) != []
  {
    SignedDigits(Text.Strip(s))
  }

  /** The literal `int()` reads once whitespace is stripped: an optional sign, then digits. */
  function SignedDigits(t: string): (r: Result<int>)
    ensures r.Err? ==> r.error == ValueError
    ensures r.Ok? ==> t != []
  {
    if t != [] && (t[0] == '+' || t[0] == '-') then
      var d := t[1..];
      if Text.DigitGroups(d) then
        Ok(if t[0] == '-' then -(GroupsValue(d) as int) else GroupsValue(d))
      else
        Err(ValueError)
    else if Text.DigitGroups(t) then
      Ok(GroupsValue(t))
    else
      Err(ValueError)
  }
}
