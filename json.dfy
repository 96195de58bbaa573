/**
 * Decoded JSON documents and the parts of Python's semantics of those values
 * that the comparator depends on: `==`, `type()`, the `in` operator, `bool()`,
 * `int()` and `str()`.
 */
module Json {

  import opened Wrappers
  import opened Text

  /** A decoded JSON document. Object members keep their document order. */
  datatype Json =
    | Null
    | Bool(b: bool)
    | Int(i: int)
    | Str(s: string)
    | Arr(items: seq<Json>)
    | Obj(props: seq<(string, Json)>)

  /** Python's `d.get(k)`: the value stored under `k`, if any. */
  function Get(props: seq<(string, Json)>, k: string): Option<Json>
  {
    if props == [] then None
    else if props[0].0 == k then Some(props[0].1)
    else Get(props[1..], k)
  }

  predicate HasKey(props: seq<(string, Json)>, k: string) { Get(props, k).Some? }

  /** `d[k]` on a dictionary that holds `k`. */
  function Lookup(props: seq<(string, Json)>, k: string): Json
    requires HasKey(props, k)
  {
    Get(props, k).value
  }

  predicate UniqueKeys(props: seq<(string, Json)>)
  {
    forall i, j :: 0 <= i < j < |props| ==> props[i].0 != props[j].0
  }

  /** What `json.load` can produce: every object has distinct member names. */
  predicate WellFormed(v: Json)
  {
    match v
    case Arr(xs) => forall i :: 0 <= i < |xs| ==> WellFormed(xs[i])
    case Obj(ps) => UniqueKeys(ps) && forall i :: 0 <= i < |ps| ==> WellFormed(ps[i].1)
    case _ => true
  }

  /** In a dictionary with distinct keys, each key finds its own value. */
  lemma {:induction false} GetMember(props: seq<(string, Json)>, i: nat)
    requires UniqueKeys(props) && i < |props|
    ensures Get(props, props[i].0) == Some(props[i].1)
  {
    if i > 0 {
      assert props[0].0 != props[i].0;
      assert props[1..][i - 1] == props[i];
      GetMember(props[1..], i - 1);
    }
  }

  /** A key is found exactly when some member carries it. */
  lemma {:induction false} GetSomeIff(props: seq<(string, Json)>, k: string)
    ensures Get(props, k).Some? <==> exists i :: 0 <= i < |props| && props[i].0 == k
  {
    if props != [] && props[0].0 != k {
      GetSomeIff(props[1..], k);
      if exists i :: 0 <= i < |props| && props[i].0 == k {
        var i :| 0 <= i < |props| && props[i].0 == k;
        assert props[1..][i - 1].0 == k;
      }
    }
  }

  function BoolAsInt(b: bool): int { if b then 1 else 0 }

  /**
   * Python's `a == b` on decoded JSON values: `True == 1` and `False == 0`,
   * lists compare element by element, dicts compare as mappings whatever
   * their member order.
   */
  predicate PyEq(a: Json, b: Json)
  {
    match a
    case Null => b.Null?
    case Bool(x) => (b.Bool? && b.b == x) || (b.Int? && b.i == BoolAsInt(x))
    case Int(n) => (b.Int? && b.i == n) || (b.Bool? && BoolAsInt(b.b) == n)
    case Str(s) => b.Str? && b.s == s
    case Arr(xs) =>
      b.Arr? && |xs| == |b.items| &&
      forall i :: 0 <= i < |xs| ==> PyEq(xs[i], b.items[i])
    case Obj(ps) =>
      b.Obj? && |ps| == |b.props| &&
      forall i :: 0 <= i < |ps| ==> HasKey(b.props, ps[i].0) && PyEq(ps[i].1, Lookup(b.props, ps[i].0))
  }

  /** Every well-formed value is equal to itself. */
  lemma {:induction false} PyEqReflexive(v: Json)
    requires WellFormed(v)
    ensures PyEq(v, v)
  {
    match v
    case Arr(xs) =>
      forall i | 0 <= i < |xs| ensures PyEq(xs[i], xs[i]) {
        PyEqReflexive(xs[i]);
      }
    case Obj(ps) =>
      forall i | 0 <= i < |ps| ensures HasKey(ps, ps[i].0) && PyEq(ps[i].1, Lookup(ps, ps[i].0)) {
        GetMember(ps, i);
        PyEqReflexive(ps[i].1);
      }
    case _ =>
  }

  /** Python's `type(v)`; `bool` and `int` are distinct types. */
  datatype PyType = NoneType | BoolType | IntType | StrType | ListType | DictType

  function TypeOf(v: Json): PyType
  {
    match v
    case Null => NoneType
    case Bool(_) => BoolType
    case Int(_) => IntType
    case Str(_) => StrType
    case Arr(_) => ListType
    case Obj(_) => DictType
  }

  /** Scalars (anything but a list or a dict) of different types are never equal, except `bool` and `int`. */
  lemma ScalarEqSameType(a: Json, b: Json)
    requires PyEq(a, b) && TypeOf(a) != TypeOf(b)
    ensures {TypeOf(a), TypeOf(b)} == {BoolType, IntType}
  {
  }

  /** Python's `key in container`; `None` stands for the `TypeError` raised on a scalar. */
  function PyIn(key: string, container: Json): (r: Option<bool>)
    ensures r.None? <==> !(container.Obj? || container.Arr? || container.Str?)
    ensures container.Obj? ==> r == Some(HasKey(container.props, key))
  {
    match container
    case Obj(ps) => Some(HasKey(ps, key))
    case Arr(xs) => Some(Str(key) in xs)
    case Str(s) => Some(Contains(s, key))
    case _ => None
  }

  /** Python's `bool(v)`. */
  predicate Truthy(v: Json)
  {
    match v
    case Null => false
    case Bool(b) => b
    case Int(i) => i != 0
    case Str(s) => s != ""
    case Arr(xs) => xs != []
    case Obj(ps) => ps != []
  }

  /** The outcome of Python's `int(v)`. */
  datatype IntCast = CastOk(n: int) | CastValueError | CastTypeError

  /** Python's `int(v)`: strings must be decimal, containers and `None` raise `TypeError`. */
  function PyInt(v: Json): (r: IntCast)
    ensures r.CastTypeError? <==> v.Null? || v.Arr? || v.Obj?
  {
    match v
    case Bool(b) => CastOk(BoolAsInt(b))
    case Int(i) => CastOk(i)
    case Str(s) => if IsDecimal(s) then CastOk(ParseDecimal(s)) else CastValueError
    case _ => CastTypeError
  }

  /** `int(str(n)) == n`. */
  lemma PyIntOfRendering(n: int)
    ensures PyInt(Str(IntToString(n))) == CastOk(n)
  {
    IntToStringRoundTrip(n);
  }

  /**
   * Python's `repr(v)`. Strings are put in single quotes; the escaping Python
   * applies to quotes and control characters inside them is not reproduced.
   */
  function Repr(v: Json): string
    decreases v, 1, 0
  {
    match v
    case Null => "None"
    case Bool(b) => if b then "True" else "False"
    case Int(i) => IntToString(i)
    case Str(s) => "'" + s + "'"
    case Arr(_) => "[" + ReprItems(v, 0) + "]"
    case Obj(_) => "{" + ReprProps(v, 0) + "}"
  }

  function ReprItems(v: Json, i: nat): string
    requires v.Arr?
    decreases v, 0, |v.items| - i
  {
    if i >= |v.items| then ""
    else (if i > 0 then ", " else "") + Repr(v.items[i]) + ReprItems(v, i + 1)
  }

  function ReprProps(v: Json, i: nat): string
    requires v.Obj?
    decreases v, 0, |v.props| - i
  {
    if i >= |v.props| then ""
    else (if i > 0 then ", " else "") + "'" + v.props[i].0 + "': " + Repr(v.props[i].1) + ReprProps(v, i + 1)
  }

  /** Python's `str(v)` (also what an f-string shows): a string shows itself, anything else its `repr`. */
  function Show(v: Json): (r: string)
    ensures v.Str? ==> r == v.s
    ensures v.Int? ==> r == IntToString(v.i)
  {
    if v.Str? then v.s else Repr(v)
  }
}
