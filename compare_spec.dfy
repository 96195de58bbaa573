/**
 * What a `JSONComparator` (json_compare/comparator.py) does, as functions of
 * its configuration and of the state its methods change: the `LogProcessor`
 * fields (`Diffs`) and the shared list of match keys. The methods of the
 * `JSONComparator` class are proved to do exactly what these functions say.
 *
 * A Python exception that escapes a comparison ends it where it is raised;
 * the model returns the state reached at that point together with the
 * exception (`Out.raised`).
 */
module CompareSpec {
  import opened Wrappers
  import opened Text
  import opened Json
  import opened Log

  /** Exceptions that escape a comparison. */
  datatype Exc =
    | KeyError      // a match key absent from an object
    | TypeError     // `in` or `[key]` on a value that does not support it, or `int()` of None/list/dict
    | IndexError    // the positional fallback of the keyed array loop, past the end of the actual array
    | JsonDecoding  // a string was handed to the JSON decoder, which is not part of this model

  /** What does not change while a comparison runs: both trees, their labels, the key and ignore lists, the coercion flag. */
  datatype Config = Config(
    left: Json, right: Json, leftName: string, rightName: string,
    keys: seq<string>, ignore: seq<string>, ignoreTypes: bool)

  /** What a comparison changes: the difference log and the match keys. */
  datatype St = St(d: Diffs, matchKeys: seq<string>)

  /** The state a comparison ends in, and the exception that ended it early, if any. */
  datatype Out = Out(st: St, raised: Option<Exc>)

  // ---------------------------------------------------------------- key paths

  /** `__edit_key_path_root`: `from` becomes `to` in every configured key path. */
  function ReRoot(keys: seq<string>, from: string, to: string): (r: seq<string>)
    ensures |r| == |keys|
    ensures forall i :: 0 <= i < |keys| ==> r[i] == Replace(keys[i], from, to)
  {
    seq(|keys|, i requires 0 <= i < |keys| => Replace(keys[i], from, to))
  }

  /** What is left of a configured key path once the current path and `//` are taken off its front. */
  function KeyTail(key: string, path: string): string
  {
    RemovePrefix(key, path + "//")
  }

  /** The match keys `__setup_match_keys` collects at `path`, in configuration order. */
  function MatchKeysAt(keys: seq<string>, path: string): (r: seq<string>)
    ensures |r| <= |keys|
    ensures forall x :: x in r ==> !Contains(x, "//")
    ensures forall x :: x in r ==> exists i :: 0 <= i < |keys| && x == KeyTail(keys[i], path)
    ensures forall i :: 0 <= i < |keys| && !Contains(KeyTail(keys[i], path), "//") ==> KeyTail(keys[i], path) in r
  {
    if keys == [] then []
    else
      var rest := MatchKeysAt(keys[..|keys| - 1], path);
      var tail := KeyTail(keys[|keys| - 1], path);
      if Contains(tail, "//") then rest else rest + [tail]
  }

  /**
   * The order of the match keys: one key path contributes its tail when the
   * tail holds no `//`, and the key paths contribute in configuration order.
   */
  lemma {:induction false} MatchKeysAtOrder(xs: seq<string>, ys: seq<string>, path: string)
    ensures MatchKeysAt(xs + ys, path) == MatchKeysAt(xs, path) + MatchKeysAt(ys, path)
    ensures |ys| == 1 ==>
      MatchKeysAt(ys, path) == if Contains(KeyTail(ys[0], path), "//") then [] else [KeyTail(ys[0], path)]
    decreases |ys|
  {
    if ys == [] {
      assert xs + ys == xs;
    } else {
      var init := ys[..|ys| - 1];
      assert (xs + ys)[..|xs + ys| - 1] == xs + init;
      assert (xs + ys)[|xs + ys| - 1] == ys[|ys| - 1];
      MatchKeysAtOrder(xs, init, path);
      if |ys| == 1 {
        assert init == [];
      }
    }
  }

  /** `__setup_match_keys`: without configured keys the match keys are left as they were. */
  function SetupMatchKeys(cfg: Config, st: St): (r: St)
    ensures r.d == st.d
    ensures cfg.keys == [] ==> r == st
    ensures cfg.keys != [] ==> r.matchKeys == MatchKeysAt(cfg.keys, st.d.path)
  {
    if cfg.keys == [] then st else st.(matchKeys := MatchKeysAt(cfg.keys, st.d.path))
  }

  /** The form of `path` that `__key_to_ignore` looks up in the ignore list. */
  function Normalize(path: string, rightName: string, leftName: string): string
  {
    Replace(Replace(Replace(StripIndexes(path), rightName, "DATA"), leftName, "DATA"), "////", "//")
  }

  /** `__key_to_ignore` at the current path. */
  predicate KeyToIgnore(cfg: Config, path: string)
  {
    Normalize(path, cfg.rightName, cfg.leftName) in cfg.ignore
  }

  /** `__clear_temp_data`: log, match keys and path are emptied; counters and summary stay. */
  function Clear(st: St): (r: St)
    ensures r.d.log == [] && r.d.path == "" && r.matchKeys == []
    ensures r.d.counter == st.d.counter && r.d.summary == st.d.summary
  {
    St(st.d.(log := [], path := ""), [])
  }

  // ---------------------------------------------------------- scalar values

  /** How the coercion of `__compare_values` judges two unequal values. */
  datatype Coercion = Accepted | Rejected | CoercionRaises(e: Exc)

  /**
   * The `try` block of `__compare_values`. An `int` expectation (a `bool` is
   * one too) is met by an `int()` of the actual value that equals it; a `bool`
   * expectation that fails that test is met by an equal `bool()`; a `str`
   * expectation by an equal `str()`. A `ValueError` from `int()` rejects the
   * value without trying `bool()`; the `TypeError` from `int()` of None, a list
   * or a dict is not caught.
   */
  function Coerce(expected: Json, actual: Json): (r: Coercion)
    ensures r.CoercionRaises? <==> (expected.Int? || expected.Bool?) && (actual.Null? || actual.Arr? || actual.Obj?)
    ensures r.CoercionRaises? ==> r.e == TypeError
    ensures expected.Str? ==> (r.Accepted? <==> expected.s == Show(actual))
    ensures expected.Int? ==> (r.Accepted? <==> PyInt(actual).CastOk? && PyInt(actual).n == expected.i)
    ensures expected.Bool? ==>
      (r.Accepted? <==> PyInt(actual).CastOk? && (PyInt(actual).n == BoolAsInt(expected.b) || expected.b == Truthy(actual)))
    ensures expected.Null? ==> r == Rejected
  {
    if expected.Int? || expected.Bool? then
      match PyInt(actual)
      case CastTypeError => CoercionRaises(TypeError)
      case CastValueError => Rejected
      case CastOk(n) =>
        if PyEq(expected, Int(n)) then Accepted
        else if expected.Bool? && expected.b == Truthy(actual) then Accepted
        else Rejected
    else if expected.Str? then
      if expected.s == Show(actual) then Accepted else Rejected
    else Rejected
  }

  /** `__compare_values` for a scalar expected value at the current path. */
  function CompareValues(cfg: Config, st: St, expected: Json, actual: Json): (r: Out)
    ensures Grows(st.d, r.st.d) && r.st.d.path == st.d.path && r.st.matchKeys == st.matchKeys
    ensures PyEq(expected, actual) ==> r == Out(st, None)
    ensures !cfg.ignoreTypes ==> r.raised.None? && (PyEq(expected, actual) <==> r.st == st)
    ensures !cfg.ignoreTypes && !PyEq(expected, actual) ==> r.st.d == st.d.UnequalValues(expected, actual)
    ensures cfg.ignoreTypes && !PyEq(expected, actual) ==>
      match Coerce(expected, actual)
      case Accepted => r == Out(st, None)
      case Rejected => r == Out(st.(d := st.d.UnequalValues(expected, actual)), None)
      case CoercionRaises(e) => r == Out(st, Some(e))
  {
    var reported := st.(d := st.d.UnequalValues(expected, actual));
    RecordedGrows(st.d, reported.d, if TypeOf(expected) == TypeOf(actual) then Kind.UnequalValue else Kind.IncorrectType);
    if PyEq(expected, actual) then Out(st, None)
    else if !cfg.ignoreTypes then Out(reported, None)
    else match Coerce(expected, actual)
      case Accepted => Out(st, None)
      case Rejected => Out(reported, None)
      case CoercionRaises(e) => Out(st, Some(e))
  }

  /** `__check_array_lengths`, reporting at the current path. */
  function ArrayLengths(d: Diffs, expLen: nat, actLen: nat): (r: Diffs)
    ensures expLen > actLen ==> Recorded(d, r, Kind.ArrWithLackOfItems)
    ensures expLen < actLen ==> Recorded(d, r, Kind.ExceedingArrayItems)
    ensures expLen == actLen ==> r == d
    ensures Grows(d, r)
  {
    if expLen > actLen then d.LackOfArrayItems(expLen, actLen)
    else if expLen < actLen then d.ExceedingArrayItems(expLen, actLen)
    else d
  }

  /**
   * `__compare_lists` as the file stands. Both array loops open by passing
   * three arguments (`item_path` and the two lengths) to the two-parameter
   * `__check_array_lengths`, so Python raises `TypeError` as soon as the path
   * and the match keys are set up, before anything is compared. The rest of
   * the model uses `Lists`, which compares the lengths as intended.
   */
  function ListsAsWritten(cfg: Config, st: St, itemPath: string, expected: Json, actual: seq<Json>): (r: Out)
    requires expected.Arr?
    ensures r.raised == Some(TypeError)
    ensures r.st.d.log == st.d.log && r.st.d.counter == st.d.counter
  {
    Out(SetupMatchKeys(cfg, st.(d := st.d.SetPath(itemPath, "<array>"))), Some(TypeError))
  }

  // ------------------------------------------------------ keyed array rows

  /** The properties of `props` with key `k`, after an `Get` that missed `k` in `acc`. */
  lemma GetAppend(acc: seq<(string, Json)>, k: string, v: Json, k': string)
    ensures Get(acc + [(k, v)], k') == if HasKey(acc, k') then Get(acc, k') else if k' == k then Some(v) else None
  {
    if acc != [] {
      assert (acc + [(k, v)])[1..] == acc[1..] + [(k, v)];
      GetAppend(acc[1..], k, v, k');
    }
  }

  /**
   * `__get_key_props_with_values`: the match keys with the values `obj` has
   * for them, each key once; `None` stands for the `KeyError` of a key the
   * object lacks.
   */
  function KeyProps(keys: seq<string>, obj: seq<(string, Json)>): (r: Option<seq<(string, Json)>>)
    ensures r.Some? <==> forall i :: 0 <= i < |keys| ==> HasKey(obj, keys[i])
    ensures r.Some? ==> UniqueKeys(r.value) && |r.value| <= |keys|
    ensures r.Some? ==> forall k :: HasKey(r.value, k) <==> k in keys
    ensures r.Some? ==> forall k :: HasKey(r.value, k) ==> Lookup(r.value, k) == Lookup(obj, k)
  {
    if keys == [] then Some([])
    else match KeyProps(keys[..|keys| - 1], obj)
      case None => None
      case Some(acc) =>
        var k := keys[|keys| - 1];
        assert keys == keys[..|keys| - 1] + [k];
        if !HasKey(obj, k) then None
        else if HasKey(acc, k) then Some(acc)
        else
          var r := acc + [(k, Lookup(obj, k))];
          assert forall k' :: Get(r, k') == if HasKey(acc, k') then Get(acc, k') else if k' == k then Some(Lookup(obj, k)) else None by {
            forall k' ensures Get(r, k') == if HasKey(acc, k') then Get(acc, k') else if k' == k then Some(Lookup(obj, k)) else None {
              GetAppend(acc, k, Lookup(obj, k), k');
            }
          }
          assert UniqueKeys(r) by { UniqueAppend(acc, k, Lookup(obj, k)); }
          Some(r)
  }

  lemma UniqueAppend(acc: seq<(string, Json)>, k: string, v: Json)
    requires UniqueKeys(acc) && !HasKey(acc, k)
    ensures UniqueKeys(acc + [(k, v)])
  {
    var r := acc + [(k, v)];
    forall i, j | 0 <= i < j < |r| ensures r[i].0 != r[j].0 {
      if j == |acc| {
        GetSomeIff(acc, k);
      }
    }
  }

  /** Whether one array element matches the key properties, the way the list comprehension at :236 judges it. */
  datatype RowCheck = Matches | Differs | RowRaises(e: Exc)

  function CheckRow(target: seq<(string, Json)>, row: Json): (r: RowCheck)
    ensures r.RowRaises? ==> target != []
    ensures r == Matches <==> target == [] || (row.Obj? && forall i :: 0 <= i < |target| ==> HasKey(row.props, target[i].0) && PyEq(Lookup(row.props, target[i].0), target[i].1))
  {
    if target == [] then Matches
    else if !row.Obj? then RowRaises(TypeError)
    else if exists i :: 0 <= i < |target| && !HasKey(row.props, target[i].0) then RowRaises(KeyError)
    else if forall i :: 0 <= i < |target| ==> PyEq(Lookup(row.props, target[i].0), target[i].1) then Matches
    else Differs
  }

  /** The answer of `__get_idx_of_similar_row`, or the exception that escaped it at row `at`. */
  datatype RowSearch = Found(idx: nat) | NotFound | SearchRaises(e: Exc, at: nat)

  /** The search of `__get_idx_of_similar_row` from row `j` on. */
  function SimilarRowFrom(target: seq<(string, Json)>, data: seq<Json>, j: nat): (r: RowSearch)
    requires j <= |data|
    ensures r.Found? ==> j <= r.idx < |data| && CheckRow(target, data[r.idx]) == Matches &&
                         forall i :: j <= i < r.idx ==> CheckRow(target, data[i]) == Differs
    ensures r.NotFound? <==> forall i :: j <= i < |data| ==> CheckRow(target, data[i]) == Differs
    ensures r.SearchRaises? ==> j <= r.at < |data| && CheckRow(target, data[r.at]) == RowRaises(r.e) &&
                                forall i :: j <= i < r.at ==> CheckRow(target, data[i]) == Differs
    decreases |data| - j
  {
    if j == |data| then NotFound
    else match CheckRow(target, data[j])
      case Matches => Found(j)
      case Differs => SimilarRowFrom(target, data, j + 1)
      case RowRaises(e) => SearchRaises(e, j)
  }

  /** `__get_idx_of_similar_row`: the first row matching the key properties, or the first row that raises before one does. */
  function SimilarRow(target: seq<(string, Json)>, data: seq<Json>): (r: RowSearch)
    ensures r.Found? ==> r.idx < |data| && CheckRow(target, data[r.idx]) == Matches &&
                         forall i :: 0 <= i < r.idx ==> CheckRow(target, data[i]) == Differs
    ensures r.NotFound? <==> forall i :: 0 <= i < |data| ==> CheckRow(target, data[i]) == Differs
    ensures r.SearchRaises? ==> r.at < |data| && CheckRow(target, data[r.at]) == RowRaises(r.e) &&
                                forall i :: 0 <= i < r.at ==> CheckRow(target, data[i]) == Differs
  {
    SimilarRowFrom(target, data, 0)
  }

  // ------------------------------------------------------- the tree walk

  /** The path segment of array element `i`. */
  function IndexKey(i: nat): string
  {
    "[" + NatToString(i) + "]"
  }

  /** `__try_find_dict_and_compare` at the current path. */
  function TryDict(cfg: Config, st: St, expected: Json, actual: Json): (r: Out)
    requires expected.Obj?
    ensures !actual.Obj? && !(actual.Str? && cfg.ignoreTypes) ==> r == Out(st, None)
    decreases expected, 4, 0
  {
    if actual.Obj? then Dicts(cfg, st, st.d.path, expected, actual)
    else if actual.Str? && cfg.ignoreTypes then Out(st, Some(JsonDecoding))
    else Out(st, None)
  }

  /** `__try_find_list_and_compare` at the current path. */
  function TryList(cfg: Config, st: St, expected: Json, actual: Json): (r: Out)
    requires expected.Arr?
    ensures !actual.Arr? && !(actual.Str? && cfg.ignoreTypes) ==> r == Out(st, None)
    decreases expected, 4, 0
  {
    if actual.Arr? then Lists(cfg, st, st.d.path, expected, actual.items)
    else if actual.Str? && cfg.ignoreTypes then Out(st, Some(JsonDecoding))
    else Out(st, None)
  }

  /** `__compare_dicts`: the properties of `expected` in order, below `itemPath`. */
  function Dicts(cfg: Config, st: St, itemPath: string, expected: Json, actual: Json): (r: Out)
    requires expected.Obj?
    decreases expected, 3, 0
  {
    DictsFrom(cfg, st, itemPath, expected, actual, 0)
  }

  /** The loop of `__compare_dicts` from the `i`-th property of `expected` on. */
  function DictsFrom(cfg: Config, st: St, itemPath: string, expected: Json, actual: Json, i: nat): (r: Out)
    requires expected.Obj? && i <= |expected.props|
    decreases expected, 2, |expected.props| - i
  {
    if i == |expected.props| then Out(st, None)
    else
      var o := DictStep(cfg, st, itemPath, expected, actual, i);
      if o.raised.Some? then o
      else
        DictsFrom(cfg, o.st, itemPath, expected, actual, i + 1)
  }

  /**
   * One pass of the `__compare_dicts` loop, for the `i`-th property of
   * `expected`: the path moves to the property; a property `actual` lacks is
   * reported missing; objects and arrays are compared further down; unequal
   * scalars are compared unless the path is ignored.
   */
  function DictStep(cfg: Config, st: St, itemPath: string, expected: Json, actual: Json, i: nat): (r: Out)
    requires expected.Obj? && i < |expected.props|
    decreases expected, 1, 0
  {
    var key := expected.props[i].0;
    var val := expected.props[i].1;
    var st1 := st.(d := st.d.SetPath(itemPath, key));
    match PyIn(key, actual)
    case None => Out(st1, Some(TypeError))
    case Some(false) => Out(st1.(d := st1.d.MissingProperty()), None)
    case Some(true) =>
      if !actual.Obj? then Out(st1, Some(TypeError))
      else
        var act := Lookup(actual.props, key);
        if val.Obj? then TryDict(cfg, st1, val, act)
        else if val.Arr? then TryList(cfg, st1, val, act)
        else if !PyEq(val, act) && !KeyToIgnore(cfg, st1.d.path) then CompareValues(cfg, st1, val, act)
        else Out(st1, None)
  }

  /**
   * `__compare_lists`: the path moves to `itemPath//<array>`, the match keys
   * are set up there, and the array is compared by keys when there are match
   * keys and by position otherwise.
   */
  function Lists(cfg: Config, st: St, itemPath: string, expected: Json, actual: seq<Json>): (r: Out)
    requires expected.Arr?
    decreases expected, 3, 0
  {
    var st1 := SetupMatchKeys(cfg, st.(d := st.d.SetPath(itemPath, "<array>")));
    if st1.matchKeys != [] then ByKeys(cfg, st1, st1.d.path, expected, actual)
    else ByOrder(cfg, st1, st1.d.path, expected, actual)
  }

  /** `__compare_lists_by_order`. */
  function ByOrder(cfg: Config, st: St, itemPath: string, expected: Json, actual: seq<Json>): (r: Out)
    requires expected.Arr?
    decreases expected, 2, |expected.items| + 1
  {
    var st1 := st.(d := ArrayLengths(st.d, |expected.items|, |actual|));
    OrderFrom(cfg, st1, itemPath, expected, actual, 0)
  }

  /** The loop of `__compare_lists_by_order` from element `i` on; it stops at the end of the actual array. */
  function OrderFrom(cfg: Config, st: St, itemPath: string, expected: Json, actual: seq<Json>, i: nat): (r: Out)
    requires expected.Arr? && i <= |expected.items|
    decreases expected, 2, |expected.items| - i
  {
    if i == |expected.items| then Out(st, None)
    else
      var st1 := st.(d := st.d.SetPath(itemPath, IndexKey(i)));
      if i >= |actual| then Out(st1, None)
      else
        var o := ElemStep(cfg, st1, expected.items[i], actual[i]);
        if o.raised.Some? then o
        else
          OrderFrom(cfg, o.st, itemPath, expected, actual, i + 1)
  }

  /** An array element compared with its positional counterpart (scalars are never ignored here). */
  function ElemStep(cfg: Config, st: St, val: Json, act: Json): (r: Out)
    decreases val, 5, 0
  {
    if val.Obj? then TryDict(cfg, st, val, act)
    else if val.Arr? then TryList(cfg, st, val, act)
    else if !PyEq(val, act) then CompareValues(cfg, st, val, act)
    else Out(st, None)
  }

  /** `__compare_lists_by_keys`. */
  function ByKeys(cfg: Config, st: St, itemPath: string, expected: Json, actual: seq<Json>): (r: Out)
    requires expected.Arr?
    decreases expected, 2, |expected.items| + 1
  {
    var st1 := st.(d := ArrayLengths(st.d, |expected.items|, |actual|));
    KeysFrom(cfg, st1, itemPath, expected, actual, 0)
  }

  /** The loop of `__compare_lists_by_keys` from element `i` on. */
  function KeysFrom(cfg: Config, st: St, itemPath: string, expected: Json, actual: seq<Json>, i: nat): (r: Out)
    requires expected.Arr? && i <= |expected.items|
    decreases expected, 2, |expected.items| - i
  {
    if i == |expected.items| then Out(st, None)
    else
      var st1 := st.(d := st.d.SetPath(itemPath, IndexKey(i)));
      var o := KeysStep(cfg, st1, expected, actual, i);
      if o.raised.Some? then o
      else
        KeysFrom(cfg, o.st, itemPath, expected, actual, i + 1)
  }

  /** One pass of the keyed loop, as the method that runs it takes it: set the element's path, then the pass. */
  lemma KeysFromUnfold(cfg: Config, st: St, itemPath: string, expected: Json, actual: seq<Json>, i: nat)
    requires expected.Arr? && i < |expected.items|
    ensures var o := KeysStep(cfg, st.(d := st.d.SetPath(itemPath, IndexKey(i))), expected, actual, i);
      KeysFrom(cfg, st, itemPath, expected, actual, i) ==
        if o.raised.Some? then o else KeysFrom(cfg, o.st, itemPath, expected, actual, i + 1)
  {
  }

  /**
   * One pass of the `__compare_lists_by_keys` loop. An object element is
   * compared with the first actual row that has the same key properties, or
   * reported missing when there is none; any other element falls back to the
   * element at the same position, with no bound check.
   */
  function KeysStep(cfg: Config, st: St, expected: Json, actual: seq<Json>, i: nat): (r: Out)
    requires expected.Arr? && i < |expected.items|
    decreases expected, 1, 0
  {
    var val := expected.items[i];
    if val.Obj? then
      match KeyProps(st.matchKeys, val.props)
      case None => Out(st, Some(KeyError))
      case Some(target) =>
        match SimilarRow(target, actual)
        case SearchRaises(e, _) => Out(st, Some(e))
        case NotFound => Out(st.(d := st.d.MissingArrayItem(target)), None)
        case Found(j) => Dicts(cfg, st, st.d.path, val, actual[j])
    else if i >= |actual| then Out(st, Some(IndexError))
    else ElemStep(cfg, st, val, actual[i])
  }

  /**
   * `__compare`: the root kinds are those of the left and right trees whatever
   * the direction; a mismatch is one incorrect-type entry for (left, right).
   */
  function Compare(cfg: Config, st: St, withRight: bool): (r: Out)
    ensures !(cfg.left.Arr? && cfg.right.Arr?) && !(cfg.left.Obj? && cfg.right.Obj?) ==>
      r == Out(st.(d := st.d.IncorrectType(cfg.left, cfg.right)), None)
  {
    var expected := if withRight then cfg.left else cfg.right;
    var actual := if withRight then cfg.right else cfg.left;
    var rootLog := if withRight then cfg.rightName else cfg.leftName;
    if cfg.left.Arr? && cfg.right.Arr? then Lists(cfg, st, rootLog, expected, actual.items)
    else if cfg.left.Obj? && cfg.right.Obj? then Dicts(cfg, st, rootLog, expected, actual)
    else Out(st.(d := st.d.IncorrectType(cfg.left, cfg.right)), None)
  }

  // ------------------------------------------ the walk only adds entries

  /*
   * Every function of the walk keeps the entries logged before it, never
   * lowers a counter, and bumps the counters by exactly the number of entries
   * it adds (one mutual induction, following the walk's own recursion).
   */

  /** An array element's comparison only adds entries. */
  lemma {:induction false} ElemGrows(cfg: Config, st: St, val: Json, act: Json)
    ensures Grows(st.d, ElemStep(cfg, st, val, act).st.d)
    decreases val, 5, 0
  {
    if val.Obj? {
      TryDictGrows(cfg, st, val, act);
    } else if val.Arr? {
      TryListGrows(cfg, st, val, act);
    }
  }

  /** `__try_find_dict_and_compare` only adds entries. */
  lemma {:induction false} TryDictGrows(cfg: Config, st: St, expected: Json, actual: Json)
    requires expected.Obj?
    ensures Grows(st.d, TryDict(cfg, st, expected, actual).st.d)
    decreases expected, 4, 0
  {
    if actual.Obj? {
      DictsGrows(cfg, st, st.d.path, expected, actual);
    }
  }

  /** `__try_find_list_and_compare` only adds entries. */
  lemma {:induction false} TryListGrows(cfg: Config, st: St, expected: Json, actual: Json)
    requires expected.Arr?
    ensures Grows(st.d, TryList(cfg, st, expected, actual).st.d)
    decreases expected, 4, 0
  {
    if actual.Arr? {
      ListsGrows(cfg, st, st.d.path, expected, actual.items);
    }
  }

  /** `__compare_dicts` only adds entries. */
  lemma {:induction false} DictsGrows(cfg: Config, st: St, itemPath: string, expected: Json, actual: Json)
    requires expected.Obj?
    ensures Grows(st.d, Dicts(cfg, st, itemPath, expected, actual).st.d)
    decreases expected, 3, 0
  {
    DictsFromGrows(cfg, st, itemPath, expected, actual, 0);
  }

  /** The loop of `__compare_dicts` only adds entries. */
  lemma {:induction false} DictsFromGrows(cfg: Config, st: St, itemPath: string, expected: Json, actual: Json, i: nat)
    requires expected.Obj? && i <= |expected.props|
    ensures Grows(st.d, DictsFrom(cfg, st, itemPath, expected, actual, i).st.d)
    decreases expected, 2, |expected.props| - i
  {
    if i < |expected.props| {
      var o := DictStep(cfg, st, itemPath, expected, actual, i);
      DictStepGrows(cfg, st, itemPath, expected, actual, i);
      if o.raised.None? {
        DictsFromGrows(cfg, o.st, itemPath, expected, actual, i + 1);
        GrowsTrans(st.d, o.st.d, DictsFrom(cfg, o.st, itemPath, expected, actual, i + 1).st.d);
      }
    }
  }

  /** One property of `__compare_dicts` adds at most its own entries. */
  lemma {:induction false} DictStepGrows(cfg: Config, st: St, itemPath: string, expected: Json, actual: Json, i: nat)
    requires expected.Obj? && i < |expected.props|
    ensures Grows(st.d, DictStep(cfg, st, itemPath, expected, actual, i).st.d)
    decreases expected, 1, 0
  {
    var key := expected.props[i].0;
    var val := expected.props[i].1;
    var st1 := st.(d := st.d.SetPath(itemPath, key));
    match PyIn(key, actual)
    case None =>
    case Some(false) =>
      RecordedGrows(st1.d, st1.d.MissingProperty(), Kind.MissingObjProperty);
    case Some(true) =>
      if actual.Obj? {
        var act := Lookup(actual.props, key);
        if val.Obj? {
          TryDictGrows(cfg, st1, val, act);
        } else if val.Arr? {
          TryListGrows(cfg, st1, val, act);
        }
      }
  }

  /** `__compare_lists` only adds entries. */
  lemma {:induction false} ListsGrows(cfg: Config, st: St, itemPath: string, expected: Json, actual: seq<Json>)
    requires expected.Arr?
    ensures Grows(st.d, Lists(cfg, st, itemPath, expected, actual).st.d)
    decreases expected, 3, 0
  {
    var st1 := SetupMatchKeys(cfg, st.(d := st.d.SetPath(itemPath, "<array>")));
    var st2 := st1.(d := ArrayLengths(st1.d, |expected.items|, |actual|));
    if st1.matchKeys != [] {
      assert Lists(cfg, st, itemPath, expected, actual) == KeysFrom(cfg, st2, st1.d.path, expected, actual, 0);
      KeysFromGrows(cfg, st2, st1.d.path, expected, actual, 0);
    } else {
      assert Lists(cfg, st, itemPath, expected, actual) == OrderFrom(cfg, st2, st1.d.path, expected, actual, 0);
      OrderFromGrows(cfg, st2, st1.d.path, expected, actual, 0);
    }
  }

  /** The loop of `__compare_lists_by_order` only adds entries. */
  lemma {:induction false} OrderFromGrows(cfg: Config, st: St, itemPath: string, expected: Json, actual: seq<Json>, i: nat)
    requires expected.Arr? && i <= |expected.items|
    ensures Grows(st.d, OrderFrom(cfg, st, itemPath, expected, actual, i).st.d)
    decreases expected, 2, |expected.items| - i
  {
    if i < |expected.items| && i < |actual| {
      var st1 := st.(d := st.d.SetPath(itemPath, IndexKey(i)));
      var o := ElemStep(cfg, st1, expected.items[i], actual[i]);
      ElemGrows(cfg, st1, expected.items[i], actual[i]);
      if o.raised.None? {
        OrderFromGrows(cfg, o.st, itemPath, expected, actual, i + 1);
        GrowsTrans(st.d, o.st.d, OrderFrom(cfg, o.st, itemPath, expected, actual, i + 1).st.d);
      }
    }
  }

  /** The loop of `__compare_lists_by_keys` only adds entries. */
  lemma {:induction false} KeysFromGrows(cfg: Config, st: St, itemPath: string, expected: Json, actual: seq<Json>, i: nat)
    requires expected.Arr? && i <= |expected.items|
    ensures Grows(st.d, KeysFrom(cfg, st, itemPath, expected, actual, i).st.d)
    decreases expected, 2, |expected.items| - i
  {
    if i < |expected.items| {
      var st1 := st.(d := st.d.SetPath(itemPath, IndexKey(i)));
      var o := KeysStep(cfg, st1, expected, actual, i);
      KeysStepGrows(cfg, st1, expected, actual, i);
      if o.raised.None? {
        KeysFromGrows(cfg, o.st, itemPath, expected, actual, i + 1);
        GrowsTrans(st.d, o.st.d, KeysFrom(cfg, o.st, itemPath, expected, actual, i + 1).st.d);
      }
    }
  }

  /** One element of `__compare_lists_by_keys` adds at most its own entries. */
  lemma {:induction false} KeysStepGrows(cfg: Config, st: St, expected: Json, actual: seq<Json>, i: nat)
    requires expected.Arr? && i < |expected.items|
    ensures Grows(st.d, KeysStep(cfg, st, expected, actual, i).st.d)
    decreases expected, 1, 0
  {
    var val := expected.items[i];
    if val.Obj? {
      match KeyProps(st.matchKeys, val.props)
      case None =>
      case Some(target) =>
        match SimilarRow(target, actual)
        case SearchRaises(e, _) =>
        case NotFound =>
          RecordedGrows(st.d, st.d.MissingArrayItem(target), Kind.MissingArrayItem);
        case Found(j) =>
          DictsGrows(cfg, st, st.d.path, val, actual[j]);
    } else if i < |actual| {
      ElemGrows(cfg, st, val, actual[i]);
    }
  }

  /** `__compare` only adds entries. */
  lemma {:induction false} CompareGrows(cfg: Config, st: St, withRight: bool)
    ensures Grows(st.d, Compare(cfg, st, withRight).st.d)
  {
    var expected := if withRight then cfg.left else cfg.right;
    var actual := if withRight then cfg.right else cfg.left;
    var rootLog := if withRight then cfg.rightName else cfg.leftName;
    if cfg.left.Arr? && cfg.right.Arr? {
      ListsGrows(cfg, st, rootLog, expected, actual.items);
    } else if cfg.left.Obj? && cfg.right.Obj? {
      DictsGrows(cfg, st, rootLog, expected, actual);
    } else {
      RecordedGrows(st.d, st.d.IncorrectType(cfg.left, cfg.right), Kind.IncorrectType);
    }
  }

  // ------------------------------- the walk does not look at earlier entries

  /*
   * What a comparison adds to the log, whether it raises, and which match
   * keys it leaves do not depend on the entries already logged, nor on the
   * counts: two runs of the same step from states with the same path (where
   * the step reads it) and the same match keys add the same entries. Match
   * keys may differ when key paths are configured, because `__compare_lists`
   * then sets them up afresh before the keyed loop reads them.
   */

  /** Two states a step treats alike: the same match keys, unless key paths are configured. */
  ghost predicate Alike(cfg: Config, a: St, b: St)
  {
    a.matchKeys == b.matchKeys || cfg.keys != []
  }

  /** Runs `x` from `a` and `y` from `b` raise alike, add the same entries, and keep match keys alike. */
  ghost predicate SameRun(cfg: Config, a: St, b: St, x: Out, y: Out)
  {
    x.raised == y.raised && Added(a.d, x.st.d) == Added(b.d, y.st.d) &&
    (a.matchKeys == b.matchKeys ==> x.st.matchKeys == y.st.matchKeys) &&
    (cfg.keys == [] ==> x.st.matchKeys == a.matchKeys && y.st.matchKeys == b.matchKeys)
  }

  /** The state and the outcome of `__compare_values`, in one piece for the lemmas below. */
  lemma CompareValuesEffect(cfg: Config, st: St, expected: Json, actual: Json)
    ensures var r := CompareValues(cfg, st, expected, actual);
      var reported := !PyEq(expected, actual) && (!cfg.ignoreTypes || Coerce(expected, actual).Rejected?);
      r.st == (if reported then st.(d := st.d.UnequalValues(expected, actual)) else st) &&
      r.raised == (if !PyEq(expected, actual) && cfg.ignoreTypes && Coerce(expected, actual).CoercionRaises?
                   then Some(Coerce(expected, actual).e) else None)
  {
  }

  /** Two steps in a row: alike first steps that raise nothing, followed by alike second steps, are alike runs. */
  lemma SameRunThen(cfg: Config, a: St, b: St, x: Out, y: Out, x2: Out, y2: Out)
    requires SameRun(cfg, a, b, x, y) && x.raised.None? && SameRun(cfg, x.st, y.st, x2, y2)
    requires Grows(a.d, x.st.d) && Grows(x.st.d, x2.st.d) && Grows(b.d, y.st.d) && Grows(y.st.d, y2.st.d)
    ensures SameRun(cfg, a, b, x2, y2)
  {
    AddedTrans(a.d, x.st.d, x2.st.d);
    AddedTrans(b.d, y.st.d, y2.st.d);
  }

  /** `__compare_values` adds the same entry, or none, from any two states at the same path. */
  lemma CompareValuesSame(cfg: Config, a: St, b: St, expected: Json, actual: Json)
    requires a.d.path == b.d.path
    ensures SameRun(cfg, a, b, CompareValues(cfg, a, expected, actual), CompareValues(cfg, b, expected, actual))
  {
    CompareValuesEffect(cfg, a, expected, actual);
    CompareValuesEffect(cfg, b, expected, actual);
    if !PyEq(expected, actual) && (!cfg.ignoreTypes || Coerce(expected, actual).Rejected?) {
      UnequalAdded(a.d, expected, actual);
      UnequalAdded(b.d, expected, actual);
    }
  }

  lemma {:induction false} ElemSame(cfg: Config, a: St, b: St, val: Json, act: Json)
    requires a.d.path == b.d.path && Alike(cfg, a, b)
    ensures SameRun(cfg, a, b, ElemStep(cfg, a, val, act), ElemStep(cfg, b, val, act))
    decreases val, 5, 0
  {
    if val.Obj? {
      TryDictSame(cfg, a, b, val, act);
    } else if val.Arr? {
      TryListSame(cfg, a, b, val, act);
    } else if !PyEq(val, act) {
      CompareValuesSame(cfg, a, b, val, act);
    }
  }

  lemma {:induction false} TryDictSame(cfg: Config, a: St, b: St, expected: Json, actual: Json)
    requires expected.Obj? && a.d.path == b.d.path && Alike(cfg, a, b)
    ensures SameRun(cfg, a, b, TryDict(cfg, a, expected, actual), TryDict(cfg, b, expected, actual))
    decreases expected, 4, 0
  {
    if actual.Obj? {
      DictsSame(cfg, a, b, a.d.path, expected, actual);
    }
  }

  lemma {:induction false} TryListSame(cfg: Config, a: St, b: St, expected: Json, actual: Json)
    requires expected.Arr? && a.d.path == b.d.path && Alike(cfg, a, b)
    ensures SameRun(cfg, a, b, TryList(cfg, a, expected, actual), TryList(cfg, b, expected, actual))
    decreases expected, 4, 0
  {
    if actual.Arr? {
      ListsSame(cfg, a, b, a.d.path, expected, actual.items);
    }
  }

  /** `__compare_dicts` adds the same entries whatever was logged before and wherever the path stood. */
  lemma {:induction false} DictsSame(cfg: Config, a: St, b: St, itemPath: string, expected: Json, actual: Json)
    requires expected.Obj? && Alike(cfg, a, b)
    ensures SameRun(cfg, a, b, Dicts(cfg, a, itemPath, expected, actual), Dicts(cfg, b, itemPath, expected, actual))
    decreases expected, 3, 0
  {
    DictsFromSame(cfg, a, b, itemPath, expected, actual, 0);
  }

  lemma {:induction false} DictsFromSame(cfg: Config, a: St, b: St, itemPath: string, expected: Json, actual: Json, i: nat)
    requires expected.Obj? && i <= |expected.props| && Alike(cfg, a, b)
    ensures SameRun(cfg, a, b, DictsFrom(cfg, a, itemPath, expected, actual, i), DictsFrom(cfg, b, itemPath, expected, actual, i))
    decreases expected, 2, |expected.props| - i
  {
    if i < |expected.props| {
      var x := DictStep(cfg, a, itemPath, expected, actual, i);
      var y := DictStep(cfg, b, itemPath, expected, actual, i);
      DictStepSame(cfg, a, b, itemPath, expected, actual, i);
      if x.raised.None? {
        DictStepGrows(cfg, a, itemPath, expected, actual, i);
        DictStepGrows(cfg, b, itemPath, expected, actual, i);
        DictsFromSame(cfg, x.st, y.st, itemPath, expected, actual, i + 1);
        DictsFromGrows(cfg, x.st, itemPath, expected, actual, i + 1);
        DictsFromGrows(cfg, y.st, itemPath, expected, actual, i + 1);
        SameRunThen(cfg, a, b, x, y, DictsFrom(cfg, x.st, itemPath, expected, actual, i + 1), DictsFrom(cfg, y.st, itemPath, expected, actual, i + 1));
      }
    }
  }

  lemma {:induction false} DictStepSame(cfg: Config, a: St, b: St, itemPath: string, expected: Json, actual: Json, i: nat)
    requires expected.Obj? && i < |expected.props| && Alike(cfg, a, b)
    ensures SameRun(cfg, a, b, DictStep(cfg, a, itemPath, expected, actual, i), DictStep(cfg, b, itemPath, expected, actual, i))
    decreases expected, 1, 0
  {
    var key := expected.props[i].0;
    var val := expected.props[i].1;
    var a1 := a.(d := a.d.SetPath(itemPath, key));
    var b1 := b.(d := b.d.SetPath(itemPath, key));
    match PyIn(key, actual)
    case None =>
    case Some(false) =>
      AppendAdded(a1.d, Kind.MissingObjProperty, MissingPropertyText);
      AppendAdded(b1.d, Kind.MissingObjProperty, MissingPropertyText);
    case Some(true) =>
      if actual.Obj? {
        var act := Lookup(actual.props, key);
        if val.Obj? {
          TryDictSame(cfg, a1, b1, val, act);
        } else if val.Arr? {
          TryListSame(cfg, a1, b1, val, act);
        } else if !PyEq(val, act) && !KeyToIgnore(cfg, a1.d.path) {
          CompareValuesSame(cfg, a1, b1, val, act);
        }
      }
  }

  /** `__compare_lists` adds the same entries whatever was logged before and wherever the path stood. */
  lemma {:induction false} ListsSame(cfg: Config, a: St, b: St, itemPath: string, expected: Json, actual: seq<Json>)
    requires expected.Arr? && Alike(cfg, a, b)
    ensures SameRun(cfg, a, b, Lists(cfg, a, itemPath, expected, actual), Lists(cfg, b, itemPath, expected, actual))
    decreases expected, 3, 0
  {
    var a1 := SetupMatchKeys(cfg, a.(d := a.d.SetPath(itemPath, "<array>")));
    var b1 := SetupMatchKeys(cfg, b.(d := b.d.SetPath(itemPath, "<array>")));
    var a2 := a1.(d := ArrayLengths(a1.d, |expected.items|, |actual|));
    var b2 := b1.(d := ArrayLengths(b1.d, |expected.items|, |actual|));
    if |expected.items| > |actual| {
      AppendAdded(a1.d, Kind.ArrWithLackOfItems, LackOfItemsText(|expected.items|, |actual|));
      AppendAdded(b1.d, Kind.ArrWithLackOfItems, LackOfItemsText(|expected.items|, |actual|));
    } else if |expected.items| < |actual| {
      AppendAdded(a1.d, Kind.ExceedingArrayItems, ExceedingItemsText(|expected.items|, |actual|));
      AppendAdded(b1.d, Kind.ExceedingArrayItems, ExceedingItemsText(|expected.items|, |actual|));
    }
    assert Added(a1.d, a2.d) == Added(b1.d, b2.d);
    if a1.matchKeys != [] {
      assert Lists(cfg, a, itemPath, expected, actual) == KeysFrom(cfg, a2, a1.d.path, expected, actual, 0);
      assert Lists(cfg, b, itemPath, expected, actual) == KeysFrom(cfg, b2, b1.d.path, expected, actual, 0);
      KeysFromSame(cfg, a2, b2, a1.d.path, expected, actual, 0);
      KeysFromGrows(cfg, a2, a1.d.path, expected, actual, 0);
      KeysFromGrows(cfg, b2, b1.d.path, expected, actual, 0);
      AddedTrans(a1.d, a2.d, KeysFrom(cfg, a2, a1.d.path, expected, actual, 0).st.d);
      AddedTrans(b1.d, b2.d, KeysFrom(cfg, b2, b1.d.path, expected, actual, 0).st.d);
    } else {
      assert Lists(cfg, a, itemPath, expected, actual) == OrderFrom(cfg, a2, a1.d.path, expected, actual, 0);
      assert Lists(cfg, b, itemPath, expected, actual) == OrderFrom(cfg, b2, b1.d.path, expected, actual, 0);
      OrderFromSame(cfg, a2, b2, a1.d.path, expected, actual, 0);
      OrderFromGrows(cfg, a2, a1.d.path, expected, actual, 0);
      OrderFromGrows(cfg, b2, b1.d.path, expected, actual, 0);
      AddedTrans(a1.d, a2.d, OrderFrom(cfg, a2, a1.d.path, expected, actual, 0).st.d);
      AddedTrans(b1.d, b2.d, OrderFrom(cfg, b2, b1.d.path, expected, actual, 0).st.d);
    }
  }

  lemma {:induction false} OrderFromSame(cfg: Config, a: St, b: St, itemPath: string, expected: Json, actual: seq<Json>, i: nat)
    requires expected.Arr? && i <= |expected.items| && Alike(cfg, a, b)
    ensures SameRun(cfg, a, b, OrderFrom(cfg, a, itemPath, expected, actual, i), OrderFrom(cfg, b, itemPath, expected, actual, i))
    decreases expected, 2, |expected.items| - i
  {
    if i < |expected.items| && i < |actual| {
      var a1 := a.(d := a.d.SetPath(itemPath, IndexKey(i)));
      var b1 := b.(d := b.d.SetPath(itemPath, IndexKey(i)));
      var x := ElemStep(cfg, a1, expected.items[i], actual[i]);
      var y := ElemStep(cfg, b1, expected.items[i], actual[i]);
      ElemSame(cfg, a1, b1, expected.items[i], actual[i]);
      if x.raised.None? {
        ElemGrows(cfg, a1, expected.items[i], actual[i]);
        ElemGrows(cfg, b1, expected.items[i], actual[i]);
        OrderFromSame(cfg, x.st, y.st, itemPath, expected, actual, i + 1);
        OrderFromGrows(cfg, x.st, itemPath, expected, actual, i + 1);
        OrderFromGrows(cfg, y.st, itemPath, expected, actual, i + 1);
        SameRunThen(cfg, a1, b1, x, y, OrderFrom(cfg, x.st, itemPath, expected, actual, i + 1), OrderFrom(cfg, y.st, itemPath, expected, actual, i + 1));
      }
    }
  }

  lemma {:induction false} KeysFromSame(cfg: Config, a: St, b: St, itemPath: string, expected: Json, actual: seq<Json>, i: nat)
    requires expected.Arr? && i <= |expected.items| && a.matchKeys == b.matchKeys
    ensures SameRun(cfg, a, b, KeysFrom(cfg, a, itemPath, expected, actual, i), KeysFrom(cfg, b, itemPath, expected, actual, i))
    decreases expected, 2, |expected.items| - i
  {
    if i < |expected.items| {
      var a1 := a.(d := a.d.SetPath(itemPath, IndexKey(i)));
      var b1 := b.(d := b.d.SetPath(itemPath, IndexKey(i)));
      var x := KeysStep(cfg, a1, expected, actual, i);
      var y := KeysStep(cfg, b1, expected, actual, i);
      KeysStepSame(cfg, a1, b1, expected, actual, i);
      assert KeysFrom(cfg, a, itemPath, expected, actual, i) ==
        if x.raised.Some? then x else KeysFrom(cfg, x.st, itemPath, expected, actual, i + 1);
      assert KeysFrom(cfg, b, itemPath, expected, actual, i) ==
        if y.raised.Some? then y else KeysFrom(cfg, y.st, itemPath, expected, actual, i + 1);
      if x.raised.None? {
        KeysStepGrows(cfg, a1, expected, actual, i);
        KeysStepGrows(cfg, b1, expected, actual, i);
        KeysFromSame(cfg, x.st, y.st, itemPath, expected, actual, i + 1);
        KeysFromGrows(cfg, x.st, itemPath, expected, actual, i + 1);
        KeysFromGrows(cfg, y.st, itemPath, expected, actual, i + 1);
        SameRunThen(cfg, a1, b1, x, y, KeysFrom(cfg, x.st, itemPath, expected, actual, i + 1), KeysFrom(cfg, y.st, itemPath, expected, actual, i + 1));
      }
    }
  }

  lemma {:induction false} KeysStepSame(cfg: Config, a: St, b: St, expected: Json, actual: seq<Json>, i: nat)
    requires expected.Arr? && i < |expected.items| && a.d.path == b.d.path && a.matchKeys == b.matchKeys
    ensures SameRun(cfg, a, b, KeysStep(cfg, a, expected, actual, i), KeysStep(cfg, b, expected, actual, i))
    decreases expected, 1, 0
  {
    var val := expected.items[i];
    if val.Obj? {
      match KeyProps(a.matchKeys, val.props)
      case None =>
      case Some(target) =>
        match SimilarRow(target, actual)
        case SearchRaises(e, _) =>
        case NotFound =>
          AppendAdded(a.d, Kind.MissingArrayItem, MissingArrayItemText(target));
          AppendAdded(b.d, Kind.MissingArrayItem, MissingArrayItemText(target));
        case Found(j) =>
          DictsSame(cfg, a, b, a.d.path, val, actual[j]);
    } else if i < |actual| {
      ElemSame(cfg, a, b, val, actual[i]);
    }
  }

  /**
   * `__compare` adds the same entries from any two states with alike match
   * keys; the path matters only to a root type mismatch, which is logged at
   * the current path.
   */
  lemma {:induction false} CompareSame(cfg: Config, a: St, b: St, withRight: bool)
    requires Alike(cfg, a, b)
    requires a.d.path == b.d.path || (cfg.left.Arr? && cfg.right.Arr?) || (cfg.left.Obj? && cfg.right.Obj?)
    ensures SameRun(cfg, a, b, Compare(cfg, a, withRight), Compare(cfg, b, withRight))
  {
    var expected := if withRight then cfg.left else cfg.right;
    var actual := if withRight then cfg.right else cfg.left;
    var rootLog := if withRight then cfg.rightName else cfg.leftName;
    if cfg.left.Arr? && cfg.right.Arr? {
      ListsSame(cfg, a, b, rootLog, expected, actual.items);
    } else if cfg.left.Obj? && cfg.right.Obj? {
      DictsSame(cfg, a, b, rootLog, expected, actual);
    } else {
      AppendAdded(a.d, Kind.IncorrectType, IncorrectTypeText(cfg.left, cfg.right));
      AppendAdded(b.d, Kind.IncorrectType, IncorrectTypeText(cfg.left, cfg.right));
    }
  }

  // -------------------------------------------------------- entry points

  /** The key paths after a run (the run may have stopped half-way through re-rooting them) and its outcome. */
  datatype Run = Run(keys: seq<string>, out: Out)

  /** The entries a run logged, without the summary that closes a run that finished. */
  ghost function Entries(r: Run): seq<string>
  {
    var log := r.out.st.d.log;
    if r.out.raised.None? && log != [] then log[..|log| - 1] else log
  }

  /** A run that finished ends with its summary: TOTAL is the number of entries it logged, and the counters grew by as much. */
  ghost predicate Summarised(before: St, after: St)
  {
    var d := after.d;
    |d.log| >= 1 && d.log[|d.log| - 1] == SummaryText(|d.log| - 1, d.counter) &&
    d.summary == Some(d.log[|d.log| - 1]) &&
    Total(d.counter) == Total(before.d.counter) + (|d.log| - 1) &&
    forall k :: Count(before.d.counter, k) <= Count(d.counter, k)
  }

  /** `compare_with_right`: the right tree checked against the left one. */
  function CompareWithRight(cfg: Config, st: St): (r: Run)
    ensures r.out.raised.None? ==> Summarised(st, r.out.st) && r.keys == ReRoot(ReRoot(cfg.keys, "DATA", cfg.rightName), cfg.rightName, "DATA")
    ensures r.out.raised.Some? ==> r.keys == ReRoot(cfg.keys, "DATA", cfg.rightName) && Grows(Clear(st).d, r.out.st.d)
  {
    var cfg1 := cfg.(keys := ReRoot(cfg.keys, "DATA", cfg.rightName));
    var o := Compare(cfg1, Clear(st), true);
    CompareGrows(cfg1, Clear(st), true);
    if o.raised.Some? then Run(cfg1.keys, o)
    else Run(ReRoot(cfg1.keys, cfg.rightName, "DATA"), Out(o.st.(d := o.st.d.WithSummary()), None))
  }

  /** `compare_with_left`: the left tree checked against the right one. */
  function CompareWithLeft(cfg: Config, st: St): (r: Run)
    ensures r.out.raised.None? ==> Summarised(st, r.out.st) && r.keys == ReRoot(ReRoot(cfg.keys, "DATA", cfg.leftName), cfg.leftName, "DATA")
    ensures r.out.raised.Some? ==> r.keys == ReRoot(cfg.keys, "DATA", cfg.leftName) && Grows(Clear(st).d, r.out.st.d)
  {
    var cfg1 := cfg.(keys := ReRoot(cfg.keys, "DATA", cfg.leftName));
    var o := Compare(cfg1, Clear(st), false);
    CompareGrows(cfg1, Clear(st), false);
    if o.raised.Some? then Run(cfg1.keys, o)
    else Run(ReRoot(cfg1.keys, cfg.leftName, "DATA"), Out(o.st.(d := o.st.d.WithSummary()), None))
  }

  /** `full_compare`: both directions into one log, then one summary. */
  function FullCompare(cfg: Config, st: St): (r: Run)
    ensures r.out.raised.None? ==> Summarised(st, r.out.st)
    ensures r.out.raised.None? ==>
      r.keys == ReRoot(ReRoot(ReRoot(cfg.keys, "DATA", cfg.rightName), cfg.rightName, cfg.leftName), cfg.leftName, "DATA")
    ensures r.out.raised.Some? ==> Grows(Clear(st).d, r.out.st.d)
  {
    var cfg1 := cfg.(keys := ReRoot(cfg.keys, "DATA", cfg.rightName));
    var o1 := Compare(cfg1, Clear(st), true);
    CompareGrows(cfg1, Clear(st), true);
    if o1.raised.Some? then Run(cfg1.keys, o1)
    else
      var cfg2 := cfg.(keys := ReRoot(cfg1.keys, cfg.rightName, cfg.leftName));
      var o2 := Compare(cfg2, o1.st, false);
      CompareGrows(cfg2, o1.st, false);
      GrowsTrans(Clear(st).d, o1.st.d, o2.st.d);
      if o2.raised.Some? then Run(cfg2.keys, o2)
      else Run(ReRoot(cfg2.keys, cfg.leftName, "DATA"), Out(o2.st.(d := o2.st.d.WithSummary()), None))
  }
}
