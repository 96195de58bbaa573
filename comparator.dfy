/**
 * The `JSONComparator` class of json_compare/comparator.py. Its methods
 * change the difference log, the current path and the shared match keys in
 * place, as the Python methods do; each is proved to end in the state (and
 * with the escaping exception, if any) that its function in `CompareSpec`
 * describes.
 */
module Comparator {
  import opened Wrappers
  import opened Text
  import opened Json
  import opened Log
  import opened CompareSpec

  class JSONComparator {
    const diffLog: LogProcessor
    var key: seq<string>
    var matchKeys: seq<string>
    const ignore: seq<string>
    const ignoreTypes: bool
    const left: Json
    const right: Json
    const leftName: string
    const rightName: string

    /** The settings a comparison reads. */
    function Cfg(): Config
      reads this`key
    {
      Config(left, right, leftName, rightName, key, ignore, ignoreTypes)
    }

    /** The state a comparison changes. */
    function State(): St
      reads this`matchKeys, diffLog
    {
      St(diffLog.View(), matchKeys)
    }

    /** `__init__`, with both trees already loaded and the key and ignore settings given as lists. */
    constructor (left: Json, right: Json, leftName: string, rightName: string,
                 key: seq<string>, ignore: seq<string>, ignoreTypes: bool)
      ensures Cfg() == Config(left, right, leftName, rightName, key, ignore, ignoreTypes)
      ensures matchKeys == [] && fresh(diffLog)
      ensures diffLog.log == [] && diffLog.currPath == "" && diffLog.summary == None
      ensures forall k :: Count(diffLog.diffsCounter, k) == 0
    {
      diffLog := new LogProcessor();
      this.key := key;
      matchKeys := [];
      this.ignore := ignore;
      this.ignoreTypes := ignoreTypes;
      this.left := left;
      this.right := right;
      this.leftName := leftName;
      this.rightName := rightName;
    }

    /** `compare_with_right`. */
    method CompareWithRight() returns (raised: Option<Exc>)
      modifies this`key, this`matchKeys, diffLog
      ensures Run(key, Out(State(), raised)) == CompareSpec.CompareWithRight(old(Cfg()), old(State()))
    {
      ClearTempData();
      EditKeyPathRoot("DATA", rightName);
      raised := Compare(true);
      if raised.Some? {
        return;
      }
      EditKeyPathRoot(rightName, "DATA");
      diffLog.SetupSummary();
    }

    /** `compare_with_left`. */
    method CompareWithLeft() returns (raised: Option<Exc>)
      modifies this`key, this`matchKeys, diffLog
      ensures Run(key, Out(State(), raised)) == CompareSpec.CompareWithLeft(old(Cfg()), old(State()))
    {
      ClearTempData();
      EditKeyPathRoot("DATA", leftName);
      raised := Compare(false);
      if raised.Some? {
        return;
      }
      EditKeyPathRoot(leftName, "DATA");
      diffLog.SetupSummary();
    }

    /** `full_compare`. */
    method FullCompare() returns (raised: Option<Exc>)
      modifies this`key, this`matchKeys, diffLog
      ensures Run(key, Out(State(), raised)) == CompareSpec.FullCompare(old(Cfg()), old(State()))
    {
      ClearTempData();
      EditKeyPathRoot("DATA", rightName);
      raised := Compare(true);
      if raised.Some? {
        return;
      }
      EditKeyPathRoot(rightName, leftName);
      raised := Compare(false);
      if raised.Some? {
        return;
      }
      EditKeyPathRoot(leftName, "DATA");
      diffLog.SetupSummary();
    }

    /** `__edit_key_path_root`. */
    method EditKeyPathRoot(from: string, to: string)
      modifies this`key
      ensures key == ReRoot(old(key), from, to)
    {
      key := ReRoot(key, from, to);
    }

    /** `__clear_temp_data`. */
    method ClearTempData()
      modifies this`matchKeys, diffLog
      ensures State() == Clear(old(State()))
    {
      diffLog.log := [];
      matchKeys := [];
      diffLog.currPath := "";
    }

    /** `__compare`. */
    method Compare(withRight: bool) returns (raised: Option<Exc>)
      modifies this`matchKeys, diffLog
      ensures Out(State(), raised) == CompareSpec.Compare(Cfg(), old(State()), withRight)
    {
      var data1, data2, rootLog := left, right, rightName;
      if !withRight {
        data1, data2, rootLog := right, left, leftName;
      }
      if left.Arr? && right.Arr? {
        raised := CompareLists(rootLog, data1, data2.items);
      } else if left.Obj? && right.Obj? {
        raised := CompareDicts(rootLog, data1, data2);
      } else {
        diffLog.IncorrectType(left, right);
        raised := None;
      }
    }

    /** `__compare_dicts`. */
    method CompareDicts(itemPath: string, expected: Json, actual: Json) returns (raised: Option<Exc>)
      requires expected.Obj?
      modifies this`matchKeys, diffLog
      ensures Out(State(), raised) == Dicts(Cfg(), old(State()), itemPath, expected, actual)
      decreases expected, 3, 0
    {
      ghost var start := State();
      var i := 0;
      while i < |expected.props|
        invariant 0 <= i <= |expected.props|
        invariant DictsFrom(Cfg(), start, itemPath, expected, actual, 0) == DictsFrom(Cfg(), State(), itemPath, expected, actual, i)
        decreases |expected.props| - i
      {
        ghost var pre := State();
        var r := CompareProperty(itemPath, expected, actual, i);
        assert DictsFrom(Cfg(), pre, itemPath, expected, actual, i) ==
          if r.Some? then Out(State(), r) else DictsFrom(Cfg(), State(), itemPath, expected, actual, i + 1);
        if r.Some? {
          return r;
        }
        i := i + 1;
      }
      raised := None;
    }

    /** The body of the `__compare_dicts` loop, for the `i`-th property of `expected`. */
    method CompareProperty(itemPath: string, expected: Json, actual: Json, i: nat) returns (raised: Option<Exc>)
      requires expected.Obj? && i < |expected.props|
      modifies this`matchKeys, diffLog
      ensures Out(State(), raised) == DictStep(Cfg(), old(State()), itemPath, expected, actual, i)
      decreases expected, 1, 0
    {
      var name := expected.props[i].0;
      var val := expected.props[i].1;
      diffLog.SetupPath(itemPath, name);
      var present := PyIn(name, actual);
      if present.None? {
        return Some(TypeError);
      }
      if !present.value {
        diffLog.MissingProperty();
        return None;
      }
      if !actual.Obj? {
        return Some(TypeError);
      }
      var act := Lookup(actual.props, name);
      raised := None;
      if val.Obj? {
        raised := TryFindDictAndCompare(val, act);
      } else if val.Arr? {
        raised := TryFindListAndCompare(val, act);
      } else if !PyEq(val, act) && !KeyToIgnore(Cfg(), diffLog.currPath) {
        raised := CompareValues(val, act);
      }
    }

    /** `__compare_lists`. */
    method CompareLists(itemPath: string, expected: Json, actual: seq<Json>) returns (raised: Option<Exc>)
      requires expected.Arr?
      modifies this`matchKeys, diffLog
      ensures Out(State(), raised) == Lists(Cfg(), old(State()), itemPath, expected, actual)
      decreases expected, 3, 0
    {
      diffLog.SetupPath(itemPath, "<array>");
      SetupMatchKeys();
      if matchKeys != [] {
        raised := CompareListsByKeys(diffLog.currPath, expected, actual);
      } else {
        raised := CompareListsByOrder(diffLog.currPath, expected, actual);
      }
    }

    /** `__compare_lists_by_order`. */
    method CompareListsByOrder(itemPath: string, expected: Json, actual: seq<Json>) returns (raised: Option<Exc>)
      requires expected.Arr?
      modifies this`matchKeys, diffLog
      ensures Out(State(), raised) == ByOrder(Cfg(), old(State()), itemPath, expected, actual)
      decreases expected, 2, |expected.items| + 1
    {
      ghost var spec := ByOrder(Cfg(), State(), itemPath, expected, actual);
      CheckArrayLengths(|expected.items|, |actual|);
      var i := 0;
      while i < |expected.items|
        invariant 0 <= i <= |expected.items|
        invariant spec == OrderFrom(Cfg(), State(), itemPath, expected, actual, i)
        decreases |expected.items| - i
      {
        diffLog.SetupPath(itemPath, IndexKey(i));
        if i >= |actual| {
          return None;
        }
        var r := CompareItem(expected.items[i], actual[i]);
        if r.Some? {
          return r;
        }
        i := i + 1;
      }
      raised := None;
    }

    /** The body of the `__compare_lists_by_order` loop past its bound check: one element against its counterpart. */
    method CompareItem(val: Json, act: Json) returns (raised: Option<Exc>)
      modifies this`matchKeys, diffLog
      ensures Out(State(), raised) == ElemStep(Cfg(), old(State()), val, act)
      decreases val, 5, 0
    {
      raised := None;
      if val.Obj? {
        raised := TryFindDictAndCompare(val, act);
      } else if val.Arr? {
        raised := TryFindListAndCompare(val, act);
      } else if !PyEq(val, act) {
        raised := CompareValues(val, act);
      }
    }

    /** `__compare_lists_by_keys`. */
    method CompareListsByKeys(itemPath: string, expected: Json, actual: seq<Json>) returns (raised: Option<Exc>)
      requires expected.Arr?
      modifies this`matchKeys, diffLog
      ensures Out(State(), raised) == ByKeys(Cfg(), old(State()), itemPath, expected, actual)
      decreases expected, 2, |expected.items| + 1
    {
      ghost var spec := ByKeys(Cfg(), State(), itemPath, expected, actual);
      CheckArrayLengths(|expected.items|, |actual|);
      var i := 0;
      while i < |expected.items|
        invariant 0 <= i <= |expected.items|
        invariant spec == KeysFrom(Cfg(), State(), itemPath, expected, actual, i)
        decreases |expected.items| - i
      {
        var r := KeyedPass(itemPath, expected, actual, i);
        if r.Some? {
          return r;
        }
        i := i + 1;
      }
      raised := None;
    }

    /** One turn of the `__compare_lists_by_keys` loop: the path of element `i`, then its pass. */
    method KeyedPass(itemPath: string, expected: Json, actual: seq<Json>, i: nat) returns (raised: Option<Exc>)
      requires expected.Arr? && i < |expected.items|
      modifies this`matchKeys, diffLog
      ensures KeysFrom(Cfg(), old(State()), itemPath, expected, actual, i) ==
        if raised.Some? then Out(State(), raised) else KeysFrom(Cfg(), State(), itemPath, expected, actual, i + 1)
      decreases expected, 2, 0
    {
      KeysFromUnfold(Cfg(), State(), itemPath, expected, actual, i);
      diffLog.SetupPath(itemPath, IndexKey(i));
      raised := CompareKeyedItem(expected, actual, i);
    }

    /**
     * The body of the `__compare_lists_by_keys` loop, for the `i`-th element of
     * `expected`, with the path already at that element.
     */
    method CompareKeyedItem(expected: Json, actual: seq<Json>, i: nat) returns (raised: Option<Exc>)
      requires expected.Arr? && i < |expected.items|
      modifies this`matchKeys, diffLog
      ensures Out(State(), raised) == KeysStep(Cfg(), old(State()), expected, actual, i)
      decreases expected, 1, 0
    {
      var val := expected.items[i];
      if val.Obj? {
        var target := KeyProps(matchKeys, val.props);
        if target.None? {
          return Some(KeyError);
        }
        var similar := SimilarRow(target.value, actual);
        match similar
        case SearchRaises(e, _) =>
          return Some(e);
        case NotFound =>
          diffLog.MissingArrayItem(target.value);
          return None;
        case Found(j) =>
          raised := CompareDicts(diffLog.currPath, val, actual[j]);
      } else if i >= |actual| {
        return Some(IndexError);
      } else {
        raised := CompareItem(val, actual[i]);
      }
    }

    /** `__try_find_list_and_compare`. */
    method TryFindListAndCompare(expected: Json, actual: Json) returns (raised: Option<Exc>)
      requires expected.Arr?
      modifies this`matchKeys, diffLog
      ensures Out(State(), raised) == TryList(Cfg(), old(State()), expected, actual)
      decreases expected, 4, 0
    {
      if actual.Arr? {
        raised := CompareLists(diffLog.currPath, expected, actual.items);
      } else if actual.Str? && ignoreTypes {
        raised := Some(JsonDecoding);
      } else {
        raised := None;
      }
    }

    /** `__try_find_dict_and_compare`. */
    method TryFindDictAndCompare(expected: Json, actual: Json) returns (raised: Option<Exc>)
      requires expected.Obj?
      modifies this`matchKeys, diffLog
      ensures Out(State(), raised) == TryDict(Cfg(), old(State()), expected, actual)
      decreases expected, 4, 0
    {
      if actual.Obj? {
        raised := CompareDicts(diffLog.currPath, expected, actual);
      } else if actual.Str? && ignoreTypes {
        raised := Some(JsonDecoding);
      } else {
        raised := None;
      }
    }

    /** `__check_array_lengths`. */
    method CheckArrayLengths(expLen: nat, actLen: nat)
      modifies diffLog
      ensures diffLog.View() == ArrayLengths(old(diffLog.View()), expLen, actLen)
    {
      if expLen > actLen {
        diffLog.LackOfArrayItems(expLen, actLen);
      } else if expLen < actLen {
        diffLog.ExceedingArrayItems(expLen, actLen);
      }
    }

    /** `__compare_values`. */
    method CompareValues(expected: Json, actual: Json) returns (raised: Option<Exc>)
      modifies diffLog
      ensures Out(State(), raised) == CompareSpec.CompareValues(Cfg(), old(State()), expected, actual)
    {
      ghost var spec := CompareSpec.CompareValues(Cfg(), State(), expected, actual);
      raised := None;
      if PyEq(expected, actual) {
        return;
      }
      if !ignoreTypes {
        diffLog.UnequalValues(expected, actual);
        return;
      }
      var c := Coerce(expected, actual);
      match c
      case Accepted =>
      case Rejected =>
        diffLog.UnequalValues(expected, actual);
        assert State() == spec.st;
      case CoercionRaises(e) =>
        raised := Some(e);
    }

    /** `__setup_match_keys`. */
    method SetupMatchKeys()
      modifies this`matchKeys
      ensures State() == CompareSpec.SetupMatchKeys(Cfg(), old(State()))
    {
      if key == [] {
        return;
      }
      var keys := [];
      var i := 0;
      while i < |key|
        invariant 0 <= i <= |key|
        invariant keys == MatchKeysAt(key[..i], diffLog.currPath)
      {
        var tail := RemovePrefix(key[i], diffLog.currPath + "//");
        if !Contains(tail, "//") {
          keys := keys + [tail];
        }
        assert key[..i + 1][..i] == key[..i];
        i := i + 1;
      }
      assert key[..i] == key;
      matchKeys := keys;
    }
  }
}
