/**
 * Properties of the comparison described in `CompareSpec`: what a
 * comparison of a tree with itself logs, how missing and extra object keys,
 * ignored paths, keyed array rows and type coercion show up in the log, how
 * key paths are re-rooted, and what the summary lists.
 */
module Properties {
  import opened Wrappers
  import opened Text
  import opened Json
  import opened Log
  import opened CompareSpec

  // ------------------------------------------------ comparing a tree with itself

  /** A comparison step that logged nothing, counted nothing, raised nothing and left the match keys alone. */
  ghost predicate Quiet(st: St, o: Out)
  {
    o.raised.None? && o.st.d.log == st.d.log && o.st.d.counter == st.d.counter &&
    o.st.d.summary == st.d.summary && o.st.matchKeys == st.matchKeys
  }

  /** A value with no array anywhere inside it: its comparison never reads the match keys. */
  ghost predicate NoArrays(v: Json)
  {
    match v
    case Arr(_) => false
    case Obj(ps) => forall i :: 0 <= i < |ps| ==> NoArrays(ps[i].1)
    case _ => true
  }

  lemma {:induction false} SelfElemQuiet(cfg: Config, st: St, v: Json)
    requires WellFormed(v) && ((cfg.keys == [] && st.matchKeys == []) || NoArrays(v))
    ensures Quiet(st, ElemStep(cfg, st, v, v))
    decreases v, 5, 0
  {
    if v.Obj? {
      assert ElemStep(cfg, st, v, v) == TryDict(cfg, st, v, v) == DictsFrom(cfg, st, st.d.path, v, v, 0);
      SelfDictsQuiet(cfg, st, st.d.path, v, 0);
    } else if v.Arr? {
      assert ElemStep(cfg, st, v, v) == TryList(cfg, st, v, v) == Lists(cfg, st, st.d.path, v, v.items);
      SelfListsQuiet(cfg, st, st.d.path, v);
    } else {
      PyEqReflexive(v);
    }
  }

  lemma {:induction false} SelfListsQuiet(cfg: Config, st: St, itemPath: string, v: Json)
    requires v.Arr? && WellFormed(v) && cfg.keys == [] && st.matchKeys == []
    ensures Quiet(st, Lists(cfg, st, itemPath, v, v.items))
    decreases v, 3, 0
  {
    var st1 := SetupMatchKeys(cfg, st.(d := st.d.SetPath(itemPath, "<array>")));
    assert st1.matchKeys == [];
    assert ArrayLengths(st1.d, |v.items|, |v.items|) == st1.d;
    SelfOrderQuiet(cfg, st1, st1.d.path, v, 0);
  }

  lemma {:induction false} SelfOrderQuiet(cfg: Config, st: St, itemPath: string, v: Json, i: nat)
    requires v.Arr? && WellFormed(v) && i <= |v.items| && cfg.keys == [] && st.matchKeys == []
    ensures Quiet(st, OrderFrom(cfg, st, itemPath, v, v.items, i))
    decreases v, 2, |v.items| - i
  {
    if i < |v.items| {
      var st1 := st.(d := st.d.SetPath(itemPath, IndexKey(i)));
      SelfElemQuiet(cfg, st1, v.items[i]);
      var o := ElemStep(cfg, st1, v.items[i], v.items[i]);
      SelfOrderQuiet(cfg, o.st, itemPath, v, i + 1);
    }
  }

  /**
   * An object compared with itself logs nothing: without match keys, or under
   * any key configuration when the object holds no array.
   */
  lemma {:induction false} SelfDictsQuiet(cfg: Config, st: St, itemPath: string, v: Json, i: nat)
    requires v.Obj? && WellFormed(v) && i <= |v.props|
    requires (cfg.keys == [] && st.matchKeys == []) || NoArrays(v)
    ensures Quiet(st, DictsFrom(cfg, st, itemPath, v, v, i))
    decreases v, 2, |v.props| - i
  {
    if i < |v.props| {
      var key := v.props[i].0;
      var val := v.props[i].1;
      GetMember(v.props, i);
      var st1 := st.(d := st.d.SetPath(itemPath, key));
      var o := DictStep(cfg, st, itemPath, v, v, i);
      if val.Obj? {
        assert o == TryDict(cfg, st1, val, val) == DictsFrom(cfg, st1, st1.d.path, val, val, 0);
        SelfDictsQuiet(cfg, st1, st1.d.path, val, 0);
      } else if val.Arr? {
        assert o == TryList(cfg, st1, val, val) == Lists(cfg, st1, st1.d.path, val, val.items);
        SelfListsQuiet(cfg, st1, st1.d.path, val);
      } else {
        PyEqReflexive(val);
      }
      assert Quiet(st, o);
      SelfDictsQuiet(cfg, o.st, itemPath, v, i + 1);
    }
  }

  /**
   * Comparing an object or array with an equal copy of itself, in either
   * direction, logs nothing: without match keys, or under any key
   * configuration when the root is an object that holds no array.
   */
  lemma SelfRootQuiet(cfg: Config, st: St, withRight: bool)
    requires cfg.left == cfg.right && (cfg.left.Obj? || cfg.left.Arr?) && WellFormed(cfg.left)
    requires (cfg.keys == [] && st.matchKeys == []) || (cfg.left.Obj? && NoArrays(cfg.left))
    ensures Quiet(st, Compare(cfg, st, withRight))
  {
    var rootLog := if withRight then cfg.rightName else cfg.leftName;
    if cfg.left.Obj? {
      SelfDictsQuiet(cfg, st, rootLog, cfg.left, 0);
    } else {
      SelfListsQuiet(cfg, st, rootLog, cfg.left);
    }
  }

  /**
   * Without match keys, each of the three entry points on two equal
   * objects or arrays leaves a log that holds only the summary, with TOTAL 0.
   */
  lemma SelfCompareClean(cfg: Config, st: St)
    requires cfg.left == cfg.right && (cfg.left.Obj? || cfg.left.Arr?) && WellFormed(cfg.left)
    requires cfg.keys == []
    ensures var r := CompareSpec.CompareWithRight(cfg, st);
      r.out.raised.None? && r.keys == [] &&
      r.out.st.d.log == [SummaryText(0, st.d.counter)] && r.out.st.d.counter == st.d.counter
    ensures var r := CompareSpec.CompareWithLeft(cfg, st);
      r.out.raised.None? && r.keys == [] &&
      r.out.st.d.log == [SummaryText(0, st.d.counter)] && r.out.st.d.counter == st.d.counter
    ensures var r := CompareSpec.FullCompare(cfg, st);
      r.out.raised.None? && r.keys == [] &&
      r.out.st.d.log == [SummaryText(0, st.d.counter)] && r.out.st.d.counter == st.d.counter
  {
    SelfRootQuiet(cfg.(keys := ReRoot(cfg.keys, "DATA", cfg.leftName)), Clear(st), false);
    var cfg1 := cfg.(keys := ReRoot(cfg.keys, "DATA", cfg.rightName));
    SelfRootQuiet(cfg1, Clear(st), true);
    var o1 := Compare(cfg1, Clear(st), true);
    var cfg2 := cfg.(keys := ReRoot(cfg1.keys, cfg.rightName, cfg.leftName));
    SelfRootQuiet(cfg2, o1.st, false);
  }

  /**
   * The root kinds decide: two roots that are not both objects or both arrays
   * give one incorrect-type entry, even when they are equal.
   */
  lemma ScalarRootsReported(cfg: Config, st: St)
    requires !cfg.left.Obj? && !cfg.left.Arr?
    ensures var r := CompareSpec.CompareWithRight(cfg, st);
      r.out.raised.None? &&
      r.out.st.d.log == [Entry("", IncorrectTypeText(cfg.left, cfg.right)), SummaryText(1, r.out.st.d.counter)] &&
      r.out.st.d.counter == Bump(st.d.counter, Kind.IncorrectType)
  {
  }

  // ------------------------------------------------------- object properties

  /**
   * An expected property the actual object lacks is one missing-property
   * entry at `itemPath//key`, whatever the ignore list says, and nothing
   * beneath it is compared.
   */
  lemma MissingKeyReported(cfg: Config, st: St, itemPath: string, expected: Json, actual: Json, i: nat)
    requires expected.Obj? && actual.Obj? && i < |expected.props| && !HasKey(actual.props, expected.props[i].0)
    ensures var r := DictStep(cfg, st, itemPath, expected, actual, i);
      var path := itemPath + "//" + expected.props[i].0;
      r.raised.None? && r.st.matchKeys == st.matchKeys && r.st.d.path == path &&
      r.st.d.log == st.d.log + [Entry(path, MissingPropertyText)] &&
      r.st.d.counter == Bump(st.d.counter, Kind.MissingObjProperty)
  {
  }

  /** Properties only the actual object has never matter: only its values under the expected keys are read. */
  lemma {:induction false} ExtraActualKeysIrrelevant(cfg: Config, st: St, itemPath: string, expected: Json, a: Json, b: Json, i: nat)
    requires expected.Obj? && a.Obj? && b.Obj? && i <= |expected.props|
    requires forall j :: 0 <= j < |expected.props| ==> Get(a.props, expected.props[j].0) == Get(b.props, expected.props[j].0)
    ensures DictsFrom(cfg, st, itemPath, expected, a, i) == DictsFrom(cfg, st, itemPath, expected, b, i)
    decreases |expected.props| - i
  {
    if i < |expected.props| {
      var o := DictStep(cfg, st, itemPath, expected, a, i);
      assert o == DictStep(cfg, st, itemPath, expected, b, i);
      ExtraActualKeysIrrelevant(cfg, o.st, itemPath, expected, a, b, i + 1);
    }
  }

  /** An unequal scalar property under an ignored path is not reported. */
  lemma IgnoredMismatchSilent(cfg: Config, st: St, itemPath: string, expected: Json, actual: Json, i: nat)
    requires expected.Obj? && actual.Obj? && i < |expected.props| && HasKey(actual.props, expected.props[i].0)
    requires !expected.props[i].1.Obj? && !expected.props[i].1.Arr?
    requires KeyToIgnore(cfg, itemPath + "//" + expected.props[i].0)
    ensures var r := DictStep(cfg, st, itemPath, expected, actual, i);
      r.raised.None? && r.st.d.log == st.d.log && r.st.d.counter == st.d.counter
  {
  }

  /** The same mismatch at a path that is not ignored is one entry, with type coercion off. */
  lemma UnignoredMismatchReported(cfg: Config, st: St, itemPath: string, expected: Json, actual: Json, i: nat)
    requires expected.Obj? && actual.Obj? && i < |expected.props| && HasKey(actual.props, expected.props[i].0)
    requires !expected.props[i].1.Obj? && !expected.props[i].1.Arr?
    requires !PyEq(expected.props[i].1, Lookup(actual.props, expected.props[i].0))
    requires !KeyToIgnore(cfg, itemPath + "//" + expected.props[i].0) && !cfg.ignoreTypes
    ensures var r := DictStep(cfg, st, itemPath, expected, actual, i);
      r.raised.None? && |r.st.d.log| == |st.d.log| + 1 && Total(r.st.d.counter) == Total(st.d.counter) + 1
  {
    var st1 := st.(d := st.d.SetPath(itemPath, expected.props[i].0));
    var val := expected.props[i].1;
    var act := Lookup(actual.props, expected.props[i].0);
    var k := if TypeOf(val) == TypeOf(act) then Kind.UnequalValue else Kind.IncorrectType;
    RecordedGrows(st1.d, st1.d.UnequalValues(val, act), k);
  }

  // -------------------------------------------------------------- ignore paths

  /** A path under a side's label, without index segments, is looked up as `DATA` followed by the rest. */
  lemma NormalizeLabelled(name: string, other: string, rest: string)
    requires name != [] && other != [] && NoOpenBracket(name + rest)
    requires !Contains(rest, name) && !Contains("DATA" + rest, other) && !Contains("DATA" + rest, "////")
    ensures Normalize(name + rest, name, other) == "DATA" + rest
  {
    StripIndexesNoBracket(name + rest);
    ReplaceLeading(name, rest, "DATA");
    ReplaceAbsent(rest, name, "DATA");
    ReplaceAbsent("DATA" + rest, other, "DATA");
    ReplaceAbsent("DATA" + rest, "////", "//");
  }

  /**
   * An array element's index segment is dropped and the `////` it leaves
   * behind collapses, so `<label>a//[i]//b` is looked up as `DATA a//b`.
   */
  lemma {:induction false} NormalizeIndexed(name: string, other: string, a: string, m: string, b: string)
    requires name != [] && other != []
    requires NoOpenBracket(name + a) && NoParens(m) && NoBrackets(b)
    requires !Contains(a + "////" + b, name) && !Contains("DATA" + a + "////" + b, other)
    requires !Contains("DATA" + a + "///", "////") && !Contains(b, "////")
    ensures Normalize(name + a + "//[" + m + "]//" + b, name, other) == "DATA" + a + "//" + b
  {
    var p := name + a + "//";
    var q := "//" + b;
    assert NoOpenBracket(p);
    assert NoBrackets(q);
    assert name + a + "//[" + m + "]//" + b == p + "[" + m + "]" + q;
    StripIndexesSegment(p, m, q);
    var rest := a + "////" + b;
    assert p + q == name + rest;
    ReplaceLeading(name, rest, "DATA");
    ReplaceAbsent(rest, name, "DATA");
    assert "DATA" + rest == "DATA" + a + "////" + b;
    ReplaceAbsent("DATA" + rest, other, "DATA");
    assert "////"[..3] == "///";
    assert "DATA" + rest == ("DATA" + a) + "////" + b;
    ReplaceThrough("DATA" + a, "////", b, "//");
    ReplaceAbsent(b, "////", "//");
  }

  // ---------------------------------------------------------- keyed array rows

  /** An expected object whose key properties match no actual row is one missing-array-item entry, and nothing is compared beneath it. */
  lemma KeyedRowMissing(cfg: Config, st: St, expected: Json, actual: seq<Json>, i: nat, target: seq<(string, Json)>)
    requires expected.Arr? && i < |expected.items| && expected.items[i].Obj?
    requires KeyProps(st.matchKeys, expected.items[i].props) == Some(target)
    requires forall j :: 0 <= j < |actual| ==> CheckRow(target, actual[j]) == Differs
    ensures KeysStep(cfg, st, expected, actual, i) == Out(st.(d := st.d.MissingArrayItem(target)), None)
    ensures Recorded(st.d, KeysStep(cfg, st, expected, actual, i).st.d, Kind.MissingArrayItem)
  {
  }

  /** Otherwise the expected object is compared, at the element's path, with the first row that matches its key properties. */
  lemma KeyedRowFound(cfg: Config, st: St, expected: Json, actual: seq<Json>, i: nat, target: seq<(string, Json)>, j: nat)
    requires expected.Arr? && i < |expected.items| && expected.items[i].Obj?
    requires KeyProps(st.matchKeys, expected.items[i].props) == Some(target)
    requires j < |actual| && CheckRow(target, actual[j]) == Matches
    requires forall j' :: 0 <= j' < j ==> CheckRow(target, actual[j']) == Differs
    ensures KeysStep(cfg, st, expected, actual, i) == Dicts(cfg, st, st.d.path, expected.items[i], actual[j])
  {
    FirstMatchFound(target, actual, 0, j);
  }

  /** The search stops at the first matching row when every row before it differs. */
  lemma {:induction false} FirstMatchFound(target: seq<(string, Json)>, data: seq<Json>, from: nat, m: nat)
    requires from <= m < |data| && CheckRow(target, data[m]) == Matches
    requires forall j :: from <= j < m ==> CheckRow(target, data[j]) == Differs
    ensures SimilarRowFrom(target, data, from) == Found(m)
    decreases m - from
  {
    var c := CheckRow(target, data[from]);
    if from < m {
      assert c == Differs;
      FirstMatchFound(target, data, from + 1, m);
      assert SimilarRowFrom(target, data, from) == SimilarRowFrom(target, data, from + 1);
    } else {
      assert c == Matches;
    }
  }

  /** A row is matched on the values it holds under the match keys, compared the Python way. */
  lemma RowMatchesOnKeyValues(keys: seq<string>, exp: seq<(string, Json)>, row: Json)
    requires KeyProps(keys, exp).Some? && row.Obj?
    requires forall i :: 0 <= i < |keys| ==> HasKey(row.props, keys[i]) && PyEq(Lookup(row.props, keys[i]), Lookup(exp, keys[i]))
    ensures CheckRow(KeyProps(keys, exp).value, row) == Matches
  {
    var t := KeyProps(keys, exp).value;
    forall i | 0 <= i < |t|
      ensures HasKey(row.props, t[i].0) && PyEq(Lookup(row.props, t[i].0), t[i].1)
    {
      GetMember(t, i);
      assert HasKey(t, t[i].0);
      assert t[i].0 in keys;
      var n :| 0 <= n < |keys| && keys[n] == t[i].0;
    }
  }

  // ---------------------------------------------------------------- coercion

  /** With `ignore_types`, a number and its decimal rendering are accepted either way round. */
  lemma NumericStringAccepted(cfg: Config, st: St, n: int)
    requires cfg.ignoreTypes
    ensures CompareValues(cfg, st, Int(n), Str(IntToString(n))) == Out(st, None)
    ensures CompareValues(cfg, st, Str(IntToString(n)), Int(n)) == Out(st, None)
  {
    PyIntOfRendering(n);
  }

  /** Without it, the same pair is one incorrect-type entry, and the unequal-value count does not move. */
  lemma NumericStringStrict(cfg: Config, st: St, n: int)
    requires !cfg.ignoreTypes
    ensures var r := CompareValues(cfg, st, Int(n), Str(IntToString(n)));
      r.raised.None? && Recorded(st.d, r.st.d, Kind.IncorrectType) &&
      Count(r.st.d.counter, Kind.UnequalValue) == Count(st.d.counter, Kind.UnequalValue)
  {
  }

  /** `int("yes")` raises `ValueError`, which skips the `bool()` test: `True` against `"yes"` is reported. */
  lemma BoolAgainstWordReported(cfg: Config, st: St)
    requires cfg.ignoreTypes
    ensures CompareValues(cfg, st, Bool(true), Str("yes")) == Out(st.(d := st.d.IncorrectType(Bool(true), Str("yes"))), None)
  {
    assert !IsDigit('y');
    assert !IsDecimal("yes");
  }

  /** `int("5")` is not `True`, but `bool("5")` is: `True` against `"5"` is accepted. */
  lemma BoolAgainstDigitAccepted(cfg: Config, st: St)
    requires cfg.ignoreTypes
    ensures CompareValues(cfg, st, Bool(true), Str("5")) == Out(st, None)
  {
    assert IsDecimal("5");
    assert ParseDecimal("5") == 5;
  }

  /** `int(None)` raises a `TypeError` that `__compare_values` does not catch. */
  lemma NumberAgainstNullRaises(cfg: Config, st: St, n: int)
    requires cfg.ignoreTypes
    ensures CompareValues(cfg, st, Int(n), Null) == Out(st, Some(TypeError))
  {
  }

  // ------------------------------------------------------------- key re-rooting

  /** A key path `DATA…` becomes `<label>…` for the run and `DATA…` again afterwards. */
  lemma KeyReRootRoundTrip(name: string, rest: string)
    requires name != [] && !Contains(rest, "DATA") && !Contains(rest, name)
    ensures Replace("DATA" + rest, "DATA", name) == name + rest
    ensures Replace(name + rest, name, "DATA") == "DATA" + rest
  {
    ReplaceLeading("DATA", rest, name);
    ReplaceAbsent(rest, "DATA", name);
    ReplaceLeading(name, rest, "DATA");
    ReplaceAbsent(rest, name, "DATA");
  }

  /** A finished `compare_with_right` leaves key paths of the documented `DATA…` form as they were. */
  lemma CompareWithRightRestoresKeys(cfg: Config, st: St)
    requires cfg.rightName != []
    requires forall i :: 0 <= i < |cfg.keys| ==>
      "DATA" <= cfg.keys[i] && !Contains(cfg.keys[i][4..], "DATA") && !Contains(cfg.keys[i][4..], cfg.rightName)
    ensures var r := CompareSpec.CompareWithRight(cfg, st); r.out.raised.None? ==> r.keys == cfg.keys
  {
    var once := ReRoot(cfg.keys, "DATA", cfg.rightName);
    var back := ReRoot(once, cfg.rightName, "DATA");
    forall i | 0 <= i < |cfg.keys| ensures back[i] == cfg.keys[i] {
      var rest := cfg.keys[i][4..];
      assert cfg.keys[i] == "DATA" + rest;
      KeyReRootRoundTrip(cfg.rightName, rest);
    }
  }

  /** A key path `DATA…` re-rooted at the right label and then moved to the left one is the path re-rooted at the left label. */
  lemma KeyRelabel(right: string, left: string, rest: string)
    requires right != [] && !Contains(rest, "DATA") && !Contains(rest, right)
    ensures Replace(Replace("DATA" + rest, "DATA", right), right, left) == Replace("DATA" + rest, "DATA", left)
  {
    KeyReRootRoundTrip(right, rest);
    ReplaceLeading(right, rest, left);
    ReplaceAbsent(rest, right, left);
    ReplaceLeading("DATA", rest, left);
    ReplaceAbsent(rest, "DATA", left);
  }

  /** Under the documented `DATA…` form, the second direction of `full_compare` uses the key paths `compare_with_left` uses. */
  lemma FullCompareLeftKeys(cfg: Config)
    requires cfg.rightName != []
    requires forall i :: 0 <= i < |cfg.keys| ==>
      "DATA" <= cfg.keys[i] && !Contains(cfg.keys[i][4..], "DATA") && !Contains(cfg.keys[i][4..], cfg.rightName)
    ensures ReRoot(ReRoot(cfg.keys, "DATA", cfg.rightName), cfg.rightName, cfg.leftName) == ReRoot(cfg.keys, "DATA", cfg.leftName)
  {
    var once := ReRoot(cfg.keys, "DATA", cfg.rightName);
    forall i | 0 <= i < |cfg.keys|
      ensures ReRoot(once, cfg.rightName, cfg.leftName)[i] == ReRoot(cfg.keys, "DATA", cfg.leftName)[i]
    {
      var rest := cfg.keys[i][4..];
      assert cfg.keys[i] == "DATA" + rest;
      KeyRelabel(cfg.rightName, cfg.leftName, rest);
    }
  }

  /**
   * The second direction of `full_compare`, started where the first one
   * stopped, adds the entries a fresh `compare_with_left` logs and raises as
   * it does.
   */
  lemma SecondDirectionSame(cfg: Config, st: St)
    requires Compare(cfg.(keys := ReRoot(cfg.keys, "DATA", cfg.rightName)), Clear(st), true).raised.None?
    ensures var cfgL := cfg.(keys := ReRoot(ReRoot(cfg.keys, "DATA", cfg.rightName), cfg.rightName, cfg.leftName));
      var o1 := Compare(cfg.(keys := ReRoot(cfg.keys, "DATA", cfg.rightName)), Clear(st), true);
      var o2 := Compare(cfgL, o1.st, false);
      var ol := Compare(cfgL, Clear(st), false);
      o2.raised == ol.raised && o2.st.d.log == o1.st.d.log + ol.st.d.log
  {
    var cfg1 := cfg.(keys := ReRoot(cfg.keys, "DATA", cfg.rightName));
    var cfgL := cfg.(keys := ReRoot(cfg1.keys, cfg.rightName, cfg.leftName));
    var o1 := Compare(cfg1, Clear(st), true);
    var b := Clear(st);
    assert Alike(cfgL, o1.st, b) by {
      CompareSame(cfg1, b, b, true);
    }
    assert o1.st.d.path == b.d.path || (cfg.left.Arr? && cfg.right.Arr?) || (cfg.left.Obj? && cfg.right.Obj?);
    var o2 := Compare(cfgL, o1.st, false);
    var ol := Compare(cfgL, b, false);
    CompareSame(cfgL, o1.st, b, false);
    CompareGrows(cfgL, o1.st, false);
    CompareGrows(cfgL, b, false);
    SameRunOnEmpty(cfgL, o1.st, b, o2, ol);
  }

  /** Alike runs, the second from an empty log: the first adds that run's whole log. */
  lemma SameRunOnEmpty(cfg: Config, a: St, b: St, x: Out, y: Out)
    requires SameRun(cfg, a, b, x, y) && Grows(a.d, x.st.d) && Grows(b.d, y.st.d) && b.d.log == []
    ensures x.raised == y.raised && x.st.d.log == a.d.log + y.st.d.log
  {
  }

  /** When its first direction raises, `full_compare` ends exactly as `compare_with_right` does. */
  lemma FullCompareStopsWithRight(cfg: Config, st: St)
    ensures var r := CompareSpec.CompareWithRight(cfg, st);
      r.out.raised.Some? ==> CompareSpec.FullCompare(cfg, st) == r
  {
  }

  /**
   * Otherwise `full_compare` is `compare_with_right` followed by
   * `compare_with_left` in one log: it raises as `compare_with_left` does, its
   * entries are those of `compare_with_right` followed by those of
   * `compare_with_left`, and the key paths end as `compare_with_left` leaves
   * them. The key paths must have the documented `DATA…` form.
   */
  lemma FullCompareJoinsDirections(cfg: Config, st: St)
    requires cfg.rightName != []
    requires forall i :: 0 <= i < |cfg.keys| ==>
      "DATA" <= cfg.keys[i] && !Contains(cfg.keys[i][4..], "DATA") && !Contains(cfg.keys[i][4..], cfg.rightName)
    requires CompareSpec.CompareWithRight(cfg, st).out.raised.None?
    ensures var f := CompareSpec.FullCompare(cfg, st);
      var l := CompareSpec.CompareWithLeft(cfg, st);
      f.out.raised == l.out.raised && f.keys == l.keys &&
      Entries(f) == Entries(CompareSpec.CompareWithRight(cfg, st)) + Entries(l)
  {
    FullCompareLeftKeys(cfg);
    SecondDirectionSame(cfg, st);
    RightEntries(cfg, st);
    LeftEntries(cfg, st);
    FullEntries(cfg, st);
  }

  /** The entries and outcome of `compare_with_right` are those of its one comparison. */
  lemma RightEntries(cfg: Config, st: St)
    ensures var o := Compare(cfg.(keys := ReRoot(cfg.keys, "DATA", cfg.rightName)), Clear(st), true);
      var r := CompareSpec.CompareWithRight(cfg, st);
      r.out.raised == o.raised && Entries(r) == o.st.d.log
  {
  }

  /** The entries, outcome and final key paths of `compare_with_left` are those of its one comparison. */
  lemma LeftEntries(cfg: Config, st: St)
    ensures var cfgL := cfg.(keys := ReRoot(cfg.keys, "DATA", cfg.leftName));
      var o := Compare(cfgL, Clear(st), false);
      var l := CompareSpec.CompareWithLeft(cfg, st);
      l.out.raised == o.raised && Entries(l) == o.st.d.log &&
      l.keys == (if o.raised.None? then ReRoot(cfgL.keys, cfg.leftName, "DATA") else cfgL.keys)
  {
  }

  /** After a first direction that raised nothing, `full_compare` ends with its second comparison. */
  lemma FullEntries(cfg: Config, st: St)
    requires Compare(cfg.(keys := ReRoot(cfg.keys, "DATA", cfg.rightName)), Clear(st), true).raised.None?
    ensures var cfg1 := cfg.(keys := ReRoot(cfg.keys, "DATA", cfg.rightName));
      var cfg2 := cfg.(keys := ReRoot(cfg1.keys, cfg.rightName, cfg.leftName));
      var o2 := Compare(cfg2, Compare(cfg1, Clear(st), true).st, false);
      var f := CompareSpec.FullCompare(cfg, st);
      f.out.raised == o2.raised && Entries(f) == o2.st.d.log &&
      f.keys == (if o2.raised.None? then ReRoot(cfg2.keys, cfg.leftName, "DATA") else cfg2.keys)
  {
  }

  /** A property the actual object lacks is reported, and the report stays in the log until the loop ends. */
  lemma {:induction false} MissingKeyKept(cfg: Config, st: St, itemPath: string, expected: Json, actual: Json, i: nat, j: nat)
    requires expected.Obj? && actual.Obj? && i <= j < |expected.props| && !HasKey(actual.props, expected.props[j].0)
    requires DictsFrom(cfg, st, itemPath, expected, actual, i).raised.None?
    ensures Entry(itemPath + "//" + expected.props[j].0, MissingPropertyText) in
            DictsFrom(cfg, st, itemPath, expected, actual, i).st.d.log
    decreases |expected.props| - i
  {
    var o := DictStep(cfg, st, itemPath, expected, actual, i);
    assert DictsFrom(cfg, st, itemPath, expected, actual, i) ==
      if o.raised.Some? then o else DictsFrom(cfg, o.st, itemPath, expected, actual, i + 1);
    if i == j {
      MissingKeyReported(cfg, st, itemPath, expected, actual, i);
      DictsFromGrows(cfg, o.st, itemPath, expected, actual, i + 1);
      var log := DictsFrom(cfg, o.st, itemPath, expected, actual, i + 1).st.d.log;
      assert log[|st.d.log|] == o.st.d.log[|st.d.log|];
    } else {
      MissingKeyKept(cfg, o.st, itemPath, expected, actual, i + 1, j);
    }
  }

  /** `compare_with_right` reports a top-level property of the left object that the right object lacks. */
  lemma RightReportsMissingKey(cfg: Config, st: St, k: string)
    requires cfg.left.Obj? && cfg.right.Obj? && HasKey(cfg.left.props, k) && !HasKey(cfg.right.props, k)
    ensures var r := CompareSpec.CompareWithRight(cfg, st);
      r.out.raised.None? ==> Entry(cfg.rightName + "//" + k, MissingPropertyText) in Entries(r)
  {
    GetSomeIff(cfg.left.props, k);
    var j :| 0 <= j < |cfg.left.props| && cfg.left.props[j].0 == k;
    RightEntries(cfg, st);
    var o := Compare(cfg.(keys := ReRoot(cfg.keys, "DATA", cfg.rightName)), Clear(st), true);
    if o.raised.None? {
      MissingKeyKept(cfg.(keys := ReRoot(cfg.keys, "DATA", cfg.rightName)), Clear(st), cfg.rightName, cfg.left, cfg.right, 0, j);
    }
  }

  /** `compare_with_left` reports a top-level property of the right object that the left object lacks. */
  lemma LeftReportsMissingKey(cfg: Config, st: St, k: string)
    requires cfg.left.Obj? && cfg.right.Obj? && HasKey(cfg.right.props, k) && !HasKey(cfg.left.props, k)
    ensures var l := CompareSpec.CompareWithLeft(cfg, st);
      l.out.raised.None? ==> Entry(cfg.leftName + "//" + k, MissingPropertyText) in Entries(l)
  {
    GetSomeIff(cfg.right.props, k);
    var j :| 0 <= j < |cfg.right.props| && cfg.right.props[j].0 == k;
    LeftEntries(cfg, st);
    var o := Compare(cfg.(keys := ReRoot(cfg.keys, "DATA", cfg.leftName)), Clear(st), false);
    if o.raised.None? {
      MissingKeyKept(cfg.(keys := ReRoot(cfg.keys, "DATA", cfg.leftName)), Clear(st), cfg.leftName, cfg.right, cfg.left, 0, j);
    }
  }

  /**
   * `full_compare` reports a top-level property that only one of two objects
   * has, whichever side has it: under the right label when only the left
   * object has it, under the left label when only the right object has it.
   */
  lemma FullCompareReportsOneSidedKeys(cfg: Config, st: St, k: string)
    requires cfg.rightName != []
    requires forall i :: 0 <= i < |cfg.keys| ==>
      "DATA" <= cfg.keys[i] && !Contains(cfg.keys[i][4..], "DATA") && !Contains(cfg.keys[i][4..], cfg.rightName)
    requires cfg.left.Obj? && cfg.right.Obj?
    ensures var f := CompareSpec.FullCompare(cfg, st);
      f.out.raised.None? ==>
        (HasKey(cfg.left.props, k) && !HasKey(cfg.right.props, k) ==>
           Entry(cfg.rightName + "//" + k, MissingPropertyText) in f.out.st.d.log) &&
        (HasKey(cfg.right.props, k) && !HasKey(cfg.left.props, k) ==>
           Entry(cfg.leftName + "//" + k, MissingPropertyText) in f.out.st.d.log)
  {
    var f := CompareSpec.FullCompare(cfg, st);
    if f.out.raised.None? {
      FullCompareHoldsBoth(cfg, st);
      var r := CompareSpec.CompareWithRight(cfg, st);
      var l := CompareSpec.CompareWithLeft(cfg, st);
      if HasKey(cfg.left.props, k) && !HasKey(cfg.right.props, k) {
        RightReportsMissingKey(cfg, st, k);
        assert Entry(cfg.rightName + "//" + k, MissingPropertyText) in Entries(r) + Entries(l);
      }
      if HasKey(cfg.right.props, k) && !HasKey(cfg.left.props, k) {
        LeftReportsMissingKey(cfg, st, k);
        assert Entry(cfg.leftName + "//" + k, MissingPropertyText) in Entries(r) + Entries(l);
      }
    }
  }

  /** A `full_compare` that finished holds the entries of both finished directions, in order. */
  lemma FullCompareHoldsBoth(cfg: Config, st: St)
    requires cfg.rightName != []
    requires forall i :: 0 <= i < |cfg.keys| ==>
      "DATA" <= cfg.keys[i] && !Contains(cfg.keys[i][4..], "DATA") && !Contains(cfg.keys[i][4..], cfg.rightName)
    ensures var f := CompareSpec.FullCompare(cfg, st);
      var r := CompareSpec.CompareWithRight(cfg, st);
      var l := CompareSpec.CompareWithLeft(cfg, st);
      f.out.raised.None? ==>
        r.out.raised.None? && l.out.raised.None? && Entries(r) + Entries(l) <= f.out.st.d.log
  {
    var r := CompareSpec.CompareWithRight(cfg, st);
    var f := CompareSpec.FullCompare(cfg, st);
    if f.out.raised.None? {
      FullCompareStopsWithRight(cfg, st);
      assert r.out.raised.None?;
      FullCompareJoinsDirections(cfg, st);
      EntriesPrefix(f);
    }
  }

  /** The entries of a run are a prefix of its log. */
  lemma EntriesPrefix(r: Run)
    ensures Entries(r) <= r.out.st.d.log
  {
  }

  // ------------------------------------------------------------------ summary

  /** The kinds of `ks` whose count is not zero, in the order of `ks`. */
  function NonZeroKinds(c: Counter, ks: seq<Kind>): (r: seq<Kind>)
    ensures forall k :: k in r <==> k in ks && Count(c, k) != 0
    ensures |r| <= |ks|
  {
    if ks == [] then []
    else if Count(c, ks[0]) != 0 then [ks[0]] + NonZeroKinds(c, ks[1..])
    else NonZeroKinds(c, ks[1..])
  }

  /** One summary line for each of `ks`, in order. */
  function Lines(c: Counter, ks: seq<Kind>): string
  {
    if ks == [] then "" else CounterLine(ks[0], Count(c, ks[0])) + Lines(c, ks[1..])
  }

  lemma {:induction false} NonZeroKindsSnoc(c: Counter, ks: seq<Kind>, k: Kind)
    ensures NonZeroKinds(c, ks + [k]) == NonZeroKinds(c, ks) + (if Count(c, k) != 0 then [k] else [])
    decreases |ks|
  {
    if ks != [] {
      assert (ks + [k])[1..] == ks[1..] + [k];
      NonZeroKindsSnoc(c, ks[1..], k);
    } else {
      assert ks + [k] == [k];
    }
  }

  lemma {:induction false} LinesSnoc(c: Counter, ks: seq<Kind>, k: Kind)
    ensures Lines(c, ks + [k]) == Lines(c, ks) + CounterLine(k, Count(c, k))
    decreases |ks|
  {
    if ks != [] {
      assert (ks + [k])[1..] == ks[1..] + [k];
      LinesSnoc(c, ks[1..], k);
    } else {
      assert ks + [k] == [k];
    }
  }

  /** The counter lines are one line per kind with a non-zero count, in the order given. */
  lemma {:induction false} CounterLinesNonZero(c: Counter, ks: seq<Kind>)
    ensures CounterLines(c, ks) == Lines(c, NonZeroKinds(c, ks))
    decreases |ks|
  {
    if ks != [] {
      var init := ks[..|ks| - 1];
      var k := ks[|ks| - 1];
      assert ks == init + [k];
      CounterLinesNonZero(c, init);
      NonZeroKindsSnoc(c, init, k);
      if Count(c, k) != 0 {
        LinesSnoc(c, NonZeroKinds(c, init), k);
      } else {
        assert NonZeroKinds(c, init) + [] == NonZeroKinds(c, init);
      }
    }
  }

  /** `_setup_summary` lists exactly the non-zero counters, in declaration order, under the TOTAL line. */
  lemma SummaryListsNonZero(total: nat, c: Counter)
    ensures SummaryText(total, c) == SummaryHeader(total) + Lines(c, NonZeroKinds(c, Kinds))
  {
    CounterLinesNonZero(c, Kinds);
  }

  /** With every counter at zero the summary is the TOTAL line alone. */
  lemma CleanSummary(total: nat, c: Counter)
    requires forall k :: Count(c, k) == 0
    ensures SummaryText(total, c) == SummaryHeader(total)
  {
    SummaryListsNonZero(total, c);
    assert NonZeroKinds(c, Kinds) == [];
  }

  // -------------------------------------------------------------- the arity slip

  /**
   * As the file stands, comparing `[1]` with `[2]` raises `TypeError` and logs
   * nothing; with the length check called as intended it logs one
   * unequal-value entry.
   */
  lemma ArraysAsWrittenRaise(cfg: Config, st: St, itemPath: string)
    requires !cfg.ignoreTypes && cfg.keys == [] && st.matchKeys == []
    ensures var r := ListsAsWritten(cfg, st, itemPath, Arr([Int(1)]), [Int(2)]);
      r.raised == Some(TypeError) && r.st.d.log == st.d.log
    ensures var r := Lists(cfg, st, itemPath, Arr([Int(1)]), [Int(2)]);
      r.raised.None? && |r.st.d.log| == |st.d.log| + 1 &&
      r.st.d.counter == Bump(st.d.counter, Kind.UnequalValue)
  {
    var st1 := SetupMatchKeys(cfg, st.(d := st.d.SetPath(itemPath, "<array>")));
    assert ArrayLengths(st1.d, 1, 1) == st1.d;
    var st2 := st1.(d := st1.d.SetPath(st1.d.path, IndexKey(0)));
    assert OrderFrom(cfg, st1, st1.d.path, Arr([Int(1)]), [Int(2)], 0) ==
      OrderFrom(cfg, CompareValues(cfg, st2, Int(1), Int(2)).st, st1.d.path, Arr([Int(1)]), [Int(2)], 1);
  }

  /**
   * With the length check called as intended and no match keys, an actual
   * array shorter than the expected one is reported first, at the `<array>` path, and the report
   * survives the rest of the comparison.
   */
  lemma ShortArrayReported(cfg: Config, st: St, itemPath: string, expected: Json, actual: seq<Json>)
    requires expected.Arr? && cfg.keys == [] && st.matchKeys == [] && |actual| < |expected.items|
    ensures var r := Lists(cfg, st, itemPath, expected, actual).st.d;
      |r.log| > |st.d.log| &&
      r.log[|st.d.log|] == Entry(itemPath + "//<array>", LackOfItemsText(|expected.items|, |actual|)) &&
      Count(r.counter, Kind.ArrWithLackOfItems) > Count(st.d.counter, Kind.ArrWithLackOfItems)
  {
    var st1 := st.(d := st.d.SetPath(itemPath, "<array>"));
    assert SetupMatchKeys(cfg, st1) == st1;
    var st2 := st1.(d := ArrayLengths(st1.d, |expected.items|, |actual|));
    assert st2.d == st1.d.Append(Kind.ArrWithLackOfItems, LackOfItemsText(|expected.items|, |actual|));
    assert Lists(cfg, st, itemPath, expected, actual) == ByOrder(cfg, st1, st1.d.path, expected, actual);
    OrderFromGrows(cfg, st2, st1.d.path, expected, actual, 0);
    var r := OrderFrom(cfg, st2, st1.d.path, expected, actual, 0).st.d;
    assert r.log[|st.d.log|] == st2.d.log[|st.d.log|];
  }
}
