/**
 * The difference log of json_compare/log_processor.py: the current path, the
 * ordered list of log entries, one counter per kind of difference and the
 * summary trailer.
 *
 * `Diffs` is the value of a `LogProcessor`'s fields; its member functions say
 * what each of the class's methods does to them, and the class's methods are
 * proved to do exactly that.
 */
module Log {

  import opened Wrappers
  import opened Text
  import opened Json

  /** The six kinds of difference, in the order the counter declares them. */
  datatype Kind =
    | MissingObjProperty
    | IncorrectType
    | ArrWithLackOfItems
    | ExceedingArrayItems
    | UnequalValue
    | MissingArrayItem

  const Kinds: seq<Kind> :=
    [Kind.MissingObjProperty, Kind.IncorrectType, Kind.ArrWithLackOfItems,
     Kind.ExceedingArrayItems, Kind.UnequalValue, Kind.MissingArrayItem]

  /** Position of a kind in the declaration order. */
  function KindIndex(k: Kind): (r: nat)
    ensures r < |Kinds| && Kinds[r] == k
  {
    match k
    case MissingObjProperty => 0
    case IncorrectType => 1
    case ArrWithLackOfItems => 2
    case ExceedingArrayItems => 3
    case UnequalValue => 4
    case MissingArrayItem => 5
  }

  /** The counter key under which the source tallies a kind. */
  function KindName(k: Kind): string
  {
    match k
    case MissingObjProperty => "missing_obj_property"
    case IncorrectType => "incorrect_type"
    case ArrWithLackOfItems => "arr_with_lack_of_items"
    case ExceedingArrayItems => "exceeding_array_items"
    case UnequalValue => "unequal_value"
    case MissingArrayItem => "missing_array_item"
  }

  /** `collections.Counter` keyed by kind; an absent key reads as zero. */
  type Counter = map<Kind, nat>

  const ZeroCounter: Counter :=
    map[Kind.MissingObjProperty := 0, Kind.IncorrectType := 0, Kind.ArrWithLackOfItems := 0,
        Kind.ExceedingArrayItems := 0, Kind.UnequalValue := 0, Kind.MissingArrayItem := 0]

  function Count(c: Counter, k: Kind): nat { if k in c then c[k] else 0 }

  /** `counter[k] += 1`: exactly one count moves, by one. */
  function Bump(c: Counter, k: Kind): (r: Counter)
    ensures Count(r, k) == Count(c, k) + 1
    ensures forall j :: j != k ==> Count(r, j) == Count(c, j)
  {
    c[k := Count(c, k) + 1]
  }

  /** The sum of all six counts. */
  function Total(c: Counter): nat
  {
    Count(c, Kind.MissingObjProperty) + Count(c, Kind.IncorrectType) + Count(c, Kind.ArrWithLackOfItems) +
    Count(c, Kind.ExceedingArrayItems) + Count(c, Kind.UnequalValue) + Count(c, Kind.MissingArrayItem)
  }

  /**
   * `_setup_path`: the path of `key` under `prev`. The source special-cases an
   * empty `prev`, but both branches produce `prev + "//" + key`.
   */
  function JoinPath(prev: string, key: string): (r: string)
    ensures r == prev + "//" + key
  {
    if prev != "" then prev + "//" + key else "//" + key
  }

  /**
   * `__convert_to_json_type`. The `int` test comes first and a Python `bool` is
   * an `int`, so booleans are tagged `<int>` and the `<bool>` branch is dead.
   * (The source's `<float>` branch has no counterpart: the model has no floats.)
   */
  function TypeTag(v: Json): (r: string)
    ensures r != "<bool>"
    ensures v.Bool? ==> r == "<int>"
    ensures r == "<int>" <==> v.Int? || v.Bool?
  {
    if v.Int? || v.Bool? then "<int>"
    else if v.Str? then "<str>"
    else if v.Bool? then "<bool>"
    else if v.Obj? then "<object>"
    else if v.Arr? then "<array>"
    else "<null>"
  }

  /** How unequal values and key values are shown: a string in double quotes, anything else as `str()` shows it. */
  function Quote(v: Json): (r: string)
    ensures v.Str? ==> |r| == |v.s| + 2 && r[0] == '"' && r[|r| - 1] == '"' && r[1..|r| - 1] == v.s
    ensures !v.Str? ==> r == Show(v)
  {
    if v.Str? then "\"" + v.s + "\"" else Show(v)
  }

  /** A log entry: the path of the difference on its first line, the message on the second. */
  function Entry(path: string, message: string): (r: string)
    ensures path + "\n" <= r
  {
    var r := path + "\n" + message;
    assert r[..|path| + 1] == path + "\n";
    r
  }

  const MissingPropertyText: string := "property is missing"

  function IncorrectTypeText(expected: Json, actual: Json): string
  {
    "incorrect type: expected " + Show(expected) + " (" + TypeTag(expected) + "), got "
    + Show(actual) + " (" + TypeTag(actual) + ") instead"
  }

  function LackOfItemsText(expLen: nat, actLen: nat): string
  {
    "lack of items in array: expected " + NatToString(expLen) + " items, got only " + NatToString(actLen)
  }

  function ExceedingItemsText(expLen: nat, actLen: nat): string
  {
    "too much items in array: expected " + NatToString(expLen) + " items, got " + NatToString(actLen)
  }

  function UnequalValuesText(expected: Json, actual: Json): string
  {
    "unequal values: expected " + Quote(expected) + ", got " + Quote(actual) + " instead"
  }

  /** The `key: value` items of a missing array item, values quoted as `Quote` does. */
  function KeyValueItems(props: seq<(string, Json)>): (r: seq<string>)
    ensures |r| == |props|
    ensures forall i :: 0 <= i < |props| ==> props[i].0 + ": " <= r[i]
  {
    seq(|props|, i requires 0 <= i < |props| => props[i].0 + ": " + Quote(props[i].1))
  }

  function MissingArrayItemText(props: seq<(string, Json)>): string
  {
    "missing array item: expected <object> with " + Join(KeyValueItems(props), ", ")
  }

  function SummaryHeader(total: nat): string
  {
    "---------------------" + "\nTOTAL: " + NatToString(total) + " differences\n"
  }

  function CounterLine(k: Kind, n: nat): string
  {
    "-" + KindName(k) + ": " + NatToString(n) + "\n"
  }

  /** The summary lines for the kinds `ks`, skipping zero counts, in the order of `ks`. */
  function CounterLines(c: Counter, ks: seq<Kind>): string
  {
    if ks == [] then ""
    else
      var k := ks[|ks| - 1];
      CounterLines(c, ks[..|ks| - 1]) + (if Count(c, k) != 0 then CounterLine(k, Count(c, k)) else "")
  }

  /** Regrouping a concatenation; a lemma so that the summary loop sees this fact without its heap. */
  lemma AppendAssoc(a: string, b: string, c: string)
    ensures (a + b) + c == a + (b + c)
  {
  }

  lemma CounterLinesStep(c: Counter, ks: seq<Kind>, i: nat)
    requires i < |ks|
    ensures CounterLines(c, ks[..i + 1]) ==
            CounterLines(c, ks[..i]) + (if Count(c, ks[i]) != 0 then CounterLine(ks[i], Count(c, ks[i])) else "")
  {
    assert ks[..i + 1][..i] == ks[..i];
  }

  /** The text `_setup_summary` builds when the log holds `total` entries. */
  function SummaryText(total: nat, c: Counter): string
  {
    SummaryHeader(total) + CounterLines(c, Kinds)
  }

  /** One difference recorded: one entry appended, opening with the current path, and one count raised. */
  ghost predicate Recorded(d: Diffs, r: Diffs, k: Kind)
  {
    |r.log| == |d.log| + 1 && r.log[..|d.log|] == d.log && d.path + "\n" <= r.log[|d.log|] &&
    Count(r.counter, k) == Count(d.counter, k) + 1 &&
    (forall j :: j != k ==> Count(r.counter, j) == Count(d.counter, j)) &&
    r.path == d.path && r.summary == d.summary
  }

  /**
   * `b` is `a` with more differences recorded: the old entries are kept, no
   * count goes down, the counts grew by as much as the log did, and the summary
   * is untouched.
   */
  ghost predicate Grows(a: Diffs, b: Diffs)
  {
    a.log <= b.log &&
    Total(b.counter) == Total(a.counter) + (|b.log| - |a.log|) &&
    (forall k :: Count(a.counter, k) <= Count(b.counter, k)) &&
    b.summary == a.summary
  }

  lemma GrowsTrans(a: Diffs, b: Diffs, c: Diffs)
    requires Grows(a, b) && Grows(b, c)
    ensures Grows(a, c)
  {
  }

  /** Recording one difference is growth by one entry and one count. */
  lemma RecordedGrows(d: Diffs, r: Diffs, k: Kind)
    requires Recorded(d, r, k)
    ensures Grows(d, r) && |r.log| == |d.log| + 1 && Total(r.counter) == Total(d.counter) + 1
  {
  }

  /** The entries `b` holds beyond those of `a`. */
  ghost function Added(a: Diffs, b: Diffs): seq<string>
  {
    if |a.log| <= |b.log| then b.log[|a.log|..] else []
  }

  /** What two growths in a row add is what the first adds, then what the second adds. */
  lemma AddedTrans(a: Diffs, b: Diffs, c: Diffs)
    requires Grows(a, b) && Grows(b, c)
    ensures Added(a, c) == Added(a, b) + Added(b, c)
  {
    assert c.log == a.log + Added(a, b) + Added(b, c);
  }

  /** One recorded difference adds the one entry it appends, whatever came before it. */
  lemma AppendAdded(d: Diffs, k: Kind, message: string)
    ensures Added(d, d.Append(k, message)) == [Entry(d.path, message)]
  {
  }

  /** `_unequal_values` adds one entry, which depends only on the current path and the two values. */
  lemma UnequalAdded(d: Diffs, expected: Json, actual: Json)
    ensures Added(d, d.UnequalValues(expected, actual)) ==
      [Entry(d.path, if TypeOf(expected) == TypeOf(actual) then UnequalValuesText(expected, actual) else IncorrectTypeText(expected, actual))]
  {
    if TypeOf(expected) == TypeOf(actual) {
      AppendAdded(d, Kind.UnequalValue, UnequalValuesText(expected, actual));
    } else {
      AppendAdded(d, Kind.IncorrectType, IncorrectTypeText(expected, actual));
    }
  }

  /** The fields of a `LogProcessor`: `log`, `curr_path`, `diffs_counter` and `summary` (absent until set up). */
  datatype Diffs = Diffs(log: seq<string>, path: string, counter: Counter, summary: Option<string>)
  {
    function SetPath(prev: string, key: string): (r: Diffs)
      ensures r.path == prev + "//" + key
      ensures r.log == log && r.counter == counter && r.summary == summary
    {
      this.(path := JoinPath(prev, key))
    }

    function Append(k: Kind, message: string): (r: Diffs)
      ensures Recorded(this, r, k) && r.log[|log|] == Entry(path, message)
    {
      this.(log := log + [Entry(path, message)], counter := Bump(counter, k))
    }

    function MissingProperty(): (r: Diffs)
      ensures Recorded(this, r, Kind.MissingObjProperty)
    {
      Append(Kind.MissingObjProperty, MissingPropertyText)
    }

    function IncorrectType(expected: Json, actual: Json): (r: Diffs)
      ensures Recorded(this, r, Kind.IncorrectType)
    {
      Append(Kind.IncorrectType, IncorrectTypeText(expected, actual))
    }

    function LackOfArrayItems(expLen: nat, actLen: nat): (r: Diffs)
      ensures Recorded(this, r, Kind.ArrWithLackOfItems)
    {
      Append(Kind.ArrWithLackOfItems, LackOfItemsText(expLen, actLen))
    }

    function ExceedingArrayItems(expLen: nat, actLen: nat): (r: Diffs)
      ensures Recorded(this, r, Kind.ExceedingArrayItems)
    {
      Append(Kind.ExceedingArrayItems, ExceedingItemsText(expLen, actLen))
    }

    /** `_unequal_values`: values of different Python types are recorded as an incorrect type instead. */
    function UnequalValues(expected: Json, actual: Json): (r: Diffs)
      ensures Recorded(this, r, if TypeOf(expected) == TypeOf(actual) then Kind.UnequalValue else Kind.IncorrectType)
      ensures TypeOf(expected) != TypeOf(actual) ==> r == IncorrectType(expected, actual)
      ensures TypeOf(expected) != TypeOf(actual) ==> Count(r.counter, Kind.UnequalValue) == Count(counter, Kind.UnequalValue)
    {
      if TypeOf(expected) != TypeOf(actual) then IncorrectType(expected, actual)
      else Append(Kind.UnequalValue, UnequalValuesText(expected, actual))
    }

    function MissingArrayItem(keyProps: seq<(string, Json)>): (r: Diffs)
      ensures Recorded(this, r, Kind.MissingArrayItem)
    {
      Append(Kind.MissingArrayItem, MissingArrayItemText(keyProps))
    }

    /** `_setup_summary`: the summary is appended to the log and kept as the latest summary. */
    function WithSummary(): (r: Diffs)
      ensures |r.log| == |log| + 1 && r.log[..|log|] == log
      ensures r.log[|log|] == SummaryText(|log|, counter) && r.summary == Some(r.log[|log|])
      ensures r.path == path && r.counter == counter
    {
      var text := SummaryText(|log|, counter);
      this.(log := log + [text], summary := Some(text))
    }
  }

  class LogProcessor {
    var log: seq<string>
    var currPath: string
    var diffsCounter: Counter
    var summary: Option<string>

    function View(): Diffs
      reads this
    {
      Diffs(log, currPath, diffsCounter, summary)
    }

    constructor ()
      ensures log == [] && currPath == "" && summary == None
      ensures forall k :: Count(diffsCounter, k) == 0
    {
      log := [];
      currPath := "";
      diffsCounter := ZeroCounter;
      summary := None;
    }

    /** `get_summary`: `None` until a summary has been set up, then the latest one. */
    method GetSummary() returns (r: Option<string>)
      ensures r == summary
    {
      r := summary;
    }

    method SetupPath(prevPath: string, key: string)
      modifies this
      ensures View() == old(View()).SetPath(prevPath, key)
    {
      if prevPath != "" {
        currPath := prevPath + "//" + key;
      } else {
        currPath := "//" + key;
      }
    }

    method MissingProperty()
      modifies this
      ensures View() == old(View()).MissingProperty()
    {
      log := log + [Entry(currPath, MissingPropertyText)];
      diffsCounter := Bump(diffsCounter, Kind.MissingObjProperty);
    }

    method IncorrectType(expected: Json, actual: Json)
      modifies this
      ensures View() == old(View()).IncorrectType(expected, actual)
    {
      log := log + [Entry(currPath, IncorrectTypeText(expected, actual))];
      diffsCounter := Bump(diffsCounter, Kind.IncorrectType);
    }

    method LackOfArrayItems(expLen: nat, actLen: nat)
      modifies this
      ensures View() == old(View()).LackOfArrayItems(expLen, actLen)
    {
      log := log + [Entry(currPath, LackOfItemsText(expLen, actLen))];
      diffsCounter := Bump(diffsCounter, Kind.ArrWithLackOfItems);
    }

    method ExceedingArrayItems(expLen: nat, actLen: nat)
      modifies this
      ensures View() == old(View()).ExceedingArrayItems(expLen, actLen)
    {
      log := log + [Entry(currPath, ExceedingItemsText(expLen, actLen))];
      diffsCounter := Bump(diffsCounter, Kind.ExceedingArrayItems);
    }

    method UnequalValues(expected: Json, actual: Json)
      modifies this
      ensures View() == old(View()).UnequalValues(expected, actual)
    {
      if TypeOf(expected) != TypeOf(actual) {
        IncorrectType(expected, actual);
        return;
      }
      log := log + [Entry(currPath, UnequalValuesText(expected, actual))];
      diffsCounter := Bump(diffsCounter, Kind.UnequalValue);
    }

    method MissingArrayItem(keyProps: seq<(string, Json)>)
      modifies this
      ensures View() == old(View()).MissingArrayItem(keyProps)
    {
      log := log + [Entry(currPath, MissingArrayItemText(keyProps))];
      diffsCounter := Bump(diffsCounter, Kind.MissingArrayItem);
    }

    method SetupSummary()
      modifies this
      ensures View() == old(View()).WithSummary()
    {
      ghost var header := SummaryHeader(|log|);
      var text := SummaryHeader(|log|);
      var i := 0;
      while i < |Kinds|
        invariant 0 <= i <= |Kinds|
        invariant text == header + CounterLines(diffsCounter, Kinds[..i])
        invariant View() == old(View())
      {
        var k := Kinds[i];
        var n := Count(diffsCounter, k);
        CounterLinesStep(diffsCounter, Kinds, i);
        if n != 0 {
          AppendAssoc(header, CounterLines(diffsCounter, Kinds[..i]), CounterLine(k, n));
          text := text + CounterLine(k, n);
        }
        i := i + 1;
      }
      assert Kinds[..i] == Kinds;
      assert text == SummaryText(|log|, diffsCounter);
      summary := Some(text);
      log := log + [text];
    }
  }
}
