# json-compare in Dafny

A model of `json_compare`, a Python library that compares two JSON documents
and writes a log of their differences. The model has two classes and the
functions that specify them:

- **`JSONComparator`** walks an *expected* tree and an *actual* tree in
  lock-step.
  - Objects are compared property by property, in the expected object's order.
  - Arrays are compared by position. When match keys are configured for the
    array's path, they are compared instead by finding the row with the same
    key values.
  - Unequal scalars are reported. Type coercion (`ignore_types`) can accept
    them, and ignored paths (`ignore`) silence them.
  - Three entry points reset the log and re-root the key paths:
    `compare_with_right`, `compare_with_left` and `full_compare`.
- **`LogProcessor`** keeps the current path, the ordered log of differences,
  a counter for each of six difference kinds, and the summary.

Files:

- `wrappers.dfy` holds `Option`.
- `text.dfy` holds decimal rendering and parsing, `str.replace`,
  `str.removeprefix`, the substring test, and the index-stripping regular
  expression of `__key_to_ignore`.
- `json.dfy` holds the `Json` value, Python's `==`, `type()`, `in`, `int()`,
  `bool()` and `str()` on it.
- `log.dfy` holds the `LogProcessor` class and `Diffs`, the value of its
  fields. `SetupPath` and the six recording methods are proved to do what
  the `Diffs` function of the same name does. `SetupSummary` is proved to do
  what `Diffs.WithSummary` does. `GetSummary` returns the summary field.
- `compare_spec.dfy` (module `CompareSpec`) holds the comparison as
  functions. The configuration is `Config`. The state the comparison changes
  is `St`: the log fields plus the shared match-key list. An exception that
  escapes a comparison ends it, and `Out.raised` records it.
- `comparator.dfy` holds the `JSONComparator` class. Its methods change the
  log, the path and the match keys in place. Each method's postcondition
  equates its final state and exception with the `CompareSpec` function it
  implements.
- `properties.dfy` holds lemmas about those functions.

Behaviour of the code that the model keeps:

- `__clear_temp_data` does not reset `diffs_counter`. Counts therefore add
  up across runs on one comparator, while TOTAL counts only the current
  run's entries (`CompareSpec.Summarised`).
- Paths are joined with `//`.
- Two roots that are not both objects or both arrays are logged as one
  incorrect type, even when they are equal. The comparison goes on to the
  summary.

## Model

| member | source | states |
|---|---|---|
| Log.LogProcessor.constructor | json_compare/log_processor.py:6-19 | the log, the path and the summary start empty and all six counts start at zero |
| Log.LogProcessor.GetSummary | json_compare/log_processor.py:21-31 | returns nothing until a summary is set up, and the latest summary afterwards |
| Log.JoinPath | json_compare/log_processor.py:33-37 | both branches give `prev + "//" + key`; an empty `prev` gives `"//" + key` |
| Log.Diffs.SetPath | json_compare/log_processor.py:33-37 | the path becomes `prev//key`; log, counts and summary are unchanged |
| Log.LogProcessor.SetupPath | json_compare/log_processor.py:33-37 | the object's fields change exactly as `Diffs.SetPath` says |
| Log.Diffs.Append | json_compare/log_processor.py:39-106 | one entry is appended: the current path, a newline, then the message. Exactly one count goes up by one and the other five are unchanged |
| Log.Diffs.MissingProperty | json_compare/log_processor.py:39-42 | records one entry of kind missing_obj_property |
| Log.LogProcessor.MissingProperty | json_compare/log_processor.py:39-42 | the fields change exactly as `Diffs.MissingProperty` says |
| Log.Diffs.IncorrectType | json_compare/log_processor.py:44-56 | records one entry of kind incorrect_type |
| Log.LogProcessor.IncorrectType | json_compare/log_processor.py:44-56 | the fields change exactly as `Diffs.IncorrectType` says |
| Log.Diffs.LackOfArrayItems | json_compare/log_processor.py:58-64 | records one entry of kind arr_with_lack_of_items |
| Log.LogProcessor.LackOfArrayItems | json_compare/log_processor.py:58-64 | the fields change exactly as `Diffs.LackOfArrayItems` says |
| Log.Diffs.ExceedingArrayItems | json_compare/log_processor.py:66-72 | records one entry of kind exceeding_array_items |
| Log.LogProcessor.ExceedingArrayItems | json_compare/log_processor.py:66-72 | the fields change exactly as `Diffs.ExceedingArrayItems` says |
| Log.Diffs.UnequalValues | json_compare/log_processor.py:74-90 | values of different Python types are recorded as an incorrect type, and the unequal_value count does not move; values of the same type are recorded as unequal |
| Log.LogProcessor.UnequalValues | json_compare/log_processor.py:74-90 | the fields change exactly as `Diffs.UnequalValues` says |
| Log.Quote | json_compare/log_processor.py:82-84 | a string is shown inside double quotes; any other value is shown as `str()` shows it |
| Log.KeyValueItems | json_compare/log_processor.py:98-102 | one `key: value` item for each key property, in order, each item starting with its key |
| Log.Diffs.MissingArrayItem | json_compare/log_processor.py:92-106 | records one entry of kind missing_array_item |
| Log.LogProcessor.MissingArrayItem | json_compare/log_processor.py:92-106 | the fields change exactly as `Diffs.MissingArrayItem` says |
| Log.Diffs.WithSummary | json_compare/log_processor.py:108-117 | appends exactly one entry, the summary text. Its TOTAL is the log length before the append, and it also becomes the stored summary. Path and counts are unchanged |
| Log.LogProcessor.SetupSummary | json_compare/log_processor.py:108-117 | the loop over the counters builds the summary text of `Diffs.WithSummary` |
| Properties.SummaryListsNonZero | json_compare/log_processor.py:108-117 | the summary lists exactly the kinds with a non-zero count, one line each, in declaration order, under the TOTAL line |
| Properties.CounterLinesNonZero | json_compare/log_processor.py:113-115 | the counter lines equal one line per non-zero kind of the list, in the list's order |
| Properties.CleanSummary | json_compare/log_processor.py:108-117 | with every count at zero the summary is the TOTAL line alone |
| Log.TypeTag | json_compare/log_processor.py:119-136 | total; booleans are tagged `<int>` because the `int` test comes first, so `<bool>` is never returned |
| Log.RecordedGrows | json_compare/log_processor.py:39-106 | recording a difference keeps the old entries and adds one entry and one count |
| Log.GrowsTrans | json_compare/log_processor.py:39-106 | several recordings together still keep the old entries, never lower a count, and raise the counts by exactly the number of entries added |
| Log.AddedTrans | json_compare/log_processor.py:39-106 | the entries added over two stretches of recording are those of the first stretch followed by those of the second |
| Log.AppendAdded | json_compare/log_processor.py:39-106 | recording one difference adds exactly one entry, the current path and the message, whatever the log held before |
| Log.UnequalAdded | json_compare/log_processor.py:74-90 | `_unequal_values` adds exactly one entry, whose text depends only on the path and the two values |
| Json.PyEqReflexive | json_compare/comparator.py:131 | Python `==` holds between every well-formed value and itself |
| Json.PyEq | json_compare/comparator.py:131 | no contract of its own: Python `==` on JSON values, with `True == 1` and dicts compared whatever their order. Its properties are stated by `Json.PyEqReflexive` and `Json.ScalarEqSameType`, and `CompareSpec.CompareValues` states what a comparison does when it holds |
| Json.ScalarEqSameType | json_compare/comparator.py:246 | equal values of different Python types can only be `bool` and `int` |
| Json.PyIn | json_compare/comparator.py:122 | `key in x` raises `TypeError` exactly for scalars other than strings; on a dict it tests the keys |
| Json.GetMember | json_compare/comparator.py:125-132 | in an object with distinct keys, `obj[key]` finds the member's own value |
| Json.PyInt | json_compare/comparator.py:251 | `int()` raises `TypeError` exactly on None, lists and dicts |
| Json.PyIntOfRendering | json_compare/comparator.py:251 | `int(str(n)) == n` |
| Json.Show | json_compare/log_processor.py:85-88 | a string shows as itself and an integer as its decimal digits; other values show as `Json.Repr` renders them |
| Json.Repr | json_compare/log_processor.py:98-102 | no contract of its own: Python `repr()` of a value inside an f-string. It is used only for the text of log entries, whose properties `Log.KeyValueItems` and `Log.UnequalAdded` state |
| Text.IntToStringRoundTrip | json_compare/comparator.py:251 | decimal rendering of an integer parses back to it |
| Text.RemovePrefix | json_compare/comparator.py:287 | `removeprefix` strips `p` when the string starts with it and otherwise changes nothing |
| Text.Replace | json_compare/comparator.py:224-226 | no contract of its own: `str.replace`. Its properties are stated by `Text.ReplaceAbsent`, `Text.ReplaceLeading` and `Text.ReplaceThrough` |
| Text.ReplaceAbsent | json_compare/comparator.py:224-226 | replacing a pattern that does not occur changes nothing |
| Text.ReplaceLeading | json_compare/comparator.py:103 | a leading occurrence is replaced at the front |
| Text.ReplaceThrough | json_compare/comparator.py:226 | the first occurrence after an occurrence-free stretch is the one replaced |
| Text.StripIndexesSegment | json_compare/comparator.py:223 | the greedy index pattern deletes everything from the first `[` to the last `]` that comes before any parenthesis |
| Text.StripIndexesNoBracket | json_compare/comparator.py:223 | a path without `[` is not changed by the index pattern |
| Text.StripIndexes | json_compare/comparator.py:223 | no contract of its own: the substitution of `\[[^()]*\]` by nothing. Its properties are stated by `Text.StripIndexesSegment` and `Text.StripIndexesNoBracket` |
| Comparator.JSONComparator.constructor | json_compare/comparator.py:14-54 | the trees, labels, key list, ignore list and coercion flag are stored; the match keys are empty; the log processor is fresh |
| CompareSpec.CompareWithRight | json_compare/comparator.py:56-65 | a run that finishes ends with the summary. Its TOTAL is the number of entries this run logged, and the counts grew by as much. A run that raises keeps the re-rooted keys and its partial log |
| Comparator.JSONComparator.CompareWithRight | json_compare/comparator.py:56-65 | the method ends in the keys, state and exception of `CompareSpec.CompareWithRight` |
| CompareSpec.CompareWithLeft | json_compare/comparator.py:67-76 | as `CompareWithRight`, with the left label |
| Comparator.JSONComparator.CompareWithLeft | json_compare/comparator.py:67-76 | the method ends in the keys, state and exception of `CompareSpec.CompareWithLeft` |
| CompareSpec.FullCompare | json_compare/comparator.py:78-89 | a run that finishes ends with one summary whose TOTAL counts the entries of both directions, and leaves the key paths re-rooted right, then left, then back to `DATA`. A run that raises keeps its partial log. That the log holds both directions, right first, is `Properties.FullCompareJoinsDirections` |
| Comparator.JSONComparator.FullCompare | json_compare/comparator.py:78-89 | the method ends in the keys, state and exception of `CompareSpec.FullCompare` |
| Properties.SelfCompareClean | json_compare/comparator.py:56-89 | without match keys, `compare_with_right`, `compare_with_left` and `full_compare` of an object or array with an equal copy each log only the summary, with TOTAL 0, and no count moves |
| CompareSpec.MatchKeysAtOrder | json_compare/comparator.py:283-291 | the match keys of a concatenation of configured keys are those of each part in turn, and one key gives at most itself, stripped of the path. So `MatchKeysAt` keeps the configuration order |
| CompareSpec.CompareSame | json_compare/comparator.py:105-115 | the comparison of two roots adds the same entries and raises the same exception from any two alike states: states with the same match keys, or any two states when key paths are configured. Equal match keys end equal, and without key paths the match keys do not change. The paths must agree unless both roots are containers of one kind |
| Properties.FullCompareStopsWithRight | json_compare/comparator.py:78-85 | when `compare_with_right` raises, `full_compare` ends exactly as it does, without the second direction |
| Properties.FullCompareJoinsDirections | json_compare/comparator.py:78-89 | otherwise `full_compare` raises as `compare_with_left` does, its entries are those of `compare_with_right` followed by those of `compare_with_left`, and its key paths end as those of `compare_with_left` |
| Properties.FullCompareHoldsBoth | json_compare/comparator.py:78-89 | a `full_compare` that finished holds the entries of both finished directions, right first |
| Properties.FullCompareReportsOneSidedKeys | json_compare/comparator.py:78-89 | a top-level key that only one of two object roots has is reported missing by a finished `full_compare`, at the path of the side that lacks it |
| Properties.RightReportsMissingKey | json_compare/comparator.py:56-65 | a finished `compare_with_right` reports each key of the left root that the right root lacks |
| Properties.LeftReportsMissingKey | json_compare/comparator.py:67-76 | a finished `compare_with_left` reports each key of the right root that the left root lacks |
| Properties.MissingKeyKept | json_compare/comparator.py:119-124 | a property that the actual object lacks is reported, and the report stays in the log until the loop over the properties ends |
| Properties.SecondDirectionSame | json_compare/comparator.py:78-89 | the second direction of `full_compare` logs after the first one what `compare_with_left` logs on a clear log, and raises as it does |
| Properties.FullCompareLeftKeys | json_compare/comparator.py:82-86 | re-rooting `DATA…` keys to the right label and then to the left label gives the keys `compare_with_left` uses |
| Properties.KeyRelabel | json_compare/comparator.py:102-103 | for one `DATA…` key path, relabelling through the right label is the same as relabelling straight to the left label |
| Properties.RightEntries | json_compare/comparator.py:56-65 | the entries and exception of `compare_with_right` are those of its one comparison |
| Properties.LeftEntries | json_compare/comparator.py:67-76 | the entries, exception and final key paths of `compare_with_left` are those of its one comparison |
| Properties.FullEntries | json_compare/comparator.py:78-89 | after a first direction that raised nothing, `full_compare` ends as its second comparison does |
| CompareSpec.ReRoot | json_compare/comparator.py:102-103 | every key path has `from` replaced by `to` |
| Comparator.JSONComparator.EditKeyPathRoot | json_compare/comparator.py:102-103 | the key list becomes `ReRoot` of the old one |
| Properties.KeyReRootRoundTrip | json_compare/comparator.py:59-62 | a `DATA…` key becomes `<label>…` for the run and `DATA…` again afterwards |
| Properties.CompareWithRightRestoresKeys | json_compare/comparator.py:59-62 | a finished `compare_with_right` leaves `DATA…` keys as they were |
| CompareSpec.CompareGrows | json_compare/comparator.py:105-115 | the whole comparison of two roots only adds entries, one count per entry |
| CompareSpec.Compare | json_compare/comparator.py:105-115 | roots that are not both arrays or both objects give one incorrect-type entry for (left, right), in either direction |
| Comparator.JSONComparator.Compare | json_compare/comparator.py:105-115 | the method ends as `CompareSpec.Compare` says |
| Properties.ScalarRootsReported | json_compare/comparator.py:110-115 | two scalar roots, even equal ones, give a log of one incorrect-type entry plus the summary |
| Properties.SelfRootQuiet | json_compare/comparator.py:105-115 | an object or array root compared with an equal copy logs nothing in either direction, when there are no match keys, or under any key configuration when the root is an object with no array inside |
| CompareSpec.DictsGrows | json_compare/comparator.py:117-132 | the comparison below an object keeps every earlier entry, never lowers a count, and raises the total count by exactly the number of entries it adds |
| CompareSpec.DictsFromGrows | json_compare/comparator.py:119-132 | the same for the loop over the expected properties, from any property on |
| CompareSpec.DictStepGrows | json_compare/comparator.py:121-132 | one pass for one property only adds entries |
| CompareSpec.Dicts | json_compare/comparator.py:117-132 | no contract of its own: the loop of `__compare_dicts`. Its properties are stated by `CompareSpec.DictsGrows`, `CompareSpec.DictsSame`, `Properties.SelfDictsQuiet`, `Properties.MissingKeyReported` and `Properties.ExtraActualKeysIrrelevant` |
| CompareSpec.DictsFrom | json_compare/comparator.py:119-132 | no contract of its own: that loop from one property on. Its properties are stated by `CompareSpec.DictsFromGrows`, `CompareSpec.DictsFromSame` and `Properties.MissingKeyKept` |
| CompareSpec.DictStep | json_compare/comparator.py:120-132 | no contract of its own: one pass of that loop. Its properties are stated by `CompareSpec.DictStepGrows`, `CompareSpec.DictStepSame`, `Properties.IgnoredMismatchSilent` and `Properties.UnignoredMismatchReported` |
| CompareSpec.DictsSame | json_compare/comparator.py:117-132 | comparing two objects adds the same entries and raises the same exception from any two alike states, whatever their logs and paths |
| CompareSpec.DictsFromSame | json_compare/comparator.py:119-132 | the same for the loop from any property on |
| CompareSpec.DictStepSame | json_compare/comparator.py:120-132 | the same for one pass of the loop |
| Comparator.JSONComparator.CompareDicts | json_compare/comparator.py:117-132 | the loop over the expected properties ends as `CompareSpec.Dicts` says |
| Comparator.JSONComparator.CompareProperty | json_compare/comparator.py:121-132 | one pass of that loop ends as `CompareSpec.DictStep` says |
| Properties.SelfDictsQuiet | json_compare/comparator.py:120-132 | an object compared with itself appends nothing, counts nothing, raises nothing and leaves the match keys alone, when there are no match keys, or under any key configuration and match keys when the object has no array inside |
| Properties.MissingKeyReported | json_compare/comparator.py:121-124 | an expected key the actual object lacks appends exactly the entry `itemPath//key` + "property is missing". It counts one missing property, whatever the ignore list says, and nothing beneath that key is visited |
| Properties.ExtraActualKeysIrrelevant | json_compare/comparator.py:120-132 | the outcome depends only on what the actual object holds under the expected keys, so keys only the actual object has never produce entries |
| Properties.IgnoredMismatchSilent | json_compare/comparator.py:131 | an unequal scalar whose normalised path is in `ignore` appends nothing |
| Properties.UnignoredMismatchReported | json_compare/comparator.py:131-132 | at a path that is not ignored, with coercion off, the same mismatch appends exactly one entry |
| CompareSpec.ListsGrows | json_compare/comparator.py:134-142 | the comparison below an array keeps every earlier entry, never lowers a count, and raises the total count by exactly the number of entries it adds |
| CompareSpec.Lists | json_compare/comparator.py:134-142 | no contract of its own: `__compare_lists`. Its properties are stated by `CompareSpec.ListsGrows`, `CompareSpec.ListsSame`, `Properties.SelfListsQuiet` and `Properties.ShortArrayReported` |
| CompareSpec.ListsSame | json_compare/comparator.py:134-142 | comparing two arrays adds the same entries and raises the same exception from any two alike states, whatever their logs and paths |
| Comparator.JSONComparator.CompareLists | json_compare/comparator.py:134-142 | the path moves to `<array>`, the match keys are set up, and the array is compared by keys or by order, as `CompareSpec.Lists` says |
| Properties.SelfListsQuiet | json_compare/comparator.py:134-161 | an array compared with itself without match keys appends nothing |
| CompareSpec.OrderFromGrows | json_compare/comparator.py:144-161 | the positional comparison of an array keeps every earlier entry, never lowers a count, and raises the total count by exactly the number of entries it adds |
| CompareSpec.ElemGrows | json_compare/comparator.py:154-161 | the comparison of one element with its counterpart only adds entries |
| CompareSpec.ByOrder | json_compare/comparator.py:144-161 | no contract of its own: `__compare_lists_by_order` with the length check as intended. Its properties are stated by `CompareSpec.OrderFromGrows`, `CompareSpec.OrderFromSame` and `Properties.SelfOrderQuiet` |
| CompareSpec.OrderFrom | json_compare/comparator.py:150-161 | no contract of its own: that loop from one element on, stopping at the end of the actual array. Its properties are stated by `CompareSpec.OrderFromGrows` and `CompareSpec.OrderFromSame` |
| CompareSpec.ElemStep | json_compare/comparator.py:154-161 | no contract of its own: one element against its counterpart. Its properties are stated by `CompareSpec.ElemGrows` and `CompareSpec.ElemSame` |
| CompareSpec.OrderFromSame | json_compare/comparator.py:150-161 | the positional loop adds the same entries and raises the same exception from any two alike states |
| CompareSpec.ElemSame | json_compare/comparator.py:154-161 | the same for one element, from alike states at the same path |
| Comparator.JSONComparator.CompareListsByOrder | json_compare/comparator.py:144-161 | the loop ends as `CompareSpec.ByOrder` says, stopping at the end of the actual array |
| Comparator.JSONComparator.CompareItem | json_compare/comparator.py:154-161 | one element is compared with its counterpart as `CompareSpec.ElemStep` says; scalar elements are never ignored |
| Properties.SelfOrderQuiet | json_compare/comparator.py:150-161 | without match keys, equal elements by position append nothing |
| CompareSpec.KeysFromGrows | json_compare/comparator.py:163-185 | the keyed comparison of an array keeps every earlier entry, never lowers a count, and raises the total count by exactly the number of entries it adds |
| CompareSpec.KeysStepGrows | json_compare/comparator.py:170-185 | one pass of the keyed loop only adds entries |
| CompareSpec.ByKeys | json_compare/comparator.py:163-185 | no contract of its own: `__compare_lists_by_keys` with the length check as intended. Its properties are stated by `CompareSpec.KeysFromGrows` and `CompareSpec.KeysFromSame` |
| CompareSpec.KeysFrom | json_compare/comparator.py:169-185 | no contract of its own: that loop from one element on. Its properties are stated by `CompareSpec.KeysFromGrows`, `CompareSpec.KeysFromSame` and `CompareSpec.KeysFromUnfold` |
| CompareSpec.KeysStep | json_compare/comparator.py:170-185 | no contract of its own: one pass of that loop. Its properties are stated by `CompareSpec.KeysStepGrows`, `CompareSpec.KeysStepSame`, `Properties.KeyedRowMissing` and `Properties.KeyedRowFound` |
| CompareSpec.KeysFromUnfold | json_compare/comparator.py:169-185 | one turn of the keyed loop sets the element's path, runs the pass, and stops on an exception |
| CompareSpec.KeysFromSame | json_compare/comparator.py:169-185 | the keyed loop adds the same entries, raises the same exception and ends with the same match keys from any two states with the same match keys |
| CompareSpec.KeysStepSame | json_compare/comparator.py:170-185 | the same for one pass, from states at the same path |
| Comparator.JSONComparator.KeyedPass | json_compare/comparator.py:169-185 | one turn of the keyed loop ends as `CompareSpec.KeysFrom` says for that element |
| Comparator.JSONComparator.CompareListsByKeys | json_compare/comparator.py:163-185 | the loop ends as `CompareSpec.ByKeys` says |
| Comparator.JSONComparator.CompareKeyedItem | json_compare/comparator.py:170-185 | one pass of the keyed loop ends as `CompareSpec.KeysStep` says. A non-object element past the end of the actual array raises `IndexError` |
| Properties.KeyedRowMissing | json_compare/comparator.py:172-178 | an object whose key values match no row appends one missing-array-item entry, and nothing is compared beneath it |
| Properties.KeyedRowFound | json_compare/comparator.py:172-180 | otherwise the object is compared, at the element's path, with the first matching row |
| CompareSpec.TryListGrows | json_compare/comparator.py:187-195 | the attempt to compare a list only adds entries |
| CompareSpec.TryListSame | json_compare/comparator.py:187-195 | the attempt to compare a list adds the same entries and raises the same exception from any two alike states at the same path |
| CompareSpec.TryList | json_compare/comparator.py:187-195 | an actual value that is not a list logs nothing, unless it is a string and coercion is on |
| Comparator.JSONComparator.TryFindListAndCompare | json_compare/comparator.py:187-195 | ends as `CompareSpec.TryList` says |
| CompareSpec.TryDictGrows | json_compare/comparator.py:197-205 | the attempt to compare a dict only adds entries |
| CompareSpec.TryDictSame | json_compare/comparator.py:197-205 | the same for a dict |
| CompareSpec.TryDict | json_compare/comparator.py:197-205 | an actual value that is not a dict logs nothing, unless it is a string and coercion is on |
| Comparator.JSONComparator.TryFindDictAndCompare | json_compare/comparator.py:197-205 | ends as `CompareSpec.TryDict` says |
| CompareSpec.ArrayLengths | json_compare/comparator.py:207-211 | appends exactly one lack-of-items entry when the expected array is longer, and exactly one exceeding-items entry when it is shorter; equal lengths change nothing |
| Comparator.JSONComparator.CheckArrayLengths | json_compare/comparator.py:207-211 | the log changes as `CompareSpec.ArrayLengths` says |
| CompareSpec.ListsAsWritten | json_compare/comparator.py:144-148 | as written, every array comparison raises `TypeError` before anything is logged |
| Properties.ArraysAsWrittenRaise | json_compare/comparator.py:148 | `[1]` against `[2]` raises and logs nothing as written; with the length check called as intended, it logs one unequal-value entry |
| Properties.ShortArrayReported | json_compare/comparator.py:144-148 | with the length check called as intended and no match keys, a shorter actual array gets a lack-of-items entry at its `<array>` path first, and the entry and its count survive the rest of the comparison |
| CompareSpec.KeyProps | json_compare/comparator.py:213-219 | a key that the object lacks raises `KeyError`. Otherwise the result holds each match key once, with the object's value for it, and nothing else |
| Properties.RowMatchesOnKeyValues | json_compare/comparator.py:236-238 | a row holding Python-equal values under all match keys matches |
| Properties.NormalizeLabelled | json_compare/comparator.py:221-228 | a path `<label>rest` without index segments is looked up as `DATA` + `rest` |
| Properties.NormalizeIndexed | json_compare/comparator.py:221-228 | `<label>a//[i]//b` is looked up as `DATA` + `a//b` |
| CompareSpec.Normalize | json_compare/comparator.py:221-228 | no contract of its own: the path with index segments removed, both labels replaced by `DATA` and `////` collapsed. Its properties are stated by `Properties.NormalizeLabelled` and `Properties.NormalizeIndexed` |
| CompareSpec.KeyToIgnore | json_compare/comparator.py:221-228 | no contract of its own: `Normalize` of the path is in the ignore list. `Properties.IgnoredMismatchSilent` and `Properties.UnignoredMismatchReported` state its effect on a comparison |
| CompareSpec.CheckRow | json_compare/comparator.py:235-238 | a row matches exactly when there are no key properties, or when the row is a dict holding Python-equal values under every key |
| CompareSpec.SimilarRow | json_compare/comparator.py:230-239 | returns the least index whose row matches, after rows that all differ. It returns None exactly when every row differs. An exception from a row that cannot be looked up escapes; it comes from the first row that does not differ |
| CompareSpec.SimilarRowFrom | json_compare/comparator.py:235-239 | the same, for the rows from `j` on |
| CompareSpec.Coerce | json_compare/comparator.py:250-260 | int and bool expectations go through `int()`. Its `TypeError` escapes, and its `ValueError` rejects the value. An int expectation is accepted exactly when `int()` gives it. A bool expectation is accepted exactly when `int()` succeeds and either gives the bool as 0 or 1 or the actual value has the same truth value. A str expectation goes through `str()`, and None is never accepted |
| CompareSpec.CompareValues | json_compare/comparator.py:241-261 | equal values change nothing. With coercion off, an unequal pair appends exactly one entry and raises nothing. With coercion on, the outcome follows `Coerce` |
| Comparator.JSONComparator.CompareValues | json_compare/comparator.py:241-261 | ends as `CompareSpec.CompareValues` says |
| CompareSpec.CompareValuesSame | json_compare/comparator.py:241-261 | comparing two values adds the same entry, or none, and raises the same exception from any two states at the same path |
| Properties.NumericStringAccepted | json_compare/comparator.py:251 | with coercion on, `n` and `"n"` are accepted both ways round |
| Properties.NumericStringStrict | json_compare/comparator.py:247-248 | with coercion off, `n` against `"n"` is one incorrect-type entry and the unequal-value count does not move |
| Properties.BoolAgainstWordReported | json_compare/comparator.py:251-259 | `True` against `"yes"` is reported, because the `ValueError` from `int()` skips the `bool()` test |
| Properties.BoolAgainstDigitAccepted | json_compare/comparator.py:251-258 | `True` against `"5"` is accepted through `bool()` |
| Properties.NumberAgainstNullRaises | json_compare/comparator.py:251 | `int(None)` raises an uncaught `TypeError` |
| CompareSpec.MatchKeysAt | json_compare/comparator.py:283-291 | keeps a configured key, with `curr_path//` removed from its front, exactly when what is left has no `//`, in configuration order |
| CompareSpec.SetupMatchKeys | json_compare/comparator.py:283-291 | without configured keys the match keys are unchanged; otherwise they become `MatchKeysAt` of the current path |
| Comparator.JSONComparator.SetupMatchKeys | json_compare/comparator.py:283-291 | the loop builds exactly `CompareSpec.SetupMatchKeys` |
| CompareSpec.Clear | json_compare/comparator.py:293-296 | log, match keys and path are emptied; counts and summary are unchanged |
| Comparator.JSONComparator.ClearTempData | json_compare/comparator.py:293-296 | the state becomes `CompareSpec.Clear` of the old one |

## Left out

- Reading the two files and `save_diff_logs`: the constructor takes both
  trees and their labels. The date, file writing and `json.load` are I/O.
- The `key` and `ignore` constructor arguments in their `str`/`None`
  forms: the model takes lists. A string `s` is the list `[s]` and `None`
  is `[]`.
- `__try_json_decode_and_compare`: when coercion is on and the actual value
  is a string where an object or array is expected, the run stops with the
  outcome `JsonDecoding`. Decoding a string with `json.loads` is not part of
  this model. Its result is not a part of the expected tree, so the walk
  would no longer be structural. A decode error, which the code does not
  catch, is not distinguished from a successful decode.
- Floats: there is no float value, so `float()`, `1 == 1.0` and the
  `<float>` tag are not modelled.
- Json.Show: renders containers the way Python's `str()` does, but without
  the escaping Python applies to quotes and control characters inside
  strings.
- Json.PyInt: accepts only an optional sign followed by ASCII decimal
  digits. `int()` also accepts surrounding whitespace, underscores between
  digits and non-ASCII decimal digits (such as Arabic-Indic digits); those
  strings are treated here as a `ValueError`.
- CompareSpec.ListsAsWritten: the rest of the model calls the length check
  with the two lengths, as intended, and reports at the current path (see
  Findings).
- Exceptions: `KeyError`, `TypeError` and `IndexError` that escape a
  comparison are returned as an outcome, not raised. The log holds what was
  recorded before the exception, as it would in Python.

## Findings

| source | as written | input that shows it | evidently intended | confidence | as-written member | corrected member |
|---|---|---|---|---|---|---|
| json_compare/comparator.py:148, json_compare/comparator.py:167, json_compare/comparator.py:207 | `__check_array_lengths(item_path, exp_len, act_len)` calls a method that takes only `(exp_len, act_len)`, so every array comparison raises `TypeError` | comparing `[1]` with `[2]` | compare the two lengths and report at the current `<array>` path | high (not executed) | CompareSpec.ListsAsWritten, Properties.ArraysAsWrittenRaise | CompareSpec.ArrayLengths, CompareSpec.Lists, Properties.ShortArrayReported |
