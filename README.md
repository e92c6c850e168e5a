# nested_property in Dafny

A model of the Python library `nested_property`. The library reads and
changes JSON-like documents (dicts, lists and scalars) through dotted paths
such as `"a.b.0.c"`. Its operations are:

- `get` and `has`: read a path;
- `set`, `delete`, `unset`, `push` and `pull`: change a document in place;
- `_match`: a Mongo-style query evaluator used by `get(query=...)` and `pull`;
- `match_condition`, `match_item`, `find_first` and `find_all`: a second,
  independent evaluator.

Every public operation also accepts a list of paths and handles each one.

The model follows the code, including where the code's behaviour differs
from what the names of its functions suggest.

- **Documents.** A document is a `Value`: `Null`, `Bool`, `Int`, `Str`,
  `List` or `Dict`. A dict is its entries in insertion order, because the
  evaluators stop at the first key that fails or raises.
- **Errors.** The exceptions that escape are `Error` values.
- **Mutation.** A mutating operation is a specification function from the
  document to an `Outcome`. The outcome is either the new document, or the
  document as it stood when the exception escaped: changes made before a
  Python exception persist.
- **Loops.** The loops of `_traverse`, `set`, `delete`, `push` and `pull`
  are methods. Each is proved to produce exactly its specification's
  outcome.
- **Node identity.** A node of the document is named by its position (a
  sequence of child indices). `_traverse`'s variable `obj` is a `Focus`:
  either a position in the document, or a container that a coercion
  created and never attached to the document.

Modules:

- `Values`: documents, errors, dict operations, Python's `in`, `<` and `len`.
- `Paths`: `str.split(".")`, `_parse_key`.
- `Positions`: nodes by position, replacement in place.
- `Traverse`: `_traverse`, and `get` without a query.
- `Query`: `_match`.
- `Access`: `get` and `has`, single and batched.
- `Edits`: value-level descriptions of a write along dict keys.
- `Mutate`: `set`, `delete`/`unset`, `push`, `pull`, batches.
- `Effects`: what `set` and `push` do.
- `Removal`: what `delete` and `pull` do.
- `Find`: `match_condition`, `match_item`, `find_first`, `find_all`.

### What the code does at its edges

- **`set` through an index segment.** `set` never builds a list element.
  At an index segment `get_value` or `set_value` on a list reaches
  `hasattr(obj, k)` or `setattr(obj, k, v)` with an int name, and both raise
  TypeError. The list has been padded first, or a dict met there cleared.
  `set({}, "a.b.0.c", 5)` raises and leaves `{"a": {"b": {}}}`
  (`Effects.SetThroughIndexRaises`). `set({"a": [1]}, "a.3", 5)` raises and
  leaves `{"a": [1, None, None, None]}` (`Effects.SetAtIndex`).
- **`get` through an index segment.** `get` with an index segment returns
  the default (`{"a": [1, 2, 3]}` with `"a.1"`), because `_traverse`
  catches that TypeError and returns None. Proved in
  `Traverse.LookupThroughIndex`.
- **Nested `$len` operators.** In `_match`, `{"$len": {"$gt": 3}}` does
  not compare lengths. The inner mapping is evaluated as a query over the
  document `{"$len": n}`, where `$gt` is a missing field, so it never
  matches (`Query.NestedLenIsAQuery`).
- **`delete` and `pull` through an index in the middle of a path.** They do
  nothing (`Removal.DeleteThroughIndex`).
- **A final list index in `pull`.** `pull` with a final list index in range
  raises TypeError (`Removal.PullIndexRaises`).
- **`push` with a field under a list.** It empties the list and then raises
  AttributeError (`Effects.PushFieldOnList`).
- **The last field of `set`.** The branch that would turn a non-dict
  `current` into `{}` tests `is_dict_object(dict)`, the built-in type
  rather than `current` (nested_property/__init__.py:173). That type has a
  `__dict__`, so the branch is never taken. A last field on a list or a
  scalar therefore reaches `setattr` and raises AttributeError
  (`Mutate.AssignLast`, `Effects.SetFieldOnList`).
- **Two evaluators.** `_match` and `match_condition`/`match_item` follow
  different rules. `match_condition` treats an unknown operator as equality
  with the whole condition, and its orderings raise on None
  (`Find.UnknownOperatorIsEquality`, `Find.OrderingOnNoneRaises`).

## Model

| member | source | states |
|---|---|---|
| Values.FindKey | nested_property/__init__.py:8-9 | the position returned holds the key and no earlier entry does; None exactly when no entry holds the key |
| Values.DictGet | nested_property/__init__.py:8-9 | `d.get(k)` is Some exactly when some entry holds `k`, and then it is that entry's value |
| Values.DictPut | nested_property/__init__.py:16-17 | after `d[k] = v`, `k` reads `v` and every other key reads what it did; an existing key keeps its place, a new one goes last |
| Values.DictPutTwice | nested_property/__init__.py:16-17 | a second assignment to the same key overrides the first |
| Values.DictPutSame | nested_property/__init__.py:16-17 | assigning a key the value it holds changes nothing |
| Values.DictPop | nested_property/__init__.py:195 | after `d.pop(k, None)`, `k` is absent and every other key reads what it did; an absent key leaves the dict unchanged |
| Values.DictPopUnique | nested_property/__init__.py:195 | in a dict whose keys are unique, `pop` removes exactly the one entry holding the key and keeps the other entries in their order |
| Values.Len | nested_property/__init__.py:67 | `len(v)` succeeds exactly on lists, dicts and strs |
| Values.IsSubstring | nested_property/__init__.py:65 | `t in s` on strs holds exactly when `t` occurs in `s` at some position |
| Values.Contains | nested_property/__init__.py:63-66 | `x in c`: list membership, dict key membership, substring; TypeError exactly for None/bool/int containers, a container looked up in a dict, or a non-str in a str |
| Values.CompareStrings | nested_property/__init__.py:54-61 | str ordering is a sign, zero exactly on equal strings |
| Values.Compare | nested_property/__init__.py:54-61 | `<` succeeds exactly on two ints or two strs, giving a sign that is zero exactly on equal values |
| Values.CompareFlip | nested_property/__init__.py:54-61 | swapping the operands of a comparison flips its sign |
| Values.Filter | nested_property/__init__.py:249 | a comprehension keeps exactly the elements satisfying its test |
| Values.FilterAppend | nested_property/__init__.py:249 | filtering a concatenation is filtering each part: the kept elements stay in their original order |
| Values.FilterCount | nested_property/__init__.py:249 | an element that passes the test is kept as many times as it occurs, any other is dropped |
| Paths.Split | nested_property/__init__.py:130 | `path.split(".")` gives at least one segment, none containing a dot |
| Paths.JoinSplit | nested_property/__init__.py:130 | joining the segments with dots gives back the path |
| Paths.SplitJoin | nested_property/__init__.py:130 | splitting dot-joined dot-free segments gives the segments back |
| Paths.ParseKey | nested_property/__init__.py:81-89 | without a prefix a segment is an index exactly when all digits, with its decimal value; with a prefix only segments starting with it are indices, their rest parsed by `int()`, and exactly a non-numeric rest raises ValueError; a field keeps the segment as its name |
| Paths.ParseKeyIndexRoundTrip | nested_property/__init__.py:81-89 | the decimal form of `n` parses as index `n`; prefix plus the decimal form of any int parses as that int |
| Paths.ParseIntToString | nested_property/__init__.py:85 | `int(str(i)) == i` |
| Paths.ParseAll | nested_property/__init__.py:92-93 | every segment parsed in order; succeeds exactly when each segment parses |
| Traverse.Padded | nested_property/__init__.py:99-100 | after the padding loop the list holds index `k`, with its old elements first and the filler after them |
| Traverse.Pad | nested_property/__init__.py:99-100 | the `while` loop produces exactly the padded list |
| Traverse.Coerce | nested_property/__init__.py:95-98 | on a shape mismatch an attached container is emptied in place and `obj` becomes a new detached container; anything else leaves the document unchanged |
| Traverse.Vivify | nested_property/__init__.py:114-115 | when creating, the dict then holds `k`, and the focus stays where it was |
| Traverse.IndexStep | nested_property/__init__.py:94-106 | an index segment always ends the walk with None; a walk that creates nothing changes nothing |
| Traverse.WalkFrom | nested_property/__init__.py:91-119 | a walk that creates nothing leaves the document unchanged and from an attached node ends at an attached node; a walk that reaches a node after a segment never reaches None |
| Traverse.IndexWalk | nested_property/__init__.py:94-106 | the index branch of the loop, done in place, leaves the document `IndexStep` describes and stops with None |
| Traverse.EnterField | nested_property/__init__.py:107-115 | the field branch up to the lookup, done in place, leaves the document and node `Enter` describes: a dict, holding the key when creating |
| Traverse.Walk | nested_property/__init__.py:91-119 | the loop of `_traverse` produces exactly the walk's result, document and node |
| Traverse.WalkFieldsRead | nested_property/__init__.py:107-118 | along dict keys a walk that creates nothing reads what following the keys reads, and stops with None exactly when that finds nothing |
| Traverse.Resolve | nested_property/__init__.py:91-119 | `_traverse(obj, path.split("."))` without creating: the node reached, None (`Null`) when the walk stops, or the ValueError of a segment that does not parse; properties in `WalkFieldsRead`, `WalkStopsAtIndex`, `GetReads` |
| Traverse.Lookup | nested_property/__init__.py:121-137 | `get` without a query: what `_traverse` returns, the default in place of None; properties in `ResolveFields`, `LookupThroughIndex`, `GetReads` |
| Traverse.ResolveFields | nested_property/__init__.py:130-131 | along dict keys `_traverse` returns what following the keys finds |
| Traverse.WalkWithoutPrefix | nested_property/__init__.py:81-89 | without an index prefix the walk never raises |
| Traverse.WalkStopsAtIndex | nested_property/__init__.py:103-106 | a path with an index segment ends with None, whatever the document |
| Traverse.LookupThroughIndex | nested_property/__init__.py:121-137 | `get` on a path with an index segment returns the default |
| Query.Match | nested_property/__init__.py:33-79 | `_match`: a query that is not a dict is False, a dict runs its keys in order; the conjunction over keys is stated in `MatchKeysAll` and `MatchKeysAppend` |
| Query.KeyHolds | nested_property/__init__.py:37-78 | one key of a query: `$and`/`$or` over its sub-queries, `$not` negated, a mapping as operators on `get(document, key)`, anything else equality with that read; stated in `AndOrOverLists`, `SingleKey`, `LookupWithoutPrefix` |
| Query.OpHolds | nested_property/__init__.py:50-75 | one operator on the field read: equality, orderings False on None, `in`, `len` (a mapping under `$len` as a query), an unknown operator raising; stated in `OrderingOnNone`, `UnknownOperatorRaises`, `LenOfNoneRaises`, `NestedLenIsAQuery` |
| Query.MatchKeysAppend | nested_property/__init__.py:37-79 | the keys of a query are a left-to-right conjunction: the first key that fails or raises decides |
| Query.MatchKeysAll | nested_property/__init__.py:37-79 | a query holds exactly when every key holds |
| Query.AndOrOverLists | nested_property/__init__.py:38-43 | `$and` holds when all sub-queries hold, `$or` when one does, once none raises |
| Query.LookupWithoutPrefix | nested_property/__init__.py:48 | the evaluator's field read never raises |
| Query.SingleKey | nested_property/__init__.py:44-46 | a literal condition is equality with the field's value; `$not` negates the nested query and raises when it does |
| Query.OrderingOnNone | nested_property/__init__.py:54-61 | `$gt/$gte/$lt/$lte` are false on an absent or None field |
| Query.UnknownOperatorRaises | nested_property/__init__.py:73-75 | an operator outside `$eq...$nin`, `$len` raises ValueError |
| Query.LenOfNoneRaises | nested_property/__init__.py:66-67 | `$len` on an absent field raises TypeError |
| Query.NestedLenIsAQuery | nested_property/__init__.py:66-72 | `{"$len": {"$gt": m}}` never matches: the inner mapping is a query over `{"$len": n}` |
| Access.Get | nested_property/__init__.py:121-137 | `get` for one path: the read, the default in place of None, a list result filtered by the query; stated in `GetReads`, `GetWithQuery`, `GetWithoutQuery` |
| Access.GetAll | nested_property/__init__.py:121-128 | `get` on a path or a nested list of paths, each path read in order; stated in `GetEachInOrder` |
| Access.HasFrom | nested_property/__init__.py:260-275 | the loop of `has`: False at a missing key, an index out of range (negative indices from the end) or a node of the wrong shape, ValueError at a segment that does not parse; stated in `HasFromReach` |
| Access.Has | nested_property/__init__.py:251-275 | `has` for one path, from the root; stated in `HasReach`, `GetImpliesHas` |
| Access.Selected | nested_property/__init__.py:133-135 | the query filter keeps only dict elements of the list that match |
| Access.SelectedFilters | nested_property/__init__.py:133-135 | the filter raises exactly when some dict element's match raises, and otherwise keeps exactly the matching dict elements in their original order |
| Access.GetWithQuery | nested_property/__init__.py:131-137 | `get` with a query on a path holding a list returns the matching dict elements in order |
| Access.GetWithoutQuery | nested_property/__init__.py:131-137 | `get` without a query is the plain read |
| Access.GetReads | nested_property/__init__.py:117-118 | `get` returns the node the path reaches when every segment is a field and it is not None, and `default` otherwise |
| Access.HasFromReach | nested_property/__init__.py:261-275 | `has` is true exactly when every segment reaches something: a present key, an index in range (negative counting from the end), even a None |
| Access.HasReach | nested_property/__init__.py:251-275 | the same for a whole path |
| Access.FollowKeysReach | nested_property/__init__.py:107-118 | following dict keys finds what subscripting with them reaches |
| Access.GetImpliesHas | nested_property/__init__.py:121-137 | a path from which `get` returns something other than the default exists for `has` |
| Access.HasWithoutGet | nested_property/__init__.py:251-275 | `has` is true where `get` gives the default: a key holding None, an index in range |
| Access.GetEachInOrder | nested_property/__init__.py:123-128 | a batch of paths gives one result per path, in order, and raises exactly when one path does |
| Access.HasEachInOrder | nested_property/__init__.py:253-258 | the same for `has` |
| Edits.PutAlongGet | nested_property/__init__.py:207-210 | after the node at the end of present keys is replaced (the list `push` appends to, the list `pull` rewrites), the keys lead to the new node |
| Edits.PutAlongOthers | nested_property/__init__.py:207-210 | every key beside the path still leads where it did after that replacement |
| Edits.PutAlongSnoc | nested_property/__init__.py:243-249 | replacing the child under a key of the dict at the end of present keys (the list `pull` assigns) is replacing that dict with the key put |
| Edits.PutPathGet | nested_property/__init__.py:145-176 | after creating the dicts along a path and writing the last key, the path leads to the value |
| Edits.PutPathDicts | nested_property/__init__.py:157-162 | every node on the way is then a dict |
| Edits.PutPathOthers | nested_property/__init__.py:157-162 | every key beside the path still leads where it did |
| Edits.FollowKeysAppend | nested_property/__init__.py:107-118 | following two runs of keys is following the first, then the second |
| Mutate.SetFrom | nested_property/__init__.py:145-176 | `set` from the node `current` over the segments: intermediate fields keep containers and make `{}`, an index raises TypeError after padding, a last field is assigned on a dict and raises AttributeError elsewhere; stated in `Effects.SetFields`, `Effects.SetAtIndex`, `Effects.SetStopsAtIndex`, `Effects.SetFieldOnList` |
| Mutate.SetOne | nested_property/__init__.py:139-176 | `set` for one path; its effect is stated in `Effects.SetThenGet` and `Effects.SetAtIndex` |
| Mutate.DeleteOne | nested_property/__init__.py:178-195 | `delete` for one path; its effect is stated in `Removal.DeleteField`, `Removal.DeleteIndex`, `Removal.DeleteNothing`, `Removal.DeleteThroughIndex` |
| Mutate.PushOne | nested_property/__init__.py:200-212 | `push` for one path: append to a list the creating walk reaches, `set(obj, path, [value])` otherwise; stated in `Effects.PushOntoList`, `Effects.PushOntoOther`, `Effects.PushFieldOnList` |
| Mutate.IndexArg | nested_property/__init__.py:236 | `index is not None and isinstance(index, int)`: an int, or a bool as 0 or 1 |
| Mutate.PullFrom | nested_property/__init__.py:236-249 | what `pull` makes of the target list; stated in `Removal.PullFromCases`, `Removal.PopMatching`, `Removal.PullScalarAppend` |
| Mutate.PullOne | nested_property/__init__.py:214-249 | `pull` for one path; stated in `Removal.PullFromList`, `Removal.PullNoTarget`, `Removal.PullIndexRaises` |
| Mutate.Prepared | nested_property/__init__.py:156-161 | an intermediate field makes `current` a dict that holds the key |
| Mutate.MatchingIndices | nested_property/__init__.py:240-245 | the indices `pull` collects are ascending, in range and name dict elements that match |
| Mutate.PadAt | nested_property/__init__.py:165-170 | the index branch of `set` coerces and pads exactly as specified |
| Mutate.SetLast | nested_property/__init__.py:164-176 | the last segment of `set` produces exactly the specified outcome |
| Mutate.AssignLast | nested_property/__init__.py:172-176 | a last field is assigned in place when `current` is a dict; anything else raises AttributeError with the document unchanged |
| Mutate.PrepareField | nested_property/__init__.py:156-162 | an intermediate field coerces `current` to a dict and keeps a container child, else assigns `{}`, exactly as specified |
| Mutate.DescendField | nested_property/__init__.py:156-162 | after an intermediate field, `set` over the remaining segments from the child gives the same outcome as over all segments from `current` |
| Mutate.SetIntermediate | nested_property/__init__.py:147-162 | one loop iteration either ends `set` with the specified outcome or moves one segment down without changing the outcome still to come |
| Mutate.SetPath | nested_property/__init__.py:139-176 | the loop of `set` produces exactly the specified outcome |
| Mutate.DeletePath | nested_property/__init__.py:178-195 | `delete` produces exactly the specified outcome |
| Mutate.PushPath | nested_property/__init__.py:200-212 | `push` produces exactly the specified outcome |
| Mutate.PullPath | nested_property/__init__.py:214-249 | `pull` produces exactly the specified outcome |
| Mutate.PullParent | nested_property/__init__.py:225-234 | choosing the target list produces exactly the specified outcome |
| Mutate.PullTarget | nested_property/__init__.py:230-249 | the field branch of `pull` produces exactly the specified outcome |
| Mutate.PullList | nested_property/__init__.py:236-249 | the three ways of pulling produce exactly the specified list |
| Mutate.CollectMatches | nested_property/__init__.py:240-245 | the collecting loop produces exactly the matching indices, or the first error |
| Mutate.PopAll | nested_property/__init__.py:246-247 | popping in reverse produces exactly the specified list |
| Mutate.MatchingPrefixRaises | nested_property/__init__.py:241-245 | an error while collecting is the error of the whole |
| Mutate.ApplyPath | nested_property/__init__.py:139-249 | one path of any mutation produces exactly its specified outcome |
| Mutate.Apply | nested_property/__init__.py:140-143 | a batch applies the mutation path by path and stops at the first exception |
| Effects.WalkReplace | nested_property/__init__.py:107-118 | along present dict keys, writing at the node the walk reaches is writing along the keys |
| Effects.WalkCreateSame | nested_property/__init__.py:113-115 | when every key is present, a walk that creates is a walk that does not |
| Effects.WalkFresh | nested_property/__init__.py:113-116 | a walk that creates, inside a new empty dict, never touches the document |
| Effects.WalkScalar | nested_property/__init__.py:108-112 | a walk that creates, from a scalar, continues in a detached dict and changes nothing |
| Effects.WalkCreateFields | nested_property/__init__.py:107-118 | a walk that creates, along dict keys with no list on the way, never raises, changes only below its start and does not end at a list |
| Effects.SetFields | nested_property/__init__.py:145-176 | along dict keys with no list on the way, `set` creates the missing dicts, replaces scalars on the way by `{}` and writes the last key |
| Effects.SetThenGet | nested_property/__init__.py:139-176 | after `set` along dict keys, `get` returns the value (when not None), every key beside the path is unchanged and every node on the way is a dict |
| Effects.SetStopsAtIndex | nested_property/__init__.py:149-171 | `set` with an index segment anywhere, after segments that all parse, raises TypeError; the document it leaves is stated in `SetAtIndex` |
| Effects.IndexLeft | nested_property/__init__.py:149-171 | what the index branch leaves in place of the container it meets: the list padded to hold the index, its elements kept in front, or the dict cleared |
| Effects.SetThroughContainer | nested_property/__init__.py:157-162 | an intermediate field whose child is a dict or list keeps both and moves down to the child |
| Effects.SetAtIndexFrom | nested_property/__init__.py:145-171 | along present dict keys to a list or dict, an index segment raises TypeError with exactly that container padded (None when the index is last, `{}` otherwise) or cleared |
| Effects.SetAtIndex | nested_property/__init__.py:139-171 | `set` of such a path raises TypeError leaving the padded list or cleared dict at the end of the keys and every key beside the path as it was |
| Effects.SetThroughIndexRaises | nested_property/__init__.py:145-155 | `set({}, "a.b.0.c", 5)` raises TypeError leaving `{"a": {"b": {}}}` |
| Effects.SetFieldOnList | nested_property/__init__.py:172-176 | a last field on a list raises AttributeError and changes nothing |
| Effects.PushOntoList | nested_property/__init__.py:207-210 | `push` onto a list appends the value, keeps earlier elements, and changes nothing beside the path |
| Effects.VivifiedPutPath | nested_property/__init__.py:114-115 | writing a path over a key the walk vivified with `{}` is writing it over the dict as it was |
| Effects.CreatePutPath | nested_property/__init__.py:207-212 | the creating walk of `push` changes nothing that the following `set` does not overwrite |
| Effects.PushOntoOther | nested_property/__init__.py:207-212 | `push` to an absent or non-list path along dicts leaves exactly the document `set(obj, path, [value])` writes on the original: the path reads `[value]`, dicts on the way, every key beside the path as it was |
| Effects.PushFieldOnList | nested_property/__init__.py:200-212 | `push({"a": [x]}, "a.b", v)` empties the list and raises AttributeError |
| Removal.DeleteField | nested_property/__init__.py:185-195 | a last field on a dict parent is popped from that parent and nothing else changes |
| Removal.DeleteFieldReads | nested_property/__init__.py:185-195 | afterwards the path reads the default and every sibling key is unchanged |
| Removal.DeleteIndex | nested_property/__init__.py:189-192 | an index in range on a list parent removes exactly that element, shifting the rest left |
| Removal.DeleteNothing | nested_property/__init__.py:186-195 | a missing parent, an absent key, an index out of range or a shape mismatch changes nothing |
| Removal.DeleteThroughIndex | nested_property/__init__.py:186-188 | an index segment before the last makes `delete` do nothing |
| Removal.Unmatched | nested_property/__init__.py:240-247 | the survivors are exactly the elements that are not matching dicts |
| Removal.PopMatching | nested_property/__init__.py:240-247 | popping the collected indices in reverse keeps exactly the unmatched elements, in order |
| Removal.PullFromCases | nested_property/__init__.py:236-249 | an int index in range pops that element; else None changes nothing; else a dict removes the matching dicts or raises as the match does; else a scalar gives exactly the list filtered by `!=`, each other element kept as many times as it occurs |
| Removal.PullScalarAppend | nested_property/__init__.py:249 | pulling a scalar from a concatenation pulls from each part, drops the scalar itself and keeps every other element: the remaining elements keep their order |
| Removal.PullFromList | nested_property/__init__.py:221-249 | `pull` on a list at a path of dict keys writes the pulled list there, and `get` reads it |
| Removal.PullNoTarget | nested_property/__init__.py:222-234 | with no list at the path `pull` does nothing |
| Removal.PullIndexRaises | nested_property/__init__.py:225-228 | a last index in range of a list parent makes `pull` raise TypeError |
| Removal.ApplyEachAppend | nested_property/__init__.py:140-143 | a batch is its first part followed, on the resulting document, by its second, unless the first raises |
| Find.MatchCondition | nested_property/__init__.py:277-320 | `match_condition`: the field is read with `get(item, key)`, a mapping is a conjunction of operators, anything else equality; stated in `OneOperator`, `LiteralCondition`, `UnknownOperatorIsEquality`, `OrderingOnNoneRaises` |
| Find.OpMet | nested_property/__init__.py:286-316 | one operator of a condition: `$regex` with flags from `$options`, orderings without a None guard, `$in`/`$nin`, `$options` passing, anything else equality with the whole condition; stated in `OneOperator`, `RegexWithOptions`, `OrderingOnInts`, `MembershipInList` |
| Find.MatchItem | nested_property/__init__.py:322-331 | `match_item`: `$and`, else `$or`, decide alone, else every condition; stated in `AndIgnoresSiblings`, `OrIgnoresSiblings`, `AndOrOverItems`, `ConditionsAll`, `PlainQuery` |
| Find.RegexFlags | nested_property/__init__.py:287-291 | without `$options` no flags; with a str `$options` the flags are whether it contains `i` and `m` |
| Find.StrQuery | nested_property/__init__.py:322-331 | a str query always raises, TypeError exactly when it contains `$and` or `$or` |
| Find.FindAll | nested_property/__init__.py:342-346 | `find_all` succeeds exactly when no evaluation raises, and keeps exactly the matching items |
| Find.FindAllInOrder | nested_property/__init__.py:342-346 | `find_all` keeps the matching items in their original order |
| Find.FirstMatch | nested_property/__init__.py:333-340 | `find_first` returns the first matching item whenever one comes before any raise, raises the error of the first raising item that comes before any match, and gives None exactly when every item answers False |
| Find.FindFirst | nested_property/__init__.py:333-340 | the scanning loop produces exactly that result |
| Find.FirstOfAll | nested_property/__init__.py:333-346 | `find_first` returns the first item `find_all` returns, or None when that is empty |
| Find.AndIgnoresSiblings | nested_property/__init__.py:326-327 | a query with `$and` is decided by it alone: `all` over its sub-queries |
| Find.OrIgnoresSiblings | nested_property/__init__.py:328-329 | a query with `$or` and no `$and` is decided by `$or` alone |
| Find.AndOrOverItems | nested_property/__init__.py:326-329 | over sub-queries that do not raise, `$and` holds when all hold and `$or` when one does |
| Find.ConditionsAll | nested_property/__init__.py:331 | the field conditions hold together exactly when each holds |
| Find.PlainQuery | nested_property/__init__.py:322-331 | a query without `$and`/`$or` holds exactly when every field condition holds |
| Find.OneOperator | nested_property/__init__.py:282-318 | a one-operator condition is decided by that operator on the field's value |
| Find.LiteralCondition | nested_property/__init__.py:319-320 | a non-dict condition is equality with the field's value |
| Find.UnknownOperatorIsEquality | nested_property/__init__.py:314-316 | an unknown operator compares the field with the whole condition, where `_match` raises |
| Find.OrderingOnNoneRaises | nested_property/__init__.py:294-305 | orderings raise TypeError on an absent field, where `_match` answers False |
| Find.OrderingOnInts | nested_property/__init__.py:294-305 | on ints the orderings compare by value |
| Find.MembershipInList | nested_property/__init__.py:306-311 | `$in`/`$nin` test membership of the field's value in a list |
| Find.RegexWithOptions | nested_property/__init__.py:286-293 | `$regex` fails on a non-str field and otherwise searches with the flags `$options` names; `$options` alone holds |

## Left out

- Attribute objects. Reflection through `hasattr`/`getattr`/`setattr` and the `__dict__` test of `is_dict_object` (nested_property/__init__.py:10-11, :19, :25, :31) is modelled only as far as dicts, lists and scalars reach it. The model has no objects with attributes.
- Tuples. A tuple is a list object to the library; the model has lists only.
- Floats and Python's mixed numeric equality (`1 == True == 1.0`) are not modelled. Equality is structural, so dict equality depends on insertion order, where Python's does not.
- Compare: orderings of lists and of bools against ints are TypeError in the model, where Python compares lists element-wise and treats bools as ints.
- The regular expression engine. `re.search` is the `Search` parameter of the `Find` module, and `re.IGNORECASE`/`re.MULTILINE` are the two booleans of `Flags`.
- `int()` and `str.isdigit()`. They are modelled for ASCII digits with an optional sign. Unicode digits, surrounding whitespace and underscores are not modelled.
- Aliasing. A document is a tree value. A node reachable from two places, and mutation seen through another reference, are not modelled.
- Path arguments. A path argument is a str or a list of path arguments (`PathArg`). A tuple of paths and a path that is neither a str nor a list are not modelled.
- `Effects.SetThenGet`, `Effects.PushOntoOther`, `Removal.DeleteField` and `Removal.PullFromList` state their effect only for paths of dict keys; index segments are covered separately by `Effects.SetStopsAtIndex`, `Removal.DeleteIndex`, `Removal.DeleteThroughIndex` and `Removal.PullIndexRaises`.
- Effects.SetStopsAtIndex: states only the TypeError for an index segment anywhere in the path. The document it leaves is stated by `Effects.SetAtIndex`, and only when the index follows present dict keys that reach a list or dict. After a missing key, or after a key created on the way, the padded or cleared node is not stated.
