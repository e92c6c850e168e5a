/** What `delete` (and `unset`) and `pull` do to a document, and how a
    batch of paths composes, stated along the dict keys of the path. */
module Removal {
  import opened Values
  import opened Paths
  import opened Positions
  import opened Traverse
  import opened Query
  import opened Edits
  import opened Mutate
  import opened Effects

  /** The segments of a path before its last one: the path to the parent. */
  function ParentKeys(path: string): (r: seq<string>)
    ensures r + [LastKey(path)] == Split(path)
  {
    Split(path)[..|Split(path)| - 1]
  }

  function LastKey(path: string): string {
    Split(path)[|Split(path)| - 1]
  }

  /** Along dict keys, the walk to the parent reaches the node the keys
      lead to, when there is one. */
  lemma ParentReached(root: Value, path: string, prefix: Option<string>, w: Value)
    requires FieldsOnly(ParentKeys(path), prefix) && FollowKeys(root, ParentKeys(path)) != Null
    ensures var walk := WalkFrom(root, Attached([]), ParentKeys(path), false, prefix);
      && walk.Reached? && walk.focus.Attached? && ValidPos(root, walk.focus.pos)
      && At(root, walk.focus.pos) == FollowKeys(root, ParentKeys(path))
      && Present(root, ParentKeys(path))
      && Replace(root, walk.focus.pos, w) == PutAlong(root, ParentKeys(path), w)
  {
    WalkFieldsRead(root, [], ParentKeys(path), prefix);
    WalkReplace(root, [], ParentKeys(path), prefix, w);
  }

  // ---------------------------------------------------------------------
  // delete

  /** `delete` of a field under a dict: the key is popped from that dict,
      and nothing else changes. */
  lemma DeleteField(root: Value, path: string, prefix: Option<string>)
    requires FieldsOnly(Split(path), prefix) && FollowKeys(root, ParentKeys(path)).Dict?
    ensures Present(root, ParentKeys(path))
    ensures DeleteOne(root, path, prefix)
      == Done(PutAlong(root, ParentKeys(path), Dict(DictPop(FollowKeys(root, ParentKeys(path)).entries, LastKey(path)))))
  {
    var names := Split(path);
    FieldsOnlyPrefix(names, |names| - 1, prefix);
    assert ParseKey(LastKey(path), prefix) == Ok(Field(LastKey(path)));
    ParentReached(root, path, prefix, Dict(DictPop(FollowKeys(root, ParentKeys(path)).entries, LastKey(path))));
  }

  /** After `delete` of a field under a dict, `get` returns the default,
      and every other key of the parent still leads where it did. */
  lemma DeleteFieldReads(root: Value, path: string, prefix: Option<string>)
    requires FieldsOnly(Split(path), prefix) && FollowKeys(root, ParentKeys(path)).Dict?
    ensures DeleteOne(root, path, prefix).Done?
    ensures forall d :: Lookup(DeleteOne(root, path, prefix).root, path, d, prefix) == Ok(d)
    ensures forall k :: k != LastKey(path) ==>
      FollowKeys(DeleteOne(root, path, prefix).root, ParentKeys(path) + [k]) == FollowKeys(root, ParentKeys(path) + [k])
  {
    DeleteField(root, path, prefix);
    var pk := ParentKeys(path);
    var last := LastKey(path);
    var popped := Dict(DictPop(FollowKeys(root, pk).entries, last));
    var r := PutAlong(root, pk, popped);
    PutAlongGet(root, pk, popped);
    ResolveFields(r, path, prefix);
    FollowKeysAppend(r, pk, [last]);
    forall k | k != last
      ensures FollowKeys(r, pk + [k]) == FollowKeys(root, pk + [k])
    {
      FollowKeysAppend(r, pk, [k]);
      FollowKeysAppend(root, pk, [k]);
    }
  }

  /** `delete` of an index in range of a list: the element is popped, the
      later ones move down by one, and nothing else changes. */
  lemma DeleteIndex(root: Value, path: string, prefix: Option<string>, items: seq<Value>, i: int)
    requires FieldsOnly(ParentKeys(path), prefix) && ParseKey(LastKey(path), prefix) == Ok(Index(i))
    requires FollowKeys(root, ParentKeys(path)) == List(items) && 0 <= i < |items|
    ensures Present(root, ParentKeys(path))
    ensures DeleteOne(root, path, prefix) == Done(PutAlong(root, ParentKeys(path), List(items[..i] + items[i + 1..])))
    ensures var after := FollowKeys(DeleteOne(root, path, prefix).root, ParentKeys(path));
      && after.List? && |after.items| == |items| - 1
      && (forall j :: 0 <= j < i ==> after.items[j] == items[j])
      && (forall j :: i <= j < |items| - 1 ==> after.items[j] == items[j + 1])
  {
    var w := List(items[..i] + items[i + 1..]);
    ParentReached(root, path, prefix, w);
    PutAlongGet(root, ParentKeys(path), w);
  }

  /** `delete` changes nothing when the parent is not there, when it is
      neither a dict nor a list, or when the last segment names no key of a
      dict parent (`pop(k, None)`) or no index of a list parent. */
  lemma DeleteNothing(root: Value, path: string, prefix: Option<string>)
    requires FieldsOnly(ParentKeys(path), prefix) && ParseKey(LastKey(path), prefix).Ok?
    requires var parent := FollowKeys(root, ParentKeys(path));
      var key := ParseKey(LastKey(path), prefix).value;
      || !IsContainer(parent)
      || (parent.Dict? && (key.Index? || DictGet(parent.entries, key.name).None?))
      || (parent.List? && (key.Field? || !(0 <= key.n < |parent.items|)))
    ensures DeleteOne(root, path, prefix) == Done(root)
  {
    var parent := FollowKeys(root, ParentKeys(path));
    WalkFieldsRead(root, [], ParentKeys(path), prefix);
    if parent != Null {
      var q := WalkFrom(root, Attached([]), ParentKeys(path), false, prefix).focus.pos;
      ReplaceSame(root, q);
    }
  }

  /** `delete` through a path with an index segment before the last one
      changes nothing: the walk to the parent stops at the index. */
  lemma DeleteThroughIndex(root: Value, path: string, prefix: Option<string>)
    requires forall j :: 0 <= j < |ParentKeys(path)| ==> ParseKey(ParentKeys(path)[j], prefix).Ok?
    requires exists j :: 0 <= j < |ParentKeys(path)| && ParseKey(ParentKeys(path)[j], prefix).value.Index?
    ensures DeleteOne(root, path, prefix) == Done(root)
  {
    WalkStopsAtIndex(root, Attached([]), ParentKeys(path), false, prefix);
  }

  // ---------------------------------------------------------------------
  // pull

  predicate MatchesQuery(y: Value, query: Value) {
    y.Dict? && Match(y, query) == Ok(true)
  }

  /** The elements of `items` that are not dicts matching `query`, in order. */
  function Unmatched(items: seq<Value>, query: Value): (r: seq<Value>)
    ensures forall y :: y in r <==> y in items && !MatchesQuery(y, query)
    ensures |r| <= |items|
    decreases |items|
  {
    if items == [] then []
    else
      var n := |items| - 1;
      assert items == items[..n] + [items[n]];
      Unmatched(items[..n], query) + (if MatchesQuery(items[n], query) then [] else [items[n]])
  }

  /** Popping below the last element leaves the last element last. */
  lemma {:induction false} PopKeepsLast(items: seq<Value>, idxs: seq<nat>)
    requires items != [] && Ascending(idxs)
    requires forall t :: 0 <= t < |idxs| ==> idxs[t] < |items| - 1
    ensures PopReversed(items, idxs) == PopReversed(items[..|items| - 1], idxs) + [items[|items| - 1]]
    decreases |idxs|
  {
    if idxs != [] {
      var m := |idxs| - 1;
      var j := idxs[m];
      var n := |items| - 1;
      var shorter := items[..j] + items[j + 1..];
      assert shorter[..|shorter| - 1] == items[..n][..j] + items[..n][j + 1..];
      assert shorter[|shorter| - 1] == items[n];
      assert forall t :: 0 <= t < m ==> idxs[t] < j;
      PopKeepsLast(shorter, idxs[..m]);
    }
  }

  /** The indices collected over a list are those collected over all but
      its last element, then the last index if that element matches. */
  lemma MatchingSnoc(items: seq<Value>, query: Value)
    requires items != [] && MatchingIndices(items, query).Ok?
    ensures MatchingIndices(items[..|items| - 1], query).Ok?
    ensures MatchingIndices(items, query).value ==
      MatchingIndices(items[..|items| - 1], query).value
        + (if MatchesQuery(items[|items| - 1], query) then [|items| - 1] else [])
  {
  }

  /** When the last element is among those popped, it goes first. */
  lemma PopLast(items: seq<Value>, before: seq<nat>)
    requires items != [] && Ascending(before)
    requires forall t :: 0 <= t < |before| ==> before[t] < |items| - 1
    ensures Ascending(before + [|items| - 1])
    ensures PopReversed(items, before + [|items| - 1]) == PopReversed(items[..|items| - 1], before)
  {
    var n := |items| - 1;
    assert (before + [n])[..|before|] == before;
    assert items[..n] + items[n + 1..] == items[..n];
  }

  /** Popping the matching indices from the highest down removes exactly
      the dicts that match, keeping the order of the rest. */
  lemma {:induction false} PopMatching(items: seq<Value>, query: Value)
    requires MatchingIndices(items, query).Ok?
    ensures PopReversed(items, MatchingIndices(items, query).value) == Unmatched(items, query)
    decreases |items|
  {
    if items != [] {
      var n := |items| - 1;
      MatchingSnoc(items, query);
      var before := MatchingIndices(items[..n], query).value;
      PopMatching(items[..n], query);
      if MatchesQuery(items[n], query) {
        PopLast(items, before);
      } else {
        PopKeepsLast(items, before);
      }
    }
  }

  /** What `pull` makes of the target list: an index in range pops that
      element (the later ones move down); otherwise None changes nothing, a
      dict removes the dicts matching it (or raises as the match does), and
      any other value removes the elements equal to it. */
  lemma PullFromCases(items: seq<Value>, value: Value, index: Value)
    ensures var i := IndexArg(index);
      i.Some? && 0 <= i.value < |items| ==>
        && PullFrom(items, value, index).Ok?
        && |PullFrom(items, value, index).value| == |items| - 1
        && (forall j :: 0 <= j < i.value ==> PullFrom(items, value, index).value[j] == items[j])
        && (forall j :: i.value <= j < |items| - 1 ==> PullFrom(items, value, index).value[j] == items[j + 1])
    ensures var i := IndexArg(index);
      !(i.Some? && 0 <= i.value < |items|) ==>
        && (value == Null ==> PullFrom(items, value, index) == Ok(items))
        && (value.Dict? ==>
             match MatchingIndices(items, value)
             case Err(e) => PullFrom(items, value, index) == Err(e)
             case Ok(_) => PullFrom(items, value, index) == Ok(Unmatched(items, value)))
        && (value != Null && !value.Dict? ==>
             && PullFrom(items, value, index) == Ok(Filter(items, Differs(value)))
             && forall y :: multiset(PullFrom(items, value, index).value)[y] == if y == value then 0 else multiset(items)[y])
  {
    var i := IndexArg(index);
    if !(i.Some? && 0 <= i.value < |items|) {
      if value.Dict? && MatchingIndices(items, value).Ok? {
        PopMatching(items, value);
      } else if value != Null && !value.Dict? {
        forall y ensures multiset(Filter(items, Differs(value)))[y] == if y == value then 0 else multiset(items)[y] {
          FilterCount(items, Differs(value), y);
        }
      }
    }
  }

  /** The elements equal to a scalar are pulled from each part of a list
      separately: what stays keeps its order. */
  lemma PullScalarAppend(a: seq<Value>, b: seq<Value>, value: Value, index: Value)
    requires value != Null && !value.Dict? && IndexArg(index).None?
    ensures PullFrom(a + b, value, index) == Ok(PullFrom(a, value, index).value + PullFrom(b, value, index).value)
    ensures PullFrom([value], value, index) == Ok([])
    ensures forall y :: y != value ==> PullFrom([y], value, index) == Ok([y])
  {
    FilterAppend(a, b, Differs(value));
    forall y | y != value ensures PullFrom([y], value, index) == Ok([y]) {
      assert [y][1..] == [];
      assert Differs(value)(y);
      var none: seq<Value> := [];
      assert Filter([y], Differs(value)) == [y] + Filter(none, Differs(value));
      assert Filter(none, Differs(value)) == none && [y] + none == [y];
      assert PullFrom([y], value, index) == Ok(Filter([y], Differs(value)));
    }
  }

  /** `pull` under a dict parent at `p` whose field holds a list. */
  lemma PullFieldList(root: Value, p: seq<nat>, k: string, value: Value, index: Value, items: seq<Value>, kept: seq<Value>)
    requires ValidPos(root, p) && At(root, p).Dict? && DictGet(At(root, p).entries, k) == Some(List(items))
    requires PullFrom(items, value, index) == Ok(kept)
    ensures PullField(root, p, k, value, index) == Done(Replace(root, p, Dict(DictPut(At(root, p).entries, k, List(kept)))))
  {
    var i := FindKey(At(root, p).entries, k).value;
    ReplaceExtend(root, p, i, List(kept));
    WithChildIsPut(At(root, p).entries, k, List(kept));
  }

  /** `pull` from a list that the path (of dict keys) leads to: the list
      becomes what `PullFrom` makes of it, nothing else changes, and `get`
      then reads the new list. */
  lemma PullFromList(root: Value, path: string, value: Value, index: Value, prefix: Option<string>, items: seq<Value>, kept: seq<Value>)
    requires FieldsOnly(Split(path), prefix) && FollowKeys(root, Split(path)) == List(items)
    requires PullFrom(items, value, index) == Ok(kept)
    ensures Present(root, Split(path))
    ensures PullOne(root, path, value, index, prefix) == Done(PutAlong(root, Split(path), List(kept)))
    ensures Lookup(PutAlong(root, Split(path), List(kept)), path, Null, prefix) == Ok(List(kept))
  {
    var names := Split(path);
    var pk := ParentKeys(path);
    var last := LastKey(path);
    FieldsOnlyPrefix(names, |names| - 1, prefix);
    assert ParseKey(last, prefix) == Ok(Field(last));
    FollowKeysAppend(root, pk, [last]);
    var parent := FollowKeys(root, pk);
    var w := List(kept);
    var updated := Dict(DictPut(parent.entries, last, w));
    ParentReached(root, path, prefix, updated);
    var q := WalkFrom(root, Attached([]), pk, false, prefix).focus.pos;
    PullFieldList(root, q, last, value, index, items, kept);
    PutAlongSnoc(root, pk, last, w);
    ReadBack(root, path, w, prefix);
  }

  /** After the node at the end of a path of dict keys is replaced, `get`
      reads the replacement. */
  lemma ReadBack(root: Value, path: string, w: Value, prefix: Option<string>)
    requires FieldsOnly(Split(path), prefix) && Present(root, Split(path)) && w != Null
    ensures Lookup(PutAlong(root, Split(path), w), path, Null, prefix) == Ok(w)
  {
    PutAlongGet(root, Split(path), w);
    ResolveFields(PutAlong(root, Split(path), w), path, prefix);
  }

  /** Under a parent found by the walk, a field last segment that names no
      list leaves the document as it was. */
  lemma PullUnderNoList(root: Value, p: seq<nat>, last: string, value: Value, index: Value, prefix: Option<string>)
    requires ValidPos(root, p) && ParseKey(last, prefix) == Ok(Field(last))
    requires !FollowKeys(At(root, p), [last]).List?
    ensures PullUnder(root, p, last, value, index, prefix) == Done(root)
  {
    FollowOne(At(root, p), last);
    PullFieldNoList(root, p, last, value, index);
  }

  /** Following one key is one dict lookup. */
  lemma FollowOne(v: Value, k: string)
    ensures FollowKeys(v, [k]) == if v.Dict? && DictGet(v.entries, k).Some? then DictGet(v.entries, k).value else Null
  {
    if v.Dict? && DictGet(v.entries, k).Some? {
      assert FollowKeys(v, [k]) == FollowKeys(DictGet(v.entries, k).value, []);
    }
  }

  /** The field step of `pull` changes nothing when the field holds no list. */
  lemma PullFieldNoList(root: Value, p: seq<nat>, k: string, value: Value, index: Value)
    requires ValidPos(root, p)
    requires var parent := At(root, p); !(parent.Dict? && DictGet(parent.entries, k).Some? && DictGet(parent.entries, k).value.List?)
    ensures PullField(root, p, k, value, index) == Done(root)
  {
  }

  /** Along dict keys that lead to no list, the walk to the parent either
      finds nothing or reaches a parent under which `pull` changes nothing. */
  lemma PullWalkNoList(root: Value, keys: seq<string>, value: Value, index: Value, prefix: Option<string>)
    requires |keys| > 0 && FieldsOnly(keys, prefix) && !FollowKeys(root, keys).List?
    ensures var w := WalkFrom(root, Attached([]), keys[..|keys| - 1], false, prefix);
      && !w.Failed?
      && (w.Reached? ==> w.focus.Attached? && ValidPos(root, w.focus.pos)
                         && PullUnder(root, w.focus.pos, keys[|keys| - 1], value, index, prefix) == Done(root))
  {
    var pk := keys[..|keys| - 1];
    var last := keys[|keys| - 1];
    FieldsOnlyPrefix(keys, |keys| - 1, prefix);
    assert ParseKey(last, prefix) == Ok(Field(last));
    assert keys == pk + [last];
    FollowKeysAppend(root, pk, [last]);
    WalkFieldsRead(root, [], pk, prefix);
    var w := WalkFrom(root, Attached([]), pk, false, prefix);
    if w.Reached? {
      PullUnderNoList(root, w.focus.pos, last, value, index, prefix);
    }
  }

  /** `pull` where the path (of dict keys) does not lead to a list changes nothing. */
  lemma PullNoTarget(root: Value, path: string, value: Value, index: Value, prefix: Option<string>)
    requires FieldsOnly(Split(path), prefix) && !FollowKeys(root, Split(path)).List?
    ensures PullOne(root, path, value, index, prefix) == Done(root)
  {
    PullWalkNoList(root, Split(path), value, index, prefix);
  }

  /** `pull` with an index last segment in range of a list parent raises
      TypeError: `get_value` on a list with an int key. */
  lemma PullIndexRaises(root: Value, path: string, value: Value, index: Value, prefix: Option<string>, items: seq<Value>, i: int)
    requires FieldsOnly(ParentKeys(path), prefix) && ParseKey(LastKey(path), prefix) == Ok(Index(i))
    requires FollowKeys(root, ParentKeys(path)) == List(items) && 0 <= i < |items|
    ensures PullOne(root, path, value, index, prefix) == Raised(root, TypeError)
  {
    WalkFieldsRead(root, [], ParentKeys(path), prefix);
  }

  // ---------------------------------------------------------------------
  // batches

  /** A batch is applied path after path: splitting it in two applies the
      first part and then the second to what the first left, unless the
      first part raised. */
  lemma {:induction false} ApplyEachAppend(root: Value, a: seq<PathArg>, b: seq<PathArg>, m: Mutation, prefix: Option<string>)
    ensures ApplyEach(root, a + b, m, prefix) ==
      match ApplyEach(root, a, m, prefix)
      case Raised(r, e) => Raised(r, e)
      case Done(r) => ApplyEach(r, b, m, prefix)
    decreases |a|
  {
    if a == [] {
      assert a + b == b;
    } else {
      assert (a + b)[0] == a[0] && (a + b)[1..] == a[1..] + b;
      match ApplyAll(root, a[0], m, prefix)
      case Raised(r, e) =>
      case Done(r) => ApplyEachAppend(r, a[1..], b, m, prefix);
    }
  }
}
