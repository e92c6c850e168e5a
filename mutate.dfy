/** The operations that change a document in place: `set`, `delete` (and
    its alias `unset`), `push` and `pull`, one path at a time and over a
    batch of paths. Each is a specification function from the document to
    an `Outcome`, and a method that does the work step by step, loop by
    loop as the library does, proved to produce that outcome. */
module Mutate {
  import opened Values
  import opened Paths
  import opened Positions
  import opened Traverse
  import opened Query

  /** The document after an operation: it returned normally, or raised
      with whatever changes it had already made still in place. */
  datatype Outcome = Done(root: Value) | Raised(root: Value, error: Error)

  // ---------------------------------------------------------------------
  // set

  /** The document after the index branch of `set` has made `current` a
      list (clearing a dict in place and switching to a new, detached list)
      and padded it to hold index `k`. */
  function PadIndex(root: Value, f: Focus, k: int, filler: Value): Value
    requires Fits(root, f)
  {
    var (r1, f1) := if Current(root, f).List? then (root, f) else Coerce(root, f, List([]));
    Store(r1, f1, List(Padded(Current(r1, f1).items, k, filler))).0
  }

  /** `set` from the node `current`, tail-recursively over the segments.
      An intermediate field keeps a dict or list child and replaces any
      other (or a missing one) by `{}`. An index segment pads the list (with
      `{}` when intermediate, None when last) and then raises TypeError:
      `get_value` and `set_value` reach `hasattr`/`setattr` with an int. A
      last field is assigned on a dict and raises AttributeError on anything
      else. */
  function SetFrom(root: Value, f: Focus, keys: seq<string>, x: Value, prefix: Option<string>): (o: Outcome)
    requires Fits(root, f) && |keys| >= 1
    decreases |keys|
  {
    match ParseKey(keys[0], prefix)
    case Err(e) => Raised(root, e)
    case Ok(Index(k)) => Raised(PadIndex(root, f, k, if |keys| == 1 then Null else Dict([])), TypeError)
    case Ok(Field(k)) =>
      var cur := Current(root, f);
      if |keys| == 1 then
        if cur.Dict? then Done(Store(root, f, Dict(DictPut(cur.entries, k, x))).0)
        else Raised(root, AttributeError)
      else
        var (r2, f2) := Prepared(root, f, k);
        SetFrom(r2, Descend(r2, f2, k), keys[1..], x, prefix)
  }

  /** An intermediate field of `set`, up to the descent: `current` is made
      a dict (coercing it if need be) and a child that is not a container
      is replaced by `{}`. */
  function Prepared(root: Value, f: Focus, k: string): (r: (Value, Focus))
    requires Fits(root, f)
    ensures Fits(r.0, r.1) && Current(r.0, r.1).Dict?
    ensures DictGet(Current(r.0, r.1).entries, k).Some?
  {
    var (r1, f1) := if Current(root, f).Dict? then (root, f) else Coerce(root, f, Dict([]));
    var es := Current(r1, f1).entries;
    var child := DictGet(es, k);
    if child.Some? && IsContainer(child.value) then (r1, f1)
    else Store(r1, f1, Dict(DictPut(es, k, Dict([]))))
  }

  /** `set(obj, path, value, index_prefix)` for one path. */
  function SetOne(root: Value, path: string, x: Value, prefix: Option<string>): Outcome {
    SetFrom(root, Attached([]), Split(path), x, prefix)
  }

  // ---------------------------------------------------------------------
  // delete

  /** `delete(obj, path, index_prefix)` for one path: the parent is found
      by a walk that creates nothing; an index in range of a list parent is
      popped, a field is popped from a dict parent; anything else changes
      nothing. */
  function DeleteOne(root: Value, path: string, prefix: Option<string>): Outcome {
    var keys := Split(path);
    match WalkFrom(root, Attached([]), keys[..|keys| - 1], false, prefix)
    case Failed(_, e) => Raised(root, e)
    case Missing(_) => Done(root)
    case Reached(_, f) =>
      var parent := At(root, f.pos);
      if parent == Null then Done(root)
      else match ParseKey(keys[|keys| - 1], prefix)
        case Err(e) => Raised(root, e)
        case Ok(Index(k)) =>
          if parent.List? && 0 <= k < |parent.items| then
            Done(Replace(root, f.pos, List(parent.items[..k] + parent.items[k + 1..])))
          else Done(root)
        case Ok(Field(k)) =>
          if parent.Dict? then Done(Replace(root, f.pos, Dict(DictPop(parent.entries, k))))
          else Done(root)
  }

  // ---------------------------------------------------------------------
  // push

  /** `push(obj, path, value, index_prefix)` for one path: a walk that
      creates what is missing; a list at its end gets `value` appended,
      anything else makes way for `set(obj, path, [value])`. */
  function PushOne(root: Value, path: string, x: Value, prefix: Option<string>): Outcome {
    match WalkFrom(root, Attached([]), Split(path), true, prefix)
    case Failed(r, e) => Raised(r, e)
    case Missing(r) => SetOne(r, path, List([x]), prefix)
    case Reached(r, f) =>
      var target := Current(r, f);
      if target.List? then Done(Store(r, f, List(target.items + [x])).0)
      else SetOne(r, path, List([x]), prefix)
  }

  // ---------------------------------------------------------------------
  // pull

  /** `index is not None and isinstance(index, int)`: a bool is an int. */
  function IndexArg(index: Value): Option<int> {
    match index
    case Int(i) => Some(i)
    case Bool(b) => Some(if b then 1 else 0)
    case _ => None
  }

  predicate Ascending(s: seq<nat>) {
    forall a, b :: 0 <= a < b < |s| ==> s[a] < s[b]
  }

  /** The indices the loop of `pull` collects: the dict elements that match
      `query`, in ascending order; the first raising match raises. */
  function MatchingIndices(items: seq<Value>, query: Value): (r: Result<seq<nat>>)
    ensures r.Ok? ==> Ascending(r.value)
    ensures r.Ok? ==> forall t :: 0 <= t < |r.value| ==> r.value[t] < |items|
    ensures r.Ok? ==> forall t :: 0 <= t < |r.value| ==>
      items[r.value[t]].Dict? && Match(items[r.value[t]], query) == Ok(true)
    decreases |items|
  {
    if items == [] then Ok([])
    else
      var n := |items| - 1;
      var before :- MatchingIndices(items[..n], query);
      var hit :- if items[n].Dict? then Match(items[n], query) else Ok(false);
      Ok(if hit then before + [n] else before)
  }

  /** `for idx in idxs[::-1]: items.pop(idx)`. */
  function PopReversed(items: seq<Value>, idxs: seq<nat>): seq<Value>
    requires Ascending(idxs) && forall t :: 0 <= t < |idxs| ==> idxs[t] < |items|
    decreases |idxs|
  {
    if idxs == [] then items
    else
      var j := idxs[|idxs| - 1];
      PopReversed(items[..j] + items[j + 1..], idxs[..|idxs| - 1])
  }

  /** What `pull` makes of the target list: an int `index` in range pops
      that element; otherwise a dict `value` pops the elements matching it,
      and any other non-None `value` keeps the elements unequal to it. */
  /** The test of `[v for v in target_list if v != value]`. */
  function Differs(value: Value): Value -> bool {
    y => y != value
  }

  function PullFrom(items: seq<Value>, value: Value, index: Value): Result<seq<Value>> {
    var i := IndexArg(index);
    if i.Some? && 0 <= i.value < |items| then Ok(items[..i.value] + items[i.value + 1..])
    else if value == Null then Ok(items)
    else if value.Dict? then
      var idxs :- MatchingIndices(items, value);
      Ok(PopReversed(items, idxs))
    else Ok(Filter(items, Differs(value)))
  }

  /** `pull(obj, path, value, index, index_prefix)` for one path: the
      parent is found by a walk that creates nothing. */
  function PullOne(root: Value, path: string, value: Value, index: Value, prefix: Option<string>): Outcome {
    var keys := Split(path);
    match WalkFrom(root, Attached([]), keys[..|keys| - 1], false, prefix)
    case Failed(_, e) => Raised(root, e)
    case Missing(_) => Done(root)
    case Reached(_, f) => PullUnder(root, f.pos, keys[|keys| - 1], value, index, prefix)
  }

  /** The rest of `pull` once the parent at `p` is found. The target is the
      list under a field of a dict parent; an index last segment in range of
      a list parent raises, because `get_value` does. */
  function PullUnder(root: Value, p: seq<nat>, last: string, value: Value, index: Value, prefix: Option<string>): Outcome
    requires ValidPos(root, p)
  {
    var parent := At(root, p);
    if parent == Null then Done(root)
    else match ParseKey(last, prefix)
      case Err(e) => Raised(root, e)
      case Ok(Index(k)) =>
        if parent.List? && 0 <= k < |parent.items| then Raised(root, TypeError) else Done(root)
      case Ok(Field(k)) => PullField(root, p, k, value, index)
  }

  /** `pull` with a field last segment `k` under the parent at `p`. */
  function PullField(root: Value, p: seq<nat>, k: string, value: Value, index: Value): Outcome
    requires ValidPos(root, p)
  {
    var parent := At(root, p);
    var target := if parent.Dict? then DictGet(parent.entries, k) else None;
    if target.None? || !target.value.List? then Done(root)
    else
      var i := FindKey(parent.entries, k).value;
      AtExtend(root, p, i);
      match PullFrom(target.value.items, value, index)
      case Err(e) => Raised(root, e)
      case Ok(kept) => Done(Replace(root, p + [i], List(kept)))
  }

  // ---------------------------------------------------------------------
  // one path or a batch

  /** The four mutating operations (`unset` is `delete`). */
  datatype Mutation =
    | SetTo(value: Value)
    | Remove
    | PushValue(value: Value)
    | PullOut(value: Value, index: Value)

  function ApplyOne(root: Value, path: string, m: Mutation, prefix: Option<string>): Outcome {
    match m
    case SetTo(x) => SetOne(root, path, x, prefix)
    case Remove => DeleteOne(root, path, prefix)
    case PushValue(x) => PushOne(root, path, x, prefix)
    case PullOut(value, index) => PullOne(root, path, value, index, prefix)
  }

  /** A batch of paths applies the operation to each in turn, each on the
      document the previous ones left; the first exception stops it. */
  function ApplyAll(root: Value, arg: PathArg, m: Mutation, prefix: Option<string>): Outcome
    decreases arg
  {
    match arg
    case Single(path) => ApplyOne(root, path, m, prefix)
    case Batch(paths) => ApplyEach(root, paths, m, prefix)
  }

  function ApplyEach(root: Value, paths: seq<PathArg>, m: Mutation, prefix: Option<string>): Outcome
    decreases paths
  {
    if paths == [] then Done(root)
    else match ApplyAll(root, paths[0], m, prefix)
      case Raised(r, e) => Raised(r, e)
      case Done(r) => ApplyEach(r, paths[1..], m, prefix)
  }

  // ---------------------------------------------------------------------
  // the operations as the loops they are

  /** The index branch of `set`, up to the assignment that raises. */
  method PadAt(root: Value, f: Focus, k: int, filler: Value) returns (r: Value)
    requires Fits(root, f)
    ensures r == PadIndex(root, f, k, filler)
  {
    var doc, current := root, f;
    if !Current(doc, current).List? {
      var t := Coerce(doc, current, List([]));
      doc, current := t.0, t.1;
    }
    var items := Pad(Current(doc, current).items, k, filler);
    var t := Store(doc, current, List(items));
    return t.0;
  }

  /** The last segment of `set`. */
  method SetLast(root: Value, f: Focus, seg: string, x: Value, prefix: Option<string>) returns (o: Outcome)
    requires Fits(root, f)
    ensures o == SetFrom(root, f, [seg], x, prefix)
  {
    var key := ParseKey(seg, prefix);
    if key.Err? {
      return Raised(root, key.error);
    }
    match key.value {
      case Index(k) =>
        var doc := PadAt(root, f, k, Null);
        return Raised(doc, TypeError);
      case Field(k) =>
        assert key == Ok(Field(k));
        o := AssignLast(root, f, k, x);
    }
  }

  /** `set_value(current, last_key, value)` on a field: a dict gets the key
      assigned, anything else raises AttributeError from `setattr`. */
  method AssignLast(root: Value, f: Focus, k: string, x: Value) returns (o: Outcome)
    requires Fits(root, f)
    ensures Current(root, f).Dict? ==> o == Done(Store(root, f, Dict(DictPut(Current(root, f).entries, k, x))).0)
    ensures !Current(root, f).Dict? ==> o == Raised(root, AttributeError)
  {
    if !Current(root, f).Dict? {
      return Raised(root, AttributeError);
    }
    var t := Store(root, f, Dict(DictPut(Current(root, f).entries, k, x)));
    return Done(t.0);
  }

  /** An intermediate field of `set`, up to `current = get_value(current, k)`. */
  method PrepareField(root: Value, f: Focus, k: string) returns (doc: Value, current: Focus)
    requires Fits(root, f)
    ensures (doc, current) == Prepared(root, f, k)
  {
    doc, current := root, f;
    if !Current(doc, current).Dict? {
      var t := Coerce(doc, current, Dict([]));
      doc, current := t.0, t.1;
    }
    var child := DictGet(Current(doc, current).entries, k);
    if !(child.Some? && IsContainer(child.value)) {
      var t := Store(doc, current, Dict(DictPut(Current(doc, current).entries, k, Dict([]))));
      doc, current := t.0, t.1;
    }
  }

  /** One iteration of the loop of `set` over the intermediate segments:
      it either ends the operation (an index, or a segment that does not
      parse) or moves `current` one field down. */
  method SetIntermediate(root: Value, f: Focus, keys: seq<string>, x: Value, prefix: Option<string>)
    returns (stop: bool, o: Outcome, doc: Value, current: Focus)
    requires Fits(root, f) && |keys| > 1
    ensures stop ==> o == SetFrom(root, f, keys, x, prefix)
    ensures !stop ==> Fits(doc, current) && SetFrom(doc, current, keys[1..], x, prefix) == SetFrom(root, f, keys, x, prefix)
  {
    doc, current := root, f;
    var key := ParseKey(keys[0], prefix);
    if key.Err? {
      return true, Raised(root, key.error), doc, current;
    }
    match key.value {
      case Index(k) =>
        doc := PadAt(root, f, k, Dict([]));
        return true, Raised(doc, TypeError), doc, current;
      case Field(k) =>
        doc, current := DescendField(root, f, keys, x, prefix);
        return false, Done(doc), doc, current;
    }
  }

  /** An intermediate field segment: prepare `current` and go into the child. */
  method DescendField(root: Value, f: Focus, keys: seq<string>, x: Value, prefix: Option<string>) returns (doc: Value, current: Focus)
    requires Fits(root, f) && |keys| > 1 && ParseKey(keys[0], prefix) == Ok(Field(keys[0]))
    ensures Fits(doc, current) && SetFrom(doc, current, keys[1..], x, prefix) == SetFrom(root, f, keys, x, prefix)
  {
    var d, c := PrepareField(root, f, keys[0]);
    doc, current := d, Descend(d, c, keys[0]);
  }

  method SetPath(root: Value, path: string, x: Value, prefix: Option<string>) returns (o: Outcome)
    ensures o == SetOne(root, path, x, prefix)
  {
    var keys := Split(path);
    var doc, current := root, Attached([]);
    var i := 0;
    while i < |keys| - 1
      invariant 0 <= i <= |keys| - 1
      invariant Fits(doc, current)
      invariant SetFrom(doc, current, keys[i..], x, prefix) == SetOne(root, path, x, prefix)
    {
      var stop, result, doc', current' := SetIntermediate(doc, current, keys[i..], x, prefix);
      if stop {
        return result;
      }
      assert keys[i..][1..] == keys[i + 1..];
      doc, current := doc', current';
      i := i + 1;
    }
    assert keys[i..] == [keys[i]];
    o := SetLast(doc, current, keys[i], x, prefix);
  }

  method DeletePath(root: Value, path: string, prefix: Option<string>) returns (o: Outcome)
    ensures o == DeleteOne(root, path, prefix)
  {
    var keys := Split(path);
    var w := Walk(root, keys[..|keys| - 1], false, prefix);
    if w.Failed? {
      return Raised(root, w.error);
    }
    if w.Missing? {
      return Done(root);
    }
    var parent := Current(w.root, w.focus);
    if parent == Null {
      return Done(root);
    }
    var key := ParseKey(keys[|keys| - 1], prefix);
    if key.Err? {
      return Raised(root, key.error);
    }
    o := Done(root);
    match key.value {
      case Index(k) =>
        if parent.List? && 0 <= k < |parent.items| {
          o := Done(Replace(root, w.focus.pos, List(parent.items[..k] + parent.items[k + 1..])));
        }
      case Field(k) =>
        if parent.Dict? {
          o := Done(Replace(root, w.focus.pos, Dict(DictPop(parent.entries, k))));
        }
    }
  }

  method PushPath(root: Value, path: string, x: Value, prefix: Option<string>) returns (o: Outcome)
    ensures o == PushOne(root, path, x, prefix)
  {
    var w := Walk(root, Split(path), true, prefix);
    if w.Failed? {
      return Raised(w.root, w.error);
    }
    if w.Reached? && Current(w.root, w.focus).List? {
      var t := Store(w.root, w.focus, List(Current(w.root, w.focus).items + [x]));
      return Done(t.0);
    }
    o := SetPath(w.root, path, List([x]), prefix);
  }

  method PullPath(root: Value, path: string, value: Value, index: Value, prefix: Option<string>) returns (o: Outcome)
    ensures o == PullOne(root, path, value, index, prefix)
  {
    var keys := Split(path);
    var w := Walk(root, keys[..|keys| - 1], false, prefix);
    if w.Failed? {
      return Raised(root, w.error);
    }
    if w.Missing? {
      return Done(root);
    }
    o := PullParent(root, w.focus.pos, keys[|keys| - 1], value, index, prefix);
  }

  method PullParent(root: Value, p: seq<nat>, last: string, value: Value, index: Value, prefix: Option<string>) returns (o: Outcome)
    requires ValidPos(root, p)
    ensures o == PullUnder(root, p, last, value, index, prefix)
  {
    var parent := At(root, p);
    if parent == Null {
      return Done(root);
    }
    var key := ParseKey(last, prefix);
    if key.Err? {
      return Raised(root, key.error);
    }
    if key.value.Index? {
      var k := key.value.n;
      if parent.List? && 0 <= k < |parent.items| {
        return Raised(root, TypeError);
      }
      return Done(root);
    }
    var k := key.value.name;
    assert key == Ok(Field(k));
    assert PullUnder(root, p, last, value, index, prefix) == PullField(root, p, k, value, index);
    o := PullTarget(root, p, k, value, index);
  }

  method PullTarget(root: Value, p: seq<nat>, k: string, value: Value, index: Value) returns (o: Outcome)
    requires ValidPos(root, p)
    ensures o == PullField(root, p, k, value, index)
  {
    var parent := At(root, p);
    var target := if parent.Dict? then DictGet(parent.entries, k) else None;
    if target.None? || !target.value.List? {
      return Done(root);
    }
    var i := FindKey(parent.entries, k).value;
    AtExtend(root, p, i);
    var r := PullList(target.value.items, value, index);
    assert PullField(root, p, k, value, index) ==
      if r.Err? then Raised(root, r.error) else Done(Replace(root, p + [i], List(r.value)));
    if r.Err? {
      return Raised(root, r.error);
    }
    return Done(Replace(root, p + [i], List(r.value)));
  }

  /** What `pull` does to the target list. */
  method PullList(items: seq<Value>, value: Value, index: Value) returns (r: Result<seq<Value>>)
    ensures r == PullFrom(items, value, index)
  {
    var i := IndexArg(index);
    if i.Some? && 0 <= i.value < |items| {
      return Ok(items[..i.value] + items[i.value + 1..]);
    }
    if value == Null {
      return Ok(items);
    }
    if !value.Dict? {
      return Ok(Filter(items, Differs(value)));
    }
    var drop := CollectMatches(items, value);
    if drop.Err? {
      return Err(drop.error);
    }
    var kept := PopAll(items, drop.value);
    return Ok(kept);
  }

  /** `for idx, doc in enumerate(target_list)`: the indices of the dict
      elements that match. */
  method CollectMatches(items: seq<Value>, query: Value) returns (r: Result<seq<nat>>)
    ensures r == MatchingIndices(items, query)
  {
    var drop: seq<nat> := [];
    var j := 0;
    while j < |items|
      invariant 0 <= j <= |items|
      invariant MatchingIndices(items[..j], query) == Ok(drop)
    {
      assert items[..j + 1][..j] == items[..j];
      if items[j].Dict? {
        var hit := Match(items[j], query);
        if hit.Err? {
          MatchingPrefixRaises(items, j + 1, query);
          return Err(hit.error);
        }
        if hit.value {
          drop := drop + [j];
        }
      }
      j := j + 1;
    }
    assert items[..j] == items;
    return Ok(drop);
  }

  /** `for idx in q_indexes[::-1]: target_list.pop(idx)`. */
  method PopAll(items: seq<Value>, drop: seq<nat>) returns (kept: seq<Value>)
    requires Ascending(drop) && forall t :: 0 <= t < |drop| ==> drop[t] < |items|
    ensures kept == PopReversed(items, drop)
  {
    kept := items;
    var m := |drop|;
    assert drop[..m] == drop;
    while m > 0
      invariant 0 <= m <= |drop|
      invariant forall t :: 0 <= t < m ==> drop[t] < |kept|
      invariant PopReversed(kept, drop[..m]) == PopReversed(items, drop)
    {
      assert drop[..m][..m - 1] == drop[..m - 1];
      kept := kept[..drop[m - 1]] + kept[drop[m - 1] + 1..];
      m := m - 1;
    }
  }

  /** An error while collecting stops `pull` with that error. */
  lemma {:induction false} MatchingPrefixRaises(items: seq<Value>, j: nat, query: Value)
    requires j <= |items| && MatchingIndices(items[..j], query).Err?
    ensures MatchingIndices(items, query) == MatchingIndices(items[..j], query)
    decreases |items| - j
  {
    if j < |items| {
      assert items[..j + 1][..j] == items[..j];
      MatchingPrefixRaises(items, j + 1, query);
    } else {
      assert items[..j] == items;
    }
  }

  method ApplyPath(root: Value, path: string, m: Mutation, prefix: Option<string>) returns (o: Outcome)
    ensures o == ApplyOne(root, path, m, prefix)
  {
    match m {
      case SetTo(x) => o := SetPath(root, path, x, prefix);
      case Remove => o := DeletePath(root, path, prefix);
      case PushValue(x) => o := PushPath(root, path, x, prefix);
      case PullOut(value, index) => o := PullPath(root, path, value, index, prefix);
    }
  }

  /** `set`, `delete`, `unset`, `push` or `pull` on a path or a batch. */
  method Apply(root: Value, arg: PathArg, m: Mutation, prefix: Option<string>) returns (o: Outcome)
    ensures o == ApplyAll(root, arg, m, prefix)
    decreases arg
  {
    match arg {
      case Single(path) =>
        o := ApplyPath(root, path, m, prefix);
      case Batch(paths) =>
        var doc := root;
        var i := 0;
        while i < |paths|
          invariant 0 <= i <= |paths|
          invariant ApplyEach(doc, paths[i..], m, prefix) == ApplyAll(root, arg, m, prefix)
        {
          assert paths[i..][0] == paths[i] && paths[i..][1..] == paths[i + 1..];
          var r := Apply(doc, paths[i], m, prefix);
          if r.Raised? {
            return r;
          }
          doc := r.root;
          i := i + 1;
        }
        return Done(doc);
    }
  }
}
