/** `_traverse`: the walk along a path that every operation is built on,
    optionally creating (and destructively coercing) the containers on the
    way, and the read-only `get` without a query that the evaluator uses. */
module Traverse {
  import opened Values
  import opened Paths
  import opened Positions

  /** What the walk's variable `obj` refers to: a node of the caller's
      document, named by its position, or a container that a coercion made
      and never attached to anything. */
  datatype Focus = Attached(pos: seq<nat>) | Detached(val: Value)

  predicate Fits(root: Value, f: Focus) {
    f.Attached? ==> ValidPos(root, f.pos)
  }

  function Current(root: Value, f: Focus): Value
    requires Fits(root, f)
  {
    match f
    case Attached(p) => At(root, p)
    case Detached(v) => v
  }

  /** Overwriting the content of the container `f` refers to (`clear`,
      `append`, item assignment): an attached one changes inside the document. */
  function Store(root: Value, f: Focus, w: Value): (r: (Value, Focus))
    requires Fits(root, f)
    ensures Fits(r.0, r.1) && Current(r.0, r.1) == w
    ensures f.Attached? ==> r == (Replace(root, f.pos, w), f)
    ensures f.Detached? ==> r == (root, Detached(w))
  {
    match f
    case Attached(p) => (Replace(root, p, w), f)
    case Detached(_) => (root, Detached(w))
  }

  /** An empty container of the same shape. */
  function Emptied(v: Value): Value
    requires IsContainer(v)
  {
    if v.List? then List([]) else Dict([])
  }

  /** The coercion on a shape mismatch: `obj.clear()` when `obj` is a
      container (necessarily of the other shape), then `obj = made`, a new
      empty container that is never attached to the parent. The old content
      is lost and every later write through `obj` is lost too. */
  function Coerce(root: Value, f: Focus, made: Value): (r: (Value, Focus))
    requires Fits(root, f)
    ensures r.1 == Detached(made)
    ensures f.Attached? && IsContainer(Current(root, f)) ==>
      r.0 == Replace(root, f.pos, Emptied(Current(root, f)))
    ensures !(f.Attached? && IsContainer(Current(root, f))) ==> r.0 == root
  {
    var cur := Current(root, f);
    if f.Attached? && IsContainer(cur) then (Replace(root, f.pos, Emptied(cur)), Detached(made))
    else (root, Detached(made))
  }

  /** The list after `while k >= len(obj): obj.append(filler)`: long enough to
      hold index `k`, the old elements first and `filler` after them. */
  function Padded(items: seq<Value>, k: int, filler: Value): (r: seq<Value>)
    ensures |r| == if k < |items| then |items| else k + 1
    ensures r[..|items|] == items
    ensures forall j :: |items| <= j < |r| ==> r[j] == filler
    decreases k - |items|
  {
    if k >= |items| then Padded(items + [filler], k, filler) else items
  }

  /** `while k >= len(obj): obj.append(filler)`. */
  method Pad(items: seq<Value>, k: int, filler: Value) returns (r: seq<Value>)
    ensures r == Padded(items, k, filler)
  {
    r := items;
    while k >= |r|
      invariant Padded(r, k, filler) == Padded(items, k, filler)
      decreases k - |r|
    {
      r := r + [filler];
    }
  }

  /** `obj = get_value(obj, k)` on a dict that holds `k`. */
  function Descend(root: Value, f: Focus, k: string): (r: Focus)
    requires Fits(root, f) && Current(root, f).Dict?
    requires DictGet(Current(root, f).entries, k).Some?
    ensures Fits(root, r) && Current(root, r) == DictGet(Current(root, f).entries, k).value
    ensures r.Attached? == f.Attached?
  {
    var es := Current(root, f).entries;
    match f
    case Attached(p) =>
      var i := FindKey(es, k).value;
      AtExtend(root, p, i);
      Attached(p + [i])
    case Detached(_) => Detached(DictGet(es, k).value)
  }

  /** `if not has_key(obj, k): set_value(obj, k, {})`. */
  function Vivify(root: Value, f: Focus, k: string): (r: (Value, Focus))
    requires Fits(root, f) && Current(root, f).Dict?
    ensures Fits(r.0, r.1) && Current(r.0, r.1).Dict?
    ensures DictGet(Current(r.0, r.1).entries, k).Some?
    ensures r.1.Attached? == f.Attached? && (f.Attached? ==> r.1 == f)
  {
    var es := Current(root, f).entries;
    if DictGet(es, k).Some? then (root, f)
    else Store(root, f, Dict(DictPut(es, k, Dict([]))))
  }

  /** How a walk ends: at a node (`obj` after the last segment), with
      `None`, or with an exception; each carries the document as it then is. */
  datatype Walked =
    | Reached(root: Value, focus: Focus)
    | Missing(root: Value)
    | Failed(root: Value, error: Error)

  /** The index branch of the walk. It never continues: `get_value` on a list
      with an int key calls `hasattr(obj, k)`, whose TypeError the walk
      catches and turns into `None`. When creating, the list (coerced from
      another shape if need be) has first been padded with `{}`. */
  function IndexStep(root: Value, f: Focus, k: int, create: bool): (w: Walked)
    requires Fits(root, f)
    ensures w.Missing?
    ensures !create ==> w.root == root
  {
    var cur := Current(root, f);
    if !cur.List? && !create then Missing(root)
    else
      var (r1, f1) := if cur.List? then (root, f) else Coerce(root, f, List([]));
      if create then Missing(Store(r1, f1, List(Padded(Current(r1, f1).items, k, Dict([])))).0)
      else Missing(r1)
  }

  /** `_traverse(obj, keys, create_missing, index_prefix)` from the node `f`,
      tail-recursively: one loop iteration per segment. */
  function WalkFrom(root: Value, f: Focus, keys: seq<string>, create: bool, prefix: Option<string>): (w: Walked)
    requires Fits(root, f)
    ensures w.Reached? ==> Fits(w.root, w.focus)
    ensures !create ==> w.root == root
    ensures !create && f.Attached? && w.Reached? ==> w.focus.Attached?
    ensures keys != [] && w.Reached? ==> Current(w.root, w.focus) != Null
    decreases |keys|
  {
    if keys == [] then Reached(root, f)
    else match ParseKey(keys[0], prefix)
      case Err(e) => Failed(root, e)
      case Ok(Index(k)) => IndexStep(root, f, k, create)
      case Ok(Field(k)) =>
        if !Current(root, f).Dict? && !create then Missing(root)
        else
          var (r2, f2) := Enter(root, f, k, create);
          var child := DictGet(Current(r2, f2).entries, k);
          if child.None? || child.value == Null then Missing(r2)
          else WalkFrom(r2, Descend(r2, f2, k), keys[1..], create, prefix)
  }

  /** The field branch of the walk up to `obj = get_value(obj, k)`: a
      non-dict is coerced and a missing key vivified when creating. */
  function Enter(root: Value, f: Focus, k: string, create: bool): (r: (Value, Focus))
    requires Fits(root, f) && (Current(root, f).Dict? || create)
    ensures Fits(r.0, r.1) && Current(r.0, r.1).Dict?
    ensures !create ==> r == (root, f)
  {
    var (r1, f1) := if Current(root, f).Dict? then (root, f) else Coerce(root, f, Dict([]));
    if create then Vivify(r1, f1, k) else (r1, f1)
  }

  /** An index segment ends the walk with the index branch. */
  lemma IndexStepOf(root: Value, f: Focus, keys: seq<string>, k: int, create: bool, prefix: Option<string>)
    requires Fits(root, f) && keys != [] && ParseKey(keys[0], prefix) == Ok(Index(k))
    ensures WalkFrom(root, f, keys, create, prefix) == IndexStep(root, f, k, create)
  {
  }

  /** One field step of the walk: after `Enter`, it stops with None at a
      missing or None child and goes on from the child otherwise. */
  lemma FieldStep(root: Value, f: Focus, keys: seq<string>, k: string, create: bool, prefix: Option<string>, r2: Value, f2: Focus)
    requires Fits(root, f) && keys != [] && ParseKey(keys[0], prefix) == Ok(Field(k))
    requires (Current(root, f).Dict? || create) && (r2, f2) == Enter(root, f, k, create)
    ensures var child := DictGet(Current(r2, f2).entries, k);
      WalkFrom(root, f, keys, create, prefix) ==
        if child.None? || child.value == Null then Missing(r2)
        else WalkFrom(r2, Descend(r2, f2, k), keys[1..], create, prefix)
  {
  }

  /** The index branch of `_traverse` in place: coerce to a list when
      creating, pad it with `{}`, and stop with None. */
  method IndexWalk(root: Value, f: Focus, k: int, create: bool) returns (w: Walked)
    requires Fits(root, f)
    ensures w == IndexStep(root, f, k, create)
  {
    var doc, obj := root, f;
    if !Current(doc, obj).List? {
      if !create {
        return Missing(doc);
      }
      var t := Coerce(doc, obj, List([]));
      doc, obj := t.0, t.1;
    }
    if create {
      var items := Pad(Current(doc, obj).items, k, Dict([]));
      var t := Store(doc, obj, List(items));
      doc := t.0;
    }
    return Missing(doc);
  }

  /** The field branch of `_traverse` in place, up to the lookup: coerce to
      a dict and vivify a missing key with `{}` when creating. */
  method EnterField(root: Value, f: Focus, k: string, create: bool) returns (doc: Value, obj: Focus)
    requires Fits(root, f) && (Current(root, f).Dict? || create)
    ensures (doc, obj) == Enter(root, f, k, create)
  {
    doc, obj := root, f;
    if !Current(doc, obj).Dict? {
      var t := Coerce(doc, obj, Dict([]));
      doc, obj := t.0, t.1;
    }
    if create && DictGet(Current(doc, obj).entries, k).None? {
      var t := Store(doc, obj, Dict(DictPut(Current(doc, obj).entries, k, Dict([]))));
      doc, obj := t.0, t.1;
    }
  }

  /** `_traverse`, as the loop it is. */
  method Walk(root: Value, keys: seq<string>, create: bool, prefix: Option<string>) returns (w: Walked)
    ensures w == WalkFrom(root, Attached([]), keys, create, prefix)
  {
    var doc, obj := root, Attached([]);
    var i := 0;
    while i < |keys|
      invariant 0 <= i <= |keys|
      invariant Fits(doc, obj)
      invariant WalkFrom(doc, obj, keys[i..], create, prefix) == WalkFrom(root, Attached([]), keys, create, prefix)
    {
      assert keys[i..][0] == keys[i] && keys[i..][1..] == keys[i + 1..];
      var key := ParseKey(keys[i], prefix);
      if key.Err? {
        return Failed(doc, key.error);
      }
      match key.value {
        case Index(k) =>
          IndexStepOf(doc, obj, keys[i..], k, create, prefix);
          w := IndexWalk(doc, obj, k, create);
          return;
        case Field(k) =>
          if !Current(doc, obj).Dict? && !create {
            return Missing(doc);
          }
          var d2, o2 := EnterField(doc, obj, k, create);
          FieldStep(doc, obj, keys[i..], k, create, prefix, d2, o2);
          var child := DictGet(Current(d2, o2).entries, k);
          if child.None? || child.value == Null {
            return Missing(d2);
          }
          doc, obj := d2, Descend(d2, o2, k);
      }
      i := i + 1;
    }
    return Reached(doc, obj);
  }

  /** What `_traverse(obj, path.split("."), index_prefix=prefix)` returns
      (`Null` for None); it never creates anything. */
  function Resolve(root: Value, path: string, prefix: Option<string>): Result<Value> {
    match WalkFrom(root, Attached([]), Split(path), false, prefix)
    case Failed(_, e) => Err(e)
    case Missing(_) => Ok(Null)
    case Reached(r, f) => Ok(Current(r, f))
  }

  /** `get(obj, path, default, index_prefix)` with no query. */
  function Lookup(root: Value, path: string, default: Value, prefix: Option<string>): Result<Value> {
    var v :- Resolve(root, path, prefix);
    Ok(if v == Null then default else v)
  }

  // ---------------------------------------------------------------------
  // what a walk that creates nothing reads

  /** Following dict keys down from `v`: the value found, or `Null` as soon
      as a key is missing or a node on the way is not a dict. */
  function FollowKeys(v: Value, names: seq<string>): Value {
    if names == [] then v
    else if !v.Dict? then Null
    else match DictGet(v.entries, names[0])
      case None => Null
      case Some(c) => FollowKeys(c, names[1..])
  }

  /** Along dict keys only, a walk that creates nothing reads what following
      the keys reads: it stops with None exactly when that finds nothing. */
  lemma {:induction false} WalkFieldsRead(root: Value, p: seq<nat>, keys: seq<string>, prefix: Option<string>)
    requires ValidPos(root, p) && FieldsOnly(keys, prefix)
    ensures var w := WalkFrom(root, Attached(p), keys, false, prefix);
      || (w.Missing? && FollowKeys(At(root, p), keys) == Null)
      || (w.Reached? && w.focus.Attached? && At(root, w.focus.pos) == FollowKeys(At(root, p), keys))
    decreases |keys|
  {
    if keys != [] {
      assert ParseKey(keys[0], prefix) == Ok(Field(keys[0]));
      var cur := At(root, p);
      if cur.Dict? {
        var child := DictGet(cur.entries, keys[0]);
        if child.Some? && child.value != Null {
          var f := Descend(root, Attached(p), keys[0]);
          assert FieldsOnly(keys[1..], prefix) by {
            forall i | 0 <= i < |keys[1..]| ensures ParseKey(keys[1..][i], prefix) == Ok(Field(keys[1..][i])) {
              assert keys[1..][i] == keys[i + 1];
            }
          }
          WalkFieldsRead(root, f.pos, keys[1..], prefix);
        }
      }
    }
  }

  /** `get` along dict keys only is a dict lookup at every level. */
  lemma ResolveFields(root: Value, path: string, prefix: Option<string>)
    requires FieldsOnly(Split(path), prefix)
    ensures Resolve(root, path, prefix) == Ok(FollowKeys(root, Split(path)))
  {
    WalkFieldsRead(root, [], Split(path), prefix);
  }

  /** Without an index prefix every segment parses, so a walk never raises. */
  lemma {:induction false} WalkWithoutPrefix(root: Value, f: Focus, keys: seq<string>, create: bool)
    requires Fits(root, f)
    ensures !WalkFrom(root, f, keys, create, None).Failed?
    decreases |keys|
  {
    if keys != [] {
      var key := ParseKey(keys[0], None).value;
      if key.Field? && (Current(root, f).Dict? || create) {
        var (r2, f2) := Enter(root, f, key.name, create);
        FieldStep(root, f, keys, key.name, create, None, r2, f2);
        var child := DictGet(Current(r2, f2).entries, key.name);
        if child.Some? && child.value != Null {
          WalkWithoutPrefix(r2, Descend(r2, f2, key.name), keys[1..], create);
        }
      }
    }
  }

  /** When every segment parses and one is an index but not the first, the
      same holds of the segments after the first. */
  lemma IndexLater(keys: seq<string>, prefix: Option<string>)
    requires forall j :: 0 <= j < |keys| ==> ParseKey(keys[j], prefix).Ok?
    requires exists j :: 0 <= j < |keys| && ParseKey(keys[j], prefix).value.Index?
    requires ParseKey(keys[0], prefix).value.Field?
    ensures forall j :: 0 <= j < |keys[1..]| ==> ParseKey(keys[1..][j], prefix).Ok?
    ensures exists j :: 0 <= j < |keys[1..]| && ParseKey(keys[1..][j], prefix).value.Index?
  {
    var j :| 0 <= j < |keys| && ParseKey(keys[j], prefix).value.Index?;
    assert j > 0 && keys[1..][j - 1] == keys[j];
    assert forall j :: 0 <= j < |keys[1..]| ==> keys[1..][j] == keys[j + 1];
  }

  /** A walk whose segments all parse never gets past an index segment:
      reading a list element with `get_value` raises the TypeError that the
      walk turns into None, whether or not it creates containers. */
  lemma {:induction false} WalkStopsAtIndex(root: Value, f: Focus, keys: seq<string>, create: bool, prefix: Option<string>)
    requires Fits(root, f)
    requires forall j :: 0 <= j < |keys| ==> ParseKey(keys[j], prefix).Ok?
    requires exists j :: 0 <= j < |keys| && ParseKey(keys[j], prefix).value.Index?
    ensures WalkFrom(root, f, keys, create, prefix).Missing?
    decreases |keys|
  {
    var key := ParseKey(keys[0], prefix).value;
    if key.Field? {
      IndexLater(keys, prefix);
      if Current(root, f).Dict? || create {
        var (r2, f2) := Enter(root, f, key.name, create);
        FieldStep(root, f, keys, key.name, create, prefix, r2, f2);
        var child := DictGet(Current(r2, f2).entries, key.name);
        if child.Some? && child.value != Null {
          WalkStopsAtIndex(r2, Descend(r2, f2, key.name), keys[1..], create, prefix);
        }
      }
    } else {
      IndexStepOf(root, f, keys, key.n, create, prefix);
    }
  }

  /** `get` on a path with an index segment returns the default (without an
      index prefix, every segment parses, so one all-digit segment is enough). */
  lemma LookupThroughIndex(root: Value, path: string, default: Value, prefix: Option<string>)
    requires forall j :: 0 <= j < |Split(path)| ==> ParseKey(Split(path)[j], prefix).Ok?
    requires exists j :: 0 <= j < |Split(path)| && ParseKey(Split(path)[j], prefix).value.Index?
    ensures Resolve(root, path, prefix) == Ok(Null)
    ensures Lookup(root, path, default, prefix) == Ok(default)
  {
    WalkStopsAtIndex(root, Attached([]), Split(path), false, prefix);
  }
}
