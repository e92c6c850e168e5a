/** What `set`, `delete`, `push` and `pull` do to a document, stated along
    the dict keys of the path and proved from the step-by-step definitions. */
module Effects {
  import opened Values
  import opened Paths
  import opened Positions
  import opened Traverse
  import opened Query
  import opened Edits
  import opened Mutate

  // ---------------------------------------------------------------------
  // from positions to paths of keys

  /** Replacing a dict's child at the index of a key is assigning that key. */
  lemma WithChildIsPut(es: seq<Entry>, k: string, w: Value)
    requires FindKey(es, k).Some?
    ensures WithChild(Dict(es), FindKey(es, k).value, w) == Dict(DictPut(es, k, w))
  {
  }

  /** A walk that creates nothing and reaches the end of dict keys `names`
      stops at the node `FollowKeys` finds, and replacing that node is
      replacing the end of the path. */
  lemma {:induction false} WalkReplace(root: Value, p: seq<nat>, names: seq<string>, prefix: Option<string>, w: Value)
    requires ValidPos(root, p) && FieldsOnly(names, prefix)
    requires WalkFrom(root, Attached(p), names, false, prefix).Reached?
    ensures var q := WalkFrom(root, Attached(p), names, false, prefix).focus.pos;
      && ValidPos(root, q) && Present(At(root, p), names)
      && At(root, q) == FollowKeys(At(root, p), names)
      && Replace(root, q, w) == Replace(root, p, PutAlong(At(root, p), names, w))
    decreases |names|
  {
    if names != [] {
      FieldsOnlyTail(names, prefix);
      var es := At(root, p).entries;
      var i := FindKey(es, names[0]).value;
      AtExtend(root, p, i);
      var child := DictGet(es, names[0]).value;
      WalkReplace(root, p + [i], names[1..], prefix, w);
      ReplaceExtend(root, p, i, PutAlong(child, names[1..], w));
      WithChildIsPut(es, names[0], PutAlong(child, names[1..], w));
    }
  }

  /** Along a path where every key leads somewhere, creating changes nothing. */
  lemma {:induction false} WalkCreateSame(root: Value, f: Focus, names: seq<string>, prefix: Option<string>)
    requires Fits(root, f) && FieldsOnly(names, prefix) && FollowKeys(Current(root, f), names) != Null
    ensures WalkFrom(root, f, names, true, prefix) == WalkFrom(root, f, names, false, prefix)
    decreases |names|
  {
    if names != [] {
      FieldsOnlyTail(names, prefix);
      var child := DictGet(Current(root, f).entries, names[0]).value;
      var g := Descend(root, f, names[0]);
      WalkCreateSame(root, g, names[1..], prefix);
    }
  }

  /** Past a coercion, a walk that creates works on a detached `{}` and
      never touches the document again. */
  lemma {:induction false} WalkFresh(root: Value, names: seq<string>, prefix: Option<string>)
    requires FieldsOnly(names, prefix)
    ensures WalkFrom(root, Detached(Dict([])), names, true, prefix) == Reached(root, Detached(Dict([])))
    decreases |names|
  {
    if names != [] {
      FieldsOnlyTail(names, prefix);
      var made := Dict([Entry(names[0], Dict([]))]);
      assert DictGet(made.entries, names[0]) == Some(Dict([]));
      WalkFresh(root, names[1..], prefix);
    }
  }

  /** A walk that creates, at a node that is neither a container nor None,
      coerces it (nothing to clear) and goes on detached. */
  lemma WalkScalar(root: Value, f: Focus, names: seq<string>, prefix: Option<string>)
    requires Fits(root, f) && !IsContainer(Current(root, f)) && names != [] && FieldsOnly(names, prefix)
    ensures WalkFrom(root, f, names, true, prefix) == Reached(root, Detached(Dict([])))
  {
    FieldsOnlyTail(names, prefix);
    var made := Dict([Entry(names[0], Dict([]))]);
    assert DictGet(made.entries, names[0]) == Some(Dict([]));
    WalkFresh(root, names[1..], prefix);
  }

  /** The entries of a dict after `if not has_key(obj, k): set_value(obj, k, {})`. */
  function Vivified(es: seq<Entry>, k: string): (r: seq<Entry>)
    ensures FindKey(r, k).Some? && DictGet(r, k).Some?
    ensures DictGet(es, k).Some? ==> r == es
    ensures DictGet(es, k).None? ==> r == DictPut(es, k, Dict([]))
  {
    if DictGet(es, k).Some? then es else DictPut(es, k, Dict([]))
  }

  /** One step of a walk that creates, at an attached dict: the key is
      vivified in place and the walk goes on from its value. */
  lemma WalkStep(root: Value, p: seq<nat>, names: seq<string>, prefix: Option<string>)
    requires ValidPos(root, p) && At(root, p).Dict? && |names| > 0
    requires ParseKey(names[0], prefix) == Ok(Field(names[0]))
    ensures var es2 := Vivified(At(root, p).entries, names[0]);
      var r2 := Replace(root, p, Dict(es2));
      var i := FindKey(es2, names[0]).value;
      && ValidPos(r2, p + [i]) && At(r2, p + [i]) == DictGet(es2, names[0]).value
      && WalkFrom(root, Attached(p), names, true, prefix)
         == if DictGet(es2, names[0]).value == Null then Missing(r2)
            else WalkFrom(r2, Attached(p + [i]), names[1..], true, prefix)
  {
    var es := At(root, p).entries;
    var k := names[0];
    var es2 := Vivified(es, k);
    var r2 := Replace(root, p, Dict(es2));
    if DictGet(es, k).Some? {
      ReplaceSame(root, p);
    }
    assert Enter(root, Attached(p), k, true) == (r2, Attached(p));
    var i := FindKey(es2, k).value;
    AtExtend(r2, p, i);
    assert Descend(r2, Attached(p), k) == Attached(p + [i]);
  }

  /** What a walk that creates leaves below a vivified key, seen from the dict above. */
  lemma CreateCompose(root: Value, p: seq<nat>, names: seq<string>, u: Value)
    requires ValidPos(root, p) && At(root, p).Dict? && |names| > 1
    requires u.Dict? && ListFree(u, names[1..])
    ensures var es2 := Vivified(At(root, p).entries, names[0]);
      var r2 := Replace(root, p, Dict(es2));
      var i := FindKey(es2, names[0]).value;
      && ValidPos(r2, p + [i])
      && Replace(r2, p + [i], u) == Replace(root, p, Dict(DictPut(es2, names[0], u)))
      && ListFree(Dict(DictPut(es2, names[0], u)), names)
  {
    var k := names[0];
    var es2 := Vivified(At(root, p).entries, k);
    var r2 := Replace(root, p, Dict(es2));
    var i := FindKey(es2, k).value;
    ReplaceExtend(r2, p, i, u);
    WithChildIsPut(es2, k, u);
    ReplaceTwice(root, p, Dict(es2), Dict(DictPut(es2, k, u)));
  }

  /** The walk that creates, as seen from a dict at `p`. */
  predicate CreatesFields(root: Value, p: seq<nat>, names: seq<string>, prefix: Option<string>)
    requires ValidPos(root, p)
  {
    var w := WalkFrom(root, Attached(p), names, true, prefix);
    && !w.Failed? && ValidPos(w.root, p) && At(w.root, p).Dict?
    && ListFree(At(w.root, p), names)
    && w.root == Replace(root, p, At(w.root, p))
    && (w.Reached? ==> !Current(w.root, w.focus).List?)
  }

  /** The walk that creates stops below the first key: the key holds None,
      it is the last one, or it holds a scalar the walk coerces. */
  lemma WalkCreateShallow(root: Value, p: seq<nat>, names: seq<string>, prefix: Option<string>)
    requires ValidPos(root, p) && At(root, p).Dict? && names != [] && FieldsOnly(names, prefix)
    requires ListFree(At(root, p), names) && !FollowKeys(At(root, p), names).List?
    requires var child := DictGet(Vivified(At(root, p).entries, names[0]), names[0]).value;
      child == Null || |names| == 1 || !IsContainer(child)
    ensures CreatesFields(root, p, names, prefix)
  {
    FieldsOnlyTail(names, prefix);
    WalkStep(root, p, names, prefix);
    var k := names[0];
    var es := At(root, p).entries;
    var es2 := Vivified(es, k);
    var r2 := Replace(root, p, Dict(es2));
    var child := DictGet(es2, k).value;
    assert DictGet(es, k).Some? ==> FollowKeys(At(root, p), names) == FollowKeys(child, names[1..]);
    if child != Null && |names| > 1 {
      WalkScalar(r2, Attached(p + [FindKey(es2, k).value]), names[1..], prefix);
    }
  }

  /** A walk that creates, from a dict along dict keys with no list inside
      the path and none at its end: it never raises, what it leaves at the
      start is again such a dict, it changes nothing elsewhere, and it does
      not end at a list. */
  lemma {:induction false} WalkCreateFields(root: Value, p: seq<nat>, names: seq<string>, prefix: Option<string>)
    requires ValidPos(root, p) && At(root, p).Dict? && FieldsOnly(names, prefix)
    requires ListFree(At(root, p), names) && !FollowKeys(At(root, p), names).List?
    ensures CreatesFields(root, p, names, prefix)
    decreases |names|
  {
    if names == [] {
      ReplaceSame(root, p);
    } else {
      var k := names[0];
      var es := At(root, p).entries;
      var es2 := Vivified(es, k);
      var child := DictGet(es2, k).value;
      if child == Null || |names| == 1 || !IsContainer(child) {
        WalkCreateShallow(root, p, names, prefix);
      } else {
        FieldsOnlyTail(names, prefix);
        WalkStep(root, p, names, prefix);
        var r2 := Replace(root, p, Dict(es2));
        var i := FindKey(es2, k).value;
        assert DictGet(es, k).Some? ==> FollowKeys(At(root, p), names) == FollowKeys(child, names[1..]);
        assert ListFree(child, names[1..]);
        WalkCreateFields(r2, p + [i], names[1..], prefix);
        var u := At(WalkFrom(r2, Attached(p + [i]), names[1..], true, prefix).root, p + [i]);
        CreateCompose(root, p, names, u);
      }
    }
  }

  /** Writing a path over a vivified key is writing it over the dict as
      it was: the `{}` made for a missing key is overwritten or kept as
      writing the path would have made it. */
  lemma VivifiedPutPath(es: seq<Entry>, names: seq<string>, y: Value)
    requires |names| >= 1
    ensures PutPath(Dict(Vivified(es, names[0])), names, y) == PutPath(Dict(es), names, y)
  {
    var k := names[0];
    if DictGet(es, k).None? {
      var es2 := DictPut(es, k, Dict([]));
      if |names| == 1 {
        DictPutTwice(es, k, Dict([]), y);
      } else {
        assert DictGet(es2, k) == Some(Dict([]));
        DictPutTwice(es, k, Dict([]), PutPath(Dict([]), names[1..], y));
      }
    }
  }

  /** `CreatePutPath` when the walk stops below the first key. */
  lemma CreatePutPathShallow(root: Value, p: seq<nat>, names: seq<string>, prefix: Option<string>, y: Value)
    requires ValidPos(root, p) && At(root, p).Dict? && |names| >= 1 && FieldsOnly(names, prefix)
    requires var child := DictGet(Vivified(At(root, p).entries, names[0]), names[0]).value;
      child == Null || |names| == 1 || !IsContainer(child)
    ensures var w := WalkFrom(root, Attached(p), names, true, prefix);
      && ValidPos(w.root, p) && At(w.root, p).Dict?
      && PutPath(At(w.root, p), names, y) == PutPath(At(root, p), names, y)
  {
    FieldsOnlyTail(names, prefix);
    WalkStep(root, p, names, prefix);
    var k := names[0];
    var es2 := Vivified(At(root, p).entries, k);
    var r2 := Replace(root, p, Dict(es2));
    var child := DictGet(es2, k).value;
    VivifiedPutPath(At(root, p).entries, names, y);
    if child != Null && |names| > 1 {
      WalkScalar(r2, Attached(p + [FindKey(es2, k).value]), names[1..], prefix);
    }
  }

  /** `CreatePutPath` one level up from what the walk does below the
      vivified key, when that key holds a dict. */
  lemma CreatePutPathBelow(root: Value, p: seq<nat>, names: seq<string>, prefix: Option<string>, y: Value)
    requires ValidPos(root, p) && At(root, p).Dict? && |names| > 1 && FieldsOnly(names, prefix)
    requires var es2 := Vivified(At(root, p).entries, names[0]);
      var r2 := Replace(root, p, Dict(es2));
      var i := FindKey(es2, names[0]).value;
      && DictGet(es2, names[0]).value.Dict?
      && ValidPos(r2, p + [i]) && CreatesFields(r2, p + [i], names[1..], prefix)
      && PutPath(At(WalkFrom(r2, Attached(p + [i]), names[1..], true, prefix).root, p + [i]), names[1..], y)
         == PutPath(DictGet(es2, names[0]).value, names[1..], y)
    ensures var w := WalkFrom(root, Attached(p), names, true, prefix);
      && ValidPos(w.root, p) && At(w.root, p).Dict?
      && PutPath(At(w.root, p), names, y) == PutPath(At(root, p), names, y)
  {
    FieldsOnlyTail(names, prefix);
    var k := names[0];
    var es2 := Vivified(At(root, p).entries, k);
    var r2 := Replace(root, p, Dict(es2));
    var i := FindKey(es2, k).value;
    WalkStep(root, p, names, prefix);
    var rest := names[1..];
    var u := At(WalkFrom(r2, Attached(p + [i]), rest, true, prefix).root, p + [i]);
    CreateCompose(root, p, names, u);
    var es3 := DictPut(es2, k, u);
    assert DictGet(es3, k) == Some(u);
    DictPutTwice(es2, k, u, PutPath(u, rest, y));
    VivifiedPutPath(At(root, p).entries, names, y);
  }

  /** The walk that creates changes nothing that writing the path along
      the same keys does not overwrite. */
  lemma {:induction false} CreatePutPath(root: Value, p: seq<nat>, names: seq<string>, prefix: Option<string>, y: Value)
    requires ValidPos(root, p) && At(root, p).Dict? && |names| >= 1 && FieldsOnly(names, prefix)
    requires ListFree(At(root, p), names) && !FollowKeys(At(root, p), names).List?
    ensures var w := WalkFrom(root, Attached(p), names, true, prefix);
      && ValidPos(w.root, p) && At(w.root, p).Dict?
      && PutPath(At(w.root, p), names, y) == PutPath(At(root, p), names, y)
    decreases |names|
  {
    var k := names[0];
    var es := At(root, p).entries;
    var es2 := Vivified(es, k);
    var child := DictGet(es2, k).value;
    if child == Null || |names| == 1 || !IsContainer(child) {
      CreatePutPathShallow(root, p, names, prefix, y);
    } else {
      FieldsOnlyTail(names, prefix);
      WalkStep(root, p, names, prefix);
      var r2 := Replace(root, p, Dict(es2));
      var i := FindKey(es2, k).value;
      assert DictGet(es, k).Some? ==> FollowKeys(At(root, p), names) == FollowKeys(child, names[1..]);
      assert ListFree(child, names[1..]);
      WalkCreateFields(r2, p + [i], names[1..], prefix);
      CreatePutPath(r2, p + [i], names[1..], prefix, y);
      CreatePutPathBelow(root, p, names, prefix, y);
    }
  }

  // ---------------------------------------------------------------------
  // set

  /** The child an intermediate field of `set` descends into, when no list
      lies in the way: a dict is kept, anything else becomes `{}`. */
  function Kept(es: seq<Entry>, k: string): (c: Value)
    ensures c.Dict?
    ensures DictGet(es, k).Some? && DictGet(es, k).value.Dict? ==> c == DictGet(es, k).value
  {
    var child := DictGet(es, k);
    if child.Some? && child.value.Dict? then child.value else Dict([])
  }

  /** `set` at an intermediate field: prepare, descend, go on. */
  lemma SetFromField(root: Value, f: Focus, keys: seq<string>, x: Value, prefix: Option<string>)
    requires Fits(root, f) && |keys| > 1 && ParseKey(keys[0], prefix) == Ok(Field(keys[0]))
    ensures var t := Prepared(root, f, keys[0]);
      SetFrom(root, f, keys, x, prefix) == SetFrom(t.0, Descend(t.0, t.1, keys[0]), keys[1..], x, prefix)
  {
  }

  /** An intermediate field at an attached dict whose child is not a list
      puts the kept child under the key, in place. */
  lemma PreparedDict(root: Value, p: seq<nat>, k: string)
    requires ValidPos(root, p) && At(root, p).Dict?
    requires DictGet(At(root, p).entries, k).Some? ==> !DictGet(At(root, p).entries, k).value.List?
    ensures Prepared(root, Attached(p), k) == (Replace(root, p, Dict(DictPut(At(root, p).entries, k, Kept(At(root, p).entries, k)))), Attached(p))
  {
    var es := At(root, p).entries;
    if DictGet(es, k).Some? && IsContainer(DictGet(es, k).value) {
      DictPutSame(es, k);
      ReplaceSame(root, p);
    }
  }

  /** One intermediate field of `set` at an attached dict whose child is
      not a list. */
  lemma SetStep(root: Value, p: seq<nat>, names: seq<string>, x: Value, prefix: Option<string>)
    requires ValidPos(root, p) && At(root, p).Dict? && |names| > 1
    requires ParseKey(names[0], prefix) == Ok(Field(names[0]))
    requires DictGet(At(root, p).entries, names[0]).Some? ==> !DictGet(At(root, p).entries, names[0]).value.List?
    ensures var es2 := DictPut(At(root, p).entries, names[0], Kept(At(root, p).entries, names[0]));
      var r2 := Replace(root, p, Dict(es2));
      var i := FindKey(es2, names[0]).value;
      && ValidPos(r2, p + [i]) && At(r2, p + [i]) == Kept(At(root, p).entries, names[0])
      && SetFrom(root, Attached(p), names, x, prefix) == SetFrom(r2, Attached(p + [i]), names[1..], x, prefix)
  {
    var es := At(root, p).entries;
    var k := names[0];
    var es2 := DictPut(es, k, Kept(es, k));
    var r2 := Replace(root, p, Dict(es2));
    PreparedDict(root, p, k);
    SetFromField(root, Attached(p), names, x, prefix);
    var i := FindKey(es2, k).value;
    AtExtend(r2, p, i);
    assert Descend(r2, Attached(p), k) == Attached(p + [i]);
  }

  /** After `set` keeps the child of key `k` at the dict at `p`, that
      child sits one level below `p`. */
  lemma KeptAt(root: Value, p: seq<nat>, k: string)
    requires ValidPos(root, p) && At(root, p).Dict?
    ensures var es2 := DictPut(At(root, p).entries, k, Kept(At(root, p).entries, k));
      var r2 := Replace(root, p, Dict(es2));
      var i := FindKey(es2, k).value;
      ValidPos(r2, p + [i]) && At(r2, p + [i]) == Kept(At(root, p).entries, k)
  {
    var es2 := DictPut(At(root, p).entries, k, Kept(At(root, p).entries, k));
    AtExtend(Replace(root, p, Dict(es2)), p, FindKey(es2, k).value);
  }

  /** Assigning a key of the dict at `p`, then replacing what the key now
      holds, is assigning the key the replacement. */
  lemma ReplaceUnder(root: Value, p: seq<nat>, k: string, c: Value, y: Value)
    requires ValidPos(root, p) && At(root, p).Dict?
    ensures var es2 := DictPut(At(root, p).entries, k, c);
      var r2 := Replace(root, p, Dict(es2));
      var i := FindKey(es2, k).value;
      && ValidPos(r2, p + [i])
      && Replace(r2, p + [i], y) == Replace(root, p, Dict(DictPut(At(root, p).entries, k, y)))
  {
    var es := At(root, p).entries;
    var es2 := DictPut(es, k, c);
    var r2 := Replace(root, p, Dict(es2));
    var i := FindKey(es2, k).value;
    ReplaceExtend(r2, p, i, y);
    WithChildIsPut(es2, k, y);
    ReplaceTwice(root, p, Dict(es2), Dict(DictPut(es2, k, y)));
    DictPutTwice(es, k, c, y);
  }

  /** `set` at a last field of an attached dict. */
  lemma SetLastField(root: Value, p: seq<nat>, k: string, x: Value, prefix: Option<string>)
    requires ValidPos(root, p) && At(root, p).Dict? && ParseKey(k, prefix) == Ok(Field(k))
    ensures SetFrom(root, Attached(p), [k], x, prefix) == Done(Replace(root, p, PutPath(At(root, p), [k], x)))
  {
  }

  /** Writing a path of more than one key, one level down. */
  lemma PutPathStep(es: seq<Entry>, names: seq<string>, x: Value)
    requires |names| > 1
    ensures PutPath(Dict(es), names, x) == Dict(DictPut(es, names[0], PutPath(Kept(es, names[0]), names[1..], x)))
  {
  }

  /** The child `set` descends into has no list inside the rest of the
      path, and what it replaced was no list either. */
  lemma KeptListFree(es: seq<Entry>, names: seq<string>)
    requires |names| > 1 && ListFree(Dict(es), names)
    ensures ListFree(Kept(es, names[0]), names[1..])
    ensures DictGet(es, names[0]).Some? ==> !DictGet(es, names[0]).value.List?
  {
    if !(DictGet(es, names[0]).Some? && DictGet(es, names[0]).value.Dict?) {
      assert DictGet([], names[1]).None?;
    }
  }

  /** An intermediate field of `set`, composed with what the rest of the
      path does below it. */
  lemma SetCompose(root: Value, p: seq<nat>, names: seq<string>, x: Value, prefix: Option<string>, y: Value)
    requires ValidPos(root, p) && At(root, p).Dict? && |names| > 1
    requires ParseKey(names[0], prefix) == Ok(Field(names[0]))
    requires DictGet(At(root, p).entries, names[0]).Some? ==> !DictGet(At(root, p).entries, names[0]).value.List?
    requires var es2 := DictPut(At(root, p).entries, names[0], Kept(At(root, p).entries, names[0]));
      var r2 := Replace(root, p, Dict(es2));
      var i := FindKey(es2, names[0]).value;
      ValidPos(r2, p + [i]) && SetFrom(r2, Attached(p + [i]), names[1..], x, prefix) == Done(Replace(r2, p + [i], y))
    ensures SetFrom(root, Attached(p), names, x, prefix) == Done(Replace(root, p, Dict(DictPut(At(root, p).entries, names[0], y))))
  {
    SetStep(root, p, names, x, prefix);
    ReplaceUnder(root, p, names[0], Kept(At(root, p).entries, names[0]), y);
  }

  /** `set` from a dict along dict keys with no list inside the path writes
      the path: the document is the one `PutPath` describes. */
  lemma {:induction false} SetFields(root: Value, p: seq<nat>, names: seq<string>, x: Value, prefix: Option<string>)
    requires ValidPos(root, p) && At(root, p).Dict? && |names| >= 1
    requires FieldsOnly(names, prefix) && ListFree(At(root, p), names)
    ensures SetFrom(root, Attached(p), names, x, prefix) == Done(Replace(root, p, PutPath(At(root, p), names, x)))
    decreases |names|
  {
    FieldsOnlyTail(names, prefix);
    var k := names[0];
    var es := At(root, p).entries;
    if |names| == 1 {
      SetLastField(root, p, k, x, prefix);
    } else {
      var c := Kept(es, k);
      var es2 := DictPut(es, k, c);
      var r2 := Replace(root, p, Dict(es2));
      var i := FindKey(es2, k).value;
      KeptAt(root, p, k);
      KeptListFree(es, names);
      SetFields(r2, p + [i], names[1..], x, prefix);
      SetFieldsBelow(root, p, names, x, prefix);
    }
  }

  /** The step of `SetFields` from the rest of the path to the whole. */
  lemma SetFieldsBelow(root: Value, p: seq<nat>, names: seq<string>, x: Value, prefix: Option<string>)
    requires ValidPos(root, p) && At(root, p).Dict? && |names| > 1
    requires FieldsOnly(names, prefix) && ListFree(At(root, p), names)
    requires var es := At(root, p).entries;
      var es2 := DictPut(es, names[0], Kept(es, names[0]));
      var r2 := Replace(root, p, Dict(es2));
      var i := FindKey(es2, names[0]).value;
      && ValidPos(r2, p + [i])
      && SetFrom(r2, Attached(p + [i]), names[1..], x, prefix) == Done(Replace(r2, p + [i], PutPath(Kept(es, names[0]), names[1..], x)))
    ensures SetFrom(root, Attached(p), names, x, prefix) == Done(Replace(root, p, PutPath(At(root, p), names, x)))
  {
    var es := At(root, p).entries;
    FieldsOnlyTail(names, prefix);
    KeptListFree(es, names);
    SetCompose(root, p, names, x, prefix, PutPath(Kept(es, names[0]), names[1..], x));
    PutPathStep(es, names, x);
  }

  /** The round trip: on a dict, along dict keys with no list inside the
      path, `set` writes the path (missing or non-container steps become
      `{}`, dicts on the way are kept), `get` then reads the value back, and
      every key beside the path still leads where it did. */
  lemma SetThenGet(root: Value, path: string, x: Value, default: Value, prefix: Option<string>)
    requires root.Dict? && FieldsOnly(Split(path), prefix) && ListFree(root, Split(path))
    ensures SetOne(root, path, x, prefix) == Done(PutPath(root, Split(path), x))
    ensures x != Null ==> Lookup(PutPath(root, Split(path), x), path, default, prefix) == Ok(x)
    ensures forall j, k :: 0 <= j < |Split(path)| && k != Split(path)[j] ==>
      FollowKeys(PutPath(root, Split(path), x), Split(path)[..j] + [k]) == FollowKeys(root, Split(path)[..j] + [k])
    ensures forall j :: 0 <= j < |Split(path)| ==> FollowKeys(PutPath(root, Split(path), x), Split(path)[..j]).Dict?
  {
    var names := Split(path);
    SetFields(root, [], names, x, prefix);
    ResolveFields(PutPath(root, names, x), path, prefix);
    PutPathGet(root, names, x);
    forall j, k | 0 <= j < |names| && k != names[j]
      ensures FollowKeys(PutPath(root, names, x), names[..j] + [k]) == FollowKeys(root, names[..j] + [k])
    {
      PutPathOthers(root, names, x, j, k);
    }
    forall j | 0 <= j < |names|
      ensures FollowKeys(PutPath(root, names, x), names[..j]).Dict?
    {
      PutPathDicts(root, names, x, j);
    }
  }

  /** `set` never gets past an index segment: the list is padded and then
      the int key reaches `hasattr` or `setattr`, which raise TypeError. */
  lemma {:induction false} SetStopsAtIndex(root: Value, f: Focus, keys: seq<string>, x: Value, prefix: Option<string>)
    requires Fits(root, f) && |keys| >= 1
    requires forall j :: 0 <= j < |keys| ==> ParseKey(keys[j], prefix).Ok?
    requires exists j :: 0 <= j < |keys| && ParseKey(keys[j], prefix).value.Index?
    ensures SetFrom(root, f, keys, x, prefix).Raised?
    ensures SetFrom(root, f, keys, x, prefix).error == TypeError
    decreases |keys|
  {
    var key := ParseKey(keys[0], prefix).value;
    if key.Field? {
      var j :| 0 <= j < |keys| && ParseKey(keys[j], prefix).value.Index?;
      assert j > 0 && keys[1..][j - 1] == keys[j];
      assert forall t :: 0 <= t < |keys[1..]| ==> keys[1..][t] == keys[t + 1];
      var (r2, f2) := Prepared(root, f, key.name);
      SetStopsAtIndex(r2, Descend(r2, f2, key.name), keys[1..], x, prefix);
    }
  }

  /** What the index branch of `set` leaves in place of the container it
      meets: a list padded to hold the index (with None when the index is
      the last segment, `{}` otherwise), or a dict cleared. */
  function IndexLeft(c: Value, k: int, last: bool): (t: Value)
    requires IsContainer(c)
    ensures c.List? ==> t.List? && |t.items| == (if k < |c.items| then |c.items| else k + 1) && t.items[..|c.items|] == c.items
    ensures c.Dict? ==> t == Dict([])
  {
    if c.List? then List(Padded(c.items, k, if last then Null else Dict([]))) else Dict([])
  }

  /** The index segment itself, at the container at `p`. */
  lemma SetAtIndexHere(root: Value, p: seq<nat>, seg: string, rest: seq<string>, x: Value, prefix: Option<string>)
    requires ValidPos(root, p) && IsContainer(At(root, p))
    requires ParseKey(seg, prefix).Ok? && ParseKey(seg, prefix).value.Index?
    ensures var t := IndexLeft(At(root, p), ParseKey(seg, prefix).value.n, rest == []);
      SetFrom(root, Attached(p), [seg] + rest, x, prefix) == Raised(Replace(root, p, t), TypeError)
  {
    assert ([seg] + rest)[0] == seg && (|[seg] + rest| == 1 <==> rest == []);
  }

  /** An intermediate field at a dict whose child is a container keeps
      both and moves one level down. */
  lemma SetThroughContainer(root: Value, p: seq<nat>, keys: seq<string>, x: Value, prefix: Option<string>)
    requires ValidPos(root, p) && At(root, p).Dict? && |keys| > 1
    requires ParseKey(keys[0], prefix) == Ok(Field(keys[0]))
    requires DictGet(At(root, p).entries, keys[0]).Some? && IsContainer(DictGet(At(root, p).entries, keys[0]).value)
    ensures var i := FindKey(At(root, p).entries, keys[0]).value;
      && ValidPos(root, p + [i]) && At(root, p + [i]) == DictGet(At(root, p).entries, keys[0]).value
      && SetFrom(root, Attached(p), keys, x, prefix) == SetFrom(root, Attached(p + [i]), keys[1..], x, prefix)
  {
    var i := FindKey(At(root, p).entries, keys[0]).value;
    assert Prepared(root, Attached(p), keys[0]) == (root, Attached(p));
    AtExtend(root, p, i);
    SetFromField(root, Attached(p), keys, x, prefix);
  }

  /** The first segment of a longer path, and the segments after it. */
  lemma SplitFirst(names: seq<string>, seg: string, rest: seq<string>)
    requires names != []
    ensures var keys := names + [seg] + rest;
      |keys| > 1 && keys[0] == names[0] && keys[1..] == names[1..] + [seg] + rest
  {
    var keys := names + [seg] + rest;
    assert keys == names + ([seg] + rest) && names[1..] + [seg] + rest == names[1..] + ([seg] + rest);
    assert keys[1..] == names[1..] + ([seg] + rest);
  }

  /** Replacing the end of a present path below its first key is
      replacing it from the dict at `p`. */
  lemma ReplaceAlongStep(root: Value, p: seq<nat>, names: seq<string>, w: Value)
    requires ValidPos(root, p) && Present(At(root, p), names) && names != []
    ensures var es := At(root, p).entries;
      var i := FindKey(es, names[0]).value;
      && ValidPos(root, p + [i])
      && Replace(root, p + [i], PutAlong(DictGet(es, names[0]).value, names[1..], w)) == Replace(root, p, PutAlong(At(root, p), names, w))
  {
    var es := At(root, p).entries;
    var i := FindKey(es, names[0]).value;
    var below := PutAlong(DictGet(es, names[0]).value, names[1..], w);
    ReplaceExtend(root, p, i, below);
    WithChildIsPut(es, names[0], below);
  }

  /** One present key of `SetAtIndexFrom`, from what happens below it. */
  lemma SetAtIndexBelow(root: Value, p: seq<nat>, names: seq<string>, keys: seq<string>, x: Value, prefix: Option<string>, t: Value)
    requires ValidPos(root, p) && Present(At(root, p), names) && names != []
    requires |keys| > 1 && keys[0] == names[0] && ParseKey(names[0], prefix) == Ok(Field(names[0]))
    requires IsContainer(DictGet(At(root, p).entries, names[0]).value)
    requires var es := At(root, p).entries;
      var i := FindKey(es, names[0]).value;
      && ValidPos(root, p + [i])
      && SetFrom(root, Attached(p + [i]), keys[1..], x, prefix)
         == Raised(Replace(root, p + [i], PutAlong(DictGet(es, names[0]).value, names[1..], t)), TypeError)
    ensures SetFrom(root, Attached(p), keys, x, prefix) == Raised(Replace(root, p, PutAlong(At(root, p), names, t)), TypeError)
  {
    SetThroughContainer(root, p, keys, x, prefix);
    ReplaceAlongStep(root, p, names, t);
  }

  /** `set` along present dict keys to a container, then an index segment:
      the dicts on the way are kept, the container is padded or cleared in
      place, and TypeError is raised. */
  lemma {:induction false} SetAtIndexFrom(root: Value, p: seq<nat>, names: seq<string>, seg: string, rest: seq<string>, x: Value, prefix: Option<string>)
    requires ValidPos(root, p) && Present(At(root, p), names) && FieldsOnly(names, prefix)
    requires ParseKey(seg, prefix).Ok? && ParseKey(seg, prefix).value.Index?
    requires IsContainer(FollowKeys(At(root, p), names))
    ensures var t := IndexLeft(FollowKeys(At(root, p), names), ParseKey(seg, prefix).value.n, rest == []);
      SetFrom(root, Attached(p), names + [seg] + rest, x, prefix) == Raised(Replace(root, p, PutAlong(At(root, p), names, t)), TypeError)
    decreases |names|
  {
    if names == [] {
      assert names + [seg] + rest == [seg] + rest;
      SetAtIndexHere(root, p, seg, rest, x, prefix);
    } else {
      FieldsOnlyTail(names, prefix);
      var es := At(root, p).entries;
      var child := DictGet(es, names[0]).value;
      var i := FindKey(es, names[0]).value;
      AtExtend(root, p, i);
      assert FollowKeys(At(root, p), names) == FollowKeys(child, names[1..]);
      assert IsContainer(child);
      SetAtIndexFrom(root, p + [i], names[1..], seg, rest, x, prefix);
      var t := IndexLeft(FollowKeys(child, names[1..]), ParseKey(seg, prefix).value.n, rest == []);
      SplitFirst(names, seg, rest);
      SetAtIndexBelow(root, p, names, names + [seg] + rest, x, prefix, t);
    }
  }

  /** `set(obj, path, value)` whose path is present dict keys to a list or
      a dict, then an index segment: it raises TypeError, leaving the list
      padded (`set({"a": [1]}, "a.3", 5)` leaves `{"a": [1, None, None,
      None]}`) or the dict cleared, and every other node as it was. */
  lemma SetAtIndex(root: Value, path: string, names: seq<string>, seg: string, rest: seq<string>, x: Value, prefix: Option<string>)
    requires Split(path) == names + [seg] + rest
    requires Present(root, names) && FieldsOnly(names, prefix)
    requires ParseKey(seg, prefix).Ok? && ParseKey(seg, prefix).value.Index?
    requires IsContainer(FollowKeys(root, names))
    ensures var t := IndexLeft(FollowKeys(root, names), ParseKey(seg, prefix).value.n, rest == []);
      && SetOne(root, path, x, prefix) == Raised(PutAlong(root, names, t), TypeError)
      && FollowKeys(PutAlong(root, names, t), names) == t
      && forall j, k :: 0 <= j < |names| && k != names[j] ==>
           FollowKeys(PutAlong(root, names, t), names[..j] + [k]) == FollowKeys(root, names[..j] + [k])
  {
    var t := IndexLeft(FollowKeys(root, names), ParseKey(seg, prefix).value.n, rest == []);
    SetAtIndexFrom(root, [], names, seg, rest, x, prefix);
    PutAlongGet(root, names, t);
    forall j, k | 0 <= j < |names| && k != names[j]
      ensures FollowKeys(PutAlong(root, names, t), names[..j] + [k]) == FollowKeys(root, names[..j] + [k])
    {
      PutAlongOthers(root, names, t, j, k);
    }
  }

  /** The segments of `"a.b.0.c"`. */
  lemma SplitExample()
    ensures Split("a.b.0.c") == ["a", "b", "0", "c"]
  {
    assert "a.b.0.c" == "a" + "." + "b.0.c";
    assert "b.0.c" == "b" + "." + "0.c";
    assert "0.c" == "0" + "." + "c";
    SplitFront("a", "b.0.c");
    SplitFront("b", "0.c");
    SplitFront("0", "c");
    SplitDotFree("c");
  }

  /** `{"a": {}}` and `{"a": {"b": {}}}`, the documents the example goes through. */
  function OneLevel(): Value { Dict([Entry("a", Dict([]))]) }
  function TwoLevels(): Value { Dict([Entry("a", Dict([Entry("b", Dict([]))]))]) }

  /** A first field segment on an empty document makes `{k: {}}` and goes into it. */
  lemma SetOnEmpty(keys: seq<string>, x: Value, prefix: Option<string>)
    requires |keys| > 1 && ParseKey(keys[0], prefix) == Ok(Field(keys[0]))
    ensures SetFrom(Dict([]), Attached([]), keys, x, prefix)
         == SetFrom(Dict([Entry(keys[0], Dict([]))]), Attached([0]), keys[1..], x, prefix)
  {
    var k := keys[0];
    assert Kept([], k) == Dict([]);
    var es2 := DictPut([], k, Kept([], k));
    assert es2 == [Entry(k, Dict([]))];
    assert FindKey(es2, k) == Some(0);
    assert Replace(Dict([]), [], Dict(es2)) == Dict([Entry(k, Dict([]))]);
    var empty: seq<nat> := [];
    assert empty + [0] == [0];
    SetStep(Dict([]), empty, keys, x, prefix);
  }

  /** The second makes `{"a": {"b": {}}}`. */
  lemma SetExampleSecond()
    ensures SetFrom(OneLevel(), Attached([0]), ["b", "0", "c"], Int(5), None)
         == SetFrom(TwoLevels(), Attached([0, 0]), ["0", "c"], Int(5), None)
  {
    assert !IsDigit("b"[0]);
    SetStep(OneLevel(), [0], ["b", "0", "c"], Int(5), None);
    assert DictPut([], "b", Kept([], "b")) == [Entry("b", Dict([]))];
    assert Replace(OneLevel(), [0], Dict([Entry("b", Dict([]))])) == TwoLevels();
    assert ["b", "0", "c"][1..] == ["0", "c"];
  }

  /** The third clears `b`'s `{}` (already empty), pads a detached list and raises. */
  lemma SetExampleThird()
    ensures SetFrom(TwoLevels(), Attached([0, 0]), ["0", "c"], Int(5), None) == Raised(TwoLevels(), TypeError)
  {
    assert AllDigits("0");
    ReplaceSame(TwoLevels(), [0, 0]);
  }

  /** The example `set({}, "a.b.0.c", 5)`: the dicts for `a` and `b` are
      made, the `0` segment turns `b`'s `{}` into a detached list, and the
      call raises TypeError, leaving `{"a": {"b": {}}}`. */
  lemma SetThroughIndexRaises()
    ensures SetOne(Dict([]), "a.b.0.c", Int(5), None) == Raised(Dict([Entry("a", Dict([Entry("b", Dict([]))]))]), TypeError)
  {
    SplitExample();
    assert !IsDigit("a"[0]);
    SetOnEmpty(["a", "b", "0", "c"], Int(5), None);
    assert ["a", "b", "0", "c"][1..] == ["b", "0", "c"];
    SetExampleSecond();
    SetExampleThird();
  }

  /** The segments of `"a.b"`. */
  lemma SplitPair()
    ensures Split("a.b") == ["a", "b"]
    ensures ParseKey("a", None) == Ok(Field("a")) && ParseKey("b", None) == Ok(Field("b"))
  {
    assert "a.b" == "a" + "." + "b";
    SplitFront("a", "b");
    SplitDotFree("b");
    assert !AllDigits("a") && !AllDigits("b");
  }

  /** A last field on a list raises AttributeError and changes nothing:
      `set({"a": items}, "a.b", v)`. */
  lemma SetFieldOnList(items: seq<Value>, v: Value)
    ensures SetOne(Dict([Entry("a", List(items))]), "a.b", v, None) == Raised(Dict([Entry("a", List(items))]), AttributeError)
  {
    SplitPair();
    assert Split("a.b")[1..] == ["b"];
  }

  // ---------------------------------------------------------------------
  // push

  /** `push({"a": [x]}, "a.b", v)`: the walk that creates clears the list
      under `a` while coercing it to a detached dict, finds no list at its
      end and falls back to `set`, which keeps the now empty list and raises
      AttributeError on its last field. The element is lost. */
  lemma PushFieldOnList(x: Value, v: Value)
    ensures PushOne(Dict([Entry("a", List([x]))]), "a.b", v, None) == Raised(Dict([Entry("a", List([]))]), AttributeError)
  {
    SplitPair();
    PushWalkFirst(x, ["a", "b"]);
    assert ["a", "b"][1..] == ["b"];
    PushWalkSecond(x, ["b"]);
    SetFieldOnList([], List([v]));
  }

  /** The first segment of that walk enters the list under `a`. */
  lemma PushWalkFirst(x: Value, keys: seq<string>)
    requires keys == ["a", "b"] && ParseKey("a", None) == Ok(Field("a"))
    ensures WalkFrom(Dict([Entry("a", List([x]))]), Attached([]), keys, true, None)
         == WalkFrom(Dict([Entry("a", List([x]))]), Attached([0]), keys[1..], true, None)
  {
    var root := Dict([Entry("a", List([x]))]);
    assert DictGet(root.entries, "a") == Some(List([x]));
    assert Vivified(root.entries, "a") == root.entries;
    assert FindKey(root.entries, "a") == Some(0);
    assert Replace(root, [], root) == root;
    var empty: seq<nat> := [];
    assert empty + [0] == [0];
    WalkStep(root, empty, keys, None);
  }

  /** The second clears that list and continues in a detached dict. */
  lemma PushWalkSecond(x: Value, keys: seq<string>)
    requires keys == ["b"] && ParseKey("b", None) == Ok(Field("b"))
    ensures WalkFrom(Dict([Entry("a", List([x]))]), Attached([0]), keys, true, None)
         == Reached(Dict([Entry("a", List([]))]), Detached(Dict([])))
  {
    var root := Dict([Entry("a", List([x]))]);
    assert Replace(root, [0], List([])) == Dict([Entry("a", List([]))]);
    assert keys[1..] == [];
  }

  /** `push` onto a list that the path (of dict keys) leads to appends to
      that list in place: the path then reads the longer list, and every
      key beside the path still leads where it did. */
  lemma PushOntoList(root: Value, path: string, x: Value, prefix: Option<string>, items: seq<Value>)
    requires FieldsOnly(Split(path), prefix) && FollowKeys(root, Split(path)) == List(items)
    ensures Present(root, Split(path))
    ensures PushOne(root, path, x, prefix) == Done(PutAlong(root, Split(path), List(items + [x])))
    ensures Lookup(PutAlong(root, Split(path), List(items + [x])), path, Null, prefix) == Ok(List(items + [x]))
    ensures forall j, k :: 0 <= j < |Split(path)| && k != Split(path)[j] ==>
      FollowKeys(PutAlong(root, Split(path), List(items + [x])), Split(path)[..j] + [k]) == FollowKeys(root, Split(path)[..j] + [k])
  {
    var names := Split(path);
    var w := List(items + [x]);
    WalkCreateSame(root, Attached([]), names, prefix);
    WalkFieldsRead(root, [], names, prefix);
    WalkReplace(root, [], names, prefix, w);
    ResolveFields(PutAlong(root, names, w), path, prefix);
    PutAlongGet(root, names, w);
    forall j, k | 0 <= j < |names| && k != names[j]
      ensures FollowKeys(PutAlong(root, names, w), names[..j] + [k]) == FollowKeys(root, names[..j] + [k])
    {
      PutAlongOthers(root, names, w, j, k);
    }
  }

  /** `push` where the path (of dict keys, from a dict, with no list inside
      it) does not lead to a list: the walk makes the dicts that are
      missing, then `set` writes `[value]` at the end of the path, which
      then reads `[value]`; every node on the way is a dict. */
  lemma PushOntoOther(root: Value, path: string, x: Value, prefix: Option<string>)
    requires root.Dict? && FieldsOnly(Split(path), prefix)
    requires ListFree(root, Split(path)) && !FollowKeys(root, Split(path)).List?
    ensures PushOne(root, path, x, prefix) == Done(PutPath(root, Split(path), List([x])))
    ensures Lookup(PushOne(root, path, x, prefix).root, path, Null, prefix) == Ok(List([x]))
    ensures forall j :: 0 <= j < |Split(path)| ==> FollowKeys(PushOne(root, path, x, prefix).root, Split(path)[..j]).Dict?
    ensures forall j, k :: 0 <= j < |Split(path)| && k != Split(path)[j] ==>
      FollowKeys(PushOne(root, path, x, prefix).root, Split(path)[..j] + [k]) == FollowKeys(root, Split(path)[..j] + [k])
  {
    var names := Split(path);
    var w := List([x]);
    WalkCreateFields(root, [], names, prefix);
    CreatePutPath(root, [], names, prefix, w);
    var r := WalkFrom(root, Attached([]), names, true, prefix).root;
    SetThenGet(r, path, w, Null, prefix);
    forall j, k | 0 <= j < |names| && k != names[j]
      ensures FollowKeys(PutPath(root, names, w), names[..j] + [k]) == FollowKeys(root, names[..j] + [k])
    {
      PutPathOthers(root, names, w, j, k);
    }
  }
}
