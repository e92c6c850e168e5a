/** What the mutating operations do to a document, said along a path of
    dict keys: the node at the end of the path replaced (`PutAlong`), and
    the path written with `{}` made for what is missing (`PutPath`). Both
    are read back with `FollowKeys`, the lookup `get` performs. */
module Edits {
  import opened Values
  import opened Traverse

  /** Every key of `names` is present, each in the dict the previous one leads to. */
  predicate Present(v: Value, names: seq<string>)
    decreases |names|
  {
    names == [] ||
    (v.Dict? && DictGet(v.entries, names[0]).Some? && Present(DictGet(v.entries, names[0]).value, names[1..]))
  }

  /** Following `a + b` is following `a`, then `b` from where it leads. */
  lemma {:induction false} FollowKeysAppend(v: Value, a: seq<string>, b: seq<string>)
    ensures FollowKeys(v, a + b) == FollowKeys(FollowKeys(v, a), b)
    decreases |a|
  {
    if a == [] {
      assert a + b == b;
    } else if v.Dict? && DictGet(v.entries, a[0]).Some? {
      assert (a + b)[0] == a[0] && (a + b)[1..] == a[1..] + b;
      FollowKeysAppend(DictGet(v.entries, a[0]).value, a[1..], b);
    } else {
      assert (a + b)[0] == a[0];
    }
  }

  /** A path along which something other than None is found is present. */
  lemma {:induction false} FoundIsPresent(v: Value, names: seq<string>)
    requires FollowKeys(v, names) != Null
    ensures Present(v, names)
    decreases |names|
  {
    if names != [] {
      FoundIsPresent(DictGet(v.entries, names[0]).value, names[1..]);
    }
  }

  /** The document with the node at the end of a present path replaced by `w`. */
  function PutAlong(v: Value, names: seq<string>, w: Value): Value
    requires Present(v, names)
    decreases |names|
  {
    if names == [] then w
    else
      var child := DictGet(v.entries, names[0]).value;
      Dict(DictPut(v.entries, names[0], PutAlong(child, names[1..], w)))
  }

  /** `names[..j] + [k]` seen from the dict the first key leads to. */
  lemma StepInto(names: seq<string>, j: nat, k: string)
    requires 0 < j <= |names|
    ensures (names[..j] + [k])[0] == names[0]
    ensures (names[..j] + [k])[1..] == names[1..][..j - 1] + [k]
  {
  }

  /** After the replacement, the path leads to `w`. */
  lemma {:induction false} PutAlongGet(v: Value, names: seq<string>, w: Value)
    requires Present(v, names)
    ensures FollowKeys(PutAlong(v, names, w), names) == w
    decreases |names|
  {
    if names != [] {
      PutAlongGet(DictGet(v.entries, names[0]).value, names[1..], w);
    }
  }

  /** Any key beside the path, at any depth, still leads where it did. */
  lemma {:induction false} PutAlongOthers(v: Value, names: seq<string>, w: Value, j: nat, k: string)
    requires Present(v, names) && j < |names| && k != names[j]
    ensures FollowKeys(PutAlong(v, names, w), names[..j] + [k]) == FollowKeys(v, names[..j] + [k])
    decreases |names|
  {
    if j == 0 {
      assert names[..0] + [k] == [k];
    } else {
      StepInto(names, j, k);
      PutAlongOthers(DictGet(v.entries, names[0]).value, names[1..], w, j - 1, k);
    }
  }

  /** Replacing a child of the node at the end of the path. */
  lemma {:induction false} PutAlongSnoc(v: Value, names: seq<string>, k: string, w: Value)
    requires Present(v, names) && FollowKeys(v, names).Dict?
    requires DictGet(FollowKeys(v, names).entries, k).Some?
    ensures Present(v, names + [k])
    ensures PutAlong(v, names + [k], w) == PutAlong(v, names, Dict(DictPut(FollowKeys(v, names).entries, k, w)))
    decreases |names|
  {
    if names != [] {
      assert (names + [k])[0] == names[0] && (names + [k])[1..] == names[1..] + [k];
      PutAlongSnoc(DictGet(v.entries, names[0]).value, names[1..], k, w);
    }
  }

  // ---------------------------------------------------------------------
  // writing a path

  /** No list lies strictly inside the path (neither the start nor the end
      of it counts). */
  predicate ListFree(v: Value, names: seq<string>)
    decreases |names|
  {
    |names| <= 1 || !v.Dict? ||
    match DictGet(v.entries, names[0])
    case None => true
    case Some(c) => !c.List? && ListFree(c, names[1..])
  }

  /** The dict `v` with `x` written at the end of `names`: every dict on
      the way is kept and everything else on the way becomes `{}`. */
  function PutPath(v: Value, names: seq<string>, x: Value): (r: Value)
    requires v.Dict? && |names| >= 1
    ensures r.Dict?
    decreases |names|
  {
    if |names| == 1 then Dict(DictPut(v.entries, names[0], x))
    else
      var child := DictGet(v.entries, names[0]);
      var c := if child.Some? && child.value.Dict? then child.value else Dict([]);
      Dict(DictPut(v.entries, names[0], PutPath(c, names[1..], x)))
  }

  /** After writing, the path leads to what was written. */
  lemma {:induction false} PutPathGet(v: Value, names: seq<string>, x: Value)
    requires v.Dict? && |names| >= 1
    ensures FollowKeys(PutPath(v, names, x), names) == x
    decreases |names|
  {
    if |names| > 1 {
      var child := DictGet(v.entries, names[0]);
      var c := if child.Some? && child.value.Dict? then child.value else Dict([]);
      PutPathGet(c, names[1..], x);
    }
  }

  /** Every node on the way is a dict after writing. */
  lemma {:induction false} PutPathDicts(v: Value, names: seq<string>, x: Value, j: nat)
    requires v.Dict? && j < |names|
    ensures FollowKeys(PutPath(v, names, x), names[..j]).Dict?
    decreases |names|
  {
    if j > 0 {
      var child := DictGet(v.entries, names[0]);
      var c := if child.Some? && child.value.Dict? then child.value else Dict([]);
      assert names[..j][0] == names[0] && names[..j][1..] == names[1..][..j - 1];
      PutPathDicts(c, names[1..], x, j - 1);
    }
  }

  /** Any key beside the path, at any depth, still leads where it did: a
      dict on the way keeps its other keys, and a node that was not a dict
      had none to keep. */
  lemma {:induction false} PutPathOthers(v: Value, names: seq<string>, x: Value, j: nat, k: string)
    requires v.Dict? && j < |names| && k != names[j]
    ensures FollowKeys(PutPath(v, names, x), names[..j] + [k]) == FollowKeys(v, names[..j] + [k])
    decreases |names|
  {
    if j == 0 {
      assert names[..0] + [k] == [k];
    } else {
      var child := DictGet(v.entries, names[0]);
      var c := if child.Some? && child.value.Dict? then child.value else Dict([]);
      StepInto(names, j, k);
      PutPathOthers(c, names[1..], x, j - 1, k);
    }
  }
}
