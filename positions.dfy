/** Positions inside a document. The Python code holds references to the
    containers of the caller's document and mutates them in place; here a
    container is named by its position, the child indices (a list index or
    the index of a dict entry) that lead from the root to it. */
module Positions {
  import opened Values

  /** How many children a node has. */
  function Arity(v: Value): nat {
    match v
    case List(items) => |items|
    case Dict(es) => |es|
    case _ => 0
  }

  function Child(v: Value, i: nat): Value
    requires i < Arity(v)
  {
    match v
    case List(items) => items[i]
    case Dict(es) => es[i].val
  }

  /** The node with child `i` replaced by `w` (a dict entry keeps its key). */
  function WithChild(v: Value, i: nat, w: Value): (r: Value)
    requires i < Arity(v)
    ensures r.List? == v.List? && r.Dict? == v.Dict? && Arity(r) == Arity(v)
    ensures Child(r, i) == w
    ensures forall j :: 0 <= j < Arity(v) && j != i ==> Child(r, j) == Child(v, j)
    ensures v.Dict? ==> forall j :: 0 <= j < |v.entries| ==> r.entries[j].key == v.entries[j].key
  {
    match v
    case List(items) => List(items[i := w])
    case Dict(es) => Dict(es[i := Entry(es[i].key, w)])
  }

  predicate ValidPos(v: Value, p: seq<nat>)
    decreases |p|
  {
    p == [] || (p[0] < Arity(v) && ValidPos(Child(v, p[0]), p[1..]))
  }

  /** The node at position `p`. */
  function At(v: Value, p: seq<nat>): Value
    requires ValidPos(v, p)
    decreases |p|
  {
    if p == [] then v else At(Child(v, p[0]), p[1..])
  }

  /** The document with the node at `p` replaced by `w`: what an in-place
      mutation of that node does to the document holding it. */
  function Replace(v: Value, p: seq<nat>, w: Value): (r: Value)
    requires ValidPos(v, p)
    ensures ValidPos(r, p) && At(r, p) == w
    decreases |p|
  {
    if p == [] then w
    else WithChild(v, p[0], Replace(Child(v, p[0]), p[1..], w))
  }

  /** One step further down from a valid position. */
  lemma {:induction false} AtExtend(v: Value, p: seq<nat>, i: nat)
    requires ValidPos(v, p) && i < Arity(At(v, p))
    ensures ValidPos(v, p + [i]) && At(v, p + [i]) == Child(At(v, p), i)
    decreases |p|
  {
    if p != [] {
      assert (p + [i])[1..] == p[1..] + [i];
      AtExtend(Child(v, p[0]), p[1..], i);
    }
  }

  /** Replacing a child of the node at `p` is replacing that node by its updated self. */
  lemma {:induction false} ReplaceExtend(v: Value, p: seq<nat>, i: nat, w: Value)
    requires ValidPos(v, p) && i < Arity(At(v, p))
    ensures ValidPos(v, p + [i])
    ensures Replace(v, p + [i], w) == Replace(v, p, WithChild(At(v, p), i, w))
    decreases |p|
  {
    AtExtend(v, p, i);
    if p != [] {
      assert (p + [i])[1..] == p[1..] + [i];
      ReplaceExtend(Child(v, p[0]), p[1..], i, w);
    }
  }

  /** A second replacement at the same place undoes the first. */
  lemma {:induction false} ReplaceTwice(v: Value, p: seq<nat>, a: Value, b: Value)
    requires ValidPos(v, p)
    ensures Replace(Replace(v, p, a), p, b) == Replace(v, p, b)
    decreases |p|
  {
    if p != [] {
      ReplaceTwice(Child(v, p[0]), p[1..], a, b);
    }
  }

  /** Putting back what is there changes nothing. */
  lemma {:induction false} ReplaceSame(v: Value, p: seq<nat>)
    requires ValidPos(v, p)
    ensures Replace(v, p, At(v, p)) == v
    decreases |p|
  {
    if p != [] {
      ReplaceSame(Child(v, p[0]), p[1..]);
      match v
      case List(items) => assert items[p[0] := items[p[0]]] == items;
      case Dict(es) => assert es[p[0] := Entry(es[p[0]].key, es[p[0]].val)] == es;
    }
  }
}
