/** The JSON-like document tree that nested_property walks, the Python
    exceptions that escape from it, and the few Python built-ins (dict
    access, `==`, `<`, `in`, `len`) whose behaviour the library relies on. */
module Values {

  datatype Option<T> = None | Some(value: T)

  /** A document node: Python `None`, a bool, an int, a str, a list or a
      dict. A dict is its sequence of entries in insertion order, which is
      the order `dict.items()` iterates in. */
  datatype Value =
    | Null
    | Bool(b: bool)
    | Int(i: int)
    | Str(s: string)
    | List(items: seq<Value>)
    | Dict(entries: seq<Entry>)

  datatype Entry = Entry(key: string, val: Value)

  /** The exceptions the library lets escape to its caller. */
  datatype Error =
    | MalformedIndex(segment: string)  // ValueError from int() on an index segment
    | UnsupportedOperator(op: string)  // ValueError raised by _match
    | TypeError
    | AttributeError

  datatype Result<T> = Ok(value: T) | Err(error: Error) {
    predicate IsFailure() { Err? }
    function PropagateFailure<U>(): Result<U> requires Err? { Err(error) }
    function Extract(): T requires Ok? { value }
  }

  predicate IsContainer(v: Value) { v.List? || v.Dict? }

  // ---------------------------------------------------------------------
  // dict operations on the entry sequence

  /** The position of key `k` in `es` (the first one, should a key repeat). */
  function FindKey(es: seq<Entry>, k: string): (r: Option<nat>)
    ensures r.Some? ==> r.value < |es| && es[r.value].key == k
    ensures r.Some? ==> forall j :: 0 <= j < r.value ==> es[j].key != k
    ensures r.None? <==> forall j :: 0 <= j < |es| ==> es[j].key != k
  {
    if es == [] then None
    else if es[0].key == k then Some(0)
    else match FindKey(es[1..], k)
      case None => None
      case Some(j) => Some(j + 1)
  }

  /** `d.get(k)`, with `None` for a missing key. */
  function DictGet(es: seq<Entry>, k: string): (r: Option<Value>)
    ensures r.Some? <==> exists j :: 0 <= j < |es| && es[j].key == k
    ensures r.Some? ==> exists j :: 0 <= j < |es| && es[j] == Entry(k, r.value)
  {
    match FindKey(es, k)
    case None => None
    case Some(i) => Some(es[i].val)
  }

  /** `d[k] = v`: an existing key keeps its place, a new key goes last. */
  function DictPut(es: seq<Entry>, k: string, v: Value): (r: seq<Entry>)
    ensures DictGet(r, k) == Some(v)
    ensures forall k' :: k' != k ==> DictGet(r, k') == DictGet(es, k')
    ensures DictGet(es, k).Some? ==> |r| == |es| && FindKey(r, k) == FindKey(es, k)
    ensures DictGet(es, k).None? ==> r == es + [Entry(k, v)]
    ensures forall j :: 0 <= j < |es| ==> r[j].key == es[j].key
  {
    match FindKey(es, k)
    case Some(i) =>
      var r := es[i := Entry(k, v)];
      assert forall k' :: FindKey(r, k') == FindKey(es, k') by {
        forall k' ensures FindKey(r, k') == FindKey(es, k') {
          FindKeySameKeys(r, es, k');
        }
      }
      r
    case None =>
      var r := es + [Entry(k, v)];
      assert forall k' :: FindKey(r, k') == (if k' == k && FindKey(es, k').None? then Some(|es|) else FindKey(es, k')) by {
        forall k' ensures FindKey(r, k') == (if k' == k && FindKey(es, k').None? then Some(|es|) else FindKey(es, k')) {
          FindKeyAppend(es, Entry(k, v), k');
        }
      }
      r
  }

  /** Two entry sequences with the same keys in the same places find a key at the same place. */
  lemma {:induction false} FindKeySameKeys(a: seq<Entry>, b: seq<Entry>, k: string)
    requires |a| == |b| && forall j :: 0 <= j < |a| ==> a[j].key == b[j].key
    ensures FindKey(a, k) == FindKey(b, k)
  {
    if a != [] {
      FindKeySameKeys(a[1..], b[1..], k);
    }
  }

  /** A second assignment to the same key overrides the first. */
  lemma DictPutTwice(es: seq<Entry>, k: string, a: Value, b: Value)
    ensures DictPut(DictPut(es, k, a), k, b) == DictPut(es, k, b)
  {
    match FindKey(es, k)
    case Some(i) =>
      FindKeySameKeys(DictPut(es, k, a), es, k);
    case None =>
      FindKeyAppend(es, Entry(k, a), k);
  }

  /** Assigning a key the value it already has changes nothing. */
  lemma DictPutSame(es: seq<Entry>, k: string)
    requires DictGet(es, k).Some?
    ensures DictPut(es, k, DictGet(es, k).value) == es
  {
    var i := FindKey(es, k).value;
    assert es[i := Entry(k, es[i].val)] == es;
  }

  /** Appending an entry finds it only when the key was absent before. */
  lemma {:induction false} FindKeyAppend(es: seq<Entry>, e: Entry, k: string)
    ensures FindKey(es + [e], k) == if e.key == k && FindKey(es, k).None? then Some(|es|) else FindKey(es, k)
  {
    if es != [] {
      assert (es + [e])[1..] == es[1..] + [e];
      FindKeyAppend(es[1..], e, k);
    }
  }

  /** No key occurs twice, as in every Python dict. */
  predicate UniqueKeys(es: seq<Entry>) {
    forall a, b :: 0 <= a < b < |es| ==> es[a].key != es[b].key
  }

  /** The entries after the first of a dict with unique keys have unique
      keys, none of them the first key. */
  lemma UniqueTail(es: seq<Entry>)
    requires UniqueKeys(es) && es != []
    ensures UniqueKeys(es[1..]) && FindKey(es[1..], es[0].key) == None
  {
    var rest := es[1..];
    forall a, b | 0 <= a < b < |rest| ensures rest[a].key != rest[b].key {
      assert rest[a] == es[a + 1] && rest[b] == es[b + 1];
    }
    forall j | 0 <= j < |rest| ensures rest[j].key != es[0].key {
      assert rest[j] == es[j + 1];
    }
  }

  /** Cutting out element `i > 0` keeps the first element in front. */
  lemma CutAfterFirst(es: seq<Entry>, i: nat)
    requires 0 < i < |es|
    ensures es[..i] + es[i + 1..] == [es[0]] + (es[1..][..i - 1] + es[1..][i..])
  {
  }

  /** In a dict whose keys are unique, `d.pop(k, None)` removes the one
      entry holding `k` and keeps the others in their order. */
  lemma {:induction false} DictPopUnique(es: seq<Entry>, k: string)
    requires UniqueKeys(es) && FindKey(es, k).Some?
    ensures var i := FindKey(es, k).value; DictPop(es, k) == es[..i] + es[i + 1..]
  {
    var i := FindKey(es, k).value;
    var rest := es[1..];
    UniqueTail(es);
    if i == 0 {
      assert DictGet(rest, k) == None;
      assert DictPop(es, k) == DictPop(rest, k);
    } else {
      assert FindKey(rest, k) == Some(i - 1);
      DictPopUnique(rest, k);
      assert DictPop(es, k) == [es[0]] + DictPop(rest, k);
      CutAfterFirst(es, i);
    }
  }

  /** Looking a key up in a dict with one more entry in front. */
  lemma DictGetCons(e: Entry, rest: seq<Entry>, k: string)
    ensures DictGet([e] + rest, k) == if e.key == k then Some(e.val) else DictGet(rest, k)
  {
    assert ([e] + rest)[1..] == rest;
  }

  /** `d.pop(k, None)`: removes the key, and leaves the dict alone if it is absent. */
  function DictPop(es: seq<Entry>, k: string): (r: seq<Entry>)
    ensures DictGet(r, k) == None
    ensures forall k' :: k' != k ==> DictGet(r, k') == DictGet(es, k')
    ensures DictGet(es, k) == None ==> r == es
    ensures |r| <= |es|
  {
    if es == [] then []
    else if es[0].key == k then DictPop(es[1..], k)
    else
      var rest := DictPop(es[1..], k);
      assert forall k' :: DictGet([es[0]] + rest, k') == DictGet(es, k') || k' == k by {
        forall k' ensures DictGet([es[0]] + rest, k') == DictGet(es, k') || k' == k {
          DictGetCons(es[0], rest, k');
          DictGetCons(es[0], es[1..], k');
          assert es == [es[0]] + es[1..];
        }
      }
      DictGetCons(es[0], rest, k);
      [es[0]] + rest
  }

  // ---------------------------------------------------------------------
  // Python built-ins over values

  /** The number of elements `len(v)` reports; `TypeError` for None, bools and ints. */
  function Len(v: Value): (r: Result<nat>)
    ensures r.Ok? <==> (v.List? || v.Dict? || v.Str?)
  {
    match v
    case List(items) => Ok(|items|)
    case Dict(es) => Ok(|es|)
    case Str(s) => Ok(|s|)
    case _ => Err(TypeError)
  }

  /** `t` occurs in `s` starting at position `i`. */
  predicate OccursAt(t: string, s: string, i: nat) {
    i + |t| <= |s| && s[i..i + |t|] == t
  }

  /** Python's `t in s` on strings: `t` occurs somewhere in `s` as a contiguous run. */
  function IsSubstring(t: string, s: string): (r: bool)
    ensures r <==> exists i: nat :: OccursAt(t, s, i)
    decreases |s|
  {
    if |t| > |s| then false
    else if s[..|t|] == t then assert OccursAt(t, s, 0); true
    else
      var r := IsSubstring(t, s[1..]);
      assert forall i: nat :: OccursAt(t, s[1..], i) <==> OccursAt(t, s, i + 1) by {
        forall i: nat ensures OccursAt(t, s[1..], i) <==> OccursAt(t, s, i + 1) {
          if i + |t| <= |s[1..]| {
            assert s[1..][i..i + |t|] == s[i + 1..i + 1 + |t|];
          }
        }
      }
      assert !OccursAt(t, s, 0);
      assert (exists i: nat :: OccursAt(t, s, i)) ==> exists i: nat :: OccursAt(t, s[1..], i) by {
        if exists i: nat :: OccursAt(t, s, i) {
          var i: nat :| OccursAt(t, s, i);
          assert i >= 1 && OccursAt(t, s[1..], i - 1);
        }
      }
      r
  }

  /** Python's `x in c`: membership for a list, key membership for a dict
      (a list or dict on the left is unhashable), substring for a str, and
      `TypeError` when `c` cannot be searched. */
  function Contains(c: Value, x: Value): (r: Result<bool>)
    ensures c.List? ==> r == Ok(x in c.items)
    ensures c.Dict? && x.Str? ==> r == Ok(DictGet(c.entries, x.s).Some?)
    ensures r.Err? <==> (c.Null? || c.Bool? || c.Int? || (c.Dict? && IsContainer(x)) || (c.Str? && !x.Str?))
  {
    match c
    case List(items) => Ok(x in items)
    case Dict(es) => if IsContainer(x) then Err(TypeError) else Ok(x.Str? && DictGet(es, x.s).Some?)
    case Str(s) => if x.Str? then Ok(IsSubstring(x.s, s)) else Err(TypeError)
    case _ => Err(TypeError)
  }

  /** Python's string ordering: code point by code point, a proper prefix first. */
  function CompareStrings(a: string, b: string): (r: int)
    ensures -1 <= r <= 1
    ensures r == 0 <==> a == b
  {
    if a == [] && b == [] then 0
    else if a == [] then -1
    else if b == [] then 1
    else if a[0] < b[0] then -1
    else if a[0] > b[0] then 1
    else
      var r := CompareStrings(a[1..], b[1..]);
      assert r == 0 ==> a == [a[0]] + a[1..] && b == [b[0]] + b[1..];
      r
  }

  /** The sign of `a - b` under Python's `<`: ints by value, strs as strings;
      any other pair (including None on either side) raises `TypeError`. */
  function Compare(a: Value, b: Value): (r: Result<int>)
    ensures r.Ok? <==> (a.Int? && b.Int?) || (a.Str? && b.Str?)
    ensures r.Ok? ==> -1 <= r.value <= 1 && (r.value == 0 <==> a == b)
  {
    if a.Int? && b.Int? then Ok(if a.i < b.i then -1 else if a.i > b.i then 1 else 0)
    else if a.Str? && b.Str? then Ok(CompareStrings(a.s, b.s))
    else Err(TypeError)
  }

  /** Swapping the operands of a comparison flips its sign. */
  lemma {:induction false} CompareStringsFlip(a: string, b: string)
    ensures CompareStrings(b, a) == -CompareStrings(a, b)
  {
    if a != [] && b != [] && a[0] == b[0] {
      CompareStringsFlip(a[1..], b[1..]);
    }
  }

  lemma CompareFlip(a: Value, b: Value)
    requires Compare(a, b).Ok?
    ensures Compare(b, a) == Ok(-Compare(a, b).value)
  {
    if a.Str? {
      CompareStringsFlip(a.s, b.s);
    }
  }

  /** The elements of `s` that satisfy `p`, in their original order. */
  function Filter(s: seq<Value>, p: Value -> bool): (r: seq<Value>)
    ensures |r| <= |s|
    ensures forall x :: x in r <==> x in s && p(x)
  {
    if s == [] then []
    else (if p(s[0]) then [s[0]] else []) + Filter(s[1..], p)
  }

  /** Filtering a concatenation filters each part, so the kept elements
      stay in their original order. */
  lemma {:induction false} FilterAppend(a: seq<Value>, b: seq<Value>, p: Value -> bool)
    ensures Filter(a + b, p) == Filter(a, p) + Filter(b, p)
  {
    if a == [] {
      assert a + b == b;
    } else {
      assert (a + b)[0] == a[0] && (a + b)[1..] == a[1..] + b;
      FilterAppend(a[1..], b, p);
    }
  }

  /** An element that passes the test is kept as often as it occurs; any
      other is dropped. */
  lemma {:induction false} FilterCount(s: seq<Value>, p: Value -> bool, x: Value)
    ensures multiset(Filter(s, p))[x] == if p(x) then multiset(s)[x] else 0
  {
    if s != [] {
      assert s == [s[0]] + s[1..];
      FilterCount(s[1..], p, x);
    }
  }
}
