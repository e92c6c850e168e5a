/** The read-only operations: `get` (with its optional query filter) and
    `has`, each also over a batch of paths. */
module Access {
  import opened Values
  import opened Paths
  import opened Traverse
  import opened Query

  // ---------------------------------------------------------------------
  // the node a path names

  /** Python's `v[k]` on a list: negative indices count from the end. */
  function ListIndex(n: nat, k: int): (r: nat)
    requires -(n as int) <= k < n
    ensures r < n
  {
    if k < 0 then k + n else k
  }

  /** The node that subscripting `v` with `keys` in turn reaches: a key
      present in a dict, an index in range of a list. */
  function Reach(v: Value, keys: seq<Key>): Option<Value>
    decreases |keys|
  {
    if keys == [] then Some(v)
    else match keys[0]
      case Index(k) =>
        if v.List? && -|v.items| <= k < |v.items| then Reach(v.items[ListIndex(|v.items|, k)], keys[1..])
        else None
      case Field(k) =>
        if v.Dict? && DictGet(v.entries, k).Some? then Reach(DictGet(v.entries, k).value, keys[1..])
        else None
  }

  predicate AllFields(keys: seq<Key>) {
    forall i :: 0 <= i < |keys| ==> keys[i].Field?
  }

  // ---------------------------------------------------------------------
  // get

  /** `[item for item in items if is_dict_object(item) and _match(item, query)]`. */
  function Selected(items: seq<Value>, query: Value): (r: Result<seq<Value>>)
    ensures r.Ok? ==> |r.value| <= |items|
    ensures r.Ok? ==> forall x :: x in r.value ==> x in items && x.Dict? && Match(x, query) == Ok(true)
  {
    if items == [] then Ok([])
    else
      var keep :- if items[0].Dict? then Match(items[0], query) else Ok(false);
      var rest :- Selected(items[1..], query);
      Ok(if keep then [items[0]] + rest else rest)
  }

  /** `get(obj, path, default, index_prefix, query)` for one path; `query`
      is `Null` when none is given. A list result is filtered by the query
      (and stays a list, even an empty one); anything else is returned as
      found, and `default` replaces None. */
  function Get(root: Value, path: string, default: Value, prefix: Option<string>, query: Value): Result<Value> {
    var found :- Resolve(root, path, prefix);
    if found.List? && query != Null then
      var kept :- Selected(found.items, query);
      Ok(List(kept))
    else Ok(if found == Null then default else found)
  }

  /** `get` on a path or a (possibly nested) list of paths. */
  function GetAll(root: Value, arg: PathArg, default: Value, prefix: Option<string>, query: Value): Result<Value>
    decreases arg
  {
    match arg
    case Single(path) => Get(root, path, default, prefix, query)
    case Batch(paths) =>
      var rs :- GetEach(root, paths, default, prefix, query);
      Ok(List(rs))
  }

  function GetEach(root: Value, paths: seq<PathArg>, default: Value, prefix: Option<string>, query: Value): Result<seq<Value>>
    decreases paths
  {
    if paths == [] then Ok([])
    else
      var first :- GetAll(root, paths[0], default, prefix, query);
      var rest :- GetEach(root, paths[1..], default, prefix, query);
      Ok([first] + rest)
  }

  // ---------------------------------------------------------------------
  // has

  /** The loop of `has` from node `v`: a missing key, an index out of range
      or a node of the wrong shape gives False; a segment that does not
      parse raises once the loop reaches it. */
  function HasFrom(v: Value, segs: seq<string>, prefix: Option<string>): Result<bool>
    decreases |segs|
  {
    if segs == [] then Ok(true)
    else
      var key :- ParseKey(segs[0], prefix);
      match key
      case Index(k) =>
        if v.List? && -|v.items| <= k < |v.items| then HasFrom(v.items[ListIndex(|v.items|, k)], segs[1..], prefix)
        else Ok(false)
      case Field(k) =>
        if v.Dict? && DictGet(v.entries, k).Some? then HasFrom(DictGet(v.entries, k).value, segs[1..], prefix)
        else Ok(false)
  }

  /** `has(obj, path, index_prefix)` for one path. */
  function Has(root: Value, path: string, prefix: Option<string>): Result<bool> {
    HasFrom(root, Split(path), prefix)
  }

  /** `has` on a path or a (possibly nested) list of paths. */
  function HasAll(root: Value, arg: PathArg, prefix: Option<string>): Result<Value>
    decreases arg
  {
    match arg
    case Single(path) =>
      var b :- Has(root, path, prefix);
      Ok(Bool(b))
    case Batch(paths) =>
      var rs :- HasEach(root, paths, prefix);
      Ok(List(rs))
  }

  function HasEach(root: Value, paths: seq<PathArg>, prefix: Option<string>): Result<seq<Value>>
    decreases paths
  {
    if paths == [] then Ok([])
    else
      var first :- HasAll(root, paths[0], prefix);
      var rest :- HasEach(root, paths[1..], prefix);
      Ok([first] + rest)
  }

  // ---------------------------------------------------------------------
  // properties

  /** `has` is true exactly when every segment reaches something: a present
      key of a dict, an index in range of a list; even when the node reached
      is None. A segment that does not parse only matters when it is reached. */
  lemma {:induction false} HasFromReach(v: Value, segs: seq<string>, prefix: Option<string>)
    requires ParseAll(segs, prefix).Ok?
    ensures HasFrom(v, segs, prefix) == Ok(Reach(v, ParseAll(segs, prefix).value).Some?)
    decreases |segs|
  {
    if segs != [] {
      var ks := ParseAll(segs, prefix).value;
      assert ParseAll(segs[1..], prefix).Ok? && ParseAll(segs[1..], prefix).value == ks[1..] by {
        assert forall i :: 0 <= i < |segs[1..]| ==> segs[1..][i] == segs[i + 1];
      }
      match ks[0]
      case Index(k) =>
        if v.List? && -|v.items| <= k < |v.items| {
          HasFromReach(v.items[ListIndex(|v.items|, k)], segs[1..], prefix);
        }
      case Field(k) =>
        if v.Dict? && DictGet(v.entries, k).Some? {
          HasFromReach(DictGet(v.entries, k).value, segs[1..], prefix);
        }
    }
  }

  lemma HasReach(root: Value, path: string, prefix: Option<string>)
    requires ParseAll(Split(path), prefix).Ok?
    ensures Has(root, path, prefix) == Ok(Reach(root, ParseAll(Split(path), prefix).value).Some?)
  {
    HasFromReach(root, Split(path), prefix);
  }

  /** Following dict keys is reaching along them, with None and absence both read as `Null`. */
  lemma {:induction false} FollowKeysReach(v: Value, segs: seq<string>, keys: seq<Key>)
    requires |keys| == |segs| && forall i :: 0 <= i < |segs| ==> keys[i] == Field(segs[i])
    ensures FollowKeys(v, segs) == match Reach(v, keys) case None => Null case Some(x) => x
    decreases |segs|
  {
    if segs != [] && v.Dict? && DictGet(v.entries, segs[0]).Some? {
      FollowKeysReach(DictGet(v.entries, segs[0]).value, segs[1..], keys[1..]);
    }
  }

  /** `get` without a query returns the node the path reaches when every
      segment is a dict key and that node is not None; in every other case
      (a missing step, a None on the way or at the end, any index segment)
      it returns `default`. */
  lemma GetReads(root: Value, path: string, default: Value, prefix: Option<string>)
    requires ParseAll(Split(path), prefix).Ok?
    ensures var keys := ParseAll(Split(path), prefix).value;
      Lookup(root, path, default, prefix) ==
        Ok(if AllFields(keys) && Reach(root, keys).Some? && Reach(root, keys).value != Null
           then Reach(root, keys).value else default)
  {
    var segs := Split(path);
    var keys := ParseAll(segs, prefix).value;
    if AllFields(keys) {
      assert FieldsOnly(segs, prefix);
      ResolveFields(root, path, prefix);
      FollowKeysReach(root, segs, keys);
    } else {
      var j :| 0 <= j < |keys| && !keys[j].Field?;
      LookupThroughIndex(root, path, default, prefix);
    }
  }

  /** Whatever `get` finds (other than the default) is there for `has`. */
  lemma GetImpliesHas(root: Value, path: string, default: Value, prefix: Option<string>, x: Value)
    requires ParseAll(Split(path), prefix).Ok?
    requires Lookup(root, path, default, prefix) == Ok(x) && x != default
    ensures Has(root, path, prefix) == Ok(true)
  {
    GetReads(root, path, default, prefix);
    HasReach(root, path, prefix);
  }

  /** `has` does not imply that `get` finds anything: a key holding None, and
      any list element, are present for `has` and the default for `get`. */
  lemma HasWithoutGet(default: Value, x: Value)
    ensures Has(Dict([Entry("a", Null)]), "a", None) == Ok(true)
    ensures Lookup(Dict([Entry("a", Null)]), "a", default, None) == Ok(default)
    ensures Has(Dict([Entry("a", List([x]))]), "a.0", None) == Ok(true)
    ensures Lookup(Dict([Entry("a", List([x]))]), "a.0", default, None) == Ok(default)
  {
    HasNullField(default);
    HasListElement(default, x);
  }

  /** A key holding None: present for `has`, the default for `get`. */
  lemma HasNullField(default: Value)
    ensures Has(Dict([Entry("a", Null)]), "a", None) == Ok(true)
    ensures Lookup(Dict([Entry("a", Null)]), "a", default, None) == Ok(default)
  {
    SplitDotFree("a");
    assert ParseAll(["a"], None).value == [Field("a")];
    GetReads(Dict([Entry("a", Null)]), "a", default, None);
  }

  /** A list element: present for `has`, the default for `get`. */
  lemma HasListElement(default: Value, x: Value)
    ensures Has(Dict([Entry("a", List([x]))]), "a.0", None) == Ok(true)
    ensures Lookup(Dict([Entry("a", List([x]))]), "a.0", default, None) == Ok(default)
  {
    assert "a" + "." + "0" == "a.0";
    SplitFront("a", "0");
    SplitDotFree("a");
    SplitDotFree("0");
    assert AllDigits("0") && DigitsValue("0") == 0;
    assert ParseKey(Split("a.0")[1], None).value.Index?;
    assert ParseAll(["a", "0"], None).value == [Field("a"), Index(0)];
    HasReach(Dict([Entry("a", List([x]))]), "a.0", None);
    LookupThroughIndex(Dict([Entry("a", List([x]))]), "a.0", default, None);
  }

  /** The query filter keeps exactly the dict elements that match, in their
      original order; it raises exactly when matching some dict element raises. */
  lemma {:induction false} SelectedFilters(items: seq<Value>, query: Value)
    ensures Selected(items, query).Err? <==> exists i :: 0 <= i < |items| && items[i].Dict? && Match(items[i], query).Err?
    ensures Selected(items, query).Ok? ==>
      Selected(items, query).value == Filter(items, (x: Value) => x.Dict? && Match(x, query) == Ok(true))
  {
    if items != [] {
      SelectedFilters(items[1..], query);
      assert forall i :: 1 <= i < |items| ==> items[1..][i - 1] == items[i];
    }
  }

  /** `get` with a query filters a list it finds and never answers the default for it. */
  lemma GetWithQuery(root: Value, path: string, default: Value, prefix: Option<string>, query: Value, items: seq<Value>)
    requires query != Null && Resolve(root, path, prefix) == Ok(List(items))
    requires forall i :: 0 <= i < |items| && items[i].Dict? ==> Match(items[i], query).Ok?
    ensures Get(root, path, default, prefix, query) == Ok(List(Filter(items, (x: Value) => x.Dict? && Match(x, query) == Ok(true))))
  {
    SelectedFilters(items, query);
  }

  /** Without a query, `get` is the plain lookup. */
  lemma GetWithoutQuery(root: Value, path: string, default: Value, prefix: Option<string>)
    ensures Get(root, path, default, prefix, Null) == Lookup(root, path, default, prefix)
  {
  }

  /** One path of a batch, then the rest. */
  lemma GetEachCons(root: Value, paths: seq<PathArg>, default: Value, prefix: Option<string>, query: Value)
    requires paths != []
    ensures GetEach(root, paths, default, prefix, query) ==
      match GetAll(root, paths[0], default, prefix, query)
      case Err(e) => Err(e)
      case Ok(a) =>
        match GetEach(root, paths[1..], default, prefix, query)
        case Err(e) => Err(e)
        case Ok(b) => Ok([a] + b)
  {
  }

  /** A batch of paths answers one result per path, in the order of the paths,
      and raises exactly when one of the paths does. */
  lemma {:induction false} GetEachInOrder(root: Value, paths: seq<PathArg>, default: Value, prefix: Option<string>, query: Value)
    ensures GetEach(root, paths, default, prefix, query).Ok? <==>
      forall i :: 0 <= i < |paths| ==> GetAll(root, paths[i], default, prefix, query).Ok?
    ensures GetEach(root, paths, default, prefix, query).Ok? ==>
      |GetEach(root, paths, default, prefix, query).value| == |paths| &&
      forall i :: 0 <= i < |paths| ==> GetEach(root, paths, default, prefix, query).value[i] == GetAll(root, paths[i], default, prefix, query).value
    decreases paths
  {
    if paths != [] {
      GetEachCons(root, paths, default, prefix, query);
      GetEachInOrder(root, paths[1..], default, prefix, query);
      assert forall i :: 1 <= i < |paths| ==> paths[1..][i - 1] == paths[i];
    }
  }

  lemma {:induction false} HasEachInOrder(root: Value, paths: seq<PathArg>, prefix: Option<string>)
    ensures HasEach(root, paths, prefix).Ok? <==> forall i :: 0 <= i < |paths| ==> HasAll(root, paths[i], prefix).Ok?
    ensures HasEach(root, paths, prefix).Ok? ==>
      |HasEach(root, paths, prefix).value| == |paths| &&
      forall i :: 0 <= i < |paths| ==> HasEach(root, paths, prefix).value[i] == HasAll(root, paths[i], prefix).value
    decreases paths
  {
    if paths != [] {
      HasEachInOrder(root, paths[1..], prefix);
      assert forall i :: 1 <= i < |paths| ==> paths[1..][i - 1] == paths[i];
    }
  }
}
