/** `_match`: the Mongo-style evaluator that `get(query=...)` and `pull`
    apply to a document. Keys of a query are checked in insertion order and
    the first that fails decides; `$and`, `$or` and `$not` combine nested
    queries; any other key names a field, compared with a literal or with a
    mapping of the operators `$eq $ne $gt $gte $lt $lte $in $nin $len`. */
module Query {
  import opened Values
  import opened Paths
  import opened Traverse

  /** `_match(document, query)`: a query that is not a dict matches nothing. */
  function Match(doc: Value, query: Value): (r: Result<bool>)
    ensures !query.Dict? ==> r == Ok(false)
    decreases query, 1
  {
    match query
    case Dict(es) => MatchKeys(doc, es)
    case _ => Ok(false)
  }

  /** The loop over `query.items()`. */
  function MatchKeys(doc: Value, es: seq<Entry>): Result<bool>
    decreases es, 0
  {
    if es == [] then Ok(true)
    else
      var holds :- KeyHolds(doc, es[0].key, es[0].val);
      if !holds then Ok(false) else MatchKeys(doc, es[1..])
  }

  /** One `key, value` pair of a query. A field is read with
      `get(document, key)`, so a dotted key reads a nested field. */
  function KeyHolds(doc: Value, key: string, v: Value): Result<bool>
    decreases v, 2
  {
    if key == "$and" then AllMatch(doc, v)
    else if key == "$or" then AnyMatch(doc, v)
    else if key == "$not" then
      var m :- Match(doc, v);
      Ok(!m)
    else
      var found :- Lookup(doc, key, Null, None);
      if v.Dict? then OpsHold(found, v.entries) else Ok(found == v)
  }

  /** `all(_match(document, s) for s in v)`: a list runs its elements in
      order; iterating a dict or a str yields strs, which never match, so
      only an empty one passes; anything else is not iterable. */
  function AllMatch(doc: Value, v: Value): Result<bool>
    decreases v, 1
  {
    match v
    case List(subs) => AllOf(doc, subs)
    case Dict(es) => Ok(es == [])
    case Str(s) => Ok(s == [])
    case _ => Err(TypeError)
  }

  /** `any(_match(document, s) for s in v)`. */
  function AnyMatch(doc: Value, v: Value): Result<bool>
    decreases v, 1
  {
    match v
    case List(subs) => AnyOf(doc, subs)
    case Dict(_) => Ok(false)
    case Str(_) => Ok(false)
    case _ => Err(TypeError)
  }

  function AllOf(doc: Value, subs: seq<Value>): Result<bool>
    decreases subs, 0
  {
    if subs == [] then Ok(true)
    else
      var m :- Match(doc, subs[0]);
      if !m then Ok(false) else AllOf(doc, subs[1..])
  }

  function AnyOf(doc: Value, subs: seq<Value>): Result<bool>
    decreases subs, 0
  {
    if subs == [] then Ok(false)
    else
      var m :- Match(doc, subs[0]);
      if m then Ok(true) else AnyOf(doc, subs[1..])
  }

  /** The loop over the operators of one field, in insertion order. */
  function OpsHold(found: Value, ops: seq<Entry>): Result<bool>
    decreases ops, 0
  {
    if ops == [] then Ok(true)
    else
      var holds :- OpHolds(found, ops[0].key, ops[0].val);
      if !holds then Ok(false) else OpsHold(found, ops[1..])
  }

  predicate IsOrdering(op: string) {
    op == "$gt" || op == "$gte" || op == "$lt" || op == "$lte"
  }

  predicate IsKnownOperator(op: string) {
    op == "$eq" || op == "$ne" || IsOrdering(op) || op == "$in" || op == "$nin" || op == "$len"
  }

  /** One operator applied to the field's value `found` (`Null` when absent). */
  function OpHolds(found: Value, op: string, v: Value): Result<bool>
    decreases v, 2
  {
    if op == "$eq" then Ok(found == v)
    else if op == "$ne" then Ok(found != v)
    else if IsOrdering(op) then
      if found == Null then Ok(false)
      else
        var c :- Compare(found, v);
        Ok(if op == "$gt" then c > 0 else if op == "$gte" then c >= 0 else if op == "$lt" then c < 0 else c <= 0)
    else if op == "$in" then Contains(v, found)
    else if op == "$nin" then
      var c :- Contains(v, found);
      Ok(!c)
    else if op == "$len" then
      var n :- Len(found);
      // a mapping is evaluated as a query over the one-key document {"$len": n}
      if v.Dict? then Match(Dict([Entry("$len", Int(n))]), v) else Ok(Int(n) == v)
    else Err(UnsupportedOperator(op))
  }

  // ---------------------------------------------------------------------
  // properties

  /** The keys of a query form a conjunction evaluated left to right: the
      first key that fails or raises decides, and later keys are not looked at. */
  lemma {:induction false} MatchKeysAppend(doc: Value, a: seq<Entry>, b: seq<Entry>)
    ensures MatchKeys(doc, a + b) ==
      match MatchKeys(doc, a)
      case Err(e) => Err(e)
      case Ok(false) => Ok(false)
      case Ok(true) => MatchKeys(doc, b)
  {
    if a != [] {
      assert (a + b)[0] == a[0] && (a + b)[1..] == a[1..] + b;
      var h := KeyHolds(doc, a[0].key, a[0].val);
      if h == Ok(true) {
        MatchKeysAppend(doc, a[1..], b);
      }
    } else {
      assert a + b == b;
    }
  }

  /** A query holds exactly when each of its keys holds. */
  lemma {:induction false} MatchKeysAll(doc: Value, es: seq<Entry>)
    ensures MatchKeys(doc, es) == Ok(true) <==>
      forall i :: 0 <= i < |es| ==> KeyHolds(doc, es[i].key, es[i].val) == Ok(true)
  {
    if es != [] {
      MatchKeysAll(doc, es[1..]);
      assert forall i :: 1 <= i < |es| ==> es[1..][i - 1] == es[i];
    }
  }

  /** `$and` holds when every sub-query holds, `$or` when one does, once no
      sub-query raises. */
  lemma {:induction false} AndOrOverLists(doc: Value, subs: seq<Value>)
    requires forall i :: 0 <= i < |subs| ==> Match(doc, subs[i]).Ok?
    ensures AllOf(doc, subs) == Ok(forall i :: 0 <= i < |subs| ==> Match(doc, subs[i]).value)
    ensures AnyOf(doc, subs) == Ok(exists i :: 0 <= i < |subs| && Match(doc, subs[i]).value)
  {
    if subs != [] {
      AndOrOverLists(doc, subs[1..]);
      assert forall i :: 1 <= i < |subs| ==> subs[1..][i - 1] == subs[i];
    }
  }

  /** Without an index prefix, reading a field never raises. */
  lemma LookupWithoutPrefix(doc: Value, key: string)
    ensures Lookup(doc, key, Null, None).Ok?
  {
    WalkWithoutPrefix(doc, Attached([]), Split(key), false);
  }

  /** A query or an operator mapping with a single entry. */
  lemma OneEntry(doc: Value, found: Value, e: Entry)
    ensures MatchKeys(doc, [e]) == (var h :- KeyHolds(doc, e.key, e.val); Ok(h))
    ensures OpsHold(found, [e]) == (var h :- OpHolds(found, e.key, e.val); Ok(h))
  {
    assert [e][1..] == [];
  }

  /** A one-key query on a field: a literal is compared with the field's
      value (`Null` when absent); `$not` negates the nested query. */
  lemma SingleKey(doc: Value, key: string, v: Value, q: Value)
    requires key != "$and" && key != "$or" && key != "$not" && !v.Dict?
    ensures Lookup(doc, key, Null, None).Ok?
    ensures Match(doc, Dict([Entry(key, v)])) == Ok(Lookup(doc, key, Null, None).value == v)
    ensures Match(q, Dict([Entry("$not", doc)])).Ok? <==> Match(q, doc).Ok?
    ensures Match(doc, q).Ok? ==> Match(doc, Dict([Entry("$not", q)])) == Ok(!Match(doc, q).value)
  {
    LookupWithoutPrefix(doc, key);
    OneEntry(doc, Null, Entry(key, v));
    OneEntry(q, Null, Entry("$not", doc));
    OneEntry(doc, Null, Entry("$not", q));
  }

  /** An ordering operator never holds for an absent or None field. */
  lemma OrderingOnNone(doc: Value, key: string, op: string, v: Value)
    requires key != "$and" && key != "$or" && key != "$not" && IsOrdering(op)
    requires Lookup(doc, key, Null, None) == Ok(Null)
    ensures Match(doc, Dict([Entry(key, Dict([Entry(op, v)]))])) == Ok(false)
  {
    OneEntry(doc, Null, Entry(key, Dict([Entry(op, v)])));
    OneEntry(doc, Null, Entry(op, v));
  }

  /** An operator outside `$eq ... $nin`, `$len` (`$regex`, `$options`, a
      typo) raises `ValueError` once the evaluation reaches it. */
  lemma UnknownOperatorRaises(doc: Value, key: string, op: string, v: Value)
    requires key != "$and" && key != "$or" && key != "$not" && !IsKnownOperator(op)
    ensures Match(doc, Dict([Entry(key, Dict([Entry(op, v)]))])) == Err(UnsupportedOperator(op))
  {
    LookupWithoutPrefix(doc, key);
    var found := Lookup(doc, key, Null, None).value;
    OneEntry(doc, found, Entry(key, Dict([Entry(op, v)])));
    OneEntry(doc, found, Entry(op, v));
  }

  /** `$len` on an absent or None field raises: `len(None)` is a TypeError. */
  lemma LenOfNoneRaises(doc: Value, key: string, v: Value)
    requires key != "$and" && key != "$or" && key != "$not"
    requires Lookup(doc, key, Null, None) == Ok(Null)
    ensures Match(doc, Dict([Entry(key, Dict([Entry("$len", v)]))])) == Err(TypeError)
  {
    OneEntry(doc, Null, Entry(key, Dict([Entry("$len", v)])));
    OneEntry(doc, Null, Entry("$len", v));
  }

  /** `{"$len": {"$gt": m}}` never matches: the inner mapping is a query over
      the document `{"$len": n}`, so `$gt` is read as a field name, found
      absent, and compared for equality with `m`. */
  lemma NestedLenIsAQuery(doc: Value, key: string, m: int)
    requires key != "$and" && key != "$or" && key != "$not"
    requires Lookup(doc, key, Null, None).Ok? && Len(Lookup(doc, key, Null, None).value).Ok?
    ensures Match(doc, Dict([Entry(key, Dict([Entry("$len", Dict([Entry("$gt", Int(m))]))]))])) == Ok(false)
  {
    var n := Len(Lookup(doc, key, Null, None).value).value;
    SplitDotFree("$gt");
    assert ParseKey("$gt", None) == Ok(Field("$gt"));
    assert FieldsOnly(["$gt"], None);
    ResolveFields(Dict([Entry("$len", Int(n))]), "$gt", None);
    var found := Lookup(doc, key, Null, None).value;
    var inner := Dict([Entry("$gt", Int(m))]);
    OneEntry(Dict([Entry("$len", Int(n))]), Null, Entry("$gt", Int(m)));
    OneEntry(doc, found, Entry(key, Dict([Entry("$len", inner)])));
    OneEntry(doc, found, Entry("$len", inner));
  }
}
