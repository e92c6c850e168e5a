/** `match_condition`, `match_item`, `find_first` and `find_all`: the second
    Mongo-style evaluator, independent of `_match`. A query holding `$and`
    or `$or` is decided by that key alone; any other query is a conjunction
    of field conditions, each a literal to compare with or a mapping of the
    operators `$regex $options $lt $lte $gt $gte $in $nin`, where an
    unknown operator compares the field with the whole mapping. */
module Find {
  import opened Values
  import opened Paths
  import opened Traverse
  import opened Query

  /** The flags `re.IGNORECASE` and `re.MULTILINE`. */
  datatype Flags = Flags(ignoreCase: bool, multiline: bool)

  /** `re.search(pattern, string, flags)` found a match; the regular
      expression engine is outside the model, so it is a parameter, and a
      pattern it cannot use makes it raise. */
  type Search = (Value, string, Flags) -> Result<bool>

  /** The flags `$regex` is searched with: `i` and `m` tested with `in`
      against `$options` when the condition has that key. */
  function RegexFlags(cond: seq<Entry>): (r: Result<Flags>)
    ensures DictGet(cond, "$options").None? ==> r == Ok(Flags(false, false))
    ensures DictGet(cond, "$options").Some? && DictGet(cond, "$options").value.Str? ==>
      var o := DictGet(cond, "$options").value.s;
      r == Ok(Flags(IsSubstring("i", o), IsSubstring("m", o)))
  {
    match DictGet(cond, "$options")
    case None => Ok(Flags(false, false))
    case Some(options) =>
      var i :- Contains(options, Str("i"));
      var m :- Contains(options, Str("m"));
      Ok(Flags(i, m))
  }

  /** One operator `op: v` of the condition mapping `cond`, applied to the
      field's value (`Null` when absent). Orderings have no None guard. */
  function OpMet(value: Value, cond: seq<Entry>, op: string, v: Value, search: Search): Result<bool> {
    if op == "$regex" then
      var flags :- RegexFlags(cond);
      if !value.Str? then Ok(false) else search(v, value.s, flags)
    else if op == "$lt" then
      var c :- Compare(value, v);
      Ok(c < 0)
    else if op == "$lte" then
      var c :- Compare(value, v);
      Ok(c <= 0)
    else if op == "$gt" then
      var c :- Compare(value, v);
      Ok(c > 0)
    else if op == "$gte" then
      var c :- Compare(value, v);
      Ok(c >= 0)
    else if op == "$in" then Contains(v, value)
    else if op == "$nin" then
      var c :- Contains(v, value);
      Ok(!c)
    else if op == "$options" then Ok(true)
    else Ok(value == Dict(cond))
  }

  /** The loop over `condition.items()`: the first operator that fails decides. */
  function OpsMet(value: Value, cond: seq<Entry>, ops: seq<Entry>, search: Search): Result<bool>
    decreases |ops|
  {
    if ops == [] then Ok(true)
    else
      var ok :- OpMet(value, cond, ops[0].key, ops[0].val, search);
      if !ok then Ok(false) else OpsMet(value, cond, ops[1..], search)
  }

  /** `match_condition(item, key, condition)`: the field is read with
      `get(item, key)`; a mapping is a set of operators, anything else a
      literal compared for equality. */
  function MatchCondition(item: Value, key: string, cond: Value, search: Search): Result<bool> {
    var value :- Lookup(item, key, Null, None);
    if cond.Dict? then OpsMet(value, cond.entries, cond.entries, search) else Ok(value == cond)
  }

  /** `all(match_condition(item, k, v) for k, v in query.items())`. */
  function ConditionsMet(item: Value, es: seq<Entry>, search: Search): Result<bool>
    decreases |es|
  {
    if es == [] then Ok(true)
    else
      var ok :- MatchCondition(item, es[0].key, es[0].val, search);
      if !ok then Ok(false) else ConditionsMet(item, es[1..], search)
  }

  /** `match_item` on a str query, reached when `$and` or `$or` iterates a
      dict (its keys) or a str (its characters): `in` looks for a substring,
      subscripting a str with a str raises TypeError and a str has no
      `items()`. It always raises. */
  function StrQuery(s: string): (r: Result<bool>)
    ensures r.Err?
    ensures r == Err(TypeError) <==> IsSubstring("$and", s) || IsSubstring("$or", s)
  {
    if IsSubstring("$and", s) || IsSubstring("$or", s) then Err(TypeError) else Err(AttributeError)
  }

  /** `match_item(item, query)`. A dict query with `$and` (else `$or`) is
      decided by that key's value alone; otherwise every key is a field
      condition. A query that is not a dict raises. */
  function MatchItem(item: Value, query: Value, search: Search): Result<bool>
    decreases query, 2
  {
    match query
    case Dict(es) =>
      (match FindKey(es, "$and")
       case Some(i) => AllItems(item, es[i].val, search)
       case None =>
         (match FindKey(es, "$or")
          case Some(i) => AnyItems(item, es[i].val, search)
          case None => ConditionsMet(item, es, search)))
    case List(qs) => if Str("$and") in qs || Str("$or") in qs then Err(TypeError) else Err(AttributeError)
    case Str(s) => StrQuery(s)
    case _ => Err(TypeError)
  }

  /** `all(match_item(item, q) for q in v)`: a list yields its elements, a
      dict its keys and a str its characters (both str queries, which
      raise); anything else is not iterable. */
  function AllItems(item: Value, v: Value, search: Search): Result<bool>
    decreases v, 1
  {
    match v
    case List(subs) => AllOfItems(item, subs, search)
    case Dict(es) => if es == [] then Ok(true) else StrQuery(es[0].key)
    case Str(s) => if s == [] then Ok(true) else StrQuery([s[0]])
    case _ => Err(TypeError)
  }

  /** `any(match_item(item, q) for q in v)`. */
  function AnyItems(item: Value, v: Value, search: Search): Result<bool>
    decreases v, 1
  {
    match v
    case List(subs) => AnyOfItems(item, subs, search)
    case Dict(es) => if es == [] then Ok(false) else StrQuery(es[0].key)
    case Str(s) => if s == [] then Ok(false) else StrQuery([s[0]])
    case _ => Err(TypeError)
  }

  function AllOfItems(item: Value, subs: seq<Value>, search: Search): Result<bool>
    decreases subs, 0
  {
    if subs == [] then Ok(true)
    else
      var m :- MatchItem(item, subs[0], search);
      if !m then Ok(false) else AllOfItems(item, subs[1..], search)
  }

  function AnyOfItems(item: Value, subs: seq<Value>, search: Search): Result<bool>
    decreases subs, 0
  {
    if subs == [] then Ok(false)
    else
      var m :- MatchItem(item, subs[0], search);
      if m then Ok(true) else AnyOfItems(item, subs[1..], search)
  }

  // ---------------------------------------------------------------------
  // find_first and find_all

  /** `[item for item in items if match_item(item, query)]`: the first
      evaluation that raises escapes; otherwise exactly the matching items. */
  function FindAll(items: seq<Value>, query: Value, search: Search): (r: Result<seq<Value>>)
    ensures r.Ok? <==> forall i :: 0 <= i < |items| ==> MatchItem(items[i], query, search).Ok?
    ensures r.Ok? ==> |r.value| <= |items|
    ensures r.Ok? ==> forall x :: x in r.value <==> x in items && MatchItem(x, query, search) == Ok(true)
  {
    if items == [] then Ok([])
    else
      var keep :- MatchItem(items[0], query, search);
      var rest :- FindAll(items[1..], query, search);
      assert forall x :: x in items <==> x == items[0] || x in items[1..];
      assert forall i :: 1 <= i < |items| ==> items[i] == items[1..][i - 1];
      Ok(if keep then [items[0]] + rest else rest)
  }

  /** Item `i` matches and no earlier item does. */
  predicate FirstMatchAt(items: seq<Value>, query: Value, search: Search, i: nat)
    requires i < |items|
  {
    && MatchItem(items[i], query, search) == Ok(true)
    && forall j :: 0 <= j < i ==> MatchItem(items[j], query, search) == Ok(false)
  }

  /** Item `i` raises and no earlier item matches or raises. */
  predicate FirstRaiseAt(items: seq<Value>, query: Value, search: Search, i: nat)
    requires i < |items|
  {
    && MatchItem(items[i], query, search).Err?
    && forall j :: 0 <= j < i ==> MatchItem(items[j], query, search) == Ok(false)
  }

  /** What `find_first` returns: the earliest matching item, None when no
      item matches, or the error of an evaluation that raises before any
      match. Items after the first match are never evaluated. */
  function FirstMatch(items: seq<Value>, query: Value, search: Search): (r: Result<Option<Value>>)
    ensures r.Ok? && r.value.Some? ==>
      exists i :: 0 <= i < |items| && items[i] == r.value.value && FirstMatchAt(items, query, search, i)
    ensures r == Ok(None) <==> forall i :: 0 <= i < |items| ==> MatchItem(items[i], query, search) == Ok(false)
    ensures forall i :: 0 <= i < |items| && FirstMatchAt(items, query, search, i) ==> r == Ok(Some(items[i]))
    ensures forall i :: 0 <= i < |items| && FirstRaiseAt(items, query, search, i) ==>
      r == Err(MatchItem(items[i], query, search).error)
  {
    if items == [] then Ok(None)
    else
      var m :- MatchItem(items[0], query, search);
      if m then Ok(Some(items[0]))
      else
        var r := FirstMatch(items[1..], query, search);
        assert forall i :: 1 <= i < |items| ==> items[i] == items[1..][i - 1];
        FirstAtTail(items, query, search);
        assert r.Ok? && r.value.Some? ==>
          exists i :: 1 <= i < |items| && items[i] == r.value.value && FirstMatchAt(items, query, search, i) by {
          if r.Ok? && r.value.Some? {
            var i :| 0 <= i < |items[1..]| && items[1..][i] == r.value.value && FirstMatchAt(items[1..], query, search, i);
            assert FirstMatchAt(items, query, search, i + 1);
          }
        }
        r
  }

  /** Past a first item that does not match, the first match or raise is
      one place further in the rest. */
  lemma FirstAtTail(items: seq<Value>, query: Value, search: Search)
    requires |items| > 0 && MatchItem(items[0], query, search) == Ok(false)
    ensures forall i :: 1 <= i < |items| && FirstMatchAt(items, query, search, i) ==> FirstMatchAt(items[1..], query, search, i - 1)
    ensures forall i :: 1 <= i < |items| && FirstRaiseAt(items, query, search, i) ==> FirstRaiseAt(items[1..], query, search, i - 1)
  {
    assert forall i :: 1 <= i < |items| ==> items[i] == items[1..][i - 1];
  }

  /** `find_first(items, query)`: scans the items in order. */
  method FindFirst(items: seq<Value>, query: Value, search: Search) returns (r: Result<Option<Value>>)
    ensures r == FirstMatch(items, query, search)
  {
    for n := 0 to |items|
      invariant FirstMatch(items[n..], query, search) == FirstMatch(items, query, search)
    {
      assert items[n..][1..] == items[n + 1..];
      var m := MatchItem(items[n], query, search);
      if m.Err? {
        return Err(m.error);
      }
      if m.value {
        return Ok(Some(items[n]));
      }
    }
    r := Ok(None);
  }

  // ---------------------------------------------------------------------
  // properties

  /** The test `find_all` filters with. */
  function Matches(query: Value, search: Search): Value -> bool {
    x => MatchItem(x, query, search) == Ok(true)
  }

  /** `find_all` keeps the matching items in their original order, once no
      evaluation raises. */
  lemma {:induction false} FindAllInOrder(items: seq<Value>, query: Value, search: Search)
    requires forall i :: 0 <= i < |items| ==> MatchItem(items[i], query, search).Ok?
    ensures FindAll(items, query, search) == Ok(Filter(items, Matches(query, search)))
  {
    if items != [] {
      assert forall i :: 1 <= i < |items| ==> items[i] == items[1..][i - 1];
      FindAllInOrder(items[1..], query, search);
      var keep := MatchItem(items[0], query, search).value;
      assert Matches(query, search)(items[0]) == keep;
      var rest := Filter(items[1..], Matches(query, search));
      assert Filter(items, Matches(query, search)) == (if keep then [items[0]] else []) + rest;
      assert [] + rest == rest;
    }
  }

  /** `find_first` returns the first item `find_all` returns, or None when it returns none. */
  lemma {:induction false} FirstOfAll(items: seq<Value>, query: Value, search: Search)
    requires FindAll(items, query, search).Ok?
    ensures var all := FindAll(items, query, search).value;
      FirstMatch(items, query, search) == Ok(if all == [] then None else Some(all[0]))
  {
    if items != [] {
      FirstOfAll(items[1..], query, search);
    }
  }

  /** A query holding `$and` is decided by that key alone: its other keys,
      `$or` included, are never looked at. */
  lemma AndIgnoresSiblings(item: Value, es: seq<Entry>, v: Value, search: Search)
    requires DictGet(es, "$and") == Some(v)
    ensures MatchItem(item, Dict(es), search) == MatchItem(item, Dict([Entry("$and", v)]), search)
    ensures MatchItem(item, Dict(es), search) == AllItems(item, v, search)
  {
  }

  /** A query holding `$or` and no `$and` is decided by `$or` alone. */
  lemma OrIgnoresSiblings(item: Value, es: seq<Entry>, v: Value, search: Search)
    requires DictGet(es, "$and") == None && DictGet(es, "$or") == Some(v)
    ensures MatchItem(item, Dict(es), search) == MatchItem(item, Dict([Entry("$or", v)]), search)
    ensures MatchItem(item, Dict(es), search) == AnyItems(item, v, search)
  {
  }

  /** Over a list of sub-queries none of which raises, `$and` holds when
      every one holds and `$or` when one does. */
  lemma {:induction false} AndOrOverItems(item: Value, subs: seq<Value>, search: Search)
    requires forall i :: 0 <= i < |subs| ==> MatchItem(item, subs[i], search).Ok?
    ensures AllOfItems(item, subs, search) == Ok(forall i :: 0 <= i < |subs| ==> MatchItem(item, subs[i], search).value)
    ensures AnyOfItems(item, subs, search) == Ok(exists i :: 0 <= i < |subs| && MatchItem(item, subs[i], search).value)
  {
    if subs != [] {
      assert forall i :: 1 <= i < |subs| ==> subs[1..][i - 1] == subs[i];
      AndOrOverItems(item, subs[1..], search);
    }
  }

  /** A query without `$and` and `$or` holds exactly when each of its field
      conditions holds. */
  lemma {:induction false} ConditionsAll(item: Value, es: seq<Entry>, search: Search)
    ensures ConditionsMet(item, es, search) == Ok(true) <==>
      forall i :: 0 <= i < |es| ==> MatchCondition(item, es[i].key, es[i].val, search) == Ok(true)
  {
    if es != [] {
      ConditionsAll(item, es[1..], search);
      assert forall i :: 1 <= i < |es| ==> es[1..][i - 1] == es[i];
    }
  }

  lemma PlainQuery(item: Value, es: seq<Entry>, search: Search)
    requires DictGet(es, "$and") == None && DictGet(es, "$or") == None
    ensures MatchItem(item, Dict(es), search) == Ok(true) <==>
      forall i :: 0 <= i < |es| ==> MatchCondition(item, es[i].key, es[i].val, search) == Ok(true)
  {
    ConditionsAll(item, es, search);
  }

  /** A condition mapping with one operator. */
  lemma OneOperator(item: Value, key: string, op: string, v: Value, search: Search)
    ensures Lookup(item, key, Null, None).Ok?
    ensures var value := Lookup(item, key, Null, None).value;
      MatchCondition(item, key, Dict([Entry(op, v)]), search) == OpMet(value, [Entry(op, v)], op, v, search)
  {
    LookupWithoutPrefix(item, key);
    var value := Lookup(item, key, Null, None).value;
    assert [Entry(op, v)][1..] == [];
    assert OpsMet(value, [Entry(op, v)], [], search) == Ok(true);
  }

  /** A literal condition is equality with the field's value (`Null` when absent). */
  lemma LiteralCondition(item: Value, key: string, cond: Value, search: Search)
    requires !cond.Dict?
    ensures Lookup(item, key, Null, None).Ok?
    ensures MatchCondition(item, key, cond, search) == Ok(Lookup(item, key, Null, None).value == cond)
  {
    LookupWithoutPrefix(item, key);
  }

  /** An operator this evaluator does not know compares the field with the
      whole mapping instead of raising, unlike `_match`. */
  lemma UnknownOperatorIsEquality(item: Value, key: string, op: string, v: Value, search: Search)
    requires op != "$regex" && op != "$options" && !IsOrdering(op) && op != "$in" && op != "$nin"
    requires key != "$and" && key != "$or" && key != "$not" && op != "$eq" && op != "$ne" && op != "$len"
    ensures Lookup(item, key, Null, None).Ok?
    ensures MatchCondition(item, key, Dict([Entry(op, v)]), search) == Ok(Lookup(item, key, Null, None).value == Dict([Entry(op, v)]))
    ensures Match(item, Dict([Entry(key, Dict([Entry(op, v)]))])) == Err(UnsupportedOperator(op))
  {
    OneOperator(item, key, op, v, search);
    UnknownOperatorRaises(item, key, op, v);
  }

  /** Orderings have no None guard here: on an absent or None field they
      raise TypeError, where `_match` answers False. */
  lemma OrderingOnNoneRaises(item: Value, key: string, op: string, v: Value, search: Search)
    requires IsOrdering(op) && key != "$and" && key != "$or" && key != "$not"
    requires Lookup(item, key, Null, None) == Ok(Null)
    ensures MatchCondition(item, key, Dict([Entry(op, v)]), search) == Err(TypeError)
    ensures Match(item, Dict([Entry(key, Dict([Entry(op, v)]))])) == Ok(false)
  {
    OneOperator(item, key, op, v, search);
    OrderingOnNone(item, key, op, v);
  }

  /** On ints the orderings compare by value. */
  lemma OrderingOnInts(item: Value, key: string, op: string, a: int, b: int, search: Search)
    requires IsOrdering(op) && Lookup(item, key, Null, None) == Ok(Int(a))
    ensures MatchCondition(item, key, Dict([Entry(op, Int(b))]), search) ==
      Ok(if op == "$gt" then a > b else if op == "$gte" then a >= b else if op == "$lt" then a < b else a <= b)
  {
    OneOperator(item, key, op, Int(b), search);
  }

  /** `$in` and `$nin` against a list test membership of the field's value. */
  lemma MembershipInList(item: Value, key: string, xs: seq<Value>, search: Search)
    ensures Lookup(item, key, Null, None).Ok?
    ensures var value := Lookup(item, key, Null, None).value;
      && MatchCondition(item, key, Dict([Entry("$in", List(xs))]), search) == Ok(value in xs)
      && MatchCondition(item, key, Dict([Entry("$nin", List(xs))]), search) == Ok(value !in xs)
  {
    OneOperator(item, key, "$in", List(xs), search);
    OneOperator(item, key, "$nin", List(xs), search);
  }

  /** `$regex` with `$options` searches a str field with the flags the
      options name, and fails on a field that is not a str; `$options` on
      its own holds. */
  lemma RegexWithOptions(item: Value, key: string, pattern: Value, o: string, search: Search)
    ensures Lookup(item, key, Null, None).Ok?
    ensures var value := Lookup(item, key, Null, None).value;
      var cond := [Entry("$regex", pattern), Entry("$options", Str(o))];
      MatchCondition(item, key, Dict(cond), search) ==
        if !value.Str? then Ok(false)
        else match search(pattern, value.s, Flags(IsSubstring("i", o), IsSubstring("m", o)))
          case Err(e) => Err(e)
          case Ok(found) => Ok(found)
    ensures MatchCondition(item, key, Dict([Entry("$options", Str(o))]), search) == Ok(true)
  {
    LookupWithoutPrefix(item, key);
    var value := Lookup(item, key, Null, None).value;
    var cond := [Entry("$regex", pattern), Entry("$options", Str(o))];
    RegexOptionsFlags(pattern, o);
    assert cond[1..] == [Entry("$options", Str(o))] && cond[1..][1..] == [];
    assert OpsMet(value, cond, cond[1..], search) == Ok(true);
    OneOperator(item, key, "$options", Str(o), search);
  }

  /** The flags of a `$regex` condition come from its `$options`. */
  lemma RegexOptionsFlags(pattern: Value, o: string)
    ensures RegexFlags([Entry("$regex", pattern), Entry("$options", Str(o))]) == Ok(Flags(IsSubstring("i", o), IsSubstring("m", o)))
  {
    var cond := [Entry("$regex", pattern), Entry("$options", Str(o))];
    assert "$regex"[1] != "$options"[1];
    assert FindKey(cond, "$options") == Some(1);
  }
}
