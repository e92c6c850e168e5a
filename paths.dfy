/** Paths: how a dotted path string is cut into segments (`path.split(".")`)
    and how `_parse_key` tells a list index from a dict key. */
module Paths {
  import opened Values

  /** `s.split(".")`: the runs of characters between dots; never empty. */
  function Split(s: string): (r: seq<string>)
    ensures |r| >= 1
    ensures forall i :: 0 <= i < |r| ==> '.' !in r[i]
  {
    if s == [] then [""]
    else
      var rest := Split(s[1..]);
      if s[0] == '.' then [""] + rest
      else [[s[0]] + rest[0]] + rest[1..]
  }

  /** `".".join(segs)`, the inverse of `Split`. */
  function Join(segs: seq<string>): string
    requires |segs| >= 1
  {
    if |segs| == 1 then segs[0] else segs[0] + "." + Join(segs[1..])
  }

  /** Splitting a path and joining the pieces gives the path back. */
  lemma {:induction false} JoinSplit(s: string)
    ensures Join(Split(s)) == s
  {
    if s != [] {
      JoinSplit(s[1..]);
      var rest := Split(s[1..]);
      if s[0] != '.' && |rest| > 1 {
        assert Join(rest) == rest[0] + "." + Join(rest[1..]);
      }
    }
  }

  /** A dot-free segment in front of a dot stays one piece. */
  lemma {:induction false} SplitFront(a: string, t: string)
    requires '.' !in a
    ensures Split(a + "." + t) == [a] + Split(t)
  {
    if a == [] {
      assert a + "." + t == ['.'] + t;
      assert (['.'] + t)[1..] == t;
    } else {
      assert (a + "." + t)[1..] == a[1..] + "." + t;
      SplitFront(a[1..], t);
      assert [a[0]] + a[1..] == a;
    }
  }

  /** A dot-free string is a single segment. */
  lemma {:induction false} SplitDotFree(a: string)
    requires '.' !in a
    ensures Split(a) == [a]
  {
    if a != [] {
      SplitDotFree(a[1..]);
      assert [a[0]] + a[1..] == a;
    }
  }

  /** Joining dot-free segments and splitting again gives the segments back. */
  lemma {:induction false} SplitJoin(segs: seq<string>)
    requires |segs| >= 1
    requires forall i :: 0 <= i < |segs| ==> '.' !in segs[i]
    ensures Split(Join(segs)) == segs
  {
    if |segs| == 1 {
      SplitDotFree(segs[0]);
    } else {
      SplitJoin(segs[1..]);
      SplitFront(segs[0], Join(segs[1..]));
    }
  }

  // ---------------------------------------------------------------------
  // integers written in decimal

  predicate IsDigit(c: char) { '0' <= c <= '9' }

  /** `s.isdigit()`, for ASCII digits: non-empty and nothing but digits. */
  predicate AllDigits(s: string) {
    |s| > 0 && forall i :: 0 <= i < |s| ==> IsDigit(s[i])
  }

  /** The number a run of decimal digits denotes. */
  function DigitsValue(s: string): nat
    requires forall i :: 0 <= i < |s| ==> IsDigit(s[i])
  {
    if s == [] then 0
    else
      assert IsDigit(s[|s| - 1]);
      DigitsValue(s[..|s| - 1]) * 10 + (s[|s| - 1] as int - '0' as int)
  }

  /** `int(s)` on an optional sign followed by decimal digits; `None` where int() raises. */
  function ParseInt(s: string): Option<int> {
    if |s| > 0 && (s[0] == '-' || s[0] == '+') && AllDigits(s[1..]) then
      var m: int := DigitsValue(s[1..]);
      Some(if s[0] == '-' then -m else m)
    else if AllDigits(s) then Some(DigitsValue(s))
    else None
  }

  /** `str(n)` for a natural number. */
  function NatToString(n: nat): (r: string)
    ensures AllDigits(r)
  {
    var d := ['0' + (n % 10) as char];
    if n < 10 then d else NatToString(n / 10) + d
  }

  /** `str(i)`. */
  function IntToString(i: int): string {
    if i < 0 then "-" + NatToString(-i) else NatToString(i)
  }

  /** Reading back the decimal form of a natural number gives the number. */
  lemma {:induction false} NatToStringValue(n: nat)
    ensures DigitsValue(NatToString(n)) == n
  {
    var r := NatToString(n);
    if n >= 10 {
      NatToStringValue(n / 10);
      assert r[..|r| - 1] == NatToString(n / 10);
    }
  }

  /** `int(str(i)) == i`. */
  lemma ParseIntToString(i: int)
    ensures ParseInt(IntToString(i)) == Some(i)
  {
    if i < 0 {
      NatToStringValue(-i);
      assert IntToString(i)[1..] == NatToString(-i);
    } else {
      NatToStringValue(i);
    }
  }

  // ---------------------------------------------------------------------
  // segments

  /** A classified path segment: a list index or a dict key. */
  datatype Key = Index(n: int) | Field(name: string)

  /** `_parse_key(seg, prefix)`. With a prefix, only segments that start
      with it are indices and the rest must parse as an integer; without
      one, exactly the all-digit segments are indices. */
  function ParseKey(seg: string, prefix: Option<string>): (r: Result<Key>)
    ensures prefix.None? ==> r.Ok? && (r.value.Index? <==> AllDigits(seg))
    ensures prefix.None? && AllDigits(seg) ==> r.value.n == DigitsValue(seg)
    ensures prefix.Some? && !(prefix.value <= seg) ==> r == Ok(Field(seg))
    ensures prefix.Some? && r.Ok? && r.value.Index? ==>
      prefix.value <= seg && ParseInt(seg[|prefix.value|..]) == Some(r.value.n)
    ensures r.Err? <==> prefix.Some? && prefix.value <= seg && ParseInt(seg[|prefix.value|..]).None?
    ensures r.Err? ==> r.error == MalformedIndex(seg)
    ensures r.Ok? && r.value.Field? ==> r.value.name == seg
  {
    if prefix.Some? && prefix.value <= seg then
      match ParseInt(seg[|prefix.value|..])
      case Some(n) => Ok(Index(n))
      case None => Err(MalformedIndex(seg))
    else if prefix.None? && AllDigits(seg) then Ok(Index(DigitsValue(seg)))
    else Ok(Field(seg))
  }

  /** The decimal form of a number is read back as that index, and with a
      prefix, the prefix followed by the number is. */
  lemma ParseKeyIndexRoundTrip(n: nat, prefix: string, i: int)
    ensures ParseKey(NatToString(n), None) == Ok(Index(n))
    ensures ParseKey(prefix + IntToString(i), Some(prefix)) == Ok(Index(i))
  {
    NatToStringValue(n);
    ParseIntToString(i);
    assert (prefix + IntToString(i))[|prefix|..] == IntToString(i);
  }

  /** Every segment classified, or the first segment that raises. */
  function ParseAll(segs: seq<string>, prefix: Option<string>): (r: Result<seq<Key>>)
    ensures r.Ok? <==> forall i :: 0 <= i < |segs| ==> ParseKey(segs[i], prefix).Ok?
    ensures r.Ok? ==> |r.value| == |segs|
    ensures r.Ok? ==> forall i :: 0 <= i < |segs| ==> r.value[i] == ParseKey(segs[i], prefix).value
  {
    if segs == [] then Ok([])
    else
      var k :- ParseKey(segs[0], prefix);
      var rest :- ParseAll(segs[1..], prefix);
      assert forall i :: 1 <= i < |segs| ==> segs[1..][i - 1] == segs[i];
      Ok([k] + rest)
  }

  /** Every segment of `segs` is read as a dict key. */
  predicate FieldsOnly(segs: seq<string>, prefix: Option<string>) {
    forall i :: 0 <= i < |segs| ==> ParseKey(segs[i], prefix) == Ok(Field(segs[i]))
  }

  lemma FieldsOnlyTail(segs: seq<string>, prefix: Option<string>)
    requires |segs| > 0 && FieldsOnly(segs, prefix)
    ensures ParseKey(segs[0], prefix) == Ok(Field(segs[0])) && FieldsOnly(segs[1..], prefix)
  {
    assert forall i :: 0 <= i < |segs[1..]| ==> segs[1..][i] == segs[i + 1];
  }

  lemma FieldsOnlyPrefix(segs: seq<string>, n: nat, prefix: Option<string>)
    requires n <= |segs| && FieldsOnly(segs, prefix)
    ensures FieldsOnly(segs[..n], prefix)
  {
    assert forall i :: 0 <= i < n ==> segs[..n][i] == segs[i];
  }

  /** The path argument of every public operation: one dotted path, or a
      list of them (which may nest) applied one after the other. */
  datatype PathArg = Single(path: string) | Batch(paths: seq<PathArg>)
}
