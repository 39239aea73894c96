/** Generic sequence helpers standing for `Array.prototype.filter` and `slice(-n)`. */
module Seqs {
  import opened Wrappers

  /** `s.filter(p)`: the elements satisfying `p`, in their original order. */
  function Filter<T>(s: seq<T>, p: T -> bool): (r: seq<T>)
    ensures |r| <= |s|
    ensures forall i :: 0 <= i < |r| ==> p(r[i])
    ensures forall x :: x in r ==> x in s
  {
    if s == [] then [] else (if p(s[0]) then [s[0]] else []) + Filter(s[1..], p)
  }

  lemma {:induction false} FilterConcat<T>(a: seq<T>, b: seq<T>, p: T -> bool)
    ensures Filter(a + b, p) == Filter(a, p) + Filter(b, p)
  {
    if a == [] {
      assert a + b == b;
    } else {
      assert (a + b)[0] == a[0];
      assert (a + b)[1..] == a[1..] + b;
      FilterConcat(a[1..], b, p);
    }
  }

  lemma {:induction false} FilterKeepsAll<T>(s: seq<T>, p: T -> bool)
    requires forall i :: 0 <= i < |s| ==> p(s[i])
    ensures Filter(s, p) == s
  {
    if s != [] {
      FilterKeepsAll(s[1..], p);
    }
  }

  lemma FilterIdempotent<T>(s: seq<T>, p: T -> bool)
    ensures Filter(Filter(s, p), p) == Filter(s, p)
  {
    FilterKeepsAll(Filter(s, p), p);
  }

  /** `s.map(f)`. */
  function Map<T, U>(s: seq<T>, f: T -> U): (r: seq<U>)
    ensures |r| == |s|
    ensures forall i :: 0 <= i < |s| ==> r[i] == f(s[i])
  {
    seq(|s|, i requires 0 <= i < |s| => f(s[i]))
  }

  lemma MapConcat<T, U>(a: seq<T>, b: seq<T>, f: T -> U)
    ensures Map(a + b, f) == Map(a, f) + Map(b, f)
  {
  }

  /** The position of the last of the first `n` elements that satisfies `p`. */
  function LastWhere<T>(s: seq<T>, p: T -> bool, n: nat): (r: Option<nat>)
    requires n <= |s|
    ensures r.Some? ==> r.value < n && p(s[r.value])
    ensures r.Some? ==> forall j :: r.value < j < n ==> !p(s[j])
    ensures r.None? ==> forall j :: 0 <= j < n ==> !p(s[j])
  {
    if n == 0 then None
    else if p(s[n - 1]) then Some(n - 1)
    else LastWhere(s, p, n - 1)
  }

  /** `findIndex` from position `i` on, passing over position `skip`: the first element satisfying `p`. */
  function FirstWhere<T>(s: seq<T>, p: T -> bool, skip: Option<nat>, i: nat): (r: Option<nat>)
    requires i <= |s|
    ensures r.Some? ==> i <= r.value < |s| && Some(r.value) != skip && p(s[r.value])
    ensures r.Some? ==> forall k :: i <= k < r.value && Some(k) != skip ==> !p(s[k])
    ensures r.None? ==> forall k :: i <= k < |s| && Some(k) != skip ==> !p(s[k])
    decreases |s| - i
  {
    if i == |s| then None
    else if Some(i) != skip && p(s[i]) then Some(i)
    else FirstWhere(s, p, skip, i + 1)
  }

  /** Looking one element further finds the same element, or else the new one if it qualifies. */
  lemma FirstWhereSnoc<T>(s: seq<T>, p: T -> bool, skip: Option<nat>, n: nat)
    requires n < |s|
    ensures FirstWhere(s[..n + 1], p, skip, 0) ==
      if FirstWhere(s[..n], p, skip, 0).Some? then FirstWhere(s[..n], p, skip, 0)
      else if Some(n) != skip && p(s[n]) then Some(n)
      else None
  {
    var a := FirstWhere(s[..n], p, skip, 0);
    var b := FirstWhere(s[..n + 1], p, skip, 0);
    assert forall k :: 0 <= k < n ==> s[..n + 1][k] == s[..n][k];
  }

  /** What is found in a prefix is what is found in the whole sequence. */
  lemma FirstWhereOfPrefix<T>(s: seq<T>, p: T -> bool, skip: Option<nat>, n: nat)
    requires n <= |s| && FirstWhere(s[..n], p, skip, 0).Some?
    ensures FirstWhere(s, p, skip, 0) == FirstWhere(s[..n], p, skip, 0)
  {
    var j := FirstWhere(s[..n], p, skip, 0).value;
    assert s[..n][j] == s[j];
    assert forall k :: 0 <= k < j ==> s[..n][k] == s[k];
  }

  /** The first match is `j` when `j` matches and nothing before it, apart from the skipped index, does. */
  lemma FirstWhereIs<T>(s: seq<T>, p: T -> bool, skip: Option<nat>, j: nat)
    requires j < |s| && Some(j) != skip && p(s[j])
    requires forall k :: 0 <= k < j && Some(k) != skip ==> !p(s[k])
    ensures FirstWhere(s, p, skip, 0) == Some(j)
  {
  }

  /** Passing over a position beyond the end passes over nothing. */
  lemma FirstWhereSkipBeyond<T>(s: seq<T>, p: T -> bool, j: nat)
    requires |s| <= j
    ensures FirstWhere(s, p, Some(j), 0) == FirstWhere(s, p, None, 0)
  {
  }

  /** The object `obj[k] = v` assignments build, for each of the first `n` elements that `kv` maps to a pair `(k, v)`. */
  function Assemble<T, K(==), V>(s: seq<T>, kv: T -> Option<(K, V)>, n: nat): map<K, V>
    requires n <= |s|
  {
    if n == 0 then map[]
    else
      var prior := Assemble(s, kv, n - 1);
      match kv(s[n - 1])
      case Some(pair) => prior[pair.0 := pair.1]
      case None => prior
  }

  predicate KeyedBy<T, K(==), V>(kv: T -> Option<(K, V)>, key: K, e: T) {
    kv(e).Some? && kv(e).value.0 == key
  }

  /** The last of the first `n` elements that assigns `key`. */
  function LastKeyed<T, K(==), V>(s: seq<T>, kv: T -> Option<(K, V)>, key: K, n: nat): Option<nat>
    requires n <= |s|
  {
    LastWhere(s, e => KeyedBy(kv, key, e), n)
  }

  /** A key is present exactly when some element assigns it, and it holds the value the last such element assigns. */
  lemma {:induction false} AssembleMeaning<T, K, V>(s: seq<T>, kv: T -> Option<(K, V)>, key: K, n: nat)
    requires n <= |s|
    ensures key in Assemble(s, kv, n) <==> LastKeyed(s, kv, key, n).Some?
    ensures key in Assemble(s, kv, n) ==> Assemble(s, kv, n)[key] == kv(s[LastKeyed(s, kv, key, n).value]).value.1
  {
    if n > 0 {
      AssembleMeaning(s, kv, key, n - 1);
    }
  }

  /** `s.slice(-n)`: the last `n` elements; JavaScript reads `slice(-0)` as `slice(0)`, so 0 keeps all. */
  function KeepLast<T>(s: seq<T>, n: nat): (r: seq<T>)
    ensures n == 0 || |s| <= n ==> r == s
    ensures 0 < n < |s| ==> r == s[|s| - n..]
  {
    if n == 0 || |s| <= n then s else s[|s| - n..]
  }

  function Last<T>(s: seq<T>): T
    requires s != []
  {
    s[|s| - 1]
  }
}
