/** Sequence helpers shared by the core: `indexOf`, `[...new Set(xs)]`, swaps and splices. */
module ListOps {
  import opened Wrappers

  predicate NoDups<T(==)>(s: seq<T>) {
    forall i, j :: 0 <= i < j < |s| ==> s[i] != s[j]
  }

  /** `s.indexOf(x)`: the first index holding `x`, `-1` when there is none. */
  function IndexOf<T(==)>(s: seq<T>, x: T): (i: int)
    ensures -1 <= i < |s|
    ensures i == -1 <==> x !in s
    ensures 0 <= i ==> s[i] == x && x !in s[..i]
  {
    if s == [] then -1
    else if s[0] == x then 0
    else
      var k := IndexOf(s[1..], x);
      if k == -1 then -1
      else
        assert s[..k + 1] == [s[0]] + s[1..][..k];
        k + 1
  }

  /** Without duplicates, `indexOf` finds each element at its own position. */
  lemma IndexOfNoDups<T>(s: seq<T>, i: nat)
    requires NoDups(s) && i < |s|
    ensures IndexOf(s, s[i]) == i
  {
    var x := IndexOf(s, s[i]);
    assert s[x] == s[i];
  }

  /** `[...new Set(s)]`: the first occurrence of every element, in order of first appearance. */
  function Dedup<T(==)>(s: seq<T>): (r: seq<T>)
    ensures NoDups(r)
    ensures |r| <= |s|
  {
    if s == [] then []
    else
      var d := Dedup(s[..|s| - 1]);
      var x := s[|s| - 1];
      if x in d then d else d + [x]
  }

  lemma {:induction false} DedupOfNoDups<T>(s: seq<T>)
    requires NoDups(s)
    ensures Dedup(s) == s
  {
    if s != [] {
      var p := s[..|s| - 1];
      DedupOfNoDups(p);
      assert s[|s| - 1] !in p;
      assert s == p + [s[|s| - 1]];
    }
  }

  /** Dedup keeps the order of first appearance: appending an element already seen changes nothing. */
  lemma DedupSnoc<T>(s: seq<T>, x: T)
    ensures Dedup(s + [x]) == if x in s then Dedup(s) else Dedup(s) + [x]
  {
    assert (s + [x])[..|s + [x]| - 1] == s;
    DedupMembers(s, x);
  }

  /** The sequence with positions `i` and `j` exchanged. */
  function Swapped<T>(s: seq<T>, i: nat, j: nat): (r: seq<T>)
    requires i < |s| && j < |s|
    ensures |r| == |s| && r[i] == s[j] && r[j] == s[i]
    ensures forall k :: 0 <= k < |s| && k != i && k != j ==> r[k] == s[k]
    ensures multiset(r) == multiset(s)
  {
    s[i := s[j]][j := s[i]]
  }

  lemma SwappedTwice<T>(s: seq<T>, i: nat, j: nat)
    requires i < |s| && j < |s|
    ensures Swapped(Swapped(s, i, j), j, i) == s
  {
  }

  /** `splice(i, 1)`: drop position `i`. */
  function RemoveAt<T>(s: seq<T>, i: nat): (r: seq<T>)
    requires i < |s|
    ensures |r| == |s| - 1
    ensures forall k :: 0 <= k < i ==> r[k] == s[k]
    ensures forall k :: i <= k < |r| ==> r[k] == s[k + 1]
    ensures multiset(r) + multiset{s[i]} == multiset(s)
  {
    assert s == s[..i] + [s[i]] + s[i + 1..];
    s[..i] + s[i + 1..]
  }

  /** `splice(i, 0, x)`: insert `x` so that it lands at position `i`. */
  function InsertAt<T>(s: seq<T>, i: nat, x: T): (r: seq<T>)
    requires i <= |s|
    ensures |r| == |s| + 1 && r[i] == x
    ensures forall k :: 0 <= k < i ==> r[k] == s[k]
    ensures forall k :: i < k < |r| ==> r[k] == s[k - 1]
    ensures multiset(r) == multiset(s) + multiset{x}
  {
    assert s == s[..i] + s[i..];
    s[..i] + [x] + s[i..]
  }

  /** Every element of `s` other than `x`, in order. */
  function Without<T(==)>(s: seq<T>, x: T): (r: seq<T>)
    ensures x !in r
    ensures |r| <= |s|
  {
    if s == [] then [] else (if s[0] == x then [] else [s[0]]) + Without(s[1..], x)
  }

  /** `Without` keeps exactly the other elements. */
  lemma {:induction false} WithoutMembers<T>(s: seq<T>, x: T, y: T)
    ensures y in Without(s, x) <==> y in s && y != x
    decreases |s|
  {
    if s != [] {
      WithoutMembers(s[1..], x, y);
      assert s == [s[0]] + s[1..];
    }
  }

  lemma {:induction false} WithoutConcat<T>(a: seq<T>, b: seq<T>, x: T)
    ensures Without(a + b, x) == Without(a, x) + Without(b, x)
  {
    if a != [] {
      assert (a + b)[1..] == a[1..] + b;
      WithoutConcat(a[1..], b, x);
    } else {
      assert a + b == b;
    }
  }

  lemma WithoutAbsent<T>(s: seq<T>, x: T)
    requires x !in s
    ensures Without(s, x) == s
  {
    if s != [] {
      assert s[0] != x;
      WithoutAbsent(s[1..], x);
    }
  }

  /** A permutation of a sequence without duplicates has none either. */
  lemma NoDupsMultiset<T>(a: seq<T>, b: seq<T>)
    requires NoDups(a) && multiset(a) == multiset(b)
    ensures NoDups(b)
  {
    forall i, j | 0 <= i < j < |b| ensures b[i] != b[j] {
      if b[i] == b[j] {
        assert b == b[..i] + [b[i]] + b[i + 1..j] + [b[j]] + b[j + 1..];
        assert multiset(b)[b[i]] >= 2;
        CountAtMostOne(a, b[i]);
      }
    }
  }

  lemma {:induction false} CountAtMostOne<T>(a: seq<T>, x: T)
    requires NoDups(a)
    ensures multiset(a)[x] <= 1
  {
    if a != [] {
      assert a == [a[0]] + a[1..];
      CountAtMostOne(a[1..], x);
      if a[0] == x {
        assert x !in a[1..];
      }
    }
  }

  /** Dropping an occurrence of `x` leaves the other elements as they were. */
  lemma WithoutRemoveAt<T>(s: seq<T>, i: nat)
    requires i < |s|
    ensures Without(RemoveAt(s, i), s[i]) == Without(s, s[i])
  {
    SplitAt(s, i);
    WithoutAround(s[..i], s[i], s[i + 1..]);
  }

  /** Inserting `x` leaves the other elements as they were. */
  lemma WithoutInsertAt<T>(s: seq<T>, i: nat, x: T)
    requires i <= |s|
    ensures Without(InsertAt(s, i, x), x) == Without(s, x)
  {
    assert s == s[..i] + s[i..];
    WithoutAround(s[..i], x, s[i..]);
  }

  lemma SplitAt<T>(s: seq<T>, i: nat)
    requires i < |s|
    ensures s == (s[..i] + [s[i]]) + s[i + 1..]
  {
    assert s[..i + 1] == s[..i] + [s[i]];
    assert s == s[..i + 1] + s[i + 1..];
  }

  /** An occurrence of `x` between two runs disappears with the other occurrences. */
  lemma WithoutAround<T>(a: seq<T>, x: T, c: seq<T>)
    ensures Without((a + [x]) + c, x) == Without(a + c, x)
  {
    var e: seq<T> := [x];
    calc {
      Without((a + e) + c, x);
      { WithoutConcat(a + e, c, x); }
      Without(a + e, x) + Without(c, x);
      { WithoutConcat(a, e, x); WithoutSingle(x); assert Without(a, x) + [] == Without(a, x); }
      Without(a, x) + Without(c, x);
      { WithoutConcat(a, c, x); }
      Without(a + c, x);
    }
  }

  lemma WithoutSingle<T>(x: T)
    ensures Without([x], x) == []
  {
    var e: seq<T> := [x];
    assert e[1..] == [];
  }

  /** `Dedup` keeps exactly the elements of its input. */
  lemma {:induction false} DedupMembers<T>(s: seq<T>, x: T)
    ensures x in Dedup(s) <==> x in s
    decreases |s|
  {
    if s != [] {
      var p := s[..|s| - 1];
      DedupMembers(p, x);
      DedupMembers(p, s[|s| - 1]);
      assert s == p + [s[|s| - 1]];
    }
  }

  /** What `Dedup` keeps of a prefix is the prefix of what it keeps of the whole. */
  lemma {:induction false} DedupPrefix<T>(a: seq<T>, b: seq<T>)
    ensures |Dedup(a)| <= |Dedup(a + b)| && Dedup(a + b)[..|Dedup(a)|] == Dedup(a)
    decreases |b|
  {
    if b == [] {
      assert a + b == a;
    } else {
      var b0, x := b[..|b| - 1], b[|b| - 1];
      DedupPrefix(a, b0);
      assert a + b == (a + b0) + [x];
      DedupSnoc(a + b0, x);
      var d, n := Dedup(a + b0), |Dedup(a)|;
      if x !in a + b0 {
        assert Dedup(a + b) == d + [x];
        assert (d + [x])[..n] == d[..n];
      } else {
        assert Dedup(a + b) == d;
      }
    }
  }

  lemma WithoutNoDups<T>(s: seq<T>, x: T)
    requires NoDups(s)
    ensures NoDups(Without(s, x))
  {
    if s != [] {
      WithoutNoDups(s[1..], x);
      var w := Without(s[1..], x);
      assert s[0] !in s[1..];
      if s[0] != x {
        WithoutMembers(s[1..], x, s[0]);
        assert s[0] !in w;
        assert Without(s, x) == [s[0]] + w;
      }
    }
  }

  /** `s.map(f).filter(Boolean)` for a `f` that may reject: the accepted results, in order. */
  function FilterMap<A, B>(s: seq<A>, f: A -> Option<B>): (r: seq<B>)
    ensures |r| <= |s|
  {
    if s == [] then []
    else
      var rest := FilterMap(s[..|s| - 1], f);
      match f(s[|s| - 1])
      case None => rest
      case Some(y) => rest + [y]
  }

  /** One more element adds its result, if any, at the end. */
  lemma FilterMapSnoc<A, B>(s: seq<A>, x: A, f: A -> Option<B>)
    ensures FilterMap(s + [x], f) == FilterMap(s, f) + (if f(x).Some? then [f(x).value] else [])
  {
    assert (s + [x])[..|s|] == s;
  }

  /** A result is in the list exactly when some element produced it. */
  lemma {:induction false} FilterMapMembers<A, B>(s: seq<A>, f: A -> Option<B>, y: B)
    ensures y in FilterMap(s, f) <==> exists k :: 0 <= k < |s| && f(s[k]) == Some(y)
  {
    if s != [] {
      var p := s[..|s| - 1];
      FilterMapMembers(p, f, y);
      if exists k :: 0 <= k < |s| && f(s[k]) == Some(y) {
        var k :| 0 <= k < |s| && f(s[k]) == Some(y);
        if k < |p| {
          assert p[k] == s[k];
        }
      }
      if exists k :: 0 <= k < |p| && f(p[k]) == Some(y) {
        var k :| 0 <= k < |p| && f(p[k]) == Some(y);
        assert s[k] == p[k];
      }
    }
  }

  /** One more element of a deduplicated `FilterMap`: its result is added unless already present. */
  lemma DedupFilterMapStep<A, B>(s: seq<A>, i: nat, f: A -> Option<B>)
    requires i < |s|
    ensures var before := Dedup(FilterMap(s[..i], f));
      Dedup(FilterMap(s[..i + 1], f)) ==
        if f(s[i]).Some? && f(s[i]).value !in before then before + [f(s[i]).value] else before
  {
    var p := FilterMap(s[..i], f);
    assert s[..i + 1] == s[..i] + [s[i]];
    FilterMapSnoc(s[..i], s[i], f);
    if f(s[i]).Some? {
      DedupSnoc(p, f(s[i]).value);
      DedupMembers(p, f(s[i]).value);
    }
  }

  /** Every element's list, concatenated in order (`flatMap`), built from the back. */
  function FlatMap<A, B>(s: seq<A>, f: A -> seq<B>): seq<B> {
    if s == [] then [] else FlatMap(s[..|s| - 1], f) + f(s[|s| - 1])
  }

  /** One more element appends its list. */
  lemma FlatMapSnoc<A, B>(s: seq<A>, x: A, f: A -> seq<B>)
    ensures FlatMap(s + [x], f) == FlatMap(s, f) + f(x)
  {
    assert (s + [x])[..|s|] == s;
  }

  /** An item is in the concatenation exactly when it is in some element's list. */
  lemma {:induction false} FlatMapMembers<A, B>(s: seq<A>, f: A -> seq<B>, y: B)
    ensures y in FlatMap(s, f) <==> exists k :: 0 <= k < |s| && y in f(s[k])
  {
    if s != [] {
      var p := s[..|s| - 1];
      FlatMapMembers(p, f, y);
      if exists k :: 0 <= k < |s| && y in f(s[k]) {
        var k :| 0 <= k < |s| && y in f(s[k]);
        if k < |p| {
          assert p[k] == s[k];
        }
      }
      if exists k :: 0 <= k < |p| && y in f(p[k]) {
        var k :| 0 <= k < |p| && y in f(p[k]);
        assert s[k] == p[k];
      }
    }
  }

  /** The first position at or after `from` whose element satisfies `p`; `|s|` when none does. */
  function FirstFrom<T>(s: seq<T>, from: nat, p: T -> bool): (r: nat)
    requires from <= |s|
    ensures from <= r <= |s|
    ensures forall k :: from <= k < r ==> !p(s[k])
    ensures r < |s| ==> p(s[r])
    decreases |s| - from
  {
    if from == |s| || p(s[from]) then from else FirstFrom(s, from + 1, p)
  }

  /**
   * A map filled position by position: each position with a key sets that key to the position's
   * value, so a later position overwrites an earlier one with the same key.
   */
  function LastWins<K, V>(keys: seq<Option<K>>, vals: seq<V>, n: nat): map<K, V>
    requires n <= |keys| && |keys| == |vals|
  {
    if n == 0 then map[]
    else
      var m := LastWins(keys, vals, n - 1);
      match keys[n - 1]
      case None => m
      case Some(x) => m[x := vals[n - 1]]
  }

  /** One more position sets its key, if it has one. */
  lemma LastWinsStep<K, V>(keys: seq<Option<K>>, vals: seq<V>, n: nat)
    requires n < |keys| && |keys| == |vals|
    ensures LastWins(keys, vals, n + 1) ==
      if keys[n].Some? then LastWins(keys, vals, n)[keys[n].value := vals[n]] else LastWins(keys, vals, n)
  {
  }

  /** The keys are exactly those some position carries. */
  lemma {:induction false} LastWinsKeys<K, V>(keys: seq<Option<K>>, vals: seq<V>, n: nat, x: K)
    requires n <= |keys| && |keys| == |vals|
    ensures x in LastWins(keys, vals, n) <==> exists k :: 0 <= k < n && keys[k] == Some(x)
  {
    if n > 0 {
      LastWinsKeys(keys, vals, n - 1, x);
    }
  }

  /** A key's value comes from the last position carrying it. */
  lemma {:induction false} LastWinsLast<K, V>(keys: seq<Option<K>>, vals: seq<V>, n: nat, k: nat, x: K)
    requires n <= |keys| && |keys| == |vals|
    requires k < n && keys[k] == Some(x)
    requires forall j :: k < j < n ==> keys[j] != Some(x)
    ensures x in LastWins(keys, vals, n) && LastWins(keys, vals, n)[x] == vals[k]
  {
    if k < n - 1 {
      LastWinsLast(keys, vals, n - 1, k, x);
    }
  }

  /** The set of a sequence's elements (`new Set(s)`). */
  function Elems<T>(s: seq<T>): set<T> {
    if s == [] then {} else Elems(s[..|s| - 1]) + {s[|s| - 1]}
  }

  /** A sequence and its set have the same members. */
  lemma {:induction false} ElemsMembers<T>(s: seq<T>, x: T)
    ensures x in Elems(s) <==> x in s
  {
    if s != [] {
      ElemsMembers(s[..|s| - 1], x);
      assert s == s[..|s| - 1] + [s[|s| - 1]];
    }
  }

  /** One more optional element joins the set. */
  lemma ElemsSnoc<T>(s: seq<T>, o: Option<T>)
    ensures Elems(s + (if o.Some? then [o.value] else [])) == Elems(s) + (if o.Some? then {o.value} else {})
  {
    if o.Some? {
      assert (s + [o.value])[..|s|] == s;
    } else {
      assert s + [] == s;
    }
  }

  lemma ConcatAssoc<T>(a: seq<T>, b: seq<T>, c: seq<T>)
    ensures (a + b) + c == a + (b + c)
  {
  }
}
