/**
 * Sequence helpers shared by the model: first-occurrence deduplication
 * (`dict.fromkeys`), the trailing window kept by a bounded history
 * (`del h[:len(h) - limit]`), and ordering by a two-part key (SQL
 * `ORDER BY a, b`).
 */
module Collections {

  predicate NoDup<T(==)>(s: seq<T>) {
    forall i, j :: 0 <= i < j < |s| ==> s[i] != s[j]
  }

  /** The position of the first occurrence of `x` in `s`. */
  function FirstIndex<T(==)>(s: seq<T>, x: T): (i: nat)
    requires x in s
    ensures i < |s| && s[i] == x && x !in s[..i]
  {
    if s[0] == x then 0 else 1 + FirstIndex(s[1..], x)
  }

  /** The first occurrence is the only position holding `x` with no earlier `x`. */
  lemma {:induction false} FirstIndexUnique<T>(s: seq<T>, x: T, k: nat)
    requires k < |s| && s[k] == x && x !in s[..k]
    ensures FirstIndex(s, x) == k
    decreases k
  {
    if k > 0 {
      assert s[0] == s[..k][0];
      assert s[1..][..k - 1] == s[1..k];
      FirstIndexUnique(s[1..], x, k - 1);
    }
  }

  lemma FirstIndexOfPrefix<T>(s: seq<T>, n: nat, x: T)
    requires n <= |s| && x in s[..n]
    ensures FirstIndex(s, x) == FirstIndex(s[..n], x)
  {
    var i := FirstIndex(s[..n], x);
    assert s[..n][..i] == s[..i];
    FirstIndexUnique(s, x, i);
  }

  /**
   * The elements of `s` in order of first occurrence, each once: Python's
   * `list(dict.fromkeys(s))`.
   */
  function Dedup<T(==)>(s: seq<T>): (r: seq<T>)
    ensures NoDup(r)
    ensures forall i :: 0 <= i < |r| ==> r[i] in s
    ensures forall i :: 0 <= i < |s| ==> s[i] in r
    ensures |r| <= |s|
    decreases |s|
  {
    if s == [] then []
    else
      var d := Dedup(s[..|s| - 1]);
      var last := s[|s| - 1];
      assert forall i :: 0 <= i < |s| - 1 ==> s[i] == s[..|s| - 1][i];
      if last in d then d else d + [last]
  }

  /** An element survives deduplication exactly when it occurs. */
  lemma DedupHas<T>(s: seq<T>, x: T)
    ensures x in Dedup(s) <==> x in s
  {
    if x in Dedup(s) {
      var i :| 0 <= i < |Dedup(s)| && Dedup(s)[i] == x;
    }
    if x in s {
      var i :| 0 <= i < |s| && s[i] == x;
    }
  }

  /** Deduplication keeps first occurrences in their original relative order. */
  lemma {:induction false} DedupOrder<T>(s: seq<T>)
    ensures forall i, j :: 0 <= i < j < |Dedup(s)| ==>
      FirstIndex(s, Dedup(s)[i]) < FirstIndex(s, Dedup(s)[j])
    decreases |s|
  {
    if s != [] {
      var p := s[..|s| - 1];
      DedupOrder(p);
      DedupOrderStep(s, p, Dedup(p));
    }
  }

  /** The inductive step of `DedupOrder`: extending the input by one element. */
  lemma DedupOrderStep<T>(s: seq<T>, p: seq<T>, d: seq<T>)
    requires s != [] && p == s[..|s| - 1] && d == Dedup(p)
    requires forall i, j :: 0 <= i < j < |d| ==> FirstIndex(p, d[i]) < FirstIndex(p, d[j])
    ensures forall i, j :: 0 <= i < j < |Dedup(s)| ==>
      FirstIndex(s, Dedup(s)[i]) < FirstIndex(s, Dedup(s)[j])
  {
    var last := s[|s| - 1];
    forall x | x in d
      ensures FirstIndex(s, x) == FirstIndex(p, x)
    {
      FirstIndexOfPrefix(s, |s| - 1, x);
    }
    if last !in d {
      assert last !in p;
      FirstIndexUnique(s, last, |s| - 1);
      var r := d + [last];
      assert Dedup(s) == r;
      forall i, j | 0 <= i < j < |r|
        ensures FirstIndex(s, r[i]) < FirstIndex(s, r[j])
      {
        if j < |d| {
          assert r[i] == d[i] && r[j] == d[j];
        } else {
          assert r[i] == d[i];
          assert FirstIndex(p, d[i]) < |p|;
        }
      }
    }
  }

  /**
   * Deduplicating a concatenation lists the distinct elements of the first
   * part first, then only elements that the first part lacks.
   */
  lemma {:induction false} DedupAppend<T>(a: seq<T>, b: seq<T>)
    ensures |Dedup(a)| <= |Dedup(a + b)| && Dedup(a + b)[..|Dedup(a)|] == Dedup(a)
    ensures forall i :: |Dedup(a)| <= i < |Dedup(a + b)| ==> Dedup(a + b)[i] !in a
    decreases |b|
  {
    if b == [] {
      assert a + b == a;
    } else {
      var b' := b[..|b| - 1];
      var last := b[|b| - 1];
      DedupAppend(a, b');
      assert a + b == (a + b') + [last];
      DedupSnoc(a + b', last);
      if last !in a + b' {
        DedupAppendStep(a, Dedup(a), Dedup(a + b'), last);
      }
    }
  }

  /** One step of `DedupAppend`: a new element is added after everything from the first part. */
  lemma DedupAppendStep<T>(a: seq<T>, da: seq<T>, d: seq<T>, last: T)
    requires |da| <= |d| && d[..|da|] == da
    requires forall i :: |da| <= i < |d| ==> d[i] !in a
    requires last !in a
    ensures |da| <= |d + [last]| && (d + [last])[..|da|] == da
    ensures forall i :: |da| <= i < |d + [last]| ==> (d + [last])[i] !in a
  {
    assert (d + [last])[..|da|] == d[..|da|];
  }

  /** Deduplicating after appending one element: it is added when new. */
  lemma DedupSnoc<T>(s: seq<T>, x: T)
    ensures Dedup(s + [x]) == if x in s then Dedup(s) else Dedup(s) + [x]
  {
    assert (s + [x])[..|s + [x]| - 1] == s;
  }

  /** A sequence without duplicates is its own deduplication. */
  lemma {:induction false} DedupOfNoDup<T>(s: seq<T>)
    requires NoDup(s)
    ensures Dedup(s) == s
    decreases |s|
  {
    if s != [] {
      var p := s[..|s| - 1];
      assert NoDup(p);
      DedupOfNoDup(p);
      assert s[|s| - 1] !in p;
      assert p + [s[|s| - 1]] == s;
    }
  }

  lemma DedupIdempotent<T>(s: seq<T>)
    ensures Dedup(Dedup(s)) == Dedup(s)
  {
    DedupOfNoDup(Dedup(s));
  }

  /** The last `n` elements of `s` (all of them when there are fewer). */
  function LastN<T>(s: seq<T>, n: nat): (r: seq<T>)
    ensures |r| == if |s| <= n then |s| else n
    ensures r == s[|s| - |r|..]
  {
    if |s| <= n then s else s[|s| - n..]
  }

  /** Appending to a trimmed window and trimming again equals trimming the whole history. */
  lemma LastNAppend<T>(s: seq<T>, e: T, n: nat)
    ensures LastN(LastN(s, n) + [e], n) == LastN(s + [e], n)
  {
    var w := LastN(s, n);
    if |s| > n {
      if n == 0 {
      } else {
        assert (w + [e])[1..] == (s + [e])[|s| + 1 - n..];
      }
    }
  }

  lemma LastNAppendSeq<T>(s: seq<T>, t: seq<T>, n: nat)
    ensures LastN(LastN(s, n) + t, n) == LastN(s + t, n)
  {
    var w := LastN(s, n);
    if |s| > n && |w + t| > n {
      assert (w + t)[|w + t| - n..] == (s + t)[|s + t| - n..];
    } else if |s| > n {
      assert |w + t| == n;
      assert w + t == (s + t)[|s + t| - n..];
    }
  }

  function Reverse<T>(s: seq<T>): (r: seq<T>)
    ensures |r| == |s|
    ensures forall i :: 0 <= i < |s| ==> r[i] == s[|s| - 1 - i]
  {
    seq(|s|, i requires 0 <= i < |s| => s[|s| - 1 - i])
  }

  lemma ReverseMultiset<T>(s: seq<T>)
    ensures multiset(Reverse(s)) == multiset(s)
    decreases |s|
  {
    if s != [] {
      ReverseMultiset(s[1..]);
      assert Reverse(s) == Reverse(s[1..]) + [s[0]];
      assert s == [s[0]] + s[1..];
    }
  }

  // ---------------------------------------------------------------- filtering

  /** The elements of `s` satisfying `p`, in their original order (a list comprehension with `if`). */
  function Filter<T>(s: seq<T>, p: T -> bool): (r: seq<T>)
    ensures |r| <= |s|
    ensures forall i :: 0 <= i < |r| ==> p(r[i]) && r[i] in s
    ensures forall i :: 0 <= i < |s| && p(s[i]) ==> s[i] in r
    ensures multiset(r) <= multiset(s)
    decreases |s|
  {
    if s == [] then []
    else
      assert s == [s[0]] + s[1..];
      (if p(s[0]) then [s[0]] else []) + Filter(s[1..], p)
  }

  /** Filtering a single element keeps it exactly when it passes. */
  lemma FilterOne<T>(x: T, p: T -> bool)
    ensures Filter([x], p) == if p(x) then [x] else []
  {
    assert [x][1..] == [];
  }

  /** Filtering distributes over concatenation, so the kept elements keep their relative order. */
  lemma {:induction false} FilterAppend<T>(a: seq<T>, b: seq<T>, p: T -> bool)
    ensures Filter(a + b, p) == Filter(a, p) + Filter(b, p)
    decreases |a|
  {
    if a == [] {
      assert a + b == b;
    } else {
      assert (a + b)[1..] == a[1..] + b;
      FilterAppend(a[1..], b, p);
    }
  }

  /** Filtering keeps everything exactly when every element satisfies the test. */
  lemma {:induction false} FilterAll<T>(s: seq<T>, p: T -> bool)
    ensures Filter(s, p) == s <==> forall i :: 0 <= i < |s| ==> p(s[i])
    decreases |s|
  {
    if s != [] {
      FilterAll(s[1..], p);
      if !p(s[0]) {
        assert |Filter(s, p)| < |s|;
      }
    }
  }

  /** The first `n` elements of `s`, or all of them when there are fewer (SQL `LIMIT n`). */
  function Take<T>(s: seq<T>, n: nat): (r: seq<T>)
    ensures |r| == if |s| <= n then |s| else n
    ensures r == s[..|r|]
  {
    if |s| <= n then s else s[..n]
  }

  // ---------------------------------------------------------------- ordering by a two-part key

  /** A lexicographic sort key: the column ordered first, then the tie-breaker. */
  datatype Key = Key(major: int, minor: int)

  predicate KeyLe(a: Key, b: Key) {
    a.major < b.major || (a.major == b.major && a.minor <= b.minor)
  }

  predicate SortedBy<T>(s: seq<T>, key: T -> Key) {
    forall i, j :: 0 <= i < j < |s| ==> KeyLe(key(s[i]), key(s[j]))
  }

  predicate SortedDescBy<T>(s: seq<T>, key: T -> Key) {
    forall i, j :: 0 <= i < j < |s| ==> KeyLe(key(s[j]), key(s[i]))
  }

  lemma {:induction false} ChainLe<T>(s: seq<T>, key: T -> Key, i: nat, j: nat)
    requires forall k :: 0 <= k < |s| - 1 ==> KeyLe(key(s[k]), key(s[k + 1]))
    requires i <= j < |s|
    ensures KeyLe(key(s[i]), key(s[j]))
    decreases j - i
  {
    if i < j {
      ChainLe(s, key, i + 1, j);
    }
  }

  /** A sequence whose neighbours are in order is sorted. */
  lemma SortedByAdjacent<T>(s: seq<T>, key: T -> Key)
    requires forall k :: 0 <= k < |s| - 1 ==> KeyLe(key(s[k]), key(s[k + 1]))
    ensures SortedBy(s, key)
  {
    forall i, j | 0 <= i < j < |s|
      ensures KeyLe(key(s[i]), key(s[j]))
    {
      ChainLe(s, key, i, j);
    }
  }

  /** Insert `x` into a sorted sequence before the first element with a larger key. */
  function Insert<T(==)>(x: T, s: seq<T>, key: T -> Key): (r: seq<T>)
    requires SortedBy(s, key)
    ensures SortedBy(r, key)
    ensures multiset(r) == multiset(s) + multiset{x}
    ensures |r| == |s| + 1
    decreases |s|
  {
    if s == [] || KeyLe(key(x), key(s[0])) then
      InsertFront(x, s, key);
      [x] + s
    else
      var t := Insert(x, s[1..], key);
      InsertBehind(x, s, key, t);
      [s[0]] + t
  }

  /** `x`, no larger than the first element, goes in front. */
  lemma InsertFront<T>(x: T, s: seq<T>, key: T -> Key)
    requires SortedBy(s, key) && (s == [] || KeyLe(key(x), key(s[0])))
    ensures SortedBy([x] + s, key)
  {
    var r := [x] + s;
    forall i, j | 0 <= i < j < |r|
      ensures KeyLe(key(r[i]), key(r[j]))
    {
      assert r[j] == s[j - 1];
      if i > 0 {
        assert r[i] == s[i - 1];
      } else if j > 1 {
        assert KeyLe(key(s[0]), key(s[j - 1]));
      }
    }
  }

  /** `x`, larger than the first element, is inserted into the rest, which then follows that element. */
  lemma InsertBehind<T>(x: T, s: seq<T>, key: T -> Key, t: seq<T>)
    requires s != [] && SortedBy(s, key) && !KeyLe(key(x), key(s[0]))
    requires SortedBy(t, key) && multiset(t) == multiset(s[1..]) + multiset{x}
    ensures SortedBy([s[0]] + t, key)
    ensures multiset([s[0]] + t) == multiset(s) + multiset{x}
  {
    assert s == [s[0]] + s[1..];
    forall k | 0 <= k < |t|
      ensures KeyLe(key(s[0]), key(t[k]))
    {
      assert t[k] in multiset(t);
      if t[k] != x {
        assert t[k] in multiset(s[1..]);
        var m :| 0 <= m < |s[1..]| && s[1..][m] == t[k];
        assert s[m + 1] == t[k];
      }
    }
    var r := [s[0]] + t;
    forall i, j | 0 <= i < j < |r|
      ensures KeyLe(key(r[i]), key(r[j]))
    {
      assert r[j] == t[j - 1];
      if i > 0 {
        assert r[i] == t[i - 1];
      }
    }
  }

  /** Insertion sort by a two-part key: a sorted permutation of `s`. */
  function SortBy<T(==)>(s: seq<T>, key: T -> Key): (r: seq<T>)
    ensures SortedBy(r, key)
    ensures multiset(r) == multiset(s)
    ensures |r| == |s|
    decreases |s|
  {
    if s == [] then [] else
      assert s == [s[0]] + s[1..];
      Insert(s[0], SortBy(s[1..], key), key)
  }

  lemma ReverseSorted<T>(s: seq<T>, key: T -> Key)
    requires SortedBy(s, key)
    ensures SortedDescBy(Reverse(s), key)
  {
  }
}
