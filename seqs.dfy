/** Sequence operations shared by the route handlers and the eras page:
    order-preserving filtering, de-duplication in first-seen order
    (`Array.from(new Set(xs))`) and splitting into fixed-size chunks
    (`for (i = 0; i < xs.length; i += n) xs.slice(i, i + n)`). */
module Seqs {

  /** `a` can be obtained from `b` by deleting elements, keeping order. */
  predicate IsSubsequence<T(==)>(a: seq<T>, b: seq<T>)
    decreases |b|
  {
    a == [] ||
    (b != [] && ((a[0] == b[0] && IsSubsequence(a[1..], b[1..])) || IsSubsequence(a, b[1..])))
  }

  /** A prefix of a subsequence is a subsequence. */
  lemma {:induction false} SubsequencePrefix<T>(a: seq<T>, b: seq<T>, k: nat)
    requires k <= |a| && IsSubsequence(a, b)
    ensures IsSubsequence(a[..k], b)
    decreases |b|
  {
    if k > 0 {
      if a[0] == b[0] && IsSubsequence(a[1..], b[1..]) {
        SubsequencePrefix(a[1..], b[1..], k - 1);
        assert a[..k][1..] == a[1..][..k - 1];
      } else {
        SubsequencePrefix(a, b[1..], k);
      }
    }
  }

  /** `s.filter(p)`: the elements satisfying `p`, in their original order. */
  function Filter<T(!new)>(s: seq<T>, p: T -> bool): (r: seq<T>)
    ensures |r| <= |s|
    ensures forall i :: 0 <= i < |r| ==> p(r[i])
    ensures forall x :: x in r <==> x in s && p(x)
    ensures IsSubsequence(r, s)
  {
    if s == [] then []
    else if p(s[0]) then
      var rest := Filter(s[1..], p);
      assert ([s[0]] + rest)[1..] == rest;
      [s[0]] + rest
    else
      Filter(s[1..], p)
  }

  /** Each value passing `p` is kept as often as it occurs in `s`, and no
      other value is kept. */
  lemma {:induction false} FilterMultiset<T(!new)>(s: seq<T>, p: T -> bool)
    ensures forall x :: multiset(Filter(s, p))[x] == if p(x) then multiset(s)[x] else 0
  {
    if s != [] {
      FilterMultiset(s[1..], p);
      assert s == [s[0]] + s[1..];
      assert multiset(s) == multiset{s[0]} + multiset(s[1..]);
    }
  }

  /** A filter every element passes keeps the whole sequence. */
  lemma {:induction false} FilterAll<T(!new)>(s: seq<T>, p: T -> bool)
    requires forall i :: 0 <= i < |s| ==> p(s[i])
    ensures Filter(s, p) == s
  {
    if s != [] {
      FilterAll(s[1..], p);
    }
  }

  /** Filtering one more element at the end extends the result by that
      element exactly when it passes. */
  lemma {:induction false} FilterAppend<T(!new)>(s: seq<T>, x: T, p: T -> bool)
    ensures Filter(s + [x], p) == Filter(s, p) + (if p(x) then [x] else [])
  {
    if s == [] {
      assert [x][1..] == [];
    } else {
      assert (s + [x])[1..] == s[1..] + [x];
      FilterAppend(s[1..], x, p);
    }
  }

  /** `xs.slice(0, n)`. */
  function Take<T>(s: seq<T>, n: nat): (r: seq<T>)
    ensures |r| == if |s| <= n then |s| else n
    ensures r == s[..|r|]
  {
    if |s| <= n then s else s[..n]
  }

  predicate NoDuplicates<T(==)>(s: seq<T>) {
    forall i, j :: 0 <= i < j < |s| ==> s[i] != s[j]
  }

  /** `Array.from(new Set(s))`: each distinct element once, at the place it
      was first seen. Defined from the end, as the JavaScript set is built by
      adding one element after the other. */
  function Dedup<T(==,!new)>(s: seq<T>): (r: seq<T>)
    ensures NoDuplicates(r)
    ensures forall x :: x in r <==> x in s
    ensures |r| <= |s|
  {
    if s == [] then []
    else
      var d := Dedup(s[..|s| - 1]);
      var x := s[|s| - 1];
      assert s == s[..|s| - 1] + [x];
      if x in d then d else d + [x]
  }

  lemma DedupSnoc<T(!new)>(s: seq<T>, x: T)
    ensures Dedup(s + [x]) == if x in Dedup(s) then Dedup(s) else Dedup(s) + [x]
  {
    assert (s + [x])[..|s|] == s;
  }

  /** Position of the first occurrence of `x` in `s`. */
  function FirstIndex<T(==)>(s: seq<T>, x: T): (i: nat)
    requires x in s
    ensures i < |s| && s[i] == x && x !in s[..i]
  {
    if s[0] == x then 0 else 1 + FirstIndex(s[1..], x)
  }

  lemma FirstIndexOfPrefix<T>(s: seq<T>, k: nat, x: T)
    requires k <= |s| && x in s[..k]
    ensures FirstIndex(s, x) == FirstIndex(s[..k], x)
  {
    var j := FirstIndex(s[..k], x);
    assert s[..k][..j] == s[..j];
  }

  /** De-duplication keeps first-seen order: an element listed earlier in
      `Dedup(s)` was first seen earlier in `s`. */
  lemma {:induction false} DedupFirstSeenOrder<T(!new)>(s: seq<T>, i: nat, j: nat)
    requires i < j < |Dedup(s)|
    ensures FirstIndex(s, Dedup(s)[i]) < FirstIndex(s, Dedup(s)[j])
  {
    var init := s[..|s| - 1];
    var x := s[|s| - 1];
    var d := Dedup(init);
    var a, b := Dedup(s)[i], Dedup(s)[j];
    FirstIndexOfPrefix(s, |s| - 1, a);
    if j < |d| {
      DedupFirstSeenOrder(init, i, j);
      FirstIndexOfPrefix(s, |s| - 1, b);
    } else {
      // b is the new element x, seen for the first time at the end
      assert b == x && x !in init;
      assert s[..|s| - 1] == init;
    }
  }

  /** `s` cut into consecutive pieces of `n` elements, the last one possibly
      shorter, exactly as the `i += n` loops over `slice(i, i + n)` do. */
  function Chunks<T>(s: seq<T>, n: nat): (r: seq<seq<T>>)
    requires n > 0
    decreases |s|
  {
    if s == [] then []
    else if |s| <= n then [s]
    else [s[..n]] + Chunks(s[n..], n)
  }

  function Flatten<T>(ss: seq<seq<T>>): seq<T> {
    if ss == [] then [] else ss[0] + Flatten(ss[1..])
  }

  /** Chunking loses nothing and invents nothing: the chunks, read in
      order, are the input. */
  lemma {:induction false} ChunksFlatten<T>(s: seq<T>, n: nat)
    requires n > 0
    ensures Flatten(Chunks(s, n)) == s
    decreases |s|
  {
    if |s| > n {
      var rest := Chunks(s[n..], n);
      ChunksFlatten(s[n..], n);
      assert Chunks(s, n) == [s[..n]] + rest;
      assert ([s[..n]] + rest)[1..] == rest;
      assert Flatten(Chunks(s, n)) == s[..n] + Flatten(rest);
      assert s == s[..n] + s[n..];
    } else if s != [] {
      assert Chunks(s, n) == [s];
      assert [s][1..] == [];
      assert Flatten([s]) == s + Flatten([s][1..]);
    }
  }

  /** Each chunk is non-empty and holds at most `n` ids, and there are
      `ceil(|s| / n)` chunks: one request per `n` ids, rounded up. */
  lemma {:induction false} ChunksSized<T>(s: seq<T>, n: nat)
    requires n > 0
    ensures forall c :: c in Chunks(s, n) ==> 0 < |c| <= n
    ensures s != [] ==> (|Chunks(s, n)| - 1) * n < |s| <= |Chunks(s, n)| * n
    decreases |s|
  {
    if |s| > n {
      ChunksSized(s[n..], n);
      var k := |Chunks(s[n..], n)|;
      assert |Chunks(s, n)| == k + 1;
      MulSucc(k, n);
      MulSucc(k - 1, n);
    }
  }

  /** Slicing from `i`: the first chunk is the next `n` elements, or what is
      left when fewer remain. */
  lemma ChunksStep<T>(s: seq<T>, i: nat, n: nat)
    requires n > 0 && i < |s|
    ensures var end := if i + n <= |s| then i + n else |s|;
      Chunks(s[i..], n) == [s[i..end]] + Chunks(s[end..], n)
  {
    var end := if i + n <= |s| then i + n else |s|;
    var rest := s[i..];
    if |rest| <= n {
      assert s[end..] == [] && s[i..end] == rest;
    } else {
      assert rest[..n] == s[i..end] && rest[n..] == s[end..];
    }
  }

  lemma MulSucc(k: int, n: int)
    ensures (k + 1) * n == k * n + n
  {
  }


  /** Every element of chunk `c` comes from the input; for a chunk after the
      first, from beyond the first `n` positions. */
  lemma {:induction false} ChunkElementInInput<T>(s: seq<T>, n: nat, c: nat, x: T)
    requires n > 0 && c < |Chunks(s, n)| && x in Chunks(s, n)[c]
    ensures x in s
    ensures c > 0 ==> |s| > n && x in s[n..]
    decreases |s|
  {
    if |s| > n && c > 0 {
      assert Chunks(s, n)[c] == Chunks(s[n..], n)[c - 1];
      ChunkElementInInput(s[n..], n, c - 1, x);
      assert s == s[..n] + s[n..];
    }
  }

  /** With no duplicate ids, an id of the input occurs in exactly one chunk
      (the artist ids are de-duplicated before they are chunked). */
  lemma {:induction false} ChunksDisjoint<T>(s: seq<T>, n: nat, x: T, c1: nat, c2: nat)
    requires n > 0 && NoDuplicates(s)
    requires c1 < |Chunks(s, n)| && c2 < |Chunks(s, n)|
    requires x in Chunks(s, n)[c1] && x in Chunks(s, n)[c2]
    ensures c1 == c2
    decreases |s|
  {
    if c1 != c2 {
      var cs := Chunks(s, n);
      assert |s| > n;
      if c1 > 0 && c2 > 0 {
        assert cs[c1] == Chunks(s[n..], n)[c1 - 1];
        assert cs[c2] == Chunks(s[n..], n)[c2 - 1];
        ChunksDisjoint(s[n..], n, x, c1 - 1, c2 - 1);
      } else {
        var later := if c1 > 0 then c1 else c2;
        ChunkElementInInput(s, n, later, x);
      }
    }
  }
}
