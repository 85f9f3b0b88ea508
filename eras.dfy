/** The Eras page's `grouped` value: the saved albums grouped by release
    year, newest year first and the albums without a year last. The grouping
    walks the albums once, appending each to its year's list in a `Map`; the
    entries are then sorted with a comparator. */
module Eras {
  import opened Wrappers
  import opened Seqs
  import opened OrderedMap

  /** An album as `/api/my-albums` returns it, without its images and link. */
  datatype Album = Album(albumId: string, albumName: string, artistName: string, releaseYear: Option<int>)

  /** `number | "Unknown"`. */
  datatype YearKey = Year(year: int) | Unknown

  type Era = (YearKey, seq<Album>)

  /** The album's year when it has one, otherwise "Unknown". */
  function KeyOf(a: Album): YearKey {
    if a.releaseYear.Some? then Year(a.releaseYear.value) else Unknown
  }

  function KeysOf(albums: seq<Album>): (ks: seq<YearKey>)
    ensures |ks| == |albums| && forall i :: 0 <= i < |albums| ==> ks[i] == KeyOf(albums[i])
  {
    if albums == [] then [] else [KeyOf(albums[0])] + KeysOf(albums[1..])
  }

  function WithKey(k: YearKey): Album -> bool {
    a => KeyOf(a) == k
  }

  // ---------------------------------------------------------------------
  // Grouping

  /** The map after the first albums have been walked. */
  function Grouped(albums: seq<Album>): OMap<YearKey, seq<Album>>
    decreases |albums|
  {
    if albums == [] then []
    else
      var g := Grouped(albums[..|albums| - 1]);
      var a := albums[|albums| - 1];
      Set(g, KeyOf(a), Get(g, KeyOf(a)).GetOr([]) + [a])
  }

  /** The `for` loop over the albums. */
  method Group(albums: seq<Album>) returns (groups: OMap<YearKey, seq<Album>>)
    ensures groups == Grouped(albums)
  {
    groups := [];
    var i := 0;
    while i < |albums|
      invariant 0 <= i <= |albums|
      invariant groups == Grouped(albums[..i])
    {
      var a := albums[i];
      var key := KeyOf(a);
      var arr := Get(groups, key).GetOr([]);
      arr := arr + [a];
      groups := Set(groups, key, arr);
      GroupedPrefix(albums, i);
      i := i + 1;
    }
    assert albums[..i] == albums;
  }

  /** The loop's step: one more album of the input walked. */
  lemma GroupedPrefix(albums: seq<Album>, i: nat)
    requires i < |albums|
    ensures var g := Grouped(albums[..i]); var a := albums[i];
      Grouped(albums[..i + 1]) == Set(g, KeyOf(a), Get(g, KeyOf(a)).GetOr([]) + [a])
  {
    assert albums[..i + 1][..i] == albums[..i];
  }

  /** One more album: its year's list grows by it, or a new group opens. */
  lemma GroupedSnoc(init: seq<Album>, a: Album)
    ensures Grouped(init + [a]) == Set(Grouped(init), KeyOf(a), Get(Grouped(init), KeyOf(a)).GetOr([]) + [a])
  {
    assert (init + [a])[..|init|] == init;
  }

  lemma KeysOfSnoc(init: seq<Album>, a: Album)
    ensures KeysOf(init + [a]) == KeysOf(init) + [KeyOf(a)]
  {
  }

  /** The groups appear in the order their year was first met. */
  lemma {:induction false} GroupedKeys(albums: seq<Album>)
    ensures Keys(Grouped(albums)) == Dedup(KeysOf(albums))
    decreases |albums|
  {
    if albums != [] {
      var init := albums[..|albums| - 1];
      var a := albums[|albums| - 1];
      assert albums == init + [a];
      GroupedKeys(init);
      GroupedSnoc(init, a);
      var g := Grouped(init);
      SetKeys(g, KeyOf(a), Get(g, KeyOf(a)).GetOr([]) + [a]);
      KeysOfSnoc(init, a);
      DedupSnoc(KeysOf(init), KeyOf(a));
    }
  }

  lemma GroupedUniqueKeys(albums: seq<Album>)
    ensures UniqueKeys(Grouped(albums))
  {
    var g := Grouped(albums);
    GroupedKeys(albums);
    forall i, j | 0 <= i < j < |g|
      ensures g[i].0 != g[j].0
    {
      assert Keys(g)[i] == g[i].0 && Keys(g)[j] == g[j].0;
    }
  }

  /** No album has the key: the filter keeps none. */
  lemma FilterWithoutKey(albums: seq<Album>, k: YearKey)
    requires k !in KeysOf(albums)
    ensures Filter(albums, WithKey(k)) == []
  {
  }

  /** The group of a year holds exactly the albums of that year, in their
      input order; a year no album has gets no group. */
  lemma {:induction false} GroupedGet(albums: seq<Album>, k: YearKey)
    ensures Get(Grouped(albums), k) == if k in KeysOf(albums) then Some(Filter(albums, WithKey(k))) else None
    decreases |albums|
  {
    if albums != [] {
      var init := albums[..|albums| - 1];
      var a := albums[|albums| - 1];
      assert albums == init + [a];
      GroupedGet(init, k);
      if KeyOf(a) == k {
        GroupedGetSame(init, a);
      } else {
        GroupedGetOther(init, a, k);
      }
    }
  }

  lemma GroupedGetSame(init: seq<Album>, a: Album)
    requires Get(Grouped(init), KeyOf(a))
      == if KeyOf(a) in KeysOf(init) then Some(Filter(init, WithKey(KeyOf(a)))) else None
    ensures Get(Grouped(init + [a]), KeyOf(a)) == Some(Filter(init + [a], WithKey(KeyOf(a))))
  {
    var k := KeyOf(a);
    var g := Grouped(init);
    GroupedSnoc(init, a);
    assert Get(Grouped(init + [a]), k) == Some(Get(g, k).GetOr([]) + [a]);
    assert WithKey(k)(a);
    FilterAppend(init, a, WithKey(k));
    if k !in KeysOf(init) {
      FilterWithoutKey(init, k);
    }
  }

  lemma GroupedGetOther(init: seq<Album>, a: Album, k: YearKey)
    requires KeyOf(a) != k
    requires Get(Grouped(init), k) == if k in KeysOf(init) then Some(Filter(init, WithKey(k))) else None
    ensures Get(Grouped(init + [a]), k)
      == if k in KeysOf(init + [a]) then Some(Filter(init + [a], WithKey(k))) else None
  {
    var g := Grouped(init);
    GroupedSnoc(init, a);
    KeysOfSnoc(init, a);
    GetSetOther(g, KeyOf(a), Get(g, KeyOf(a)).GetOr([]) + [a], k);
    assert Get(Grouped(init + [a]), k) == Get(g, k);
    assert !WithKey(k)(a);
    FilterAppend(init, a, WithKey(k));
    assert Filter(init + [a], WithKey(k)) == Filter(init, WithKey(k));
    assert k in KeysOf(init + [a]) <==> k in KeysOf(init);
  }

  /** The number of albums over all groups. */
  function TotalSize(gs: seq<Era>): nat {
    if gs == [] then 0 else |gs[0].1| + TotalSize(gs[1..])
  }

  lemma {:induction false} TotalSizeSet(m: OMap<YearKey, seq<Album>>, k: YearKey, v: seq<Album>)
    ensures TotalSize(Set(m, k, v)) + |Get(m, k).GetOr([])| == TotalSize(m) + |v|
  {
    if m != [] && m[0].0 != k {
      TotalSizeSet(m[1..], k, v);
      assert Set(m, k, v)[1..] == Set(m[1..], k, v);
    }
  }

  /** Every album is counted in exactly one group. */
  lemma {:induction false} GroupedSize(albums: seq<Album>)
    ensures TotalSize(Grouped(albums)) == |albums|
    decreases |albums|
  {
    if albums != [] {
      var init := albums[..|albums| - 1];
      var a := albums[|albums| - 1];
      var g := Grouped(init);
      GroupedSize(init);
      TotalSizeSet(g, KeyOf(a), Get(g, KeyOf(a)).GetOr([]) + [a]);
    }
  }

  // ---------------------------------------------------------------------
  // Sorting

  /** The comparator: "Unknown" after any year, years newest first. */
  function Compare(ka: YearKey, kb: YearKey): int {
    if ka.Unknown? && kb.Unknown? then 0
    else if ka.Unknown? then 1
    else if kb.Unknown? then -1
    else kb.year - ka.year
  }

  predicate Sorted(gs: seq<Era>) {
    forall i, j :: 0 <= i < j < |gs| ==> Compare(gs[i].0, gs[j].0) <= 0
  }

  /** Puts `e` before the first entry it does not compare after. */
  function Insert(e: Era, gs: seq<Era>): (r: seq<Era>)
    ensures multiset(r) == multiset(gs) + multiset{e}
    ensures TotalSize(r) == |e.1| + TotalSize(gs)
  {
    if gs == [] then [e]
    else if Compare(e.0, gs[0].0) <= 0 then
      var r := [e] + gs;
      assert r[1..] == gs;
      r
    else
      var rest := Insert(e, gs[1..]);
      var r := [gs[0]] + rest;
      assert r[1..] == rest;
      assert multiset(gs) == multiset{gs[0]} + multiset(gs[1..]) by {
        assert gs == [gs[0]] + gs[1..];
      }
      r
  }

  lemma {:induction false} InsertSorted(e: Era, gs: seq<Era>)
    requires Sorted(gs)
    ensures Sorted(Insert(e, gs))
  {
    if gs == [] {
    } else if Compare(e.0, gs[0].0) <= 0 {
      forall j | 0 <= j < |gs|
        ensures Compare(e.0, gs[j].0) <= 0
      {
        CompareTransitive(e.0, gs[0].0, gs[j].0);
      }
      ConsSorted(e, gs);
    } else {
      var rest := Insert(e, gs[1..]);
      InsertSorted(e, gs[1..]);
      forall j | 0 <= j < |rest|
        ensures Compare(gs[0].0, rest[j].0) <= 0
      {
        InsertMember(e, gs[1..], j);
        if rest[j] != e {
          SortedHeadFirst(gs, rest[j]);
        }
      }
      ConsSorted(gs[0], rest);
    }
  }

  lemma CompareTransitive(a: YearKey, b: YearKey, c: YearKey)
    requires Compare(a, b) <= 0 && Compare(b, c) <= 0
    ensures Compare(a, c) <= 0
  {
  }

  /** The head of a sorted list compares before every entry of it. */
  lemma SortedHeadFirst(gs: seq<Era>, x: Era)
    requires Sorted(gs) && gs != [] && x in gs[1..]
    ensures Compare(gs[0].0, x.0) <= 0
  {
    var k :| 0 <= k < |gs[1..]| && gs[1..][k] == x;
    assert gs[k + 1] == x;
  }

  /** Every entry after insertion is the inserted one or an old one. */
  lemma InsertMember(e: Era, gs: seq<Era>, j: nat)
    requires j < |Insert(e, gs)|
    ensures Insert(e, gs)[j] == e || Insert(e, gs)[j] in gs
  {
    var r := Insert(e, gs);
    assert r[j] in multiset(r);
  }

  /** An entry that compares before every entry of a sorted list can lead it. */
  lemma ConsSorted(h: Era, rest: seq<Era>)
    requires Sorted(rest)
    requires forall j :: 0 <= j < |rest| ==> Compare(h.0, rest[j].0) <= 0
    ensures Sorted([h] + rest)
  {
    var r := [h] + rest;
    forall i, j | 0 <= i < j < |r|
      ensures Compare(r[i].0, r[j].0) <= 0
    {
      assert r[j] == rest[j - 1];
      if i > 0 {
        assert r[i] == rest[i - 1];
      }
    }
  }

  /** `Array.from(map.entries()).sort(comparator)`: an insertion sort under
      the same comparator. The keys of the map are distinct, so no two
      entries tie and any correct sort gives this order. */
  function SortEntries(gs: seq<Era>): (r: seq<Era>)
    ensures multiset(r) == multiset(gs)
    ensures Sorted(r)
    ensures TotalSize(r) == TotalSize(gs)
  {
    if gs == [] then []
    else
      var rest := SortEntries(gs[1..]);
      InsertSorted(gs[0], rest);
      assert gs == [gs[0]] + gs[1..];
      Insert(gs[0], rest)
  }

  /** Entries of a permutation are entries of the original. */
  lemma EntryOfPermutation(r: seq<Era>, gs: seq<Era>, i: nat) returns (j: nat)
    requires multiset(r) == multiset(gs) && i < |r|
    ensures j < |gs| && gs[j] == r[i]
  {
    assert r[i] in multiset(gs);
    j :| 0 <= j < |gs| && gs[j] == r[i];
  }

  /** A sorted list with distinct keys has its years strictly descending and
      "Unknown", if present, last. */
  lemma SortedOrder(r: seq<Era>, i: nat, j: nat)
    requires Sorted(r) && UniqueKeys(r) && i < j < |r|
    ensures r[i].0.Year?
    ensures r[j].0.Year? ==> r[i].0.year > r[j].0.year
  {
    assert Compare(r[i].0, r[j].0) <= 0;
  }

  /** The eras: the groups sorted, newest year first. */
  function Eras(albums: seq<Album>): seq<Era> {
    SortEntries(Grouped(albums))
  }

  /** `grouped`: the loop, then the sort. */
  method GroupByYear(albums: seq<Album>) returns (entries: seq<Era>)
    ensures entries == Eras(albums)
  {
    var groups := Group(albums);
    entries := SortEntries(groups);
  }

  /** A permutation of a map with distinct keys has distinct keys. */
  lemma PermutationKeepsKeysUnique(r: seq<Era>, g: seq<Era>)
    requires multiset(r) == multiset(g) && UniqueKeys(g)
    ensures UniqueKeys(r)
  {
    forall i, j | 0 <= i < j < |r|
      ensures r[i].0 != r[j].0
    {
      var ki := EntryOfPermutation(r, g, i);
      var kj := EntryOfPermutation(r, g, j);
      if ki == kj {
        // The same entry at two places would occur twice in `g` too.
        assert multiset(r)[r[i]] >= 2 by {
          assert r == r[..j] + r[j..];
          assert r[..j][i] == r[i];
          assert r[j..][0] == r[i];
        }
        NoOtherOccurrence(g, ki);
      }
    }
  }

  lemma ErasKeysUnique(albums: seq<Album>)
    ensures UniqueKeys(Eras(albums))
  {
    GroupedUniqueKeys(albums);
    PermutationKeepsKeysUnique(Eras(albums), Grouped(albums));
  }

  /** Each era holds exactly the albums of its year, in input order, and is
      not empty. */
  lemma ErasAreYears(albums: seq<Album>, i: nat)
    requires i < |Eras(albums)|
    ensures Eras(albums)[i].1 == Filter(albums, WithKey(Eras(albums)[i].0))
    ensures Eras(albums)[i].1 != []
  {
    var g := Grouped(albums);
    var r := Eras(albums);
    GroupedUniqueKeys(albums);
    var k := EntryOfPermutation(r, g, i);
    GetEntry(g, k);
    GroupedGet(albums, g[k].0);
    var m :| 0 <= m < |albums| && KeysOf(albums)[m] == g[k].0;
    assert WithKey(g[k].0)(albums[m]);
  }

  /** Each album's year has an era, and the eras hold as many albums as
      were given: with the two lemmas above, each album is in exactly one
      era. */
  lemma ErasCoverAlbums(albums: seq<Album>)
    ensures forall j :: 0 <= j < |albums| ==> KeyOf(albums[j]) in Keys(Eras(albums))
    ensures TotalSize(Eras(albums)) == |albums|
  {
    GroupedSize(albums);
    forall j | 0 <= j < |albums|
      ensures KeyOf(albums[j]) in Keys(Eras(albums))
    {
      assert KeysOf(albums)[j] == KeyOf(albums[j]);
      KeyInEras(albums, KeyOf(albums[j]));
    }
  }

  /** A year some album has is the key of some era. */
  lemma KeyInEras(albums: seq<Album>, key: YearKey)
    requires key in KeysOf(albums)
    ensures key in Keys(Eras(albums))
  {
    var g := Grouped(albums);
    GroupedKeys(albums);
    KeyOfPermutation(g, SortEntries(g), key);
  }

  /** Reordering entries keeps every key. */
  lemma KeyOfPermutation(g: seq<Era>, r: seq<Era>, key: YearKey)
    requires multiset(r) == multiset(g) && key in Keys(g)
    ensures key in Keys(r)
  {
    var n :| 0 <= n < |g| && Keys(g)[n] == key;
    var i := EntryOfPermutation(g, r, n);
    assert Keys(r)[i] == key;
  }

  /** An entry of a map with distinct keys occurs in it once. */
  lemma {:induction false} NoOtherOccurrence(g: seq<Era>, k: nat)
    requires UniqueKeys(g) && k < |g|
    ensures multiset(g)[g[k]] == 1
  {
    if k == 0 {
      assert g == [g[0]] + g[1..];
      assert g[0] !in g[1..];
    } else {
      assert g == [g[0]] + g[1..];
      assert g[1..][k - 1] == g[k];
      NoOtherOccurrence(g[1..], k - 1);
    }
  }

  /** The eras are ordered newest year first with "Unknown", if present,
      last. */
  lemma ErasOrdered(albums: seq<Album>, i: nat, j: nat)
    requires i < j < |Eras(albums)|
    ensures Eras(albums)[i].0.Year?
    ensures Eras(albums)[j].0.Year? ==> Eras(albums)[i].0.year > Eras(albums)[j].0.year
  {
    ErasKeysUnique(albums);
    SortedOrder(Eras(albums), i, j);
  }
}
