/** Genre enrichment of suggestion candidates (`fetchAlbumsArtists`,
    `fetchArtistsGenres` and the per-album genre merge of the suggest route).
    The two Spotify batch endpoints are parameters: a function from the ids of
    one request to what that request came back with. */
module Enrichment {
  import opened Wrappers
  import opened Seqs
  import opened OrderedMap

  /** Spotify accepts up to 20 ids per `/albums` call. */
  const AlbumChunkSize: nat := 20
  /** Spotify accepts up to 50 ids per `/artists` call. */
  const ArtistChunkSize: nat := 50
  /** Genres kept per artist and per album. */
  const GenreCap: nat := 5

  /** One album of an `/albums` answer; `artists` may be missing, and an
      artist id may be empty. */
  datatype AlbumEntry = AlbumEntry(id: string, artistIds: Option<seq<string>>)

  /** One artist of an `/artists` answer; `genres` may be missing. */
  datatype ArtistEntry = ArtistEntry(id: string, genres: Option<seq<string>>)

  /** The outcome of one batch request: the fetch or the body parse threw,
      the status was not ok, or an ok body whose list may be missing. */
  datatype Reply<E> = Threw | NotOk | Ok(entries: Option<seq<E>>)

  type Index = OMap<string, seq<string>>

  /** `(a.artists || []).map((ar) => ar.id).filter(Boolean)`. */
  function AlbumArtists(a: AlbumEntry): (kv: (string, seq<string>))
    ensures kv.0 == a.id
    ensures forall x :: x in kv.1 <==> x in a.artistIds.GetOr([]) && x != ""
    ensures IsSubsequence(kv.1, a.artistIds.GetOr([]))
  {
    (a.id, Filter(a.artistIds.GetOr([]), (id: string) => id != ""))
  }

  /** `(a.genres || []).slice(0, 5)`. */
  function ArtistGenres(a: ArtistEntry): (kv: (string, seq<string>))
    ensures kv.0 == a.id
    ensures var g := a.genres.GetOr([]);
      |kv.1| == (if |g| < GenreCap then |g| else GenreCap) && kv.1 == g[..|kv.1|]
  {
    (a.id, Take(a.genres.GetOr([]), GenreCap))
  }

  /** `entries.forEach((e) => result.set(key, value))`. */
  function RecordEntries<E>(m: Index, es: seq<E>, entry: E -> (string, seq<string>)): Index
    decreases |es|
  {
    if es == [] then m
    else RecordEntries(Set(m, entry(es[0]).0, entry(es[0]).1), es[1..], entry)
  }

  /** The effect of requesting the chunks in order: a chunk whose request
      threw aborts the whole fetch, a chunk answered not-ok is skipped. */
  function WalkChunks<E>(m: Index, chunks: seq<seq<string>>, fetch: seq<string> -> Reply<E>,
                         entry: E -> (string, seq<string>)): Option<Index>
    decreases |chunks|
  {
    if chunks == [] then Some(m)
    else match fetch(chunks[0])
      case Threw => None
      case NotOk => WalkChunks(m, chunks[1..], fetch, entry)
      case Ok(es) => WalkChunks(RecordEntries(m, es.GetOr([]), entry), chunks[1..], fetch, entry)
  }

  /** The loop shared by `fetchAlbumsArtists` and `fetchArtistsGenres`:
      request `ids` in consecutive slices of `size` and record every entry
      of every ok answer in a fresh map. */
  method FetchInChunks<E>(ids: seq<string>, size: nat, fetch: seq<string> -> Reply<E>,
                          entry: E -> (string, seq<string>)) returns (result: Option<Index>)
    requires size > 0
    ensures result == WalkChunks([], Chunks(ids, size), fetch, entry)
  {
    var m: Index := [];
    var i := 0;
    while i < |ids|
      invariant 0 <= i <= |ids|
      invariant WalkChunks(m, Chunks(ids[i..], size), fetch, entry)
             == WalkChunks([], Chunks(ids, size), fetch, entry)
    {
      // `ids.slice(i, i + size)`; the last slice may be shorter
      var end := if i + size <= |ids| then i + size else |ids|;
      var chunk := ids[i..end];
      var rest := Chunks(ids[end..], size);
      ChunksStep(ids, i, size);
      assert ([chunk] + rest)[0] == chunk && ([chunk] + rest)[1..] == rest;
      match fetch(chunk) {
        case Threw =>
          return None;
        case NotOk =>
          // `if (!res.ok) continue;`
        case Ok(es) =>
          var data := es.GetOr([]);
          ghost var m0 := m;
          var j := 0;
          while j < |data|
            invariant 0 <= j <= |data|
            invariant RecordEntries(m, data[j..], entry) == RecordEntries(m0, data, entry)
          {
            assert data[j..][1..] == data[j + 1..];
            var kv := entry(data[j]);
            m := Set(m, kv.0, kv.1);
            j := j + 1;
          }
          assert data[j..] == [];
      }
      i := end;
    }
    result := Some(m);
  }

  /** `fetchAlbumsArtists`: album id -> its non-empty artist ids. */
  function AlbumsArtists(albumIds: seq<string>, albumsApi: seq<string> -> Reply<AlbumEntry>): Option<Index> {
    WalkChunks([], Chunks(albumIds, AlbumChunkSize), albumsApi, AlbumArtists)
  }

  /** `fetchArtistsGenres`: artist id -> its first five genres, requesting
      each distinct artist id once. */
  function ArtistsGenres(artistIds: seq<string>, artistsApi: seq<string> -> Reply<ArtistEntry>): Option<Index> {
    WalkChunks([], Chunks(Dedup(artistIds), ArtistChunkSize), artistsApi, ArtistGenres)
  }

  method FetchAlbumsArtists(albumIds: seq<string>, albumsApi: seq<string> -> Reply<AlbumEntry>)
    returns (result: Option<Index>)
    ensures result == AlbumsArtists(albumIds, albumsApi)
  {
    result := FetchInChunks(albumIds, AlbumChunkSize, albumsApi, AlbumArtists);
  }

  method FetchArtistsGenres(artistIds: seq<string>, artistsApi: seq<string> -> Reply<ArtistEntry>)
    returns (result: Option<Index>)
    ensures result == ArtistsGenres(artistIds, artistsApi)
  {
    var uniqueIds := Dedup(artistIds);
    result := FetchInChunks(uniqueIds, ArtistChunkSize, artistsApi, ArtistGenres);
  }

  // ---------------------------------------------------------------------
  // Properties of the chunk walk

  /** A chunk answered not-ok changes nothing: the walk gives what it gives
      with that chunk left out. */
  lemma {:induction false} WalkSkipsFailedChunk<E>(m: Index, chunks: seq<seq<string>>, k: nat,
      fetch: seq<string> -> Reply<E>, entry: E -> (string, seq<string>))
    requires k < |chunks| && fetch(chunks[k]).NotOk?
    ensures WalkChunks(m, chunks, fetch, entry) == WalkChunks(m, chunks[..k] + chunks[k + 1..], fetch, entry)
    decreases k
  {
    var rest := chunks[..k] + chunks[k + 1..];
    if k > 0 {
      assert rest[0] == chunks[0];
      assert rest[1..] == chunks[1..][..k - 1] + chunks[1..][k..];
      var m' := match fetch(chunks[0]) case Ok(es) => RecordEntries(m, es.GetOr([]), entry) case _ => m;
      WalkSkipsFailedChunk(m', chunks[1..], k - 1, fetch, entry);
    } else {
      assert rest == chunks[1..];
    }
  }

  /** The fetch fails as a whole exactly when one of its requests threw. */
  lemma {:induction false} WalkFailsIffSomeRequestThrew<E>(m: Index, chunks: seq<seq<string>>,
      fetch: seq<string> -> Reply<E>, entry: E -> (string, seq<string>))
    ensures WalkChunks(m, chunks, fetch, entry).None?
        <==> exists k :: 0 <= k < |chunks| && fetch(chunks[k]).Threw?
    decreases |chunks|
  {
    if chunks != [] {
      var m' := match fetch(chunks[0]) case Ok(es) => RecordEntries(m, es.GetOr([]), entry) case _ => m;
      WalkFailsIffSomeRequestThrew(m', chunks[1..], fetch, entry);
      if exists k :: 0 <= k < |chunks[1..]| && fetch(chunks[1..][k]).Threw? {
        var k :| 0 <= k < |chunks[1..]| && fetch(chunks[1..][k]).Threw?;
        assert fetch(chunks[k + 1]).Threw?;
      }
      if exists k :: 0 <= k < |chunks| && fetch(chunks[k]).Threw? {
        var k :| 0 <= k < |chunks| && fetch(chunks[k]).Threw?;
        if k > 0 { assert fetch(chunks[1..][k - 1]).Threw?; }
      }
    }
  }

  /** Recording entries whose values all satisfy `p` keeps "every value
      satisfies `p`" and keeps keys unique. */
  lemma {:induction false} RecordEntriesKeeps<E>(m: Index, es: seq<E>, entry: E -> (string, seq<string>),
      p: seq<string> -> bool)
    requires UniqueKeys(m) && forall i :: 0 <= i < |m| ==> p(m[i].1)
    requires forall i :: 0 <= i < |es| ==> p(entry(es[i]).1)
    ensures var r := RecordEntries(m, es, entry);
      UniqueKeys(r) && forall i :: 0 <= i < |r| ==> p(r[i].1)
    decreases |es|
  {
    if es != [] {
      var kv := entry(es[0]);
      var m' := Set(m, kv.0, kv.1);
      SetKeepsKeysUnique(m, kv.0, kv.1);
      forall i | 0 <= i < |m'| ensures p(m'[i].1) {
        GetEntry(m', i);
        if m'[i].0 != kv.0 {
          GetSetOther(m, kv.0, kv.1, m'[i].0);
          var j :| 0 <= j < |m| && m[j] == (m'[i].0, m'[i].1);
        }
      }
      RecordEntriesKeeps(m', es[1..], entry, p);
    }
  }

  lemma {:induction false} WalkKeeps<E>(m: Index, chunks: seq<seq<string>>, fetch: seq<string> -> Reply<E>,
      entry: E -> (string, seq<string>), p: seq<string> -> bool)
    requires UniqueKeys(m) && forall i :: 0 <= i < |m| ==> p(m[i].1)
    requires forall e: E :: p(entry(e).1)
    ensures var r := WalkChunks(m, chunks, fetch, entry);
      r.Some? ==> UniqueKeys(r.value) && forall i :: 0 <= i < |r.value| ==> p(r.value[i].1)
    decreases |chunks|
  {
    if chunks != [] {
      match fetch(chunks[0]) {
        case Threw =>
        case NotOk => WalkKeeps(m, chunks[1..], fetch, entry, p);
        case Ok(es) =>
          RecordEntriesKeeps(m, es.GetOr([]), entry, p);
          WalkKeeps(RecordEntries(m, es.GetOr([]), entry), chunks[1..], fetch, entry, p);
      }
    }
  }

  /** Each artist's genre list in the result holds at most five genres. */
  lemma ArtistsGenresCapped(artistIds: seq<string>, artistsApi: seq<string> -> Reply<ArtistEntry>)
    ensures var r := ArtistsGenres(artistIds, artistsApi);
      r.Some? ==> UniqueKeys(r.value) && forall i :: 0 <= i < |r.value| ==> |r.value[i].1| <= GenreCap
  {
    WalkKeeps([], Chunks(Dedup(artistIds), ArtistChunkSize), artistsApi, ArtistGenres,
              (gs: seq<string>) => |gs| <= GenreCap);
  }

  /** Album ids go out in requests of at most 20 consecutive ids, covering
      every id once; artist ids go out de-duplicated, at most 50 per request,
      each distinct id in exactly one request. */
  lemma RequestsCoverIds(albumIds: seq<string>, artistIds: seq<string>, x: string, c1: nat, c2: nat)
    ensures Flatten(Chunks(albumIds, AlbumChunkSize)) == albumIds
    ensures forall c :: c in Chunks(albumIds, AlbumChunkSize) ==> 0 < |c| <= AlbumChunkSize
    ensures Flatten(Chunks(Dedup(artistIds), ArtistChunkSize)) == Dedup(artistIds)
    ensures forall c :: c in Chunks(Dedup(artistIds), ArtistChunkSize) ==> 0 < |c| <= ArtistChunkSize
    ensures var cs := Chunks(Dedup(artistIds), ArtistChunkSize);
      c1 < |cs| && c2 < |cs| && x in cs[c1] && x in cs[c2] ==> c1 == c2
  {
    ChunksFlatten(albumIds, AlbumChunkSize);
    ChunksSized(albumIds, AlbumChunkSize);
    ChunksFlatten(Dedup(artistIds), ArtistChunkSize);
    ChunksSized(Dedup(artistIds), ArtistChunkSize);
    var cs := Chunks(Dedup(artistIds), ArtistChunkSize);
    if c1 < |cs| && c2 < |cs| && x in cs[c1] && x in cs[c2] {
      ChunksDisjoint(Dedup(artistIds), ArtistChunkSize, x, c1, c2);
    }
  }

  // ---------------------------------------------------------------------
  // Genre merge per album

  /** The genres of an album's artists, artist after artist, each artist's
      own list in order; an artist without an entry contributes nothing
      (`genresByArtist.get(aid) || []`). */
  function ArtistGenreStream(artistIds: seq<string>, genresByArtist: Index): seq<string>
    decreases |artistIds|
  {
    if artistIds == [] then []
    else ArtistGenreStream(artistIds[..|artistIds| - 1], genresByArtist)
         + Get(genresByArtist, artistIds[|artistIds| - 1]).GetOr([])
  }

  /** `Array.from(gset).slice(0, 5)` once every genre has been added. */
  function MergedGenres(artistIds: seq<string>, genresByArtist: Index): seq<string> {
    Take(Dedup(ArtistGenreStream(artistIds, genresByArtist)), GenreCap)
  }

  /** `genres.forEach((g) => gset.add(g))` on an insertion-ordered set
      holding the distinct elements of `seen`. */
  method AddAll(gset: seq<string>, ghost seen: seq<string>, genres: seq<string>) returns (gset': seq<string>)
    requires gset == Dedup(seen)
    ensures gset' == Dedup(seen + genres)
  {
    gset' := gset;
    var j := 0;
    assert seen + genres[..0] == seen;
    while j < |genres|
      invariant 0 <= j <= |genres|
      invariant gset' == Dedup(seen + genres[..j])
    {
      ghost var s := seen + genres[..j + 1];
      assert s[..|s| - 1] == seen + genres[..j] && s[|s| - 1] == genres[j];
      if genres[j] !in gset' {
        gset' := gset' + [genres[j]];
      }
      j := j + 1;
    }
    assert genres[..|genres|] == genres;
  }

  /** The body of the per-album callback: add every genre of every artist to
      an insertion-ordered set, then keep its first five members. */
  method MergeAlbumGenres(artistIds: seq<string>, genresByArtist: Index) returns (genres: seq<string>)
    ensures genres == MergedGenres(artistIds, genresByArtist)
  {
    var gset: seq<string> := [];
    var i := 0;
    while i < |artistIds|
      invariant 0 <= i <= |artistIds|
      invariant gset == Dedup(ArtistGenreStream(artistIds[..i], genresByArtist))
    {
      var gs := Get(genresByArtist, artistIds[i]).GetOr([]);
      gset := AddAll(gset, ArtistGenreStream(artistIds[..i], genresByArtist), gs);
      assert artistIds[..i + 1][..i] == artistIds[..i];
      i := i + 1;
    }
    assert artistIds[..|artistIds|] == artistIds;
    genres := Take(gset, GenreCap);
  }

  /** The `[albId, genres]` pair built for one album. */
  function MergeEntry(genresByArtist: Index): ((string, seq<string>)) -> (string, seq<string>) {
    (e: (string, seq<string>)) => (e.0, MergedGenres(e.1, genresByArtist))
  }

  /** `new Map(Array.from(artistsByAlbum.entries()).map(...))`. */
  function GenresByAlbum(artistsByAlbum: Index, genresByArtist: Index): Index {
    RecordEntries([], artistsByAlbum, MergeEntry(genresByArtist))
  }

  method MergeGenresByAlbum(artistsByAlbum: Index, genresByArtist: Index) returns (genresByAlbum: Index)
    ensures genresByAlbum == GenresByAlbum(artistsByAlbum, genresByArtist)
  {
    genresByAlbum := [];
    var i := 0;
    while i < |artistsByAlbum|
      invariant 0 <= i <= |artistsByAlbum|
      invariant RecordEntries(genresByAlbum, artistsByAlbum[i..], MergeEntry(genresByArtist))
             == GenresByAlbum(artistsByAlbum, genresByArtist)
    {
      assert artistsByAlbum[i..][1..] == artistsByAlbum[i + 1..];
      var genres := MergeAlbumGenres(artistsByAlbum[i].1, genresByArtist);
      genresByAlbum := Set(genresByAlbum, artistsByAlbum[i].0, genres);
      i := i + 1;
    }
  }

  /** Every merged genre belongs to one of the album's artists. */
  lemma {:induction false} StreamGenreHasArtist(artistIds: seq<string>, genresByArtist: Index, g: string)
      returns (k: nat)
    requires g in ArtistGenreStream(artistIds, genresByArtist)
    ensures k < |artistIds| && g in Get(genresByArtist, artistIds[k]).GetOr([])
    decreases |artistIds|
  {
    var init := artistIds[..|artistIds| - 1];
    if g in ArtistGenreStream(init, genresByArtist) {
      k := StreamGenreHasArtist(init, genresByArtist, g);
    } else {
      k := |artistIds| - 1;
    }
  }

  /** An album's merged genres: at most five, no repeats, each one a genre of
      one of its artists, listed in the order they were first met, and the
      first five distinct ones (all of them when there are fewer). */
  lemma MergedGenresSpec(artistIds: seq<string>, genresByArtist: Index, i: nat, j: nat)
    ensures var r := MergedGenres(artistIds, genresByArtist);
      var distinct := Dedup(ArtistGenreStream(artistIds, genresByArtist));
      |r| == (if |distinct| < GenreCap then |distinct| else GenreCap) && NoDuplicates(r)
      && r == distinct[..|r|]
      && (|distinct| <= GenreCap ==> r == distinct)
      && (i < |r| ==> exists k :: 0 <= k < |artistIds| && r[i] in Get(genresByArtist, artistIds[k]).GetOr([]))
      && (i < j < |r| ==>
            FirstIndex(ArtistGenreStream(artistIds, genresByArtist), r[i])
            < FirstIndex(ArtistGenreStream(artistIds, genresByArtist), r[j]))
  {
    var stream := ArtistGenreStream(artistIds, genresByArtist);
    var r := MergedGenres(artistIds, genresByArtist);
    var distinct := Dedup(stream);
    if i < |r| {
      assert r[i] == distinct[i];
      var k := StreamGenreHasArtist(artistIds, genresByArtist, r[i]);
      if i < j < |r| {
        assert r[j] == distinct[j];
        DedupFirstSeenOrder(stream, i, j);
      }
    }
  }

  /** Recording entries with pairwise distinct keys makes `get` find, for
      each of them, the value recorded for it. */
  lemma {:induction false} RecordEntriesGet<E>(m: Index, es: seq<E>, entry: E -> (string, seq<string>), i: nat)
    requires i < |es|
    requires forall a, b :: 0 <= a < b < |es| ==> entry(es[a]).0 != entry(es[b]).0
    ensures Get(RecordEntries(m, es, entry), entry(es[i]).0) == Some(entry(es[i]).1)
    decreases |es|
  {
    var kv := entry(es[0]);
    var m' := Set(m, kv.0, kv.1);
    var tail := es[1..];
    assert RecordEntries(m, es, entry) == RecordEntries(m', tail, entry);
    if i == 0 {
      forall a | 0 <= a < |tail| ensures entry(tail[a]).0 != kv.0 {
        assert tail[a] == es[a + 1];
      }
      RecordEntriesOther(m', tail, entry, kv.0);
    } else {
      forall a, b | 0 <= a < b < |tail| ensures entry(tail[a]).0 != entry(tail[b]).0 {
        assert tail[a] == es[a + 1] && tail[b] == es[b + 1];
      }
      assert tail[i - 1] == es[i];
      RecordEntriesGet(m', tail, entry, i - 1);
    }
  }

  lemma {:induction false} RecordEntriesOther<E>(m: Index, es: seq<E>, entry: E -> (string, seq<string>), k: string)
    requires forall a :: 0 <= a < |es| ==> entry(es[a]).0 != k
    ensures Get(RecordEntries(m, es, entry), k) == Get(m, k)
    decreases |es|
  {
    if es != [] {
      var kv := entry(es[0]);
      GetSetOther(m, kv.0, kv.1, k);
      RecordEntriesOther(Set(m, kv.0, kv.1), es[1..], entry, k);
    }
  }

  /** Looking an album up in the merged map gives the merge of exactly its
      own artists' genres. */
  lemma GenresByAlbumGet(artistsByAlbum: Index, genresByArtist: Index, i: nat)
    requires UniqueKeys(artistsByAlbum) && i < |artistsByAlbum|
    ensures Get(GenresByAlbum(artistsByAlbum, genresByArtist), artistsByAlbum[i].0)
         == Some(MergedGenres(artistsByAlbum[i].1, genresByArtist))
  {
    RecordEntriesGet([], artistsByAlbum, MergeEntry(genresByArtist), i);
  }

  // ---------------------------------------------------------------------
  // The enrichment block of the suggest route

  /** What the `try { ... } catch {}` block leaves in `genresByAlbum`: the
      merged genres when both fetches completed, an empty map when either
      threw. */
  function EnrichedGenres(candidateIds: seq<string>, albumsApi: seq<string> -> Reply<AlbumEntry>,
                          artistsApi: seq<string> -> Reply<ArtistEntry>): Index
  {
    match AlbumsArtists(candidateIds, albumsApi)
    case None => []
    case Some(artistsByAlbum) =>
      match ArtistsGenres(Flatten(Values(artistsByAlbum)), artistsApi)
      case None => []
      case Some(genresByArtist) => GenresByAlbum(artistsByAlbum, genresByArtist)
  }

  /** `artistsByAlbum.forEach((arr) => allArtistIds.push(...arr))`. */
  method CollectArtistIds(artistsByAlbum: Index) returns (allArtistIds: seq<string>)
    ensures allArtistIds == Flatten(Values(artistsByAlbum))
  {
    allArtistIds := [];
    var vs := Values(artistsByAlbum);
    var i := 0;
    while i < |artistsByAlbum|
      invariant 0 <= i <= |artistsByAlbum|
      invariant allArtistIds + Flatten(vs[i..]) == Flatten(vs)
    {
      assert vs[i..][1..] == vs[i + 1..];
      allArtistIds := allArtistIds + artistsByAlbum[i].1;
      i := i + 1;
    }
  }

  method EnrichGenres(candidateIds: seq<string>, albumsApi: seq<string> -> Reply<AlbumEntry>,
                      artistsApi: seq<string> -> Reply<ArtistEntry>) returns (genresByAlbum: Index)
    ensures genresByAlbum == EnrichedGenres(candidateIds, albumsApi, artistsApi)
  {
    genresByAlbum := [];
    var artistsByAlbum := FetchAlbumsArtists(candidateIds, albumsApi);
    if artistsByAlbum.None? {
      return;
    }
    var entries := artistsByAlbum.value;
    var allArtistIds := CollectArtistIds(entries);
    var genresByArtist := FetchArtistsGenres(allArtistIds, artistsApi);
    if genresByArtist.None? {
      return;
    }
    genresByAlbum := MergeGenresByAlbum(entries, genresByArtist.value);
  }

  /** Merging keeps every album's genre list at most five long and free of
      repeats, and lists each album once. */
  lemma GenresByAlbumCapped(artistsByAlbum: Index, genresByArtist: Index)
    ensures var r := GenresByAlbum(artistsByAlbum, genresByArtist);
      UniqueKeys(r) && forall i :: 0 <= i < |r| ==> |r[i].1| <= GenreCap && NoDuplicates(r[i].1)
  {
    var p := (gs: seq<string>) => |gs| <= GenreCap && NoDuplicates(gs);
    forall i | 0 <= i < |artistsByAlbum|
      ensures p(MergeEntry(genresByArtist)(artistsByAlbum[i]).1)
    {
      MergedGenresSpec(artistsByAlbum[i].1, genresByArtist, 0, 0);
    }
    RecordEntriesKeeps([], artistsByAlbum, MergeEntry(genresByArtist), p);
  }

  /** Every album's genre list after enrichment holds at most five distinct
      genres, and no album is listed twice. */
  lemma EnrichedGenresCapped(candidateIds: seq<string>, albumsApi: seq<string> -> Reply<AlbumEntry>,
                             artistsApi: seq<string> -> Reply<ArtistEntry>)
    ensures var r := EnrichedGenres(candidateIds, albumsApi, artistsApi);
      UniqueKeys(r) && forall i :: 0 <= i < |r| ==> |r[i].1| <= GenreCap && NoDuplicates(r[i].1)
  {
    match AlbumsArtists(candidateIds, albumsApi)
    case None =>
    case Some(artistsByAlbum) =>
      match ArtistsGenres(Flatten(Values(artistsByAlbum)), artistsApi)
      case None =>
      case Some(genresByArtist) => GenresByAlbumCapped(artistsByAlbum, genresByArtist);
  }
}
