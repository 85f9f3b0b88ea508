/** The pure steps of `POST /api/crates/suggest`: request normalisation,
    candidate exclusion, the prompt line of a candidate and the filtering and
    enrichment of the suggestions the completion API returns. */
module Suggest {
  import opened Wrappers
  import opened Seqs
  import opened Text
  import opened JsonValue
  import opened OrderedMap

  const MinLimit: real := 1.0
  const MaxLimit: real := 500.0
  const MaxOffset: real := 5000.0
  /** At most this many suggestions are returned. */
  const MaxSuggestions: nat := 30

  // ---------------------------------------------------------------------
  // Body normalisation

  function Min(a: real, b: real): real { if a <= b then a else b }
  function Max(a: real, b: real): real { if a >= b then a else b }

  /** `Math.max(1, Math.min(500, body.limit ?? 500))`. */
  function ClampLimit(limit: Option<real>): (r: real)
    ensures MinLimit <= r <= MaxLimit
    ensures limit.None? ==> r == MaxLimit
    ensures limit.Some? && MinLimit <= limit.value <= MaxLimit ==> r == limit.value
    ensures limit.Some? && limit.value < MinLimit ==> r == MinLimit
    ensures limit.Some? && limit.value > MaxLimit ==> r == MaxLimit
  {
    Max(MinLimit, Min(MaxLimit, limit.GetOr(MaxLimit)))
  }

  /** `Math.max(0, Math.min(5000, body.offset ?? 0))`. */
  function ClampOffset(offset: Option<real>): (r: real)
    ensures 0.0 <= r <= MaxOffset
    ensures offset.None? ==> r == 0.0
    ensures offset.Some? && 0.0 <= offset.value <= MaxOffset ==> r == offset.value
    ensures offset.Some? && offset.value < 0.0 ==> r == 0.0
    ensures offset.Some? && offset.value > MaxOffset ==> r == MaxOffset
  {
    Max(0.0, Min(MaxOffset, offset.GetOr(0.0)))
  }

  /** The outcome of `(body.crate_id || "").trim()`: the trimmed id, or a
      `TypeError` when a truthy non-string has no `trim` method. */
  datatype CrateIdOutcome = Trimmed(id: string) | NotAString

  function NormalizeCrateId(v: Json): (r: CrateIdOutcome)
    ensures !Truthy(v) ==> r == Trimmed("")
    ensures v.JStr? ==> r == Trimmed(Trim(v.s))
    ensures r.NotAString? <==> Truthy(v) && !v.JStr?
  {
    if !Truthy(v) then Trimmed(Trim(""))
    else if v.JStr? then Trimmed(Trim(v.s))
    else NotAString
  }

  /** A string `crate_id` is rejected with 400 exactly when it is empty or
      whitespace only. */
  lemma CrateIdBlankIffRejected(s: string)
    ensures NormalizeCrateId(JStr(s)) == Trimmed("") <==> AllWhitespace(s)
  {
    TrimEmptyIffBlank(s);
    TrimEmptyIffBlank("");
    assert NormalizeCrateId(JStr(s)) == Trimmed(Trim(s));
  }

  // ---------------------------------------------------------------------
  // Candidates

  /** A row of `saved_albums` selected as a candidate. */
  datatype Candidate = Candidate(albumId: string, albumName: string, artistName: string, releaseYear: Option<int>)

  function Ids(cs: seq<Candidate>): (ids: seq<string>)
    ensures |ids| == |cs| && forall i :: 0 <= i < |cs| ==> ids[i] == cs[i].albumId
  {
    if cs == [] then [] else [cs[0].albumId] + Ids(cs[1..])
  }

  /** `candidatesRaw.filter((c) => !excluded.has(c.album_id))`: the raw rows,
      in their order, without those whose id is excluded. */
  function ExcludeCandidates(raw: seq<Candidate>, excludeList: seq<string>): (r: seq<Candidate>)
    ensures IsSubsequence(r, raw)
    ensures forall i :: 0 <= i < |r| ==> r[i].albumId !in excludeList
    ensures forall i :: 0 <= i < |raw| && raw[i].albumId !in excludeList ==> raw[i] in r
  {
    Filter(raw, (c: Candidate) => c.albumId !in excludeList)
  }

  /** An empty (or absent) `exclude_album_ids` keeps every raw row. */
  lemma ExcludeNothing(raw: seq<Candidate>)
    ensures ExcludeCandidates(raw, []) == raw
  {
    FilterAll(raw, (c: Candidate) => c.albumId !in []);
  }

  // ---------------------------------------------------------------------
  // Prompt lines

  /** `c.release_year ? ` (${c.release_year})` : ""`; 0 and `null` are falsy. */
  function YearPart(year: Option<int>): string {
    if year.Some? && year.value != 0 then " (" + IntToString(year.value) + ")" else ""
  }

  /** `genres && genres.length > 0 ? ` [genres: ${genres.join("; ")}]` : ""`. */
  function GenrePart(genres: Option<seq<string>>): string {
    if genres.Some? && |genres.value| > 0 then " [genres: " + Join(genres.value, "; ") + "]" else ""
  }

  /** `${c.album_id} | ${c.album_name} — ${c.artist_name}`. */
  function LineHead(c: Candidate): string {
    c.albumId + " | " + c.albumName + " \U{2014} " + c.artistName
  }

  /** One candidate's line in the prompt. */
  function PromptLine(c: Candidate, genres: Option<seq<string>>): string {
    LineHead(c) + YearPart(c.releaseYear) + GenrePart(genres)
  }

  /** `candidates.map(...)`: one line per candidate, in order, each one
      opening with the candidate's id, the only thing the model may answer
      with. */
  function PromptLines(candidates: seq<Candidate>, genresByAlbum: OMap<string, seq<string>>): (lines: seq<string>)
    ensures |lines| == |candidates|
    ensures forall i :: 0 <= i < |lines| ==>
      var id := candidates[i].albumId; |lines[i]| >= |id| + 3 && lines[i][..|id| + 3] == id + " | "
  {
    seq(|candidates|, i requires 0 <= i < |candidates| =>
      PromptLine(candidates[i], Get(genresByAlbum, candidates[i].albumId)))
  }

  /** The year segment is there exactly when the year is truthy, and its
      digits read back as the year. */
  lemma YearPartDecodes(year: Option<int>)
    ensures var p := YearPart(year);
      (p != "" <==> year.Some? && year.value != 0)
      && (p != "" ==>
            |p| >= 4 && p[..2] == " (" && p[|p| - 1] == ')'
            && var digits := p[2..|p| - 1];
               digits != [] && (AllDigits(digits) || (digits[0] == '-' && AllDigits(digits[1..])))
               && ParseInt(digits) == year.value)
  {
    if year.Some? && year.value != 0 {
      IntToStringRoundTrip(year.value);
      var p := YearPart(year);
      assert p[2..|p| - 1] == IntToString(year.value);
    }
  }

  /** The genre segment is there exactly when the album has genres, and the
      list between `[genres: ` and `]` reads back as those genres when none
      of them contains a `;`. */
  lemma GenrePartDecodes(genres: Option<seq<string>>)
    requires genres.Some? ==> forall k :: 0 <= k < |genres.value| ==> ';' !in genres.value[k]
    ensures var p := GenrePart(genres);
      (p != "" <==> genres.Some? && |genres.value| > 0)
      && (p != "" ==>
            |p| >= 11 && p[..10] == " [genres: " && p[|p| - 1] == ']'
            && SplitSemicolonList(p[10..|p| - 1]) == genres.value)
  {
    if genres.Some? && |genres.value| > 0 {
      JoinSplitRoundTrip(genres.value);
      var p := GenrePart(genres);
      assert p[10..|p| - 1] == Join(genres.value, "; ");
    }
  }

  // ---------------------------------------------------------------------
  // Suggestions returned by the completion API

  /** `s && typeof s.album_id === "string" && candidateSet.has(s.album_id)`. */
  predicate Admissible(s: Json, candidateIds: seq<string>) {
    Truthy(s) && Field(s, "album_id").JStr? && Field(s, "album_id").s in candidateIds
  }

  /** `.filter(admissible).slice(0, 30)`: the first 30 admissible
      suggestions, in the model's order, or all of them when there are
      fewer. */
  function KeptSuggestions(parsed: seq<Json>, candidates: seq<Candidate>): (kept: seq<Json>)
    ensures var admissible := Filter(parsed, (s: Json) => Admissible(s, Ids(candidates)));
      |kept| == (if |admissible| < MaxSuggestions then |admissible| else MaxSuggestions)
      && kept == admissible[..|kept|]
    ensures IsSubsequence(kept, parsed)
    ensures forall i :: 0 <= i < |kept| ==> Admissible(kept[i], Ids(candidates))
    ensures |Filter(parsed, (s: Json) => Admissible(s, Ids(candidates)))| <= MaxSuggestions ==>
      forall i :: 0 <= i < |parsed| && Admissible(parsed[i], Ids(candidates)) ==> parsed[i] in kept
  {
    var admissible := Filter(parsed, (s: Json) => Admissible(s, Ids(candidates)));
    var kept := Take(admissible, MaxSuggestions);
    SubsequencePrefix(admissible, parsed, |kept|);
    kept
  }

  /** `infoById`: `new Map(candidates.map((c) => [c.album_id, c]))`; a later
      candidate with the same id replaces an earlier one. */
  function InfoById(candidates: seq<Candidate>): OMap<string, Candidate>
    decreases |candidates|
  {
    if candidates == [] then []
    else
      var last := candidates[|candidates| - 1];
      Set(InfoById(candidates[..|candidates| - 1]), last.albumId, last)
  }

  /** The last candidate carrying `id`, if any. */
  function LastWith(candidates: seq<Candidate>, id: string): Option<Candidate>
    decreases |candidates|
  {
    if candidates == [] then None
    else if candidates[|candidates| - 1].albumId == id then Some(candidates[|candidates| - 1])
    else LastWith(candidates[..|candidates| - 1], id)
  }

  /** `j` is the position of the last candidate carrying `id`. */
  predicate IsLastWith(candidates: seq<Candidate>, id: string, j: int) {
    0 <= j < |candidates| && candidates[j].albumId == id
    && forall k :: j < k < |candidates| ==> candidates[k].albumId != id
  }

  lemma {:induction false} LastWithSpec(candidates: seq<Candidate>, id: string)
    ensures LastWith(candidates, id).None? <==> id !in Ids(candidates)
    ensures LastWith(candidates, id).Some? ==>
      exists j :: IsLastWith(candidates, id, j) && LastWith(candidates, id) == Some(candidates[j])
    decreases |candidates|
  {
    if candidates != [] {
      var n := |candidates|;
      var init := candidates[..n - 1];
      var ids := Ids(candidates);
      assert ids == Ids(init) + [candidates[n - 1].albumId];
      if candidates[n - 1].albumId == id {
        assert ids[n - 1] == id;
        assert IsLastWith(candidates, id, n - 1);
      } else {
        LastWithSpec(init, id);
        assert (id in ids) == (id in Ids(init));
        if LastWith(init, id).Some? {
          var j :| IsLastWith(init, id, j) && LastWith(init, id) == Some(init[j]);
          LastWithExtends(candidates, id, j);
          assert candidates[j] == init[j];
        }
      }
    }
  }

  /** The last carrier of `id` among all but the final candidate stays the
      last when the final one carries another id. */
  lemma LastWithExtends(candidates: seq<Candidate>, id: string, j: int)
    requires candidates != [] && candidates[|candidates| - 1].albumId != id
    requires IsLastWith(candidates[..|candidates| - 1], id, j)
    ensures IsLastWith(candidates, id, j)
  {
  }

  /** `infoById.get(id)` is the last candidate carrying `id`: nothing for an
      id no candidate carries. */
  lemma {:induction false} InfoByIdGet(candidates: seq<Candidate>, id: string)
    ensures Get(InfoById(candidates), id) == LastWith(candidates, id)
    decreases |candidates|
  {
    if candidates != [] {
      var n := |candidates|;
      var last := candidates[n - 1];
      InfoByIdGet(candidates[..n - 1], id);
      if last.albumId != id {
        GetSetOther(InfoById(candidates[..n - 1]), last.albumId, last, id);
      }
    }
  }

  /** A suggestion as returned to the client. */
  datatype Suggestion = Suggestion(
    albumId: string,
    score: Option<real>,
    reason: Option<Json>,
    albumName: string,
    artistName: string,
    releaseYear: Option<int>)

  /** One element of `enriched`: id, score and reason from the model's
      answer, display fields from the candidate with that id. */
  function EnrichSuggestion(s: Json, candidates: seq<Candidate>): (r: Suggestion)
    requires Admissible(s, Ids(candidates))
    ensures r.albumId == Field(s, "album_id").s && r.albumId in Ids(candidates)
    ensures r.score == if Field(s, "score").JNum? then Some(Field(s, "score").n) else None
    ensures r.reason == if Truthy(Field(s, "reason")) then Some(Field(s, "reason")) else None
    ensures exists j ::
      (IsLastWith(candidates, r.albumId, j)
       && r.albumName == candidates[j].albumName && r.artistName == candidates[j].artistName
       && r.releaseYear == candidates[j].releaseYear)
  {
    var id := Field(s, "album_id").s;
    InfoByIdGet(candidates, id);
    LastWithSpec(candidates, id);
    var info := Get(InfoById(candidates), id).value;
    var score := Field(s, "score");
    var reason := Field(s, "reason");
    Suggestion(
      id,
      if score.JNum? then Some(score.n) else None,
      if Truthy(reason) then Some(reason) else None,
      info.albumName,
      info.artistName,
      info.releaseYear)
  }

  /** The `suggestions` of the response: at most 30, each naming a candidate
      and carrying that candidate's display fields, in the order the model
      gave them. */
  function FilterSuggestions(parsed: seq<Json>, candidates: seq<Candidate>): (r: seq<Suggestion>)
    ensures |r| <= MaxSuggestions
    ensures forall i :: 0 <= i < |r| ==> r[i].albumId in Ids(candidates)
    ensures |r| == |KeptSuggestions(parsed, candidates)|
    ensures forall i :: 0 <= i < |r| ==> r[i].albumId == Field(KeptSuggestions(parsed, candidates)[i], "album_id").s
  {
    var kept := KeptSuggestions(parsed, candidates);
    seq(|kept|, i requires 0 <= i < |kept| => EnrichSuggestion(kept[i], candidates))
  }
}
