/** The handler of `POST /api/crates/suggest` as a function of the server
    environment, the session, the parsed body and the services it calls.
    Each service is a parameter: Spotify's `/me`, the `crates` and
    `saved_albums` queries, the two Spotify batch endpoints, the completion
    API and `JSON.parse`. */
module SuggestRoute {
  import opened Wrappers
  import opened Text
  import opened JsonValue
  import opened OrderedMap
  import opened Requests
  import opened Suggest
  import Enrichment

  const MissingKeyMessage: string := "OPENAI_API_KEY is not set on the server"
  const CrateIdRequiredMessage: string := "crate_id is required"
  const NonJsonMessage: string := "LLM returned non-JSON content"

  const SystemMessage: string :=
    "You are an expert music curator. Your task is view a list of album names, and decide which ones could "
    + "reasonably fit into the genre provided.\n\nRules:\n- Output valid JSON only.\n- Prefer high precision "
    + "(fewer false positives).\n- Return at most 30 suggestions.\n- Provide a score between 0 and 1 and a "
    + "short reason.\n- Only include album_ids from the candidate list.\n- Do not invent ids."

  /** The fields of the request body the handler reads; `limit` and `offset`
      are JSON numbers or absent. */
  datatype SuggestRequest = SuggestRequest(crateId: Json, limit: Option<real>, offset: Option<real>, excludeAlbumIds: Json)

  /** What `await req.json()` yields: an error, `null`, or a value whose
      fields are read (a non-object body reads as all fields absent). */
  datatype Body = Unparsable | NullBody | Fields(request: SuggestRequest)

  /** A row of `crates`; a `null` description reads as "". */
  datatype CrateRow = CrateRow(userId: string, name: string, description: string)

  /** The completion API call: a thrown error (network, non-JSON reply), a
      non-2xx status with the reply's `error.message`, or the content of the
      first choice. */
  datatype Completion = Threw(message: string) | NotOk(status: nat, errorMessage: Option<string>) | Answered(content: Option<string>)

  /** The `200` body: `{suggestions, candidates_count}`. */
  datatype SuggestBody = SuggestBody(suggestions: seq<Suggestion>, candidatesCount: nat)

  datatype Services = Services(
    me: string -> Upstream<string>,
    crate: string -> Upstream<Option<CrateRow>>,
    /** `saved_albums` rows of a user with no crate, newest first, in the
        inclusive range of positions given. */
    savedAlbums: (string, real, real) -> Upstream<seq<Candidate>>,
    albumsApi: seq<string> -> Enrichment.Reply<Enrichment.AlbumEntry>,
    artistsApi: seq<string> -> Enrichment.Reply<Enrichment.ArtistEntry>,
    /** Given the system and the user message. */
    completion: (string, string) -> Completion,
    parseJson: string -> Option<Json>)

  function ExcludedNote(excludeList: seq<string>): string {
    if |excludeList| > 0 then "\nAvoid suggesting these album_ids (already reviewed): " + Join(excludeList, ",") else ""
  }

  /** The fixed parts of the user message: the line format and the expected
      answer shape. */
  const CandidatesHeader: string := "Candidates (format: album_id | title \U{2014} artist (year) [genres: g1; g2; ...]):\n"
  const AnswerShape: string := "\n\nReturn JSON: {\"suggestions\": [{\"album_id\": \"...\", \"score\": 0.0, \"reason\": \"...\"}]}"

  /** The user message: the crate as the target genre, one line per
      candidate, the exclusion note and the expected answer shape. */
  function UserMessage(crate: CrateRow, lines: seq<string>, excludeList: seq<string>): string {
    "Genre to match: " + crate.name + "\n"
    + "Context: " + (if crate.description == "" then "(none)" else crate.description) + "\n\n"
    + CandidatesHeader
    + Join(lines, "\n")
    + ExcludedNote(excludeList)
    + AnswerShape
  }

  /** What a successful answer can carry: at most 30 suggestions, each naming
      one of the candidates, and the number of candidates. */
  predicate AnswersFrom(body: SuggestBody, candidates: seq<Candidate>) {
    body.candidatesCount == |candidates|
    && |body.suggestions| <= MaxSuggestions
    && forall i :: 0 <= i < |body.suggestions| ==> body.suggestions[i].albumId in Ids(candidates)
  }

  /** `parsed.suggestions || []` filtered and enriched; reading a field of
      `null` and calling `filter` on a truthy non-array are `TypeError`s. */
  function Answer(parsed: Json, candidates: seq<Candidate>): (r: Response<SuggestBody>)
    ensures r.Ok? ==> AnswersFrom(r.body, candidates)
    ensures r.Error? <==> parsed.JNull? || (Truthy(Field(parsed, "suggestions")) && !Field(parsed, "suggestions").JArr?)
    ensures r.Error? ==> r == Error(500, TypeErrorMessage)
    ensures !parsed.JNull? && !Truthy(Field(parsed, "suggestions")) ==> r == Ok(SuggestBody([], |candidates|))
  {
    if parsed.JNull? then Error(500, TypeErrorMessage)
    else
      var suggestions := Field(parsed, "suggestions");
      if !Truthy(suggestions) then Ok(SuggestBody([], |candidates|))
      else if suggestions.JArr? then Ok(SuggestBody(FilterSuggestions(suggestions.items, candidates), |candidates|))
      else Error(500, TypeErrorMessage)
  }

  /** The completion's outcome as the handler's answer: every failure is a
      500 carrying the upstream message, or a fallback naming the status, or
      the malformed-output message. */
  function HandleCompletion(c: Completion, parseJson: string -> Option<Json>, candidates: seq<Candidate>): (r: Response<SuggestBody>)
    ensures r.Error? ==> r.status == 500
    ensures c.Threw? ==> r == Error(500, c.message)
    ensures c.NotOk? && Present(c.errorMessage) ==> r == Error(500, c.errorMessage.value)
    ensures c.NotOk? && !Present(c.errorMessage) ==> r == Error(500, "OpenAI error " + NatToString(c.status))
    ensures c.Answered? && Present(c.content) && parseJson(c.content.value).None? ==> r == Error(500, NonJsonMessage)
    ensures c.Answered? && !Present(c.content) ==> r == Ok(SuggestBody([], |candidates|))
    ensures r.Ok? ==> c.Answered? && AnswersFrom(r.body, candidates)
  {
    match c
    case Threw(message) => Error(500, message)
    case NotOk(status, errorMessage) =>
      Error(500, if Present(errorMessage) then errorMessage.value else "OpenAI error " + NatToString(status))
    case Answered(content) =>
      // An absent or empty content reads as "{}".
      var parsed := if Present(content) then parseJson(content.value) else Some(JObj(map[]));
      match parsed
      case None => Error(500, NonJsonMessage)
      case Some(v) => Answer(v, candidates)
  }

  /** A suggestion never names an excluded album: each one names a
      candidate, and no candidate is excluded. */
  lemma ExcludedNeverSuggested(body: SuggestBody, raw: seq<Candidate>, excludeList: seq<string>)
    requires AnswersFrom(body, ExcludeCandidates(raw, excludeList))
    ensures forall i :: 0 <= i < |body.suggestions| ==> body.suggestions[i].albumId !in excludeList
  {
    var candidates := ExcludeCandidates(raw, excludeList);
    forall i | 0 <= i < |body.suggestions|
      ensures body.suggestions[i].albumId !in excludeList
    {
      var k :| 0 <= k < |candidates| && Ids(candidates)[k] == body.suggestions[i].albumId;
      assert candidates[k].albumId !in excludeList;
    }
  }

  /** From the raw candidate rows on: exclusion, the empty answer, genre
      enrichment, the prompt and the completion. */
  function FromCandidates(caller: Caller, crate: CrateRow, raw: seq<Candidate>, excludeList: seq<string>,
                          s: Services): (r: Response<SuggestBody>)
    ensures r.Error? ==> r.status == 500
    ensures ExcludeCandidates(raw, excludeList) == [] ==> r == Ok(SuggestBody([], 0))
    ensures r.Ok? ==> |r.body.suggestions| <= MaxSuggestions
    ensures r.Ok? ==> forall i :: 0 <= i < |r.body.suggestions| ==> r.body.suggestions[i].albumId !in excludeList
  {
    var candidates := ExcludeCandidates(raw, excludeList);
    if candidates == [] then Ok(SuggestBody([], 0))
    else
      var r := Ask(caller, crate, candidates, excludeList, s);
      if r.Ok? then ExcludedNeverSuggested(r.body, raw, excludeList); r else r
  }

  /** Genre enrichment, the prompt and the completion for a non-empty list of
      candidates. */
  function Ask(caller: Caller, crate: CrateRow, candidates: seq<Candidate>, excludeList: seq<string>,
               s: Services): (r: Response<SuggestBody>)
    ensures r.Error? ==> r.status == 500
    ensures r.Ok? ==> AnswersFrom(r.body, candidates)
  {
    // Genres only with the caller's own Spotify token; a failed lookup
    // leaves them out.
    var genresByAlbum :=
      if caller.SignedIn? then Enrichment.EnrichedGenres(Ids(candidates), s.albumsApi, s.artistsApi)
      else [];
    var lines := PromptLines(candidates, genresByAlbum);
    HandleCompletion(s.completion(SystemMessage, UserMessage(crate, lines, excludeList)), s.parseJson, candidates)
  }

  /** Everything after the body checks: authorization, the user id, the
      crate's owner, the candidates, enrichment, the prompt and the answer. */
  function Handle(env: Env, caller: Caller, crateId: string, limit: real, offset: real, excludeList: seq<string>,
                  s: Services): (r: Response<SuggestBody>)
    ensures r.Error? ==> r.status in {401, 404, 500}
    ensures (r.Error? && r.status == 401) <==> caller.Anonymous?
    ensures r.Ok? ==> SupabaseConfigured(env) && !caller.Anonymous?
    ensures r.Ok? ==> |r.body.suggestions| <= MaxSuggestions
    ensures r.Ok? ==> forall i :: 0 <= i < |r.body.suggestions| ==> r.body.suggestions[i].albumId !in excludeList
  {
    if caller.Anonymous? then Error(401, UnauthorizedMessage)
    else
      var user := if caller.Bypass? then Done(caller.userId) else s.me(caller.accessToken);
      match user
      case Failed(message) => Error(500, message)
      case Done(userId) =>
        if !SupabaseConfigured(env) then Error(500, SupabaseMissingMessage)
        else
          match s.crate(crateId)
          case Failed(message) => Error(500, message)
          case Done(row) =>
            if row.None? || row.value.userId != userId then Error(404, CrateNotFoundMessage)
            else
              match s.savedAlbums(userId, offset, offset + limit - 1.0)
              case Failed(message) => Error(500, message)
              case Done(raw) =>
                FromCandidates(caller, row.value, raw, excludeList, s)
  }

  /** The body yields a non-blank crate id. */
  predicate CrateIdGiven(body: Body) {
    body.Fields? && NormalizeCrateId(body.request.crateId).Trimmed? && NormalizeCrateId(body.request.crateId).id != ""
  }

  /** `POST`: the completion key is checked before the body is read, a blank
      `crate_id` is a 400 before the caller is looked at, an anonymous caller
      a 401, and an answer only ever names candidates that were not
      excluded. */
  function Post(env: Env, session: Option<Session>, body: Body, s: Services): (r: Response<SuggestBody>)
    ensures !Present(env.openAiKey) ==> r == Error(500, MissingKeyMessage)
    ensures (r.Error? && r.status == 400) <==>
      Present(env.openAiKey) && body.Fields? && NormalizeCrateId(body.request.crateId) == Trimmed("")
    ensures (r.Error? && r.status == 401) <==>
      Present(env.openAiKey) && CrateIdGiven(body) && ResolveCaller(env, session).Anonymous?
    ensures r.Error? && r.status == 404 ==>
      Present(env.openAiKey) && CrateIdGiven(body) && !ResolveCaller(env, session).Anonymous?
    ensures r.Ok? ==> Present(env.openAiKey) && CrateIdGiven(body) && !ResolveCaller(env, session).Anonymous?
    ensures r.Ok? ==> |r.body.suggestions| <= MaxSuggestions
    ensures r.Ok? ==> forall i :: 0 <= i < |r.body.suggestions| ==>
      r.body.suggestions[i].albumId !in StringArray(body.request.excludeAlbumIds)
  {
    if !Present(env.openAiKey) then Error(500, MissingKeyMessage)
    else
      match body
      case Unparsable => Error(500, BodyErrorMessage)
      case NullBody => Error(500, TypeErrorMessage)
      case Fields(request) =>
        match NormalizeCrateId(request.crateId)
        case NotAString => Error(500, TypeErrorMessage)
        case Trimmed(crateId) =>
          if crateId == "" then Error(400, CrateIdRequiredMessage)
          else
            Handle(env, ResolveCaller(env, session), crateId, ClampLimit(request.limit), ClampOffset(request.offset),
                   StringArray(request.excludeAlbumIds), s)
  }

  /** A `crate_id` made only of whitespace is rejected with 400 whoever
      calls and whatever the services would answer. */
  lemma BlankCrateIdRejected(env: Env, session: Option<Session>, request: SuggestRequest, s: Services)
    requires Present(env.openAiKey) && request.crateId.JStr? && AllWhitespace(request.crateId.s)
    ensures Post(env, session, Fields(request), s) == Error(400, CrateIdRequiredMessage)
  {
    CrateIdBlankIffRejected(request.crateId.s);
    assert NormalizeCrateId(request.crateId) == Trimmed("");
  }

  /** With the development bypass the handler never calls Spotify: neither
      `/me` nor the enrichment endpoints influence the answer. */
  lemma BypassIgnoresSpotify(env: Env, userId: string, crateId: string, limit: real, offset: real,
                             excludeList: seq<string>, s: Services, s': Services)
    requires s'.crate == s.crate && s'.savedAlbums == s.savedAlbums
    requires s'.completion == s.completion && s'.parseJson == s.parseJson
    ensures Handle(env, Bypass(userId), crateId, limit, offset, excludeList, s)
         == Handle(env, Bypass(userId), crateId, limit, offset, excludeList, s')
  {
    forall crate: CrateRow, candidates: seq<Candidate>
      ensures Ask(Bypass(userId), crate, candidates, excludeList, s)
           == Ask(Bypass(userId), crate, candidates, excludeList, s')
    {
    }
  }

}
