/** The search action: which search mode asks for a query embedding, the
    search request each mode issues, and one session from start-up
    configuration to the request sent to the search index.

    The search index itself (ranking, vector search, reciprocal rank fusion,
    semantic reranking) is outside the model: a request is only assembled. */
module Search {
  import opened Wrappers
  import opened Text
  import opened Json
  import opened Embedding
  import Config
  import Reachability

  /** The four entries of the mode select box, as the app spells them. */
  const KeywordLabel := "Keyword"
  const VectorLabel := "Vector"
  const HybridLabel := "Hybrid"
  const SemanticLabel := "Semantic (Keyword + Semantic Reranking)"

  /** The fields every request selects. */
  const SelectFields := "movie_id,title,overview,tagline,genres"

  /** The index field vector queries target. */
  const VectorField := "embedding"

  /** The Azure query-type, caption and answer option values used in semantic mode. */
  const SemanticQueryType := "semantic"
  const Extractive := "extractive"

  /** A search mode, as a value rather than as its label. */
  datatype Mode = Keyword | Vector | Hybrid | Semantic

  function Label(m: Mode): string {
    match m
    case Keyword => KeywordLabel
    case Vector => VectorLabel
    case Hybrid => HybridLabel
    case Semantic => SemanticLabel
  }

  /** The mode a select-box choice stands for. */
  function ModeOf(choice: string): (m: Option<Mode>)
    ensures m.Some? ==> Label(m.value) == choice
    ensures forall k :: Label(k) == choice ==> m == Some(k)
  {
    if choice == KeywordLabel then Some(Keyword)
    else if choice == VectorLabel then Some(Vector)
    else if choice == HybridLabel then Some(Hybrid)
    else if choice == SemanticLabel then Some(Semantic)
    else None
  }

  /** The request table: which modes send the query text, which send a
      vector, and which ask for semantic reranking. */
  predicate SendsText(m: Mode) { m != Vector }
  predicate SendsVector(m: Mode) { m == Vector || m == Hybrid }
  predicate Reranks(m: Mode) { m == Semantic }

  /** The `VectorizedQuery` argument. */
  datatype VectorQuery = VectorQuery(vector: seq<Json>, kNearestNeighbors: int, fields: string)

  /** The semantic-search arguments. */
  datatype SemanticOptions = SemanticOptions(
    queryType: string,
    configurationName: Option<string>,
    queryCaption: string,
    queryAnswer: string)

  /** The arguments of one `search_client.search(...)` call. */
  datatype SearchRequest = SearchRequest(
    searchText: Option<string>,
    vectorQueries: seq<VectorQuery>,
    select: string,
    top: int,
    includeTotalCount: bool,
    semantic: Option<SemanticOptions>)

  /** Line 323: `"Vector" in search_mode or "Hybrid" in search_mode`. */
  predicate WantsEmbedding(choice: string) {
    Find(choice, "Vector").Some? || Find(choice, "Hybrid").Some?
  }

  /** Python truthiness of `vector_query`: present and non-empty. */
  predicate HasVector(v: Option<seq<Json>>) {
    v.Some? && |v.value| > 0
  }

  /** `req` is the request mode `m` issues for `query`, with `vector` when
      the mode sends one. */
  ghost predicate Conforms(req: SearchRequest, m: Mode, query: string, vector: Option<seq<Json>>,
                           topK: int, semanticConfiguration: Option<string>) {
    && req.select == SelectFields
    && req.top == topK
    && req.includeTotalCount
    && req.searchText == (if SendsText(m) then Some(query) else None)
    && (SendsVector(m) ==> vector.Some? && req.vectorQueries == [VectorQuery(vector.value, topK, VectorField)])
    && (!SendsVector(m) ==> req.vectorQueries == [])
    && req.semantic == (if Reranks(m) then Some(SemanticOptions(SemanticQueryType, semanticConfiguration, Extractive, Extractive))
                        else None)
  }

  /** The search-request choice at lines 339-389: a request for a known
      mode, unless that mode sends a vector and there is none. */
  function BuildSearch(choice: string, query: string, vector: Option<seq<Json>>, topK: int,
                       semanticConfiguration: Option<string>): (r: Option<SearchRequest>)
    ensures r.Some? <==> ModeOf(choice).Some? && (SendsVector(ModeOf(choice).value) ==> HasVector(vector))
    ensures r.Some? ==> Conforms(r.value, ModeOf(choice).value, query, vector, topK, semanticConfiguration)
  {
    if choice == KeywordLabel then
      Some(SearchRequest(Some(query), [], SelectFields, topK, true, None))
    else if choice == VectorLabel then
      if HasVector(vector) then
        Some(SearchRequest(None, [VectorQuery(vector.value, topK, VectorField)], SelectFields, topK, true, None))
      else None
    else if choice == HybridLabel then
      if HasVector(vector) then
        Some(SearchRequest(Some(query), [VectorQuery(vector.value, topK, VectorField)], SelectFields, topK, true, None))
      else None
    else if choice == SemanticLabel then
      Some(SearchRequest(Some(query), [], SelectFields, topK, true,
                         Some(SemanticOptions(SemanticQueryType, semanticConfiguration, Extractive, Extractive))))
    else None
  }

  lemma AbsentFirstCharacter(s: string, pat: string)
    requires |pat| > 0
    requires forall i :: 0 <= i < |s| ==> s[i] != pat[0]
    ensures !Contains(s, pat)
  {
    forall i | 0 <= i <= |s| - |pat|
      ensures !OccursAt(s, pat, i)
    {
      assert s[i..i + |pat|][0] == s[i];
    }
  }

  /** Exactly the modes that send a vector ask for an embedding: the
      substring test on the label agrees with the request table. */
  lemma WantsEmbeddingIffSendsVector(m: Mode)
    ensures WantsEmbedding(Label(m)) <==> SendsVector(m)
  {
    match m
    case Keyword =>
      AbsentFirstCharacter(KeywordLabel, "Vector");
      AbsentFirstCharacter(KeywordLabel, "Hybrid");
    case Vector =>
      assert OccursAt(VectorLabel, "Vector", 0);
    case Hybrid =>
      assert OccursAt(HybridLabel, "Hybrid", 0);
    case Semantic =>
      var s := SemanticLabel;
      forall i | 0 <= i < |s|
        ensures s[i] != 'V' && s[i] != 'H'
      {
      }
      AbsentFirstCharacter(s, "Vector");
      AbsentFirstCharacter(s, "Hybrid");
  }

  /** What one press of the search button did: the embedding requests sent,
      the search request issued, and whether an uncaught exception ended the
      run before the search. */
  datatype SearchRun = SearchRun(embeddingRequests: seq<PostRequest>, request: Option<SearchRequest>, crashed: bool)

  /** Lines 303-393: the query is embedded when the mode asks for it and the
      service was reachable, then the mode's request is built. */
  function RunSearch(cfg: Config.Config, choice: string, query: string, topK: int, ollamaReachable: bool,
                     send: PostRequest -> Transport): (run: SearchRun)
    ensures query == "" ==> run == SearchRun([], None, false)
    ensures run.embeddingRequests != [] <==> WantsEmbedding(choice) && ollamaReachable && !IsBlank(query)
    ensures |run.embeddingRequests| <= 1
    ensures forall q :: q in run.embeddingRequests ==>
              q.url == cfg.ollamaEndpoint && ReadPayload(q.payload) == Some((cfg.ollamaModel, [query]))
    ensures run.crashed ==> run.request.None?
    ensures run.crashed <==>
              |run.embeddingRequests| == 1 && send(run.embeddingRequests[0]).Delivered?
              && ProbeRaises(send(run.embeddingRequests[0]).body)
    ensures run.request.Some? ==>
              && query != ""
              && ModeOf(choice).Some?
              && exists v :: Conforms(run.request.value, ModeOf(choice).value, query, v, topK, cfg.semanticConfiguration)
    ensures run.request.Some? && run.request.value.vectorQueries != [] ==>
              && |run.embeddingRequests| == 1
              && send(run.embeddingRequests[0]).Delivered?
              && Accepts(send(run.embeddingRequests[0]).body, cfg.vectorDimension,
                         run.request.value.vectorQueries[0].vector)
  {
    if query == "" then SearchRun([], None, false)
    else if !(WantsEmbedding(choice) && ollamaReachable) then
      SearchRun([], BuildSearch(choice, query, None, topK, cfg.semanticConfiguration), false)
    else
      var call := GetEmbedding(query, cfg.ollamaModel, cfg.ollamaEndpoint, cfg.vectorDimension, send);
      if call.outcome.Raised? then SearchRun(call.sent, None, true)
      else
        var vector := call.outcome.ToOption();
        var r := BuildSearch(choice, query, vector, topK, cfg.semanticConfiguration);
        SearchRun(call.sent, r, false)
  }

  /** Keyword search never asks for an embedding and never sends a vector,
      whatever the embedding service would have answered. */
  lemma KeywordNeverSendsVector(cfg: Config.Config, query: string, topK: int, ollamaReachable: bool,
                                send: PostRequest -> Transport)
    requires query != ""
    ensures var run := RunSearch(cfg, KeywordLabel, query, topK, ollamaReachable, send);
            && run.embeddingRequests == []
            && run.request == Some(SearchRequest(Some(query), [], SelectFields, topK, true, None))
  {
    WantsEmbeddingIffSendsVector(Keyword);
  }

  /** Semantic search sends the text with reranking, captions and answers,
      and no vector. */
  lemma SemanticRequest(cfg: Config.Config, query: string, topK: int, ollamaReachable: bool,
                        send: PostRequest -> Transport)
    requires query != ""
    ensures var run := RunSearch(cfg, SemanticLabel, query, topK, ollamaReachable, send);
            && run.embeddingRequests == []
            && run.request == Some(SearchRequest(Some(query), [], SelectFields, topK, true,
                                   Some(SemanticOptions(SemanticQueryType, cfg.semanticConfiguration,
                                                        Extractive, Extractive))))
  {
    WantsEmbeddingIffSendsVector(Semantic);
  }

  /** Vector and hybrid search issue no request at all when no embedding was
      obtained: the service was unreachable, the query was blank, or the
      response was rejected. */
  lemma VectorModesNeedEmbedding(cfg: Config.Config, m: Mode, query: string, topK: int, ollamaReachable: bool,
                                 send: PostRequest -> Transport)
    requires SendsVector(m)
    requires !ollamaReachable
             || IsBlank(query)
             || !GetEmbedding(query, cfg.ollamaModel, cfg.ollamaEndpoint, cfg.vectorDimension, send).outcome.Embedded?
    ensures RunSearch(cfg, Label(m), query, topK, ollamaReachable, send).request.None?
  {
    WantsEmbeddingIffSendsVector(m);
  }

  /** Hybrid search whose embedding reply is accepted with vector `v` sends
      both the text and exactly `v`, with k equal to the result count. */
  lemma HybridSendsBoth(cfg: Config.Config, query: string, topK: int, send: PostRequest -> Transport,
                        v: seq<Json>)
    requires !IsBlank(query)
    requires send(BuildRequest(query, cfg.ollamaModel, cfg.ollamaEndpoint)).Delivered?
    requires Accepts(send(BuildRequest(query, cfg.ollamaModel, cfg.ollamaEndpoint)).body, cfg.vectorDimension, v)
    ensures RunSearch(cfg, HybridLabel, query, topK, true, send).request
            == Some(SearchRequest(Some(query), [VectorQuery(v, topK, VectorField)], SelectFields, topK, true, None))
  {
    assert GetEmbedding(query, cfg.ollamaModel, cfg.ollamaEndpoint, cfg.vectorDimension, send).outcome == Embedded(v);
    HybridWantsEmbedding();
    EmbeddedRun(cfg, HybridLabel, query, topK, send);
    HybridRequest(query, v, topK, cfg.semanticConfiguration);
  }

  /** Vector search whose embedding reply is accepted with vector `v` sends
      exactly `v`, with k equal to the result count, and no text. */
  lemma VectorSendsVector(cfg: Config.Config, query: string, topK: int, send: PostRequest -> Transport,
                          v: seq<Json>)
    requires !IsBlank(query)
    requires send(BuildRequest(query, cfg.ollamaModel, cfg.ollamaEndpoint)).Delivered?
    requires Accepts(send(BuildRequest(query, cfg.ollamaModel, cfg.ollamaEndpoint)).body, cfg.vectorDimension, v)
    ensures RunSearch(cfg, VectorLabel, query, topK, true, send).request
            == Some(SearchRequest(None, [VectorQuery(v, topK, VectorField)], SelectFields, topK, true, None))
  {
    assert GetEmbedding(query, cfg.ollamaModel, cfg.ollamaEndpoint, cfg.vectorDimension, send).outcome == Embedded(v);
    VectorWantsEmbedding();
    EmbeddedRun(cfg, VectorLabel, query, topK, send);
    VectorRequest(query, v, topK, cfg.semanticConfiguration);
  }

  lemma VectorWantsEmbedding()
    ensures WantsEmbedding(VectorLabel)
  {
    assert OccursAt(VectorLabel, "Vector", 0);
  }

  lemma VectorRequest(query: string, v: seq<Json>, topK: int, semanticConfiguration: Option<string>)
    requires |v| > 0
    ensures BuildSearch(VectorLabel, query, Some(v), topK, semanticConfiguration)
            == Some(SearchRequest(None, [VectorQuery(v, topK, VectorField)], SelectFields, topK, true, None))
  {
  }

  lemma HybridWantsEmbedding()
    ensures WantsEmbedding(HybridLabel)
  {
    assert OccursAt(HybridLabel, "Hybrid", 0);
  }

  lemma HybridRequest(query: string, v: seq<Json>, topK: int, semanticConfiguration: Option<string>)
    requires |v| > 0
    ensures BuildSearch(HybridLabel, query, Some(v), topK, semanticConfiguration)
            == Some(SearchRequest(Some(query), [VectorQuery(v, topK, VectorField)], SelectFields, topK, true, None))
  {
    assert HybridLabel != VectorLabel by {
      assert HybridLabel[0] != VectorLabel[0];
    }
  }

  /** A run whose embedding was accepted builds its request from that vector. */
  lemma EmbeddedRun(cfg: Config.Config, choice: string, query: string, topK: int, send: PostRequest -> Transport)
    requires WantsEmbedding(choice)
    requires GetEmbedding(query, cfg.ollamaModel, cfg.ollamaEndpoint, cfg.vectorDimension, send).outcome.Embedded?
    ensures var call := GetEmbedding(query, cfg.ollamaModel, cfg.ollamaEndpoint, cfg.vectorDimension, send);
            RunSearch(cfg, choice, query, topK, true, send).request
            == BuildSearch(choice, query, Some(call.outcome.vector), topK, cfg.semanticConfiguration)
  {
    BlankIffAllSpace(query);
  }

  /** One session: start-up validation, the reachability probe of the
      sidebar, and optionally one press of the search button. */
  datatype Session = Session(configErrors: seq<Config.ConfigError>, probes: seq<string>, run: Option<SearchRun>)

  /** The whole script for one run. `probe` answers the reachability GET for
      a URL; `send` answers the embedding POST. */
  function RunSession(env: Config.Environment, searchPressed: bool, choice: string, query: string, topK: int,
                      probe: string -> bool, send: PostRequest -> Transport): (s: Session)
    ensures s.configErrors == Config.ConfigErrors(env)
    ensures s.configErrors != [] ==> s.probes == [] && s.run.None?
    ensures s.configErrors == [] ==> s.probes == [Reachability.CheckUrl(Config.OllamaEndpoint(env))]
    ensures s.run.Some? <==> s.configErrors == [] && searchPressed && query != ""
    ensures s.run.Some? ==> (s.run.value.embeddingRequests != [] ==> probe(s.probes[0]))
    ensures s.run.Some? && probe(s.probes[0]) && WantsEmbedding(choice) && !IsBlank(query) ==>
              s.run.value.embeddingRequests != []
    ensures s.run.Some? ==>
              && Config.Load(env).Success?
              && s.run.value == RunSearch(Config.Load(env).value, choice, query, topK, probe(s.probes[0]), send)
  {
    match Config.Load(env)
    case Failure(errors) => Session(errors, [], None)
    case Success(cfg) =>
      var url := Reachability.CheckUrl(cfg.ollamaEndpoint);
      var reachable := probe(url);
      var run := if searchPressed && query != "" then Some(RunSearch(cfg, choice, query, topK, reachable, send)) else None;
      Session([], [url], run)
  }

  /** A valid session pressing keyword search with a non-empty query sends
      the keyword request and nothing else, whatever the probe and the
      embedding service answer. */
  lemma KeywordSession(env: Config.Environment, query: string, topK: int,
                       probe: string -> bool, send: PostRequest -> Transport)
    requires Config.ConfigErrors(env) == [] && query != ""
    ensures RunSession(env, true, KeywordLabel, query, topK, probe, send).run
            == Some(SearchRun([], Some(SearchRequest(Some(query), [], SelectFields, topK, true, None)), false))
  {
    var cfg := Config.Load(env).value;
    var reachable := probe(Reachability.CheckUrl(cfg.ollamaEndpoint));
    KeywordNeverSendsVector(cfg, query, topK, reachable, send);
  }
}
