/** Retrieval-mode resolution and query planning: which of text and vector
    search a request uses, whether an embedding of the question is asked for,
    and the exact search call issued to the index. */
module Retrieval {
  import opened Wrappers
  import opened Request

  /** A query embedding as the embedding service returns it. */
  type Embedding = seq<real>

  /** The three switches the approach derives from the overrides. */
  datatype Modes = Modes(hasText: bool, hasVector: bool, useSemanticCaptions: bool)

  /** `retrieval_mode` reads as Python's `None`: missing, or present as null. */
  predicate ModeUnset(o: Overrides)
  {
    o.retrievalMode.Missing? || o.retrievalMode.Null?
  }

  /** `retrieval_mode` is a string other than "text", "vectors" and "hybrid"
      (the string "default" among them). */
  predicate ModeUnrecognised(o: Overrides)
  {
    o.retrievalMode.Given? && o.retrievalMode.value !in {"text", "vectors", "hybrid"}
  }

  /** Membership tests against `["text", "hybrid", None]` and
      `["vectors", "hybrid", None]`, and captions only with text search. */
  function ResolveModes(o: Overrides): (m: Modes)
    ensures m.useSemanticCaptions <==> Enabled(o.semanticCaptions) && m.hasText
    ensures m.hasText && m.hasVector <==> ModeUnset(o) || o.retrievalMode == Given("hybrid")
    ensures m.hasText && !m.hasVector <==> o.retrievalMode == Given("text")
    ensures !m.hasText && m.hasVector <==> o.retrievalMode == Given("vectors")
    ensures !m.hasText && !m.hasVector <==> ModeUnrecognised(o)
  {
    var hasText := ModeUnset(o) || o.retrievalMode == Given("text") || o.retrievalMode == Given("hybrid");
    var hasVector := ModeUnset(o) || o.retrievalMode == Given("vectors") || o.retrievalMode == Given("hybrid");
    Modes(hasText, hasVector, Enabled(o.semanticCaptions) && hasText)
  }

  /** The arguments of the embedding call: the configured embedding model
      and the text to embed. */
  datatype EmbeddingRequest = EmbeddingRequest(model: string, input: string)

  /** The embedding call of a request: the question, embedded with the
      configured model, and only when vector search is on. */
  function EmbeddingInput(q: string, o: Overrides, cfg: Config): (r: Option<EmbeddingRequest>)
    ensures r.Some? <==> ResolveModes(o).hasVector
    ensures r.Some? ==> r.value.input == q && r.value.model == cfg.embeddingModel
  {
    if ResolveModes(o).hasVector then Some(EmbeddingRequest(cfg.embeddingModel, q)) else None
  }

  /** The vector passed to the index; `embed` stands for the embedding
      service. */
  function QueryVector(q: string, o: Overrides, cfg: Config, embed: EmbeddingRequest -> Embedding): (v: Option<Embedding>)
    ensures v.Some? <==> ResolveModes(o).hasVector
    ensures v.Some? ==> v.value == embed(EmbeddingRequest(cfg.embeddingModel, q))
  {
    match EmbeddingInput(q, o, cfg)
    case None => None
    case Some(request) => Some(embed(request))
  }

  /** Python truthiness of `query_vector`: present and not an empty list. */
  predicate VectorTruthy(v: Option<Embedding>)
  {
    v.Some? && |v.value| > 0
  }

  const SemanticConfigurationName := "default"
  const CaptionMode := "extractive|highlight-false"
  const VectorTopK := 50
  const VectorField := "embedding"

  /** The semantic-ranking arguments of a semantic query. */
  datatype Semantic = Semantic(queryLanguage: string, querySpeller: string, configurationName: string)

  /** The arguments of one `search_client.search` call. An argument the call
      does not pass is `None`; a plain query has no semantic arguments. */
  datatype SearchCall = SearchCall(
    text: string,
    filter: Option<string>,
    semantic: Option<Semantic>,
    top: Option<int>,
    caption: Option<string>,
    vector: Option<Embedding>,
    topK: Option<int>,
    vectorFields: Option<string>)

  /** The search call issued for question `q` with query vector `vector`.
      `filter` is what the filter-building collaborator returned. */
  function PlanSearch(q: string, o: Overrides, cfg: Config, filter: Option<string>, vector: Option<Embedding>): (c: SearchCall)
    ensures c.text == (if ResolveModes(o).hasText then q else "")
    ensures c.semantic.Some? <==> Enabled(o.semanticRanker) && ResolveModes(o).hasText
    ensures c.semantic.Some? ==> c.semantic.value == Semantic(cfg.queryLanguage, cfg.querySpeller, SemanticConfigurationName)
    ensures c.caption.Some? <==> c.semantic.Some? && ResolveModes(o).useSemanticCaptions
    ensures c.caption.Some? ==> c.caption.value == CaptionMode
    ensures c.topK.Some? <==> VectorTruthy(vector)
    ensures c.vectorFields.Some? <==> VectorTruthy(vector)
    ensures c.topK.Some? ==> c.topK.value == VectorTopK && c.vectorFields.value == VectorField
    ensures c.vector == vector && c.filter == filter && c.top == Top(o)
  {
    var modes := ResolveModes(o);
    var queryText := if modes.hasText then q else "";
    var topK := if VectorTruthy(vector) then Some(VectorTopK) else None;
    var vectorFields := if VectorTruthy(vector) then Some(VectorField) else None;
    if Enabled(o.semanticRanker) && modes.hasText then
      SearchCall(
        queryText, filter,
        Some(Semantic(cfg.queryLanguage, cfg.querySpeller, SemanticConfigurationName)),
        Top(o),
        if modes.useSemanticCaptions then Some(CaptionMode) else None,
        vector, topK, vectorFields)
    else
      SearchCall(queryText, filter, None, Top(o), None, vector, topK, vectorFields)
  }

  /** The search call of a whole request: the query vector comes from the
      embedding service when vector search is on. */
  function SearchFor(q: string, o: Overrides, cfg: Config, filter: Option<string>, embed: EmbeddingRequest -> Embedding): (c: SearchCall)
    ensures c.vector.Some? <==> ResolveModes(o).hasVector
    ensures c.vector.Some? ==> c.vector.value == embed(EmbeddingRequest(cfg.embeddingModel, q))
    ensures c.text == (if ResolveModes(o).hasText then q else "")
    ensures c.semantic.Some? <==> Enabled(o.semanticRanker) && ResolveModes(o).hasText
  {
    PlanSearch(q, o, cfg, filter, QueryVector(q, o, cfg, embed))
  }

  /** The four outcomes of `retrieval_mode`, in both directions. */
  lemma ModeTable(o: Overrides)
    ensures ResolveModes(o).hasText && ResolveModes(o).hasVector <==> ModeUnset(o) || o.retrievalMode == Given("hybrid")
    ensures ResolveModes(o).hasText && !ResolveModes(o).hasVector <==> o.retrievalMode == Given("text")
    ensures !ResolveModes(o).hasText && ResolveModes(o).hasVector <==> o.retrievalMode == Given("vectors")
    ensures !ResolveModes(o).hasText && !ResolveModes(o).hasVector <==> ModeUnrecognised(o)
  {
  }

  /** Text-only retrieval never asks for an embedding and sends no vector,
      no vector top-k and no vector field. */
  lemma TextModeSendsNoVector(q: string, o: Overrides, cfg: Config, filter: Option<string>, embed: EmbeddingRequest -> Embedding)
    requires o.retrievalMode == Given("text")
    ensures EmbeddingInput(q, o, cfg) == None
    ensures SearchFor(q, o, cfg, filter, embed).vector == None
    ensures SearchFor(q, o, cfg, filter, embed).topK == None
    ensures SearchFor(q, o, cfg, filter, embed).vectorFields == None
    ensures SearchFor(q, o, cfg, filter, embed).text == q
  {
  }

  /** Vector-only retrieval always embeds the question, sends empty query
      text, and issues a plain query without captions even when the semantic
      ranker is switched on. */
  lemma VectorsModeSendsNoText(q: string, o: Overrides, cfg: Config, filter: Option<string>, embed: EmbeddingRequest -> Embedding)
    requires o.retrievalMode == Given("vectors")
    ensures EmbeddingInput(q, o, cfg) == Some(EmbeddingRequest(cfg.embeddingModel, q))
    ensures !ResolveModes(o).useSemanticCaptions
    ensures SearchFor(q, o, cfg, filter, embed).text == ""
    ensures SearchFor(q, o, cfg, filter, embed).semantic == None
    ensures SearchFor(q, o, cfg, filter, embed).caption == None
    ensures SearchFor(q, o, cfg, filter, embed).vector == Some(embed(EmbeddingRequest(cfg.embeddingModel, q)))
  {
  }

  /** With no retrieval mode, a request is hybrid: the question is embedded
      and the index receives both the question text and its vector. */
  lemma UnsetModeIsHybrid(q: string, o: Overrides, cfg: Config, filter: Option<string>, embed: EmbeddingRequest -> Embedding)
    requires ModeUnset(o)
    ensures ResolveModes(o).hasText && ResolveModes(o).hasVector
    ensures EmbeddingInput(q, o, cfg) == Some(EmbeddingRequest(cfg.embeddingModel, q))
    ensures SearchFor(q, o, cfg, filter, embed).text == q
    ensures SearchFor(q, o, cfg, filter, embed).vector == Some(embed(EmbeddingRequest(cfg.embeddingModel, q)))
  {
  }

  /** An unrecognised mode, "default" included, switches both kinds of
      search off: no embedding, empty query text, no vector, plain query. */
  lemma UnrecognisedModeSearchesNothing(q: string, o: Overrides, cfg: Config, filter: Option<string>, embed: EmbeddingRequest -> Embedding)
    requires ModeUnrecognised(o)
    ensures EmbeddingInput(q, o, cfg) == None
    ensures SearchFor(q, o, cfg, filter, embed).text == ""
    ensures SearchFor(q, o, cfg, filter, embed).vector == None
    ensures SearchFor(q, o, cfg, filter, embed).semantic == None
  {
  }

  /** Semantic ranking with hybrid retrieval names the semantic configuration
      and the configured query language and speller, and asks for a vector
      top-k of 50 when the embedding is non-empty. */
  lemma HybridSemanticQuery(q: string, o: Overrides, cfg: Config, filter: Option<string>, embed: EmbeddingRequest -> Embedding)
    requires o.retrievalMode == Given("hybrid") && Enabled(o.semanticRanker)
    ensures SearchFor(q, o, cfg, filter, embed).semantic
         == Some(Semantic(cfg.queryLanguage, cfg.querySpeller, "default"))
    ensures |embed(EmbeddingRequest(cfg.embeddingModel, q))| > 0 ==> SearchFor(q, o, cfg, filter, embed).topK == Some(50)
    ensures |embed(EmbeddingRequest(cfg.embeddingModel, q))| > 0 ==> SearchFor(q, o, cfg, filter, embed).vectorFields == Some("embedding")
  {
  }

  /** Captions are asked for from the search index only by a semantic query,
      yet `use_semantic_captions` does not depend on the semantic ranker: with
      captions on and the ranker off, the formatter reads captions from hits
      of a query that did not ask for them. */
  lemma CaptionsWithoutRanker(q: string, o: Overrides, cfg: Config, filter: Option<string>, embed: EmbeddingRequest -> Embedding)
    requires Enabled(o.semanticCaptions) && !Enabled(o.semanticRanker) && ResolveModes(o).hasText
    ensures ResolveModes(o).useSemanticCaptions
    ensures SearchFor(q, o, cfg, filter, embed).caption == None
  {
  }
}
