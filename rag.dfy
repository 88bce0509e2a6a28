/**
 * The retrieval-augmented answer pipeline: retrieve, rerank when asked and
 * there is more than one result, generate, estimate confidence; and the
 * batch form that turns a failed query into an error response.
 */
module Rag {
  import opened Wrappers
  import opened Values
  import opened Etl

  /** One retrieved document with its (opaque) relevance score. */
  datatype QueryResult = QueryResult(document: BudgetDocument, score: real, metadata: map<string, Value>)

  /** The answer to one query, with the sources it was generated from. */
  datatype RAGResponse = RAGResponse(
    query: string,
    answer: string,
    sources: seq<QueryResult>,
    confidence: real,
    metadata: map<string, Value>)

  /** `QueryResult.to_dict`. */
  function QueryResultToDict(r: QueryResult): (m: map<string, Value>)
    ensures m.Keys == {"document", "score", "metadata"}
  {
    map["document" := Dict(DocumentToDict(r.document)), "score" := Float(r.score),
        "metadata" := Dict(r.metadata)]
  }

  /** Reads back what `QueryResultToDict` produces. */
  function QueryResultFromDict(m: map<string, Value>): (r: Option<QueryResult>)
  {
    if {"document", "score", "metadata"} <= m.Keys
       && m["document"].Dict? && m["score"].Float? && m["metadata"].Dict?
    then
      match DocumentFromDict(m["document"].fields)
      case Some(d) => Some(QueryResult(d, m["score"].x, m["metadata"].fields))
      case None => None
    else None
  }

  lemma QueryResultRoundTrip(r: QueryResult)
    ensures QueryResultFromDict(QueryResultToDict(r)) == Some(r)
  {
    DocumentRoundTrip(r.document);
  }

  /** The `sources` list comprehension of `RAGResponse.to_dict`. */
  function SourcesToList(sources: seq<QueryResult>): (vs: seq<Value>)
    ensures |vs| == |sources|
  {
    if sources == [] then [] else [Dict(QueryResultToDict(sources[0]))] + SourcesToList(sources[1..])
  }

  function SourcesFromList(vs: seq<Value>): (sources: Option<seq<QueryResult>>)
  {
    if vs == [] then Some([])
    else if !vs[0].Dict? then None
    else match (QueryResultFromDict(vs[0].fields), SourcesFromList(vs[1..]))
      case (Some(r), Some(rest)) => Some([r] + rest)
      case _ => None
  }

  lemma {:induction false} SourcesRoundTrip(sources: seq<QueryResult>)
    ensures SourcesFromList(SourcesToList(sources)) == Some(sources)
  {
    if sources != [] {
      QueryResultRoundTrip(sources[0]);
      SourcesRoundTrip(sources[1..]);
      assert SourcesToList(sources)[1..] == SourcesToList(sources[1..]);
      assert [sources[0]] + sources[1..] == sources;
    }
  }

  /** `RAGResponse.to_dict`. */
  function ResponseToDict(r: RAGResponse): (m: map<string, Value>)
    ensures m.Keys == {"query", "answer", "sources", "confidence", "metadata"}
  {
    map["query" := Str(r.query), "answer" := Str(r.answer), "sources" := List(SourcesToList(r.sources)),
        "confidence" := Float(r.confidence), "metadata" := Dict(r.metadata)]
  }

  function ResponseFromDict(m: map<string, Value>): (r: Option<RAGResponse>)
  {
    if {"query", "answer", "sources", "confidence", "metadata"} <= m.Keys
       && m["query"].Str? && m["answer"].Str? && m["sources"].List?
       && m["confidence"].Float? && m["metadata"].Dict?
    then
      match SourcesFromList(m["sources"].items)
      case Some(sources) => Some(RAGResponse(m["query"].s, m["answer"].s, sources, m["confidence"].x, m["metadata"].fields))
      case None => None
    else None
  }

  /** `to_dict` keeps the sources, in order, and everything else. */
  lemma ResponseRoundTrip(r: RAGResponse)
    ensures ResponseFromDict(ResponseToDict(r)) == Some(r)
  {
    SourcesRoundTrip(r.sources);
  }

  /** The keyword arguments of `query`; `extra` is what is left in `**kwargs`. */
  datatype QueryParams = QueryParams(k: int, filters: Value, rerank: bool, extra: map<string, Value>)

  /**
   * The declared defaults `k=5, filters=None, rerank=True`. What they mean
   * for a query is stated by `RAGPipeline.DefaultQueryReranks`.
   */
  function DefaultParams(extra: map<string, Value>): (p: QueryParams)
    ensures p.k == 5 && p.filters == Null && p.rerank && p.extra == extra
  {
    QueryParams(5, Null, true, extra)
  }

  /** A retriever: its name and what `retrieve` and `rerank` do. */
  datatype Retriever = Retriever(
    name: string,
    retrieve: (string, int, Value, map<string, Value>) -> Result<seq<QueryResult>, string>,
    rerank: (string, seq<QueryResult>) -> Result<seq<QueryResult>, string>)

  /** A generator: its name and what `generate` and `estimate_confidence` do. */
  datatype Generator = Generator(
    name: string,
    generate: (string, seq<QueryResult>, map<string, Value>) -> Result<string, string>,
    estimateConfidence: (string, string, seq<QueryResult>) -> Result<real, string>)

  /** The metadata of a successful response. */
  function ResponseMetadata(retriever: Retriever, generator: Generator, p: QueryParams): (metadata: map<string, Value>)
  {
    map["retriever" := Str(retriever.name), "generator" := Str(generator.name),
        "k" := Int(p.k), "rerank" := Bool(p.rerank)]
  }

  /** The response `batch_query` puts in place of a query that failed with `e`. */
  function ErrorResponse(q: string, e: string): (response: RAGResponse)
  {
    RAGResponse(q, "Error processing query: " + e, [], 0.0, map["error" := Str(e)])
  }

  /** A retriever and a generator fixed at construction. */
  datatype RAGPipeline = RAGPipeline(name: string, retriever: Retriever, generator: Generator)
  {
    /** The context for a query: the retrieved list, replaced by its reranking when asked and longer than one. */
    function Context(q: string, p: QueryParams): (context: Result<seq<QueryResult>, string>)
    {
      match retriever.retrieve(q, p.k, p.filters, p.extra)
      case Failure(e) => Failure(e)
      case Success(docs) =>
        if p.rerank && |docs| > 1 then retriever.rerank(q, docs) else Success(docs)
    }

    /** `query`: the response for one query, or the failure of the first stage that failed. */
    function Query(q: string, p: QueryParams): (r: Result<RAGResponse, string>)
      ensures r.Success? ==> r.value.query == q
      ensures r.Success? ==> r.value.metadata == ResponseMetadata(retriever, generator, p)
      ensures r.Success? ==> Context(q, p) == Success(r.value.sources)
      ensures r.Success? ==> generator.generate(q, r.value.sources, p.extra) == Success(r.value.answer)
      ensures r.Success? ==> generator.estimateConfidence(q, r.value.answer, r.value.sources) == Success(r.value.confidence)
    {
      match Context(q, p)
      case Failure(e) => Failure(e)
      case Success(sources) =>
        match generator.generate(q, sources, p.extra)
        case Failure(e) => Failure(e)
        case Success(answer) =>
          match generator.estimateConfidence(q, answer, sources)
          case Failure(e) => Failure(e)
          case Success(confidence) =>
            Success(RAGResponse(q, answer, sources, confidence, ResponseMetadata(retriever, generator, p)))
    }

    /** What `batch_query` produces for one query: its response, or the error response. */
    function Answer(q: string, p: QueryParams): (response: RAGResponse)
    {
      match Query(q, p)
      case Success(r) => r
      case Failure(e) => ErrorResponse(q, e)
    }

    /** `batch_query`: one response per query, in order, failures replaced by error responses. */
    method BatchQuery(queries: seq<string>, p: QueryParams) returns (responses: seq<RAGResponse>)
      ensures |responses| == |queries|
      ensures forall i :: 0 <= i < |queries| ==> responses[i] == Answer(queries[i], p)
    {
      responses := [];
      for i := 0 to |queries|
        invariant |responses| == i
        invariant forall j :: 0 <= j < i ==> responses[j] == Answer(queries[j], p)
      {
        var query := queries[i];
        match Query(query, p) {
          case Success(response) =>
            responses := responses + [response];
          case Failure(e) =>
            responses := responses + [ErrorResponse(query, e)];
        }
      }
    }

    /**
     * Rerank runs exactly when asked for and more than one result was
     * retrieved; otherwise the sources are the retrieved list itself.
     */
    lemma RerankOnlyWhenAsked(q: string, p: QueryParams, retrieved: seq<QueryResult>)
      requires retriever.retrieve(q, p.k, p.filters, p.extra) == Success(retrieved)
      ensures p.rerank && |retrieved| > 1 ==> Context(q, p) == retriever.rerank(q, retrieved)
      ensures !(p.rerank && |retrieved| > 1) ==> Context(q, p) == Success(retrieved)
      ensures !(p.rerank && |retrieved| > 1) && Query(q, p).Success? ==> Query(q, p).value.sources == retrieved
    {
    }

    /**
     * Called with its defaults, `query` retrieves five results without
     * filters and reranks them whenever more than one comes back.
     */
    lemma DefaultQueryReranks(q: string, extra: map<string, Value>, retrieved: seq<QueryResult>)
      requires retriever.retrieve(q, 5, Null, extra) == Success(retrieved)
      ensures |retrieved| > 1 ==> Context(q, DefaultParams(extra)) == retriever.rerank(q, retrieved)
      ensures |retrieved| <= 1 ==> Context(q, DefaultParams(extra)) == Success(retrieved)
    {
      RerankOnlyWhenAsked(q, DefaultParams(extra), retrieved);
    }

    /** A failure of any stage comes out of `query` unchanged, and no response is made. */
    lemma QueryPropagatesFailure(q: string, p: QueryParams)
      ensures retriever.retrieve(q, p.k, p.filters, p.extra).Failure? ==>
                Query(q, p) == Failure(retriever.retrieve(q, p.k, p.filters, p.extra).error)
      ensures Context(q, p).Failure? ==> Query(q, p) == Failure(Context(q, p).error)
      ensures Context(q, p).Success? && generator.generate(q, Context(q, p).value, p.extra).Failure? ==>
                Query(q, p) == Failure(generator.generate(q, Context(q, p).value, p.extra).error)
      ensures Context(q, p).Success? && generator.generate(q, Context(q, p).value, p.extra).Success?
              && generator.estimateConfidence(q, generator.generate(q, Context(q, p).value, p.extra).value,
                                              Context(q, p).value).Failure? ==>
                Query(q, p) == Failure(generator.estimateConfidence(q, generator.generate(q, Context(q, p).value, p.extra).value,
                                                                    Context(q, p).value).error)
      ensures Query(q, p).Failure? <==>
                (Context(q, p).Failure?
                 || generator.generate(q, Context(q, p).value, p.extra).Failure?
                 || generator.estimateConfidence(q, generator.generate(q, Context(q, p).value, p.extra).value,
                                                 Context(q, p).value).Failure?)
    {
    }

    /**
     * In a batch, a failed query still yields a response for that query,
     * with no sources, confidence 0.0 and the failure under `error`; a
     * query that succeeds yields exactly its own response.
     */
    lemma BatchAnswerShape(q: string, p: QueryParams)
      ensures Answer(q, p).query == q
      ensures Query(q, p).Success? ==> Answer(q, p) == Query(q, p).value
      ensures Query(q, p).Failure? ==>
                Answer(q, p).sources == [] && Answer(q, p).confidence == 0.0
                && Answer(q, p).metadata == map["error" := Str(Query(q, p).error)]
    {
    }
  }
}
