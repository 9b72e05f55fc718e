/**
 * The request path: the `search` function (build the query, send it to the
 * engine, project the hits) and the form handler that only searches when the
 * keyword is non-empty. The engine is an oracle whose answers this
 * application does not define; it records every request it receives.
 */
module SearchHandler {
  import opened Wrappers
  import opened AppConfig
  import opened QueryBuilder
  import opened ResultProjector

  /** The search engine as seen by the application. */
  class SearchEngine {
    /** What the engine answers to each request body: ranking and matching are its own. */
    const respond: SearchBody -> seq<Hit>
    /** Every request received so far, in order. */
    var requests: seq<SearchRequest>

    /** The engine returns no more hits than a request's `size` asks for. */
    ghost predicate HonoursSize()
    {
      forall body :: |respond(body)| <= body.size
    }

    constructor (respond: SearchBody -> seq<Hit>)
      ensures this.respond == respond && requests == []
    {
      this.respond := respond;
      requests := [];
    }

    /** One search request on the named index. */
    method Execute(index: string, body: SearchBody) returns (hits: seq<Hit>)
      modifies this
      ensures requests == old(requests) + [SearchRequest(index, body)]
      ensures hits == respond(body)
    {
      requests := requests + [SearchRequest(index, body)];
      hits := respond(body);
    }
  }

  /** A search request as the engine receives it: the index name and the body. */
  datatype SearchRequest = SearchRequest(index: string, body: SearchBody)

  /** What the page is rendered from: the echoed input, the category list and the results. */
  datatype Page = Page(keyword: string, selectedType: Option<string>,
                       contentTypes: seq<string>, results: seq<ResultRecord>)

  /** `search`: exactly one engine request, with the built query; its hits projected. */
  method Search(engine: SearchEngine, keyword: string, contentType: Option<string>)
    returns (results: seq<ResultRecord>)
    modifies engine
    ensures engine.requests == old(engine.requests) + [SearchRequest(IndexName, BuildQuery(keyword, contentType))]
    ensures results == Project(engine.respond(BuildQuery(keyword, contentType)))
    ensures engine.HonoursSize() ==> |results| <= ResultLimit
  {
    var body := BuildQuery(keyword, contentType);
    var hits := engine.Execute(IndexName, body);
    results := ProjectHits(hits);
  }

  /**
   * The form handler: a missing keyword reads as empty, a missing category as
   * none; with an empty keyword the engine is not asked and there are no results.
   */
  method HandleRequest(engine: SearchEngine, form: map<string, string>) returns (page: Page)
    modifies engine
    ensures page.keyword == (if "keyword" in form then form["keyword"] else "")
    ensures page.selectedType == (if "content_type" in form then Some(form["content_type"]) else None)
    ensures page.contentTypes == ContentTypes
    ensures page.keyword == "" ==> page.results == [] && engine.requests == old(engine.requests)
    ensures page.keyword != "" ==>
      engine.requests == old(engine.requests) + [SearchRequest(IndexName, BuildQuery(page.keyword, page.selectedType))] &&
      page.results == Project(engine.respond(BuildQuery(page.keyword, page.selectedType)))
    ensures |engine.requests| == |old(engine.requests)| + (if page.keyword == "" then 0 else 1)
  {
    var keyword := if "keyword" in form then form["keyword"] else "";
    var contentType := if "content_type" in form then Some(form["content_type"]) else None;
    var results := [];
    if keyword != "" {
      results := Search(engine, keyword, contentType);
    }
    page := Page(keyword, contentType, ContentTypes, results);
  }
}
