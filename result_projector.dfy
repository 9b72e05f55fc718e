/**
 * Turning the engine's hits into display records: the title verbatim and the
 * first fifty characters of the content, in the order the engine returned.
 */
module ResultProjector {
  import opened AppConfig

  /** One hit of a search response; only its `_source` document is used. */
  datatype Hit = Hit(source: Doc)

  datatype ResultRecord = ResultRecord(title: string, snippet: string)

  const SnippetLength: nat := 50

  /** The content cut after fifty characters, with no regard for word boundaries. */
  function Snippet(content: string): (s: string)
    ensures s <= content
    ensures |s| == if |content| < SnippetLength then |content| else SnippetLength
    ensures |content| <= SnippetLength ==> s == content
  {
    if |content| <= SnippetLength then content else content[..SnippetLength]
  }

  /** Cutting a snippet again changes nothing. */
  lemma SnippetIdempotent(content: string)
    ensures Snippet(Snippet(content)) == Snippet(content)
  {
  }

  /** The snippet of the first sample document is its first fifty characters. */
  lemma FirstSeedSnippet()
    ensures Snippet(Seeds[0].content) == "This is the content for the first document. It has"
  {
  }

  function ToRecord(h: Hit): ResultRecord
  {
    ResultRecord(h.source.title, Snippet(h.source.content))
  }

  /** The records for a list of hits, built by appending one record per hit. */
  function Project(hits: seq<Hit>): (records: seq<ResultRecord>)
    ensures |records| == |hits|
  {
    if hits == [] then [] else Project(hits[..|hits| - 1]) + [ToRecord(hits[|hits| - 1])]
  }

  /** Record `k` is made from hit `k`: order and length are preserved. */
  lemma {:induction false} ProjectAt(hits: seq<Hit>, k: nat)
    requires k < |hits|
    ensures Project(hits)[k].title == hits[k].source.title
    ensures Project(hits)[k].snippet == Snippet(hits[k].source.content)
  {
    if k < |hits| - 1 {
      ProjectAt(hits[..|hits| - 1], k);
    }
  }

  /** Projecting a concatenation is concatenating the projections. */
  lemma {:induction false} ProjectAppend(a: seq<Hit>, b: seq<Hit>)
    ensures Project(a + b) == Project(a) + Project(b)
  {
    if b != [] {
      assert (a + b)[..|a + b| - 1] == a + b[..|b| - 1];
      ProjectAppend(a, b[..|b| - 1]);
    } else {
      assert a + b == a;
    }
  }

  /** The loop of `search` that appends one record per hit to `results`. */
  method ProjectHits(hits: seq<Hit>) returns (results: seq<ResultRecord>)
    ensures results == Project(hits)
    ensures |results| == |hits|
    ensures forall k :: 0 <= k < |hits| ==>
      results[k].title == hits[k].source.title && results[k].snippet <= hits[k].source.content
  {
    results := [];
    var i := 0;
    while i < |hits|
      invariant 0 <= i <= |hits|
      invariant results == Project(hits[..i])
    {
      assert hits[..i + 1][..i] == hits[..i];
      results := results + [ToRecord(hits[i])];
      i := i + 1;
    }
    assert hits[..i] == hits;
    forall k | 0 <= k < |hits|
      ensures results[k].title == hits[k].source.title && results[k].snippet <= hits[k].source.content
    {
      ProjectAt(hits, k);
    }
  }
}
