/**
 * The query document sent to the search engine: a multi-field match on the
 * keyword over `title` and `content`, limited to ten hits, optionally wrapped
 * in a boolean query whose filter is an exact term on `content_type`.
 */
module QueryBuilder {
  import opened Wrappers
  import opened AppConfig

  datatype Query =
    | MultiMatch(text: string, fields: seq<string>)
    | Bool(must: Query, filter: Term)

  /** An exact-value condition on one field; it does not contribute to scoring. */
  datatype Term = Term(field: string, value: string)

  /** The request body: the query and the number of hits asked for. */
  datatype SearchBody = SearchBody(query: Query, size: nat)

  const SearchFields: seq<string> := ["title", "content"]
  const ResultLimit: nat := 10
  const FilterField: string := "content_type"

  /** Python truthiness of the optional `content_type` form value: present and non-empty. */
  predicate IsSet(contentType: Option<string>)
  {
    contentType.Some? && contentType.value != ""
  }

  /** The filter a request asks for, with an empty value read as no filter. */
  function Selected(contentType: Option<string>): (f: Option<string>)
    ensures f.Some? <==> IsSet(contentType)
    ensures f.Some? ==> f.value == contentType.value && f.value != ""
  {
    if IsSet(contentType) then contentType else None
  }

  /** The query document `search` sends for a keyword and an optional category. */
  function BuildQuery(keyword: string, contentType: Option<string>): (body: SearchBody)
    ensures body.size == ResultLimit
    ensures !IsSet(contentType) ==> body.query == MultiMatch(keyword, SearchFields)
    ensures IsSet(contentType) ==>
      body.query.Bool? &&
      body.query.must == MultiMatch(keyword, SearchFields) &&
      body.query.filter == Term(FilterField, contentType.value)
  {
    var base := MultiMatch(keyword, SearchFields);
    match Selected(contentType)
    case Some(c) => SearchBody(Bool(base, Term(FilterField, c)), ResultLimit)
    case None => SearchBody(base, ResultLimit)
  }

  /**
   * Reads back the keyword and the filter from a query of the shape this
   * application builds; any other shape gives None.
   */
  function Decode(body: SearchBody): Option<(string, Option<string>)>
  {
    if body.size != ResultLimit then None
    else match body.query
      case MultiMatch(text, fields) =>
        if fields == SearchFields then Some((text, None)) else None
      case Bool(MultiMatch(text, fields), Term(field, value)) =>
        if fields == SearchFields && field == FilterField && value != ""
        then Some((text, Some(value))) else None
      case _ => None
  }

  /** The builder loses nothing: keyword and category are recovered verbatim. */
  lemma DecodeBuildQuery(keyword: string, contentType: Option<string>)
    ensures Decode(BuildQuery(keyword, contentType)) == Some((keyword, Selected(contentType)))
  {
  }

  /** Every query of the application's shape is the one built from what it decodes to. */
  lemma BuildQueryDecode(body: SearchBody, keyword: string, filter: Option<string>)
    requires Decode(body) == Some((keyword, filter))
    ensures body == BuildQuery(keyword, filter)
  {
  }

  /** The value of a field of a document, None when the schema has no such field. */
  function FieldValue(d: Doc, field: string): (v: Option<string>)
    ensures v.Some? <==> field in IndexMapping
  {
    if field == "title" then Some(d.title)
    else if field == "content" then Some(d.content)
    else if field == "content_type" then Some(d.contentType)
    else None
  }

  /**
   * Which documents a query selects. How the engine matches a keyword against
   * an analysed text field is not this application's: it is the parameter
   * `textMatch`. A term filter on the keyword field is exact equality.
   */
  predicate Matches(q: Query, d: Doc, textMatch: (string, string) -> bool)
  {
    match q
    case MultiMatch(text, fields) =>
      exists i :: 0 <= i < |fields| && FieldMatches(text, d, fields[i], textMatch)
    case Bool(must, Term(field, value)) =>
      Matches(must, d, textMatch) && FieldValue(d, field) == Some(value)
  }

  predicate FieldMatches(text: string, d: Doc, field: string, textMatch: (string, string) -> bool)
  {
    FieldValue(d, field).Some? && textMatch(text, FieldValue(d, field).value)
  }

  /**
   * A document is selected exactly when the keyword matches its title or its
   * content and, when a category is chosen, its `content_type` equals it.
   */
  lemma BuildQuerySelects(keyword: string, contentType: Option<string>, d: Doc,
                          textMatch: (string, string) -> bool)
    ensures Matches(BuildQuery(keyword, contentType).query, d, textMatch) <==>
      (textMatch(keyword, d.title) || textMatch(keyword, d.content)) &&
      (IsSet(contentType) ==> d.contentType == contentType.value)
  {
    var base := MultiMatch(keyword, SearchFields);
    assert FieldMatches(keyword, d, SearchFields[0], textMatch) <==> textMatch(keyword, d.title);
    assert FieldMatches(keyword, d, SearchFields[1], textMatch) <==> textMatch(keyword, d.content);
    assert Matches(base, d, textMatch) <==>
      textMatch(keyword, d.title) || textMatch(keyword, d.content);
  }

  /**
   * The category goes into the filter verbatim, unchecked against the form's
   * list: a category outside that list selects none of the sample documents.
   */
  lemma UnknownTypeSelectsNoSeed(keyword: string, c: string, textMatch: (string, string) -> bool)
    requires c != "" && c !in ContentTypes
    ensures BuildQuery(keyword, Some(c)).query.filter == Term(FilterField, c)
    ensures forall i :: 0 <= i < |Seeds| ==> !Matches(BuildQuery(keyword, Some(c)).query, Seeds[i], textMatch)
  {
  }

  /**
   * For a keyword found in every sample title (as "document" is), filtering on
   * `type1` selects exactly the seeds stored under ids 1 and 5.
   */
  lemma Type1FilterSelectsOneAndFive(keyword: string, textMatch: (string, string) -> bool)
    requires forall i :: 0 <= i < |Seeds| ==> textMatch(keyword, Seeds[i].title)
    ensures forall i :: 0 <= i < |Seeds| ==>
      (Matches(BuildQuery(keyword, Some("type1")).query, Seeds[i], textMatch) <==> SeedId(i) in {1, 5})
  {
    forall i | 0 <= i < |Seeds|
      ensures Matches(BuildQuery(keyword, Some("type1")).query, Seeds[i], textMatch) <==> SeedId(i) in {1, 5}
    {
      BuildQuerySelects(keyword, Some("type1"), Seeds[i], textMatch);
    }
  }
}
