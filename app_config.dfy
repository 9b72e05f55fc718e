/**
 * The constants of the search form application: the document record, the
 * index schema, the fixed list of content types offered by the form and the
 * five sample documents loaded when the index is first created.
 */
module AppConfig {

  /** One indexed record; a search hit carries it as its `_source`. */
  datatype Doc = Doc(title: string, content: string, contentType: string)

  /** How the engine indexes a field: analysed full text, or one exact token. */
  datatype FieldType = Text | Keyword

  const IndexName: string := "test_index"

  /** The schema the index is created with. */
  const IndexMapping: map<string, FieldType> :=
    map["title" := Text, "content" := Text, "content_type" := Keyword]

  /** The categories offered by the form; the query builder never consults it. */
  const ContentTypes: seq<string> := ["type1", "type2", "type3", "type4"]

  /** The sample documents, in load order; document `i` is stored under id `i + 1`. */
  const Seeds: seq<Doc> := [
    Doc("Document One", "This is the content for the first document. It has some text.", "type1"),
    Doc("Document Two", "Content for the second document goes here. More text.", "type2"),
    Doc("Document Three", "Third document content. This is random text.", "type3"),
    Doc("Document Four", "Fourth document with some content. Hello world.", "type4"),
    Doc("Document Five", "Fifth document content. Testing search.", "type1")
  ]

  /** The id under which the seed at position `i` is indexed. */
  function SeedId(i: nat): (id: int)
    ensures id >= 1
  {
    i + 1
  }

  /** Every seed is labelled with one of the categories the form offers. */
  lemma SeedsUseKnownTypes()
    ensures |Seeds| == 5
    ensures forall i :: 0 <= i < |Seeds| ==> Seeds[i].contentType in ContentTypes
  {
  }

  /** The seeds labelled `type1` are exactly those stored under ids 1 and 5. */
  lemma Type1SeedIds()
    ensures (set i | 0 <= i < |Seeds| && Seeds[i].contentType == "type1" :: SeedId(i)) == {1, 5}
  {
    var ids := set i | 0 <= i < |Seeds| && Seeds[i].contentType == "type1" :: SeedId(i);
    assert SeedId(0) in ids && SeedId(4) in ids;
    forall id | id in ids ensures id == 1 || id == 5 {
      var i :| 0 <= i < |Seeds| && Seeds[i].contentType == "type1" && SeedId(i) == id;
      assert i == 0 || i == 4;
    }
  }
}
