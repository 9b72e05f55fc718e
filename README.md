# Keyword search form: a Dafny model

The application is a small web form over a full-text search engine. At
startup it makes sure the index `test_index` exists. If the index is missing,
it creates it with a three-field schema and indexes five sample documents
under ids 1 to 5. For each form submission with a non-empty keyword, it
builds one query document and sends it to the engine. It then turns each
hit into a title and a fifty-character snippet.

This project models that core in Dafny:

- `AppConfig` (`app_config.dfy`) holds the document record, the schema, the
  list of content types and the sample documents.
- `QueryBuilder` (`query_builder.dfy`) builds the query, as a function over a
  `Query` datatype. It has two partners: `Decode`, its inverse, and `Matches`,
  the set of documents a query selects. The engine's own keyword matching is
  a parameter, `textMatch`.
- `ResultProjector` (`result_projector.dfy`) defines `Snippet` and the
  functional `Project`. `ProjectHits` is the source's append loop, proved
  equal to `Project`.
- `SearchHandler` (`search_handler.dfy`) holds `Search` and the form handler.
  The engine is a `SearchEngine` object. Its answers come from an opaque
  function `respond`, and it logs every request it receives, so "the engine
  was not asked" means "the log is unchanged".
- `IndexProvisioner` (`index_provisioner.dfy`) models the engine's index as
  an `IndexStore` class with `present`, `schema` and `docs` fields.
  `Provision` is the startup block, proved equal to the function
  `Provisioned`, and `Provisioned` is proved idempotent.
- `Wrappers` (`wrappers.dfy`) defines `Option`.

Python strings are sequences of code points and `[:50]` slices code points.
Dafny's `string` is a sequence of Unicode scalar values. For strings made of
Unicode scalar values only, `Snippet` keeps the same characters as the slice.

The slice `[:50]` at app.py:76 gives "This is the content for the first
document. It has" (50 characters) for the first sample document;
`FirstSeedSnippet` proves it.

## Model

| member | source | states |
|---|---|---|
| `AppConfig.SeedsUseKnownTypes` | app.py:36-48 | there are five seed documents, and each one's `content_type` is one of the four values offered by the form |
| `AppConfig.Type1SeedIds` | app.py:36-45 | the ids (position + 1) of the seeds labelled `type1` are exactly {1, 5} |
| `QueryBuilder.Selected` | app.py:62 | a category counts as chosen exactly when it is present and non-empty (Python truthiness), and then it is passed on unchanged |
| `QueryBuilder.BuildQuery` | app.py:51-70 | `size` is always 10; with no category, or an empty one, the query is exactly `multi_match` of the keyword over `["title", "content"]` with no wrapper; with a category `c`, it is `bool` whose `must` is that same `multi_match` and whose filter is the term `content_type == c` |
| `QueryBuilder.DecodeBuildQuery` | app.py:52-70 | decoding a built query gives back the keyword and the chosen category verbatim, so nothing is lost or changed |
| `QueryBuilder.BuildQueryDecode` | app.py:52-70 | every query of the application's shape is the built query of what it decodes to, so the builder is onto its shape |
| `QueryBuilder.FieldValue` | app.py:22-30 | a document has a value for a field exactly when the schema declares that field |
| `QueryBuilder.BuildQuerySelects` | app.py:52-70 | the built query selects a document exactly when the keyword matches its title or content and, if a category is chosen, its `content_type` equals it |
| `QueryBuilder.UnknownTypeSelectsNoSeed` | app.py:62-67 | a category outside the form's list still goes into the term filter verbatim, and then no seed document is selected |
| `QueryBuilder.Type1FilterSelectsOneAndFive` | app.py:62-70 | for a keyword that matches every seed title, the `type1` filter selects exactly the seeds with ids 1 and 5 |
| `ResultProjector.Snippet` | app.py:76 | the snippet is a prefix of the content of length min(50, length of content), and it is the whole content when the content has at most 50 characters |
| `ResultProjector.SnippetIdempotent` | app.py:76 | cutting a snippet again leaves it unchanged |
| `ResultProjector.FirstSeedSnippet` | app.py:76 | the snippet of the first seed is "This is the content for the first document. It has" |
| `ResultProjector.Project` | app.py:74-81 | projection gives exactly one record per hit |
| `ResultProjector.ProjectAt` | app.py:74-81 | record k has hit k's title and the snippet of hit k's content, so order is preserved |
| `ResultProjector.ProjectAppend` | app.py:74-81 | projecting a concatenation of hit lists is the concatenation of their projections |
| `ResultProjector.ProjectHits` | app.py:74-81 | the append loop returns `Project(hits)`: as many records as hits, and record k has hit k's title and a prefix of hit k's content |
| `SearchHandler.SearchEngine.Execute` | app.py:72 | a search request (index name and body) is appended to the engine's log, and the engine's answer for the body is returned |
| `SearchHandler.Search` | app.py:51-81 | `search` sends exactly one request, the built query on index `test_index`, and returns the projection of the engine's hits; when the engine respects `size`, there are at most 10 results |
| `SearchHandler.HandleRequest` | app.py:86-90 | a missing keyword reads as empty and a missing category as none; with an empty keyword the results are empty and the engine is not asked; otherwise the engine is asked exactly once, with the built query on `test_index`, and the results are its hits projected; the keyword, the chosen category and the category list are returned for display |
| `IndexProvisioner.IndexStore.Exists` | app.py:32 | reports whether the index exists |
| `IndexProvisioner.IndexStore.Create` | app.py:33 | creating a missing index gives an empty index with the given schema; creating an existing one is refused and changes nothing |
| `IndexProvisioner.IndexStore.Index` | app.py:45 | stores the document under its id, replacing any document already there, and leaves the schema alone |
| `IndexProvisioner.IdMap` | app.py:44-45 | the loop's ids: document i is stored under i + 1, and no other id is used |
| `IndexProvisioner.IdMapAppend` | app.py:44-45 | indexing one more document adds exactly its id to the map of those already indexed |
| `IndexProvisioner.IdMapOfFive` | app.py:36-45 | five documents occupy exactly ids 1 to 5, so there are five entries |
| `IndexProvisioner.Provisioned` | app.py:32-45 | after provisioning the index exists; an existing index is left as it was; a missing one gets the schema and the five seeds under ids 1 to 5 |
| `IndexProvisioner.ProvisionIdempotent` | app.py:32-45 | provisioning twice is the same as provisioning once, and from a missing index it leaves exactly 5 documents, not 10 |
| `IndexProvisioner.Provision` | app.py:32-45 | the startup block (exists check, create, then one index call per seed in order) leaves exactly the state `Provisioned` gives |
| `IndexProvisioner.StartTwice` | app.py:32-45 | two startups on an engine without the index leave ids {1..5}, exactly 5 documents, and seed i under id i + 1 in load order |

## Left out

- The Flask application, routing, and the rendering of the HTML form and the result list (app.py:84-112) are not modelled. `HandleRequest` returns the data the template receives and stops there. Escaping is the template engine's concern.
- The client construction and the host and port taken from environment variables (app.py:8-16) are configuration and network plumbing. `app.run` (app.py:114-115) is process lifecycle. Neither is modelled.
- The engine's search semantics are not modelled: tokenisation, relevance scoring, the ordering of hits, and how `multi_match` compares a keyword with analysed text. The engine's answer is the opaque function `SearchEngine.respond`, and keyword matching is the parameter `textMatch` of `Matches`.
- Engine failures are not modelled. In the source they propagate as exceptions, both at startup and per request. In the model, `SearchEngine.Execute`, `IndexStore.Exists` and `IndexStore.Index` always succeed; `IndexStore.Create` only reports, as `false`, the refusal to create an index that already exists, a call the source never makes.
- Hits are assumed well-formed: every hit's `_source` has `title` and `content` fields, both strings made of Unicode scalar values. In the source, a missing field (app.py:76, app.py:78) raises `KeyError`, a null or non-string value raises `TypeError`, and a lone surrogate code point in a string has no Dafny `char`; none of these are modelled, which matters for an index that existed before startup and holds other documents.
- IndexProvisioner.IndexStore.Index: requires the index to exist. The engine's automatic creation of a missing index on a document write is not modelled, and the source only indexes after creating the index.
- The schema is recorded as the value the index is created with. Its effect on analysis (`text` analysed, `keyword` exact) appears only in `Matches`, where the term filter on `content_type` is exact equality.
