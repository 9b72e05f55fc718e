/**
 * Startup provisioning: when the index does not exist, create it with the
 * schema and index the sample documents under ids 1 to 5; when it exists,
 * do nothing.
 */
module IndexProvisioner {
  import opened AppConfig

  /** The engine's side of one index: whether it exists, its schema and its documents. */
  class IndexStore {
    var present: bool
    var schema: map<string, FieldType>
    var docs: map<int, Doc>

    function State(): StoreState
      reads this
    {
      StoreState(present, schema, docs)
    }

    /** An engine on which the index has not been created. */
    constructor Empty()
      ensures !present
    {
      present, schema, docs := false, map[], map[];
    }

    /** An engine on which the index already exists with the given contents. */
    constructor Existing(schema: map<string, FieldType>, docs: map<int, Doc>)
      ensures present && this.schema == schema && this.docs == docs
    {
      present, this.schema, this.docs := true, schema, docs;
    }

    method Exists() returns (b: bool)
      ensures b == present
    {
      b := present;
    }

    /** Creating an existing index is refused and changes nothing. */
    method Create(mapping: map<string, FieldType>) returns (created: bool)
      modifies this
      ensures created == !old(present)
      ensures created ==> present && schema == mapping && docs == map[]
      ensures !created ==> State() == old(State())
    {
      created := !present;
      if created {
        present, schema, docs := true, mapping, map[];
      }
    }

    /** Stores `doc` under `id`, replacing any document already there. */
    method Index(id: int, doc: Doc)
      requires present
      modifies this
      ensures present && schema == old(schema)
      ensures docs == old(docs)[id := doc]
    {
      docs := docs[id := doc];
    }
  }

  datatype StoreState = StoreState(present: bool, schema: map<string, FieldType>, docs: map<int, Doc>)

  /** The documents of `docs`, each under the id the startup loop gives it. */
  function IdMap(docs: seq<Doc>): (m: map<int, Doc>)
    ensures forall id :: id in m <==> 1 <= id <= |docs|
    ensures forall i :: 0 <= i < |docs| ==> SeedId(i) in m && m[SeedId(i)] == docs[i]
  {
    if docs == [] then map[]
    else IdMap(docs[..|docs| - 1])[SeedId(|docs| - 1) := docs[|docs| - 1]]
  }

  /** Indexing one more document extends the map of those already indexed. */
  lemma IdMapAppend(docs: seq<Doc>, d: Doc)
    ensures IdMap(docs + [d]) == IdMap(docs)[SeedId(|docs|) := d]
  {
  }

  /** Five documents get ids 1 to 5 and no others. */
  lemma IdMapOfFive(docs: seq<Doc>)
    requires |docs| == 5
    ensures IdMap(docs).Keys == {1, 2, 3, 4, 5}
    ensures |IdMap(docs)| == 5
  {
  }

  /** The state provisioning leaves behind. */
  function Provisioned(s: StoreState): (t: StoreState)
    ensures t.present
    ensures s.present ==> t == s
    ensures !s.present ==> t.schema == IndexMapping && t.docs == IdMap(Seeds)
  {
    if s.present then s else StoreState(true, IndexMapping, IdMap(Seeds))
  }

  /** Provisioning twice is provisioning once; from an absent index it leaves five documents. */
  lemma ProvisionIdempotent(s: StoreState)
    ensures Provisioned(Provisioned(s)) == Provisioned(s)
    ensures !s.present ==> |Provisioned(Provisioned(s)).docs| == 5
  {
    SeedsUseKnownTypes();
    IdMapOfFive(Seeds);
  }

  /** The startup block: check, create, then index the seeds one by one. */
  method Provision(store: IndexStore)
    modifies store
    ensures store.State() == Provisioned(old(store.State()))
  {
    var found := store.Exists();
    if !found {
      var created := store.Create(IndexMapping);
      for i := 0 to |Seeds|
        invariant store.present && store.schema == IndexMapping
        invariant store.docs == IdMap(Seeds[..i])
      {
        store.Index(SeedId(i), Seeds[i]);
        assert Seeds[..i + 1] == Seeds[..i] + [Seeds[i]];
        IdMapAppend(Seeds[..i], Seeds[i]);
      }
      assert Seeds[..|Seeds|] == Seeds;
    }
  }

  /** Starting twice on an engine without the index leaves exactly five documents. */
  method StartTwice(store: IndexStore)
    requires !store.present
    modifies store
    ensures store.present && store.schema == IndexMapping
    ensures store.docs.Keys == {1, 2, 3, 4, 5} && |store.docs| == 5
    ensures forall i :: 0 <= i < |Seeds| ==> store.docs[SeedId(i)] == Seeds[i]
  {
    Provision(store);
    Provision(store);
    SeedsUseKnownTypes();
    IdMapOfFive(Seeds);
  }
}
