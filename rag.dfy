/**
 * `DocumentProcessor` of rag.py: the lazily created vector store behind `search`, and the
 * context text `build_context` assembles from the search results. Loading, splitting, indexing
 * and similarity search belong to the document and vector-store libraries and come in as a
 * `Library` of functions.
 */
module Rag {
  import opened Wrappers
  import opened Text

  /** A chunk of a loaded document; only its text reaches the context. */
  datatype Document = Document(pageContent: string)

  /** The vector index, known only through the chunks and embedding model it was built from. */
  datatype VectorStore = VectorStore(chunks: seq<Document>, model: string)

  /** The libraries: `load` is None when the documents folder is missing or empty. */
  datatype Library = Library(
    load: string -> Option<seq<Document>>,
    split: (seq<Document>, int, int) -> seq<Document>,
    index: (seq<Document>, string) -> VectorStore,
    similar: (VectorStore, string, int) -> seq<Document>,
    loadIndex: string -> Option<VectorStore>)

  const DefaultChunkSize: int := 1000
  const DefaultChunkOverlap: int := 200
  const DefaultK: int := 3
  /** The default path of `save_vector_store` and `load_vector_store`. */
  const DefaultStorePath := "./vector_store"

  // ---------------------------------------------------------------------------------------
  // What the stateful operations compute

  /** The documents `chunk_documents` splits: the loaded ones, loading them first when there are none. */
  function DocumentsForChunking(documents: seq<Document>, docsPath: string, lib: Library): seq<Document> {
    if documents != [] then documents
    else match lib.load(docsPath)
      case Some(ds) => ds
      case None => documents
  }

  function DefaultChunks(documents: seq<Document>, docsPath: string, lib: Library): seq<Document> {
    lib.split(DocumentsForChunking(documents, docsPath, lib), DefaultChunkSize, DefaultChunkOverlap)
  }

  /** The store `search` queries: the existing one, or one built from the default chunks, or
      none when there are no chunks. */
  function StoreForSearch(store: Option<VectorStore>, documents: seq<Document>, docsPath: string,
                          modelName: string, lib: Library): Option<VectorStore>
  {
    if store.Some? then store
    else
      var chunks := DefaultChunks(documents, docsPath, lib);
      if chunks == [] then None else Some(lib.index(chunks, modelName))
  }

  /** Without a store there are no results; otherwise the library's top-`k` answer, with `k` as given. */
  function SearchResults(store: Option<VectorStore>, query: string, k: int, lib: Library): seq<Document> {
    if store.None? then [] else lib.similar(store.value, query, k)
  }

  /** Once a store exists, later searches reuse it. */
  lemma StoreForSearchIdempotent(store: Option<VectorStore>, documents: seq<Document>, d2: seq<Document>,
                                 docsPath: string, modelName: string, lib: Library)
    requires StoreForSearch(store, documents, docsPath, modelName, lib).Some?
    ensures var s := StoreForSearch(store, documents, docsPath, modelName, lib);
      StoreForSearch(s, d2, docsPath, modelName, lib) == s
  {
  }

  /** With no store and nothing to index, a search finds nothing and asks the library nothing. */
  lemma SearchWithoutDocuments(documents: seq<Document>, docsPath: string, modelName: string,
                               query: string, k: int, lib: Library)
    requires DefaultChunks(documents, docsPath, lib) == []
    ensures StoreForSearch(None, documents, docsPath, modelName, lib) == None
    ensures SearchResults(StoreForSearch(None, documents, docsPath, modelName, lib), query, k, lib) == []
  {
  }

  // ---------------------------------------------------------------------------------------
  // The context text

  const NoDocumentsMessage: string := "Nenhum documento relevante encontrado."
  const ContextHeader: string := "Contexto dos documentos:\n\n"

  /** The block of the result numbered `i`. */
  function Entry(i: nat, d: Document): string {
    "[Documento " + NatToString(i) + "]\n" + d.pageContent + "\n\n"
  }

  /** The blocks of `results`, numbered consecutively from `first`. */
  function Entries(results: seq<Document>, first: nat): string
    decreases |results|
  {
    if results == [] then "" else Entry(first, results[0]) + Entries(results[1..], first + 1)
  }

  /** What `build_context` returns for a list of search results. */
  function ContextText(results: seq<Document>): string {
    if results == [] then NoDocumentsMessage else ContextHeader + Entries(results, 1)
  }

  /** Blocks of consecutive lists follow each other, the numbering continuing. */
  lemma {:induction false} EntriesAppend(xs: seq<Document>, ys: seq<Document>, first: nat)
    ensures Entries(xs + ys, first) == Entries(xs, first) + Entries(ys, first + |xs|)
    decreases |xs|
  {
    if xs == [] {
      assert xs + ys == ys;
    } else {
      assert (xs + ys)[0] == xs[0];
      assert (xs + ys)[1..] == xs[1..] + ys;
      EntriesAppend(xs[1..], ys, first + 1);
    }
  }

  /** The blocks of the first `i` results: none for none, one more block for each further result. */
  lemma EntriesPrefix(results: seq<Document>, i: nat)
    requires i <= |results|
    ensures i == 0 ==> Entries(results[..i], 1) == ""
    ensures 0 < i ==> Entries(results[..i], 1) == Entries(results[..i - 1], 1) + Entry(i, results[i - 1])
  {
    if 0 < i {
      assert results[..i] == results[..i - 1] + [results[i - 1]];
      EntriesAppend(results[..i - 1], [results[i - 1]], 1);
      assert Entries([results[i - 1]], i) == Entry(i, results[i - 1]) + "";
    } else {
      assert results[..i] == [];
    }
  }

  /** The blocks of a list split at `i`: those before, then those from `i` on, numbered from `i + 1`. */
  lemma EntriesSplit(results: seq<Document>, i: nat)
    requires i <= |results|
    ensures Entries(results, 1) == Entries(results[..i], 1) + Entries(results[i..], i + 1)
  {
    assert results == results[..i] + results[i..];
    EntriesAppend(results[..i], results[i..], 1);
  }

  /** The context lists every result in search order: the `i`-th result (from 0) is the block
      numbered `i + 1`, after the blocks of the results before it and before those after it. */
  lemma ContextLayout(results: seq<Document>, i: nat)
    requires i < |results|
    ensures ContextText(results) ==
      ContextHeader + (Entries(results[..i], 1) + (Entry(i + 1, results[i]) + Entries(results[i + 1..], i + 2)))
  {
    EntriesSplit(results, i);
    assert results[i..][1..] == results[i + 1..];
    assert Entries(results[i..], i + 1) == Entry(i + 1, results[i]) + Entries(results[i + 1..], i + 2);
  }

  // ---------------------------------------------------------------------------------------
  // The processor

  class DocumentProcessor {
    const docsPath: string
    const modelName: string
    var vectorStore: Option<VectorStore>
    var documents: seq<Document>
    /** What `save_local` has written so far, as (path, store) pairs in order. */
    var saves: seq<(string, VectorStore)>

    constructor (docsPath: string, modelName: string)
      ensures this.docsPath == docsPath && this.modelName == modelName
      ensures vectorStore == None && documents == [] && saves == []
    {
      this.docsPath := docsPath;
      this.modelName := modelName;
      vectorStore := None;
      documents := [];
      saves := [];
    }

    /** `load_documents`: a missing or empty folder yields nothing and keeps the documents. */
    method LoadDocuments(lib: Library) returns (docs: seq<Document>)
      modifies this
      ensures lib.load(docsPath).None? ==> docs == [] && documents == old(documents)
      ensures lib.load(docsPath).Some? ==> docs == lib.load(docsPath).value && documents == docs
      ensures vectorStore == old(vectorStore) && saves == old(saves)
    {
      match lib.load(docsPath)
      case None =>
        docs := [];
      case Some(ds) =>
        docs := ds;
        documents := ds;
    }

    /** `chunk_documents`: loads first when nothing is loaded, then splits. */
    method ChunkDocuments(chunkSize: int, chunkOverlap: int, lib: Library) returns (chunks: seq<Document>)
      modifies this
      ensures documents == DocumentsForChunking(old(documents), docsPath, lib)
      ensures chunks == lib.split(documents, chunkSize, chunkOverlap)
      ensures vectorStore == old(vectorStore) && saves == old(saves)
    {
      if documents == [] {
        var loaded := LoadDocuments(lib);
      }
      chunks := lib.split(documents, chunkSize, chunkOverlap);
    }

    /** `create_vector_store`: without chunks given it chunks the documents; with no chunks at
        all it returns None and leaves the store as it was. */
    method CreateVectorStore(chunks: Option<seq<Document>>, lib: Library) returns (store: Option<VectorStore>)
      modifies this
      ensures documents ==
        (if chunks.Some? then old(documents) else DocumentsForChunking(old(documents), docsPath, lib))
      ensures var cs := if chunks.Some? then chunks.value else DefaultChunks(old(documents), docsPath, lib);
        && (cs == [] ==> store == None && vectorStore == old(vectorStore))
        && (cs != [] ==> store == Some(lib.index(cs, modelName)) && vectorStore == store)
      ensures saves == old(saves)
    {
      var cs: seq<Document>;
      if chunks.None? {
        cs := ChunkDocuments(DefaultChunkSize, DefaultChunkOverlap, lib);
      } else {
        cs := chunks.value;
      }
      if cs == [] {
        return None;
      }
      vectorStore := Some(lib.index(cs, modelName));
      store := vectorStore;
    }

    /** `save_vector_store`: writes the store to `path` when there is one, and nothing otherwise. */
    method SaveVectorStore(path: string)
      modifies this
      ensures saves == old(saves) + (if old(vectorStore).Some? then [(path, old(vectorStore).value)] else [])
      ensures vectorStore == old(vectorStore) && documents == old(documents)
    {
      if vectorStore.Some? {
        saves := saves + [(path, vectorStore.value)];
      }
    }

    /** `load_vector_store`: a failed load returns None and keeps the current store. */
    method LoadVectorStore(path: string, lib: Library) returns (store: Option<VectorStore>)
      modifies this
      ensures store == lib.loadIndex(path)
      ensures vectorStore == (if store.Some? then store else old(vectorStore))
      ensures documents == old(documents) && saves == old(saves)
    {
      store := lib.loadIndex(path);
      if store.Some? {
        vectorStore := store;
      }
    }

    /** `search`: creates the store on first use; without one there are no results. */
    method Search(query: string, k: int, lib: Library) returns (results: seq<Document>)
      modifies this
      ensures vectorStore == StoreForSearch(old(vectorStore), old(documents), docsPath, modelName, lib)
      ensures documents ==
        (if old(vectorStore).Some? then old(documents) else DocumentsForChunking(old(documents), docsPath, lib))
      ensures results == SearchResults(vectorStore, query, k, lib)
      ensures saves == old(saves)
    {
      if vectorStore.None? {
        var created := CreateVectorStore(None, lib);
      }
      if vectorStore.None? {
        return [];
      }
      results := lib.similar(vectorStore.value, query, k);
    }

    /** `build_context`: the search results, numbered in order, or the fixed message when there are none. */
    method BuildContext(query: string, k: int, lib: Library) returns (context: string)
      modifies this
      ensures vectorStore == StoreForSearch(old(vectorStore), old(documents), docsPath, modelName, lib)
      ensures documents ==
        (if old(vectorStore).Some? then old(documents) else DocumentsForChunking(old(documents), docsPath, lib))
      ensures context == ContextText(SearchResults(vectorStore, query, k, lib))
      ensures saves == old(saves)
    {
      var results := Search(query, k, lib);
      if results == [] {
        return NoDocumentsMessage;
      }
      ghost var store, docs := vectorStore, documents;
      context := ContextHeader;
      var i := 0;
      EntriesPrefix(results, 0);
      while i < |results|
        invariant 0 <= i <= |results|
        invariant context == ContextHeader + Entries(results[..i], 1)
        invariant vectorStore == store && documents == docs && saves == old(saves)
      {
        EntriesPrefix(results, i + 1);
        context := context + Entry(i + 1, results[i]);
        i := i + 1;
      }
      assert results[..i] == results;
    }
  }
}
