/**
 * The per-soul retrieval index (backend/core/scoped_rag.py). Indexing and
 * retrieval are placeholders in this phase of the system: what is real is
 * the index directory data_dir/owner/soul/index and what is reported
 * about it.
 */
module ScopedRag {
  import opened Common
  import opened FileTree
  import opened Exceptions
  import Storage

  const PlaceholderPhase: string := "1 (placeholder)"
  const BuildMessage: string := "RAG indexing is a placeholder in Phase 1. Will be implemented in Phase 2."
  const StatusMessage: string := "RAG index checking is placeholder in Phase 1"

  /** What `check_index_status` reports (the index path string is not modelled). */
  datatype IndexStatus = IndexStatus(hasIndex: bool, indexedDocuments: nat, phase: string, message: string)

  /** What `build_index` reports (the index path string is not modelled). */
  datatype BuildResult = BuildResult(success: bool, phase: string, indexedDocuments: nat, message: string)

  /** A retrieved document; the chat endpoint reads only its optional `text`. The placeholder never produces one. */
  datatype Document = Document(text: Option<string>)

  /**
   * The status of the index directory `index`: present iff it exists, and
   * the number of entries `glob("*")` finds in it, which is none when it is
   * not a directory.
   */
  function Status(log: Log, index: Path): (s: IndexStatus)
    ensures s.hasIndex <==> Find(log, index).Some?
    ensures !IsDir(log, index) ==> s.indexedDocuments == 0
    ensures IsDir(log, index) ==> s.indexedDocuments == |Children(log, index)|
    ensures s.phase == PlaceholderPhase && s.message == StatusMessage
  {
    var present := Find(log, index).Some?;
    var count := if IsDir(log, index) then |Children(log, index)| else 0;
    IndexStatus(present, count, PlaceholderPhase, StatusMessage)
  }

  /** `ScopedRAG`: its own path builder over the shared file system. */
  class ScopedRag {
    const pathBuilder: Storage.ScopedPathBuilder
    const fs: FileSystem

    constructor(dataDirArg: Option<string>, env: map<string, string>, fileSystem: FileSystem)
      requires fileSystem.Valid()
      ensures pathBuilder.dataDir == [Storage.DataDir(dataDirArg, env)] && fs == fileSystem && Valid()
    {
      pathBuilder := new Storage.ScopedPathBuilder(dataDirArg, env);
      fs := fileSystem;
    }

    predicate Valid()
      reads fs
    {
      fs.Valid()
    }

    /** data_dir/owner/soul/index */
    function IndexPath(owner: string, soul: string): (p: Path)
      ensures p == Storage.CategoryPath(pathBuilder.dataDir, owner, soul, Storage.IndexCategory)
    {
      Storage.CategoryPath(pathBuilder.dataDir, owner, soul, Storage.IndexCategory)
    }

    /** `check_index_status`: changes nothing. */
    method CheckIndexStatus(owner: string, soul: string) returns (s: IndexStatus)
      requires Valid()
      ensures s == Status(fs.log, IndexPath(owner, soul))
    {
      var index := IndexPath(owner, soul);
      var present := fs.Exists(index);
      s := IndexStatus(present, 0, PlaceholderPhase, StatusMessage);
      if present && IsDir(fs.log, index) {
        s := s.(indexedDocuments := |Children(fs.log, index)|);
      }
    }

    /**
     * `build_index`: make the index directory and report success with no
     * documents indexed. A failing `mkdir` raises; the directories it made
     * on the way stay.
     */
    method BuildIndex(owner: string, soul: string, includeUploads: bool, includeTranscripts: bool)
      returns (r: Result<BuildResult, Raised>)
      requires Valid()
      modifies fs
      ensures Valid()
      ensures r.Ok? <==> MakeDirs(old(fs.log), IndexPath(owner, soul)).Ok?
      ensures r.Ok? ==> r.value == BuildResult(true, PlaceholderPhase, 0, BuildMessage)
      ensures r.Ok? ==> Status(fs.log, IndexPath(owner, soul)).hasIndex
      ensures r.Err? ==> r.error == Other(Storage.MkdirError(old(fs.log), IndexPath(owner, soul)))
      ensures fs.log == After(MakeDirs(old(fs.log), IndexPath(owner, soul)))
    {
      var index := IndexPath(owner, soul);
      var before := fs.log;
      var ok := fs.MakeDirsAt(index);
      if !ok {
        return Err(Other(Storage.MkdirError(before, index)));
      }
      MakeDirsSpec(before, index);
      assert index[..|index|] == index;
      r := Ok(BuildResult(true, PlaceholderPhase, 0, BuildMessage));
    }

    /** `query`: the placeholder retrieves nothing, whatever the index holds. */
    method Query(owner: string, soul: string, query: string, topK: int) returns (docs: seq<Document>)
      ensures docs == []
    {
      docs := [];
    }

    /** `delete_index`: True iff the index directory existed and was removed; afterwards there is no index. */
    method DeleteIndex(owner: string, soul: string) returns (r: Result<bool, Raised>)
      requires Valid()
      modifies fs
      ensures Valid()
      ensures (fs.log, r) == Storage.DeletePath(old(fs.log), IndexPath(owner, soul), true)
      ensures r.Ok? ==> !Status(fs.log, IndexPath(owner, soul)).hasIndex
    {
      var index := IndexPath(owner, soul);
      if !fs.Exists(index) {
        return Ok(false);
      }
      var error := fs.RmTree(index);
      r := if error.None? then Ok(true) else Err(Other(error.value));
    }
  }
}
