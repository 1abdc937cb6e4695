/** The shared resources of `retrieval/shared_rag_manager.py`: one cache each
    for embedding models (keyed by the embedding choice), vector databases
    (keyed by the embedding choice) and language models (keyed by the digest of
    the API key), with get-or-create, eviction, deletion from disk and forced
    re-creation; and the per-user session that owns its own conversation log
    while sharing the cached resources.

    The pure part states each operation as a step from one `Resources` value to
    the next together with the factory calls it makes; the class updates its
    maps in place and is proved to take exactly that step. */
module SharedRag {
  import opened Text
  import opened Providers
  import History
  import EnhancedRag
  import RagManager

  /** The three caches and the set of directories that hold a database on disk. */
  datatype Resources = Resources(
    embeddings: map<string, Embedding>,
    databases: map<string, VectorStore>,
    llms: map<string, LanguageModel>,
    disk: set<string>)

  /** A call into a factory or loader. */
  datatype Construction =
    | EmbeddingCreated(choice: string)
    | DocumentsLoaded
    | DatabaseOpened(path: string)
    | DocumentsAdded(path: string)
    | LlmCreated(keyHash: string)

  /** The outcome of one operation: what it returns (or raises), the resources
      after it and the factory calls it made. */
  datatype Step<T> = Step(result: Result<T>, after: Resources, calls: seq<Construction>)

  /** The directory of the database for an embedding choice. */
  function DatabasePath(choice: string): (path: string)
    ensures StartsWith(path, "./chroma_") && path[|"./chroma_"|..] == choice
  {
    "./chroma_" + choice
  }

  /** `get_or_create_embedding`: a cached model is returned without a call; a
      missing one is built once and stored only when the factory returns. */
  function EmbeddingStep(r: Resources, env: Environment, choice: string): (s: Step<Embedding>)
    ensures choice in r.embeddings ==> s == Step(Success(r.embeddings[choice]), r, [])
    ensures choice !in r.embeddings ==>
      s.result == env.createEmbedding(choice) && s.calls == [EmbeddingCreated(choice)]
    ensures s.result.Success? ==> s.after == r.(embeddings := r.embeddings[choice := s.result.value])
    ensures s.result.Failure? ==> s.after == r
  {
    if choice in r.embeddings then Step(Success(r.embeddings[choice]), r, [])
    else
      match env.createEmbedding(choice)
      case Success(embedding) =>
        Step(Success(embedding), r.(embeddings := r.embeddings[choice := embedding]), [EmbeddingCreated(choice)])
      case Failure(error) => Step(Failure(error), r, [EmbeddingCreated(choice)])
  }

  /** Building a database at the choice's directory with a ready embedding: an
      existing one is opened; otherwise the documents are loaded, the database
      is opened and the documents are added. The entry is stored only when
      every call returned; a new store that was opened is on disk from then
      on, even when adding the documents raised. */
  function BuildDatabase(r: Resources, env: Environment, choice: string, embedding: Embedding): Step<VectorStore>
  {
    var path := DatabasePath(choice);
    if path in r.disk then
      match env.openDatabase(path, embedding)
      case Success(database) =>
        Step(Success(database), r.(databases := r.databases[choice := database]), [DatabaseOpened(path)])
      case Failure(error) => Step(Failure(error), r, [DatabaseOpened(path)])
    else
      match env.documents
      case Failure(error) => Step(Failure(error), r, [DocumentsLoaded])
      case Success(documents) =>
        match env.openDatabase(path, embedding)
        case Failure(error) => Step(Failure(error), r, [DocumentsLoaded, DatabaseOpened(path)])
        case Success(database) =>
          // opening a new store creates its directory, before any document is added
          var created := r.(disk := r.disk + {path});
          var calls := [DocumentsLoaded, DatabaseOpened(path), DocumentsAdded(path)];
          match env.addDocuments(database, documents)
          case Failure(error) => Step(Failure(error), created, calls)
          case Success(_) => Step(Success(database), created.(databases := r.databases[choice := database]), calls)
  }

  /** `get_or_create_database`. */
  function DatabaseStep(r: Resources, env: Environment, choice: string): (s: Step<VectorStore>)
    // a cached database is returned as it is, with no call
    ensures choice in r.databases ==> s == Step(Success(r.databases[choice]), r, [])
    // on success the entry is stored, and a database it built is on disk
    ensures s.result.Success? ==> s.after.databases == r.databases[choice := s.result.value]
    ensures s.result.Success? && choice !in r.databases ==> DatabasePath(choice) in s.after.disk
    // on failure no entry is stored; at most the choice's directory has appeared on disk
    ensures s.result.Failure? ==> s.after.databases == r.databases
    ensures s.after.disk == r.disk || s.after.disk == r.disk + {DatabasePath(choice)}
    ensures s.after.llms == r.llms
    ensures choice !in r.databases ==> s.after.embeddings == EmbeddingStep(r, env, choice).after.embeddings
  {
    if choice in r.databases then Step(Success(r.databases[choice]), r, [])
    else
      var e := EmbeddingStep(r, env, choice);
      match e.result
      case Failure(error) => Step(Failure(error), e.after, e.calls)
      case Success(embedding) =>
        var b := BuildDatabase(e.after, env, choice, embedding);
        Step(b.result, b.after, e.calls + b.calls)
  }

  /** Every database opened is at the choice's directory, and the documents
      are added exactly when a database is built where none was on disk. */
  lemma DatabaseStepCalls(r: Resources, env: Environment, choice: string)
    ensures var s := DatabaseStep(r, env, choice);
      && (forall c :: c in s.calls && c.DatabaseOpened? ==> c.path == DatabasePath(choice))
      && (DocumentsAdded(DatabasePath(choice)) in s.calls ==>
            choice !in r.databases && DatabasePath(choice) !in r.disk)
      && (s.result.Success? && choice !in r.databases && DatabasePath(choice) !in r.disk ==>
            DocumentsAdded(DatabasePath(choice)) in s.calls)
      // documents are added only to a store that was opened, and that store is on disk
      && (DocumentsAdded(DatabasePath(choice)) in s.calls ==> DatabasePath(choice) in s.after.disk)
  {
    if choice !in r.databases {
      var e := EmbeddingStep(r, env, choice);
      if e.result.Success? {
        var b := BuildDatabase(e.after, env, choice, e.result.value);
        assert e.after.disk == r.disk;
        assert DatabaseStep(r, env, choice).calls == e.calls + b.calls;
        assert DatabaseStep(r, env, choice).after == b.after;
        assert DocumentsAdded(DatabasePath(choice)) in b.calls ==> DatabasePath(choice) in b.after.disk;
      }
    }
  }

  /** When adding the documents raised, the new store's directory stays on
      disk, so asking again opens that store without adding any document,
      and caches it when the opening returns. */
  lemma RetryAfterFailedIngestionReusesStore(r: Resources, env: Environment, choice: string)
    requires var s := DatabaseStep(r, env, choice);
      s.result.Failure? && DocumentsAdded(DatabasePath(choice)) in s.calls
    ensures var s := DatabaseStep(r, env, choice);
      var t := DatabaseStep(s.after, env, choice);
      && choice in s.after.embeddings
      && DocumentsAdded(DatabasePath(choice)) !in t.calls
      && (t.result.Success? <==> env.openDatabase(DatabasePath(choice), s.after.embeddings[choice]).Success?)
  {
    var s := DatabaseStep(r, env, choice);
    DatabaseStepCalls(r, env, choice);
    var e := EmbeddingStep(r, env, choice);
    assert e.result.Success?;
    DatabaseStepCalls(s.after, env, choice);
  }

  /** `get_or_create_llm`: the model is cached under the digest of the key. */
  function LlmStep(r: Resources, env: Environment, apiKey: string): (s: Step<LanguageModel>)
    ensures env.keyHash(apiKey) in r.llms ==> s == Step(Success(r.llms[env.keyHash(apiKey)]), r, [])
    ensures env.keyHash(apiKey) !in r.llms ==>
      s.result == env.createLlm(apiKey) && s.calls == [LlmCreated(env.keyHash(apiKey))]
    ensures s.result.Success? ==> s.after == r.(llms := r.llms[env.keyHash(apiKey) := s.result.value])
    ensures s.result.Failure? ==> s.after == r
  {
    var key := env.keyHash(apiKey);
    if key in r.llms then Step(Success(r.llms[key]), r, [])
    else
      match env.createLlm(apiKey)
      case Success(llm) => Step(Success(llm), r.(llms := r.llms[key := llm]), [LlmCreated(key)])
      case Failure(error) => Step(Failure(error), r, [LlmCreated(key)])
  }

  /** The resource steps of `create_user_session`, in its order: the
      embedding, the database (which asks for the embedding again), then the
      language model; the first failure stops the sequence. */
  function SessionStep(r: Resources, env: Environment, choice: string, apiKey: string)
    : (s: Step<(VectorStore, LanguageModel)>)
    ensures s.result.Success? ==>
      && choice in s.after.databases && s.after.databases[choice] == s.result.value.0
      && env.keyHash(apiKey) in s.after.llms && s.after.llms[env.keyHash(apiKey)] == s.result.value.1
    // a cached database is shared: nothing is loaded, opened or added for it
    ensures choice in r.databases ==>
      forall c :: c in s.calls ==> c.EmbeddingCreated? || c.LlmCreated?
    ensures choice in r.databases && s.result.Success? ==> s.result.value.0 == r.databases[choice]
  {
    var e := EmbeddingStep(r, env, choice);
    if e.result.Failure? then Step(Failure(e.result.error), e.after, e.calls)
    else
      var d := DatabaseStep(e.after, env, choice);
      if d.result.Failure? then Step(Failure(d.result.error), d.after, e.calls + d.calls)
      else
        var l := LlmStep(d.after, env, apiKey);
        match l.result
        case Failure(error) => Step(Failure(error), l.after, e.calls + d.calls + l.calls)
        case Success(llm) => Step(Success((d.result.value, llm)), l.after, e.calls + d.calls + l.calls)
  }

  /** A session over resources that are all cached makes no factory call
      and changes nothing. */
  lemma CachedSessionMakesNoCall(r: Resources, env: Environment, choice: string, apiKey: string)
    requires choice in r.embeddings && choice in r.databases && env.keyHash(apiKey) in r.llms
    ensures SessionStep(r, env, choice, apiKey) ==
      Step(Success((r.databases[choice], r.llms[env.keyHash(apiKey)])), r, [])
  {
  }

  /** Once a resource has been obtained, asking again for it returns the same
      instance, makes no call and changes nothing; for language models this
      holds for any key with the same digest. */
  lemma SecondRequestReusesResource(r: Resources, env: Environment, choice: string, apiKey: string,
                                    sameDigestKey: string)
    requires env.keyHash(sameDigestKey) == env.keyHash(apiKey)
    ensures var s := EmbeddingStep(r, env, choice);
      s.result.Success? ==> EmbeddingStep(s.after, env, choice) == Step(s.result, s.after, [])
    ensures var s := DatabaseStep(r, env, choice);
      s.result.Success? ==> DatabaseStep(s.after, env, choice) == Step(s.result, s.after, [])
    ensures var s := LlmStep(r, env, apiKey);
      s.result.Success? ==> LlmStep(s.after, env, sameDigestKey) == Step(s.result, s.after, [])
  {
  }

  /** `clear_database_cache`: only the database entry of the choice goes. */
  function Evicted(r: Resources, choice: string): (t: Resources)
    ensures t.databases.Keys == r.databases.Keys - {choice}
    ensures forall c :: c in t.databases ==> t.databases[c] == r.databases[c]
    ensures t.embeddings == r.embeddings && t.llms == r.llms && t.disk == r.disk
  {
    r.(databases := r.databases - {choice})
  }

  /** The number of directories of a listing removed before the first removal
      that raised; the whole listing when none did. */
  function ClearedPrefix(env: Environment, dirs: seq<string>): (k: nat)
    ensures k <= |dirs|
    ensures forall i :: 0 <= i < k ==> env.clearDirectory(dirs[i]).Success?
    ensures k < |dirs| ==> env.clearDirectory(dirs[k]).Failure?
  {
    if dirs == [] then 0
    else if env.clearDirectory(dirs[0]).Failure? then 0
    else 1 + ClearedPrefix(env, dirs[1..])
  }

  /** The outcome of `delete_database_files`: whether it returned true, and
      the resources after it. */
  datatype Deletion = Deletion(ok: bool, after: Resources)

  /** `delete_database_files(choice)`. With a non-empty choice, the choice's
      directory is removed and then its cache entry. Without one, every
      directory of `listing` (what `./chroma*` matches) is removed in order and
      then the whole database cache; a removal that raises stops the deletion
      there and the result is false. */
  function Deleted(r: Resources, env: Environment, choice: Option<string>, listing: seq<string>): (d: Deletion)
    ensures Truthy(choice) ==> (d.ok <==> env.clearDirectory(DatabasePath(choice.value)).Success?)
    ensures !Truthy(choice) ==> (d.ok <==> forall dir :: dir in listing ==> env.clearDirectory(dir).Success?)
    ensures d.after.embeddings == r.embeddings && d.after.llms == r.llms
    ensures !d.ok ==> d.after.databases == r.databases
    // only the directories it was asked to remove leave the disk
    ensures d.after.disk <= r.disk
    ensures r.disk - d.after.disk <=
      if Truthy(choice) then {DatabasePath(choice.value)} else (set dir | dir in listing)
    // a removal that raised leaves the directory of a choice in place
    ensures !d.ok && Truthy(choice) ==> d.after.disk == r.disk
    ensures d.ok && Truthy(choice) ==>
      d.after.databases == Evicted(r, choice.value).databases && DatabasePath(choice.value) !in d.after.disk
    ensures d.ok && !Truthy(choice) ==>
      d.after.databases == map[] && forall dir :: dir in listing ==> dir !in d.after.disk
  {
    if Truthy(choice) then
      var path := DatabasePath(choice.value);
      if env.clearDirectory(path).Failure? then Deletion(false, r)
      else Deletion(true, r.(databases := r.databases - {choice.value}, disk := r.disk - {path}))
    else
      var k := ClearedPrefix(env, listing);
      var disk := r.disk - (set dir | dir in listing[..k]);
      if k < |listing| then Deletion(false, r.(disk := disk))
      else
        assert listing[..k] == listing;
        Deletion(true, r.(databases := map[], disk := disk))
  }

  /** When the listing holds every `./chroma` directory on disk, a full
      sweep that returns true leaves no database of any choice on disk and
      none in the cache. */
  lemma FullSweepClearsEveryDatabase(r: Resources, env: Environment, listing: seq<string>)
    requires forall p :: p in r.disk && StartsWith(p, "./chroma") ==> p in listing
    ensures var d := Deleted(r, env, None, listing);
      d.ok ==> d.after.databases == map[] && forall choice :: DatabasePath(choice) !in d.after.disk
  {
    var d := Deleted(r, env, None, listing);
    if d.ok {
      forall choice ensures DatabasePath(choice) !in d.after.disk {
        var path := DatabasePath(choice);
        assert StartsWith(path, "./chroma") by {
          assert path[..|"./chroma"|] == "./chroma";
        }
      }
    }
  }

  /** `force_recreate_database`: evict, delete, then get-or-create; the result
      of the deletion is not looked at. */
  function Recreated(r: Resources, env: Environment, choice: string, listing: seq<string>): Step<VectorStore>
  {
    DatabaseStep(Deleted(Evicted(r, choice), env, Some(choice), listing).after, env, choice)
  }

  /** When the directory of a non-empty choice is removed, a forced re-creation
      that succeeds has loaded and added the documents again. */
  lemma RecreationReingests(r: Resources, env: Environment, choice: string, listing: seq<string>)
    requires choice != "" && env.clearDirectory(DatabasePath(choice)).Success?
    ensures var s := Recreated(r, env, choice, listing);
      s.result.Success? ==> DocumentsAdded(DatabasePath(choice)) in s.calls
  {
    var mid := Deleted(Evicted(r, choice), env, Some(choice), listing);
    assert choice !in mid.after.databases && DatabasePath(choice) !in mid.after.disk;
    DatabaseStepCalls(mid.after, env, choice);
  }

  /** When the removal of the directory raises and a database is on disk, a
      forced re-creation opens the old database again without adding any
      document, and still reports success when the embedding and the opening
      return. */
  lemma RecreationAfterFailedRemovalReusesDisk(r: Resources, env: Environment, choice: string,
                                                listing: seq<string>)
    requires choice != "" && env.clearDirectory(DatabasePath(choice)).Failure?
    requires DatabasePath(choice) in r.disk
    ensures var s := Recreated(r, env, choice, listing);
      && DocumentsAdded(DatabasePath(choice)) !in s.calls
      && (s.result.Success? <==>
            (var e := EmbeddingStep(r, env, choice);
             e.result.Success? && env.openDatabase(DatabasePath(choice), e.result.value).Success?))
  {
    var mid := Deleted(Evicted(r, choice), env, Some(choice), listing);
    DatabaseStepCalls(mid.after, env, choice);
  }

  /** The report of `get_database_status`. */
  datatype DatabaseStatus = DatabaseStatus(existsOnDisk: bool, cachedInMemory: bool, embeddingChoice: string,
                                           databasePath: string)

  /** The report of `get_resource_status`; the key lists are kept as sets. */
  datatype ResourceStatus = ResourceStatus(cachedEmbeddings: set<string>, cachedDatabases: set<string>,
                                           cachedLlmsCount: nat, totalMemorySaved: string)

  // ---------------------------------------------------------------------------
  // The manager object
  // ---------------------------------------------------------------------------

  class SharedRAGManager {
    var embeddings: map<string, Embedding>
    var databases: map<string, VectorStore>
    var llms: map<string, LanguageModel>
    /** The directories that hold a database on disk. */
    var disk: set<string>
    /** Every factory call made so far, in order. */
    ghost var calls: seq<Construction>
    const env: Environment
    const config: Config

    function State(): Resources
      reads this
    {
      Resources(embeddings, databases, llms, disk)
    }

    constructor (env: Environment, config: Config, disk: set<string>)
      ensures State() == Resources(map[], map[], map[], disk) && calls == []
      ensures this.env == env && this.config == config
    {
      this.embeddings := map[];
      this.databases := map[];
      this.llms := map[];
      this.disk := disk;
      this.calls := [];
      this.env := env;
      this.config := config;
    }

    method GetOrCreateEmbedding(choice: string) returns (r: Result<Embedding>)
      modifies this
      ensures var s := EmbeddingStep(old(State()), env, choice);
        r == s.result && State() == s.after && calls == old(calls) + s.calls
    {
      if choice !in embeddings {
        var created := env.createEmbedding(choice);
        calls := calls + [EmbeddingCreated(choice)];
        if created.Failure? {
          return Failure(created.error);
        }
        embeddings := embeddings[choice := created.value];
      }
      r := Success(embeddings[choice]);
    }

    method GetOrCreateDatabase(choice: string) returns (r: Result<VectorStore>)
      modifies this
      ensures var s := DatabaseStep(old(State()), env, choice);
        r == s.result && State() == s.after && calls == old(calls) + s.calls
    {
      if choice in databases {
        return Success(databases[choice]);
      }
      var embedding := GetOrCreateEmbedding(choice);
      if embedding.Failure? {
        return Failure(embedding.error);
      }
      r := BuildDatabaseAt(choice, embedding.value);
    }

    /** The part of `get_or_create_database` after the embedding is ready:
        open the database on disk, or build it from the documents. */
    method BuildDatabaseAt(choice: string, embedding: Embedding) returns (r: Result<VectorStore>)
      modifies this
      ensures var s := BuildDatabase(old(State()), env, choice, embedding);
        r == s.result && State() == s.after && calls == old(calls) + s.calls
    {
      var path := DatabasePath(choice);
      var database: VectorStore;
      if path in disk {
        var store := env.openDatabase(path, embedding);
        calls := calls + [DatabaseOpened(path)];
        if store.Failure? {
          return Failure(store.error);
        }
        database := store.value;
      } else {
        var documents := env.documents;
        calls := calls + [DocumentsLoaded];
        if documents.Failure? {
          return Failure(documents.error);
        }
        var store := env.openDatabase(path, embedding);
        calls := calls + [DatabaseOpened(path)];
        if store.Failure? {
          return Failure(store.error);
        }
        database := store.value;
        disk := disk + {path};
        var added := env.addDocuments(database, documents.value);
        calls := calls + [DocumentsAdded(path)];
        if added.Failure? {
          return Failure(added.error);
        }
      }
      databases := databases[choice := database];
      r := Success(database);
    }

    method GetOrCreateLlm(apiKey: string) returns (r: Result<LanguageModel>)
      modifies this
      ensures var s := LlmStep(old(State()), env, apiKey);
        r == s.result && State() == s.after && calls == old(calls) + s.calls
    {
      var key := env.keyHash(apiKey);
      if key !in llms {
        var created := env.createLlm(apiKey);
        calls := calls + [LlmCreated(key)];
        if created.Failure? {
          return Failure(created.error);
        }
        llms := llms[key := created.value];
      }
      r := Success(llms[key]);
    }

    /** `create_user_session`: a session with its own empty log and its own
        chains, over the cached database of the choice and the cached model of
        the key. */
    method CreateUserSession(choice: string, useQueryOptimization: bool, apiKey: string)
      returns (r: Result<UserRAGSession>)
      modifies this
      ensures r.Success? ==>
        && fresh(r.value) && fresh(r.value.ragSystem) && fresh(r.value.conversationHistory)
        && choice in databases && env.keyHash(apiKey) in llms
        && r.value.ragSystem.database == databases[choice]
        && r.value.ragSystem.llm == llms[env.keyHash(apiKey)]
        && r.value.ragSystem.Chains() == EnhancedRag.InitialChains(useQueryOptimization)
        && r.value.Valid() && r.value.conversationHistory.State() == History.HistoryState([], "", true)
        && r.value.embeddingChoice == choice && r.value.googleApiKey == apiKey
      // the caches and the factory calls are those of the three steps
      ensures var s := SessionStep(old(State()), env, choice, apiKey);
        && State() == s.after && calls == old(calls) + s.calls
        && (r.Success? <==> s.result.Success?)
        && (r.Failure? ==> r.error == s.result.error)
        && (r.Success? ==> r.value.ragSystem.database == s.result.value.0 && r.value.ragSystem.llm == s.result.value.1)
      // a database already cached is shared, not rebuilt
      ensures r.Success? && choice in old(databases) ==> r.value.ragSystem.database == old(databases[choice])
    {
      var embedding := GetOrCreateEmbedding(choice);
      if embedding.Failure? {
        return Failure(embedding.error);
      }
      var database := GetOrCreateDatabase(choice);
      if database.Failure? {
        return Failure(database.error);
      }
      var llm := GetOrCreateLlm(apiKey);
      if llm.Failure? {
        return Failure(llm.error);
      }
      var ragSystem := new EnhancedRag.EnhancedRAGSystem(database.value, llm.value, useQueryOptimization,
                                                         config.topK, config.dictionarySize);
      var history := new History.ConversationHistory(config.maxHistory, config.keywords);
      var session := new UserRAGSession(ragSystem, history, choice, apiKey);
      r := Success(session);
    }

    /** The status of the database of a choice, at the directory it is built in. */
    function GetDatabaseStatus(choice: string): (status: DatabaseStatus)
      reads this
      ensures status.databasePath == DatabasePath(choice) && status.embeddingChoice == choice
      ensures status.cachedInMemory <==> choice in databases
      ensures status.existsOnDisk <==> DatabasePath(choice) in disk
    {
      var path := DatabasePath(choice);
      DatabaseStatus(path in disk, choice in databases, choice, path)
    }

    method ClearDatabaseCache(choice: string) returns (removed: bool)
      modifies this
      ensures removed <==> choice in old(databases)
      ensures State() == Evicted(old(State()), choice) && calls == old(calls)
    {
      if choice in databases {
        databases := databases - {choice};
        return true;
      }
      return false;
    }

    /** `delete_database_files`; `listing` is what `./chroma*` matches. */
    method DeleteDatabaseFiles(choice: Option<string>, listing: seq<string>) returns (ok: bool)
      modifies this
      ensures var d := Deleted(old(State()), env, choice, listing);
        ok == d.ok && State() == d.after && calls == old(calls)
    {
      if Truthy(choice) {
        var path := DatabasePath(choice.value);
        if env.clearDirectory(path).Failure? {
          return false;
        }
        disk := disk - {path};
        if choice.value in databases {
          databases := databases - {choice.value};
        }
        return true;
      }
      ghost var k := ClearedPrefix(env, listing);
      for i := 0 to |listing|
        invariant i <= k
        invariant disk == old(disk) - (set dir | dir in listing[..i])
        invariant State() == old(State()).(disk := disk) && calls == old(calls)
      {
        if env.clearDirectory(listing[i]).Failure? {
          assert i == k;
          return false;
        }
        assert listing[..i + 1] == listing[..i] + [listing[i]];
        disk := disk - {listing[i]};
      }
      databases := map[];
      return true;
    }

    method ForceRecreateDatabase(choice: string, listing: seq<string>) returns (ok: bool)
      modifies this
      ensures var s := Recreated(old(State()), env, choice, listing);
        ok == s.result.Success? && State() == s.after && calls == old(calls) + s.calls
    {
      var _ := ClearDatabaseCache(choice);
      var _ := DeleteDatabaseFiles(Some(choice), listing);
      var database := GetOrCreateDatabase(choice);
      ok := database.Success?;
    }

    function GetResourceStatus(): (status: ResourceStatus)
      reads this
      ensures status.cachedEmbeddings == embeddings.Keys && status.cachedDatabases == databases.Keys
      ensures status.cachedLlmsCount == |llms|
      ensures status.totalMemorySaved == "High" <==> |embeddings| > 0
      ensures status.totalMemorySaved == "High" || status.totalMemorySaved == "None"
    {
      ResourceStatus(embeddings.Keys, databases.Keys, |llms|, if |embeddings| > 0 then "High" else "None")
    }
  }

  // ---------------------------------------------------------------------------
  // The per-user session
  // ---------------------------------------------------------------------------

  class UserRAGSession {
    const ragSystem: EnhancedRag.EnhancedRAGSystem
    const conversationHistory: History.ConversationHistory
    const embeddingChoice: string
    const googleApiKey: string

    ghost predicate Valid()
      reads this, conversationHistory
    {
      conversationHistory.Valid()
    }

    constructor (ragSystem: EnhancedRag.EnhancedRAGSystem, conversationHistory: History.ConversationHistory,
                 embeddingChoice: string, googleApiKey: string)
      ensures this.ragSystem == ragSystem && this.conversationHistory == conversationHistory
      ensures this.embeddingChoice == embeddingChoice && this.googleApiKey == googleApiKey
    {
      this.ragSystem := ragSystem;
      this.conversationHistory := conversationHistory;
      this.embeddingChoice := embeddingChoice;
      this.googleApiKey := googleApiKey;
    }

    /** `process_query`: the pipeline's result is returned, and the exchange is
        recorded in this session's log exactly when the result is a success. */
    method ProcessQuery(question: string, o: EnhancedRag.ChainOracles, timestamp: string)
      returns (r: EnhancedRag.QueryResult)
      requires Valid()
      modifies conversationHistory
      ensures Valid()
      ensures r == ragSystem.ProcessQueryWithImprovement(question, o)
      ensures conversationHistory.State() ==
        if r.Success() then
          History.Added(old(conversationHistory.State()), conversationHistory.keywords,
                        conversationHistory.maxHistory, timestamp, question, r.answer, r.retrievedDocs)
        else old(conversationHistory.State())
    {
      r := ragSystem.ProcessQueryWithImprovement(question, o);
      if r.Success() {
        conversationHistory.AddExchange(timestamp, question, r.answer, r.retrievedDocs);
      }
    }

    function GetConversationHistory(): (exchanges: seq<History.Exchange>)
      requires Valid()
      reads this, conversationHistory
      ensures |exchanges| <= conversationHistory.maxHistory
      ensures exchanges == conversationHistory.State().exchanges
    {
      conversationHistory.history
    }

    method ClearHistory()
      requires Valid()
      modifies conversationHistory
      ensures Valid()
      ensures conversationHistory.State() == History.Cleared(old(conversationHistory.State()))
    {
      conversationHistory.ClearHistory();
    }

    method ToggleQueryOptimization()
      modifies ragSystem
      ensures ragSystem.Chains() == EnhancedRag.Toggled(old(ragSystem.Chains()))
    {
      ragSystem.ToggleQueryOptimization();
    }

    /** The status of a session: its resources are loaded by construction. */
    function GetSystemStatus(): (status: RagManager.SystemStatus)
      requires Valid()
      reads this, ragSystem, conversationHistory
      ensures status.databaseLoaded && status.llmLoaded
      ensures status.queryOptimization == Some(ragSystem.GetOptimizationStatus())
      ensures status.embeddingModel == RagManager.EmbeddingModelLabel(embeddingChoice)
      ensures status.historyEnabled == conversationHistory.historyEnabled
      ensures status.historyCount == |conversationHistory.history| <= conversationHistory.maxHistory
    {
      RagManager.SystemStatus(RagManager.EmbeddingModelLabel(embeddingChoice), Some(ragSystem.GetOptimizationStatus()),
                              true, true, conversationHistory.historyEnabled, |conversationHistory.history|)
    }
  }
}
