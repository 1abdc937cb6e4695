/** The single-user facade of `retrieval/rag_manager.py`: it builds the
    embedding model, the database, the language model, the answer pipeline and
    the conversation log one after the other, stops early without a language
    model when no API key is available, and guards every operation against a
    component that was never built. */
module RagManager {
  import opened Text
  import opened Providers
  import History
  import EnhancedRag

  const NotInitializedAnswer: string := "RAG 시스템이 초기화되지 않았습니다."
  const NotInitializedError: string := "System not initialized"
  /** The answer of a query whose processing raised; the error text follows it. */
  const QueryErrorPrefix: string := "질문 처리 중 오류 발생: "
  /** The text of the error raised when the log is missing at the moment an
      exchange is recorded. */
  const MissingHistoryError: string := "'NoneType' object has no attribute 'add_exchange'"

  /** The report of `get_system_status`; `queryOptimization` is `None` where
      the source reports `False` for a missing pipeline. */
  datatype SystemStatus = SystemStatus(
    embeddingModel: string,
    queryOptimization: Option<EnhancedRag.OptimizationStatus>,
    databaseLoaded: bool,
    llmLoaded: bool,
    historyEnabled: bool,
    historyCount: nat)

  /** The name of the embedding model of a choice: `'1'` is the Korean model,
      anything else the Google one. */
  function EmbeddingModelLabel(choice: string): (name: string)
    ensures name == "한국어 특화" <==> choice == "1"
    ensures name == "Google Gemini" <==> choice != "1"
  {
    if choice == "1" then "한국어 특화" else "Google Gemini"
  }

  /** `google_api_key or os.getenv('GOOGLE_API_KEY')`: the given key when it is
      present and non-empty, the environment's value otherwise. */
  function ResolveApiKey(given: Option<string>, fromEnvironment: Option<string>): (key: Option<string>)
    ensures Truthy(given) ==> key == given
    ensures !Truthy(given) ==> key == fromEnvironment
    ensures Truthy(key) <==> Truthy(given) || Truthy(fromEnvironment)
  {
    if Truthy(given) then given else fromEnvironment
  }

  /** What `_initialize_system` leaves behind: the components it built, the
      error it raised if any, and whether it got as far as the pipeline and
      the log. */
  datatype Initialization = Initialization(
    embedding: Option<Embedding>,
    database: Option<VectorStore>,
    llm: Option<LanguageModel>,
    raised: Option<string>,
    complete: bool)

  /** The database step of the initialisation: open the one on disk, or load
      the documents, open a new one and add them. The database is kept as soon
      as it is opened, even when adding the documents raises. */
  function InitialDatabase(env: Environment, onDisk: bool, path: string, embedding: Embedding)
    : (d: (Option<VectorStore>, Option<string>))
    ensures d.1.None? ==> d.0.Some?
    ensures onDisk ==> d.0.Some? == env.openDatabase(path, embedding).Success?
    // nothing is raised exactly when every call made returned
    ensures onDisk ==> (d.1.None? <==> env.openDatabase(path, embedding).Success?)
    ensures !onDisk ==>
      (d.1.None? <==>
         && env.documents.Success? && env.openDatabase(path, embedding).Success?
         && env.addDocuments(env.openDatabase(path, embedding).value, env.documents.value).Success?)
    // a database is kept as soon as it was opened
    ensures !onDisk ==>
      (d.0.Some? <==> env.documents.Success? && env.openDatabase(path, embedding).Success?)
  {
    if onDisk then
      match env.openDatabase(path, embedding)
      case Success(database) => (Some(database), None)
      case Failure(error) => (None, Some(error))
    else
      match env.documents
      case Failure(error) => (None, Some(error))
      case Success(documents) =>
        match env.openDatabase(path, embedding)
        case Failure(error) => (None, Some(error))
        case Success(database) =>
          match env.addDocuments(database, documents)
          case Failure(error) => (Some(database), Some(error))
          case Success(_) => (Some(database), None)
  }

  /** `_initialize_system`, step by step: the embedding model, the database at
      the configured directory, then the language model only with a key. */
  function Initialize(env: Environment, disk: set<string>, config: Config, choice: string,
                      apiKey: Option<string>): (i: Initialization)
    // completion means every component was built and nothing raised
    ensures i.complete ==> i.raised.None? && i.embedding.Some? && i.database.Some? && i.llm.Some?
    // without a key the initialisation stops early and does not raise on that account
    ensures !Truthy(apiKey) ==> !i.complete && i.llm.None?
    ensures i.raised.None? ==> i.embedding.Some? && i.database.Some? && (i.complete <==> Truthy(apiKey))
    // an error leaves no language model and no pipeline
    ensures i.raised.Some? ==> !i.complete && i.llm.None?
    ensures i.database.Some? ==>
      env.createEmbedding(choice).Success? && i.embedding == Some(env.createEmbedding(choice).value)
    ensures i.embedding.Some? <==> env.createEmbedding(choice).Success?
    // nothing is raised exactly when every provider call made returned; a
    // missing key is not an error
    ensures i.raised.None? <==>
      && env.createEmbedding(choice).Success?
      && InitialDatabase(env, config.chromaDir in disk, config.chromaDir, env.createEmbedding(choice).value).1.None?
      && (Truthy(apiKey) ==> env.createLlm(apiKey.value).Success?)
    // the error raised is that of the first call that raised
    ensures env.createEmbedding(choice).Failure? ==> i.raised == Some(env.createEmbedding(choice).error)
    ensures env.createEmbedding(choice).Success? ==>
      var d := InitialDatabase(env, config.chromaDir in disk, config.chromaDir, env.createEmbedding(choice).value);
      && (d.1.Some? ==> i.raised == d.1 && i.database == d.0)
      && (d.1.None? && Truthy(apiKey) && env.createLlm(apiKey.value).Failure? ==>
            i.raised == Some(env.createLlm(apiKey.value).error))
  {
    match env.createEmbedding(choice)
    case Failure(error) => Initialization(None, None, None, Some(error), false)
    case Success(embedding) =>
      var (database, raised) := InitialDatabase(env, config.chromaDir in disk, config.chromaDir, embedding);
      if raised.Some? then Initialization(Some(embedding), database, None, raised, false)
      else if !Truthy(apiKey) then Initialization(Some(embedding), database, None, None, false)
      else
        match env.createLlm(apiKey.value)
        case Failure(error) => Initialization(Some(embedding), database, None, Some(error), false)
        case Success(llm) => Initialization(Some(embedding), database, Some(llm), None, true)
  }

  class RAGManager {
    const embeddingChoice: string
    const useQueryOptimization: bool
    const googleApiKey: Option<string>
    const config: Config
    var embedding: Option<Embedding>
    var database: Option<VectorStore>
    var llm: Option<LanguageModel>
    var ragSystem: EnhancedRag.EnhancedRAGSystem?
    var conversationHistory: History.ConversationHistory?

    ghost predicate Valid()
      reads this, conversationHistory
    {
      conversationHistory != null ==> conversationHistory.Valid()
    }

    /** The fields before initialisation: the key resolved, no component yet. */
    constructor (embeddingChoice: string, useQueryOptimization: bool, googleApiKey: Option<string>,
                 environmentKey: Option<string>, config: Config)
      ensures Valid()
      ensures this.embeddingChoice == embeddingChoice && this.useQueryOptimization == useQueryOptimization
      ensures this.googleApiKey == ResolveApiKey(googleApiKey, environmentKey) && this.config == config
      ensures embedding.None? && database.None? && llm.None? && ragSystem == null && conversationHistory == null
    {
      this.embeddingChoice := embeddingChoice;
      this.useQueryOptimization := useQueryOptimization;
      this.googleApiKey := ResolveApiKey(googleApiKey, environmentKey);
      this.config := config;
      this.embedding := None;
      this.database := None;
      this.llm := None;
      this.ragSystem := null;
      this.conversationHistory := null;
    }

    /** `_initialize_system`; `disk` is the set of directories holding a
        database. The pipeline and the log are built exactly when the
        initialisation completes. */
    method InitializeSystem(env: Environment, disk: set<string>) returns (raised: Option<string>)
      requires embedding.None? && database.None? && llm.None? && ragSystem == null && conversationHistory == null
      modifies this
      ensures Valid()
      ensures var i := Initialize(env, disk, config, embeddingChoice, googleApiKey);
        && raised == i.raised && embedding == i.embedding && database == i.database && llm == i.llm
        && (ragSystem != null <==> i.complete) && (conversationHistory != null <==> i.complete)
      ensures ragSystem != null ==>
        && fresh(ragSystem) && Some(ragSystem.database) == database && Some(ragSystem.llm) == llm
        && ragSystem.Chains() == EnhancedRag.InitialChains(useQueryOptimization)
      ensures conversationHistory != null ==>
        fresh(conversationHistory) && conversationHistory.State() == History.HistoryState([], "", true)
        && conversationHistory.maxHistory == config.maxHistory && conversationHistory.keywords == config.keywords
    {
      var createdEmbedding := env.createEmbedding(embeddingChoice);
      if createdEmbedding.Failure? {
        return Some(createdEmbedding.error);
      }
      embedding := Some(createdEmbedding.value);
      if config.chromaDir in disk {
        var store := env.openDatabase(config.chromaDir, createdEmbedding.value);
        if store.Failure? {
          return Some(store.error);
        }
        database := Some(store.value);
      } else {
        raised := CreateNewDatabase(env, createdEmbedding.value);
        if raised.Some? {
          return;
        }
      }
      if Truthy(googleApiKey) {
        var createdLlm := env.createLlm(googleApiKey.value);
        if createdLlm.Failure? {
          return Some(createdLlm.error);
        }
        llm := Some(createdLlm.value);
      } else {
        return None;
      }
      ragSystem := new EnhancedRag.EnhancedRAGSystem(database.value, llm.value, useQueryOptimization,
                                                     config.topK, config.dictionarySize);
      conversationHistory := new History.ConversationHistory(config.maxHistory, config.keywords);
      raised := None;
    }

    /** `_create_new_database`: load, open (and keep), then add the documents. */
    method CreateNewDatabase(env: Environment, withEmbedding: Embedding) returns (raised: Option<string>)
      requires database.None?
      modifies this`database
      ensures (database, raised) == InitialDatabase(env, false, config.chromaDir, withEmbedding)
    {
      var documents := env.documents;
      if documents.Failure? {
        return Some(documents.error);
      }
      var store := env.openDatabase(config.chromaDir, withEmbedding);
      if store.Failure? {
        return Some(store.error);
      }
      database := Some(store.value);
      var added := env.addDocuments(store.value, documents.value);
      if added.Failure? {
        return Some(added.error);
      }
      raised := None;
    }

    /** Construction: a manager exists only when the initialisation did not raise. */
    static method Create(embeddingChoice: string, useQueryOptimization: bool, googleApiKey: Option<string>,
                         environmentKey: Option<string>, config: Config, env: Environment, disk: set<string>)
      returns (r: Result<RAGManager>)
      ensures var i := Initialize(env, disk, config, embeddingChoice, ResolveApiKey(googleApiKey, environmentKey));
        && (r.Success? <==> i.raised.None?)
        && (r.Failure? ==> r.error == i.raised.value)
        && (r.Success? ==>
              && fresh(r.value) && r.value.Valid()
              && r.value.embedding == i.embedding && r.value.database == i.database && r.value.llm == i.llm
              && (r.value.ragSystem != null <==> i.complete)
              && (r.value.conversationHistory != null <==> i.complete)
              && (r.value.ragSystem != null ==> fresh(r.value.ragSystem))
              && (r.value.conversationHistory != null ==> fresh(r.value.conversationHistory)))
    {
      var manager := new RAGManager(embeddingChoice, useQueryOptimization, googleApiKey, environmentKey, config);
      var raised := manager.InitializeSystem(env, disk);
      if raised.Some? {
        return Failure(raised.value);
      }
      r := Success(manager);
    }

    /** `process_query`: refused before initialisation; otherwise the
        pipeline's result, recorded in the log exactly when it is a success. */
    method ProcessQuery(question: string, o: EnhancedRag.ChainOracles, timestamp: string)
      returns (r: EnhancedRag.QueryResult)
      requires Valid()
      modifies conversationHistory
      ensures Valid()
      ensures ragSystem == null ==> r == EnhancedRag.Failed(NotInitializedAnswer, NotInitializedError)
      ensures ragSystem != null && conversationHistory == null ==>
        r == EnhancedRag.Failed(QueryErrorPrefix + MissingHistoryError, MissingHistoryError)
      ensures ragSystem != null && conversationHistory != null ==>
        && r == ragSystem.ProcessQueryWithImprovement(question, o)
        && conversationHistory.State() ==
             if r.Success() then
               History.Added(old(conversationHistory.State()), conversationHistory.keywords,
                             conversationHistory.maxHistory, timestamp, question, r.answer, r.retrievedDocs)
             else old(conversationHistory.State())
      ensures ragSystem == null ==> conversationHistory == null || conversationHistory.State() == old(conversationHistory.State())
    {
      if ragSystem == null {
        return EnhancedRag.Failed(NotInitializedAnswer, NotInitializedError);
      }
      r := ragSystem.ProcessQueryWithImprovement(question, o);
      if r.Success() {
        if conversationHistory == null {
          return EnhancedRag.Failed(QueryErrorPrefix + MissingHistoryError, MissingHistoryError);
        }
        conversationHistory.AddExchange(timestamp, question, r.answer, r.retrievedDocs);
      }
    }

    function GetConversationHistory(): (exchanges: seq<History.Exchange>)
      reads this, conversationHistory
      ensures conversationHistory == null ==> exchanges == []
      ensures conversationHistory != null ==> exchanges == conversationHistory.history
    {
      if conversationHistory != null then conversationHistory.history else []
    }

    method ClearHistory()
      requires Valid()
      modifies conversationHistory
      ensures Valid()
      ensures conversationHistory != null ==>
        conversationHistory.State() == History.Cleared(old(conversationHistory.State()))
    {
      if conversationHistory != null {
        conversationHistory.ClearHistory();
      }
    }

    method ToggleQueryOptimization()
      modifies ragSystem
      ensures ragSystem != null ==> ragSystem.Chains() == EnhancedRag.Toggled(old(ragSystem.Chains()))
    {
      if ragSystem != null {
        ragSystem.ToggleQueryOptimization();
      }
    }

    /** The status: each "loaded" flag says whether that component was built;
        without a log the history is reported disabled and empty. */
    function GetSystemStatus(): (status: SystemStatus)
      reads this, ragSystem, conversationHistory
      ensures status.embeddingModel == EmbeddingModelLabel(embeddingChoice)
      ensures status.databaseLoaded <==> database.Some?
      ensures status.llmLoaded <==> llm.Some?
      ensures status.queryOptimization.Some? <==> ragSystem != null
      ensures ragSystem != null ==> status.queryOptimization == Some(ragSystem.GetOptimizationStatus())
      ensures conversationHistory == null ==> !status.historyEnabled && status.historyCount == 0
      ensures conversationHistory != null ==>
        status.historyEnabled == conversationHistory.historyEnabled
        && status.historyCount == |conversationHistory.history|
    {
      SystemStatus(
        EmbeddingModelLabel(embeddingChoice),
        if ragSystem != null then Some(ragSystem.GetOptimizationStatus()) else None,
        database.Some?,
        llm.Some?,
        if conversationHistory != null then conversationHistory.historyEnabled else false,
        if conversationHistory != null then |conversationHistory.history| else 0)
    }
  }
}
