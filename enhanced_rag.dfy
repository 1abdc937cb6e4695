/** The answer pipeline of `retrieval/enhanced_rag.py`: an optional rewrite of
    the question by the language model, a similarity search, and the
    generation of the answer by either the integrated chain (rewrite then
    retrieval-QA) or the plain retrieval-QA chain, with a deadline on each
    generation call and one fallback call after an error.

    Every call into the language model or the database is an oracle. The
    presence of the two optional chains is kept as two flags; what a chain
    does is what its oracle answers. */
module EnhancedRag {
  import opened Text
  import opened Providers

  /** The deadline of the primary generation call and of the fallback call, in seconds. */
  const PrimaryDeadline: nat := 30
  const FallbackDeadline: nat := 15

  /** The answer given when the primary generation call runs past its deadline. */
  const TimeoutApology: string := "죄송합니다. 응답 생성에 시간이 오래 걸리고 있습니다. 다시 시도해주세요."

  /** The answer given when both the primary and the fallback call failed; the
      text of the primary call's error follows it. */
  const ErrorApologyPrefix: string := "죄송합니다. AI 응답 생성 중 오류가 발생했습니다: "

  // ---------------------------------------------------------------------------
  // Chain set-up and the optimisation toggle
  // ---------------------------------------------------------------------------

  /** The optimisation flag and which of the two optional chains exist. */
  datatype ChainState = ChainState(useQueryOptimization: bool, hasQueryImprovementChain: bool,
                                   hasIntegratedChain: bool)

  /** The invariant of the system: both optional chains exist exactly when
      optimisation is on. */
  predicate ChainsMatchFlag(c: ChainState)
  {
    c.hasQueryImprovementChain == c.useQueryOptimization && c.hasIntegratedChain == c.useQueryOptimization
  }

  /** The chains built by the constructor. */
  function InitialChains(useQueryOptimization: bool): (c: ChainState)
    ensures c.useQueryOptimization == useQueryOptimization && ChainsMatchFlag(c)
  {
    ChainState(useQueryOptimization, useQueryOptimization, useQueryOptimization)
  }

  /** The state after `toggle_query_optimization`: the flag flips; switching on
      builds the chains when the improvement chain is missing, switching off
      drops both. */
  function Toggled(c: ChainState): (t: ChainState)
    ensures t.useQueryOptimization == !c.useQueryOptimization
    // the improvement chain follows the new flag whatever the old state was
    ensures t.hasQueryImprovementChain == t.useQueryOptimization
    ensures ChainsMatchFlag(c) ==> ChainsMatchFlag(t)
  {
    if !c.useQueryOptimization && !c.hasQueryImprovementChain then ChainState(true, true, true)
    else if c.useQueryOptimization then ChainState(false, false, false)
    else c.(useQueryOptimization := true)
  }

  /** Toggling twice restores the flag, and on a system keeping the invariant
      restores the whole chain state. */
  lemma ToggleTwiceRestores(c: ChainState)
    ensures Toggled(Toggled(c)).useQueryOptimization == c.useQueryOptimization
    ensures ChainsMatchFlag(c) ==> Toggled(Toggled(c)) == c
  {
  }

  // ---------------------------------------------------------------------------
  // Oracles and results
  // ---------------------------------------------------------------------------

  /** What the language model and the database answer: the rewrite of a
      question, the scored search for a query and a count, and the two
      generation chains, each called with a deadline. A chain that raises
      `TimeoutError` itself is reported as `TimedOut`, as is one that runs past
      the deadline; the value of `Ok` is the chain's `result` field. */
  datatype ChainOracles = ChainOracles(
    rewrite: string -> Result<string>,
    search: (string, nat) -> Result<seq<Scored>>,
    integrated: (string, nat) -> Outcome<string>,
    qa: (string, nat) -> Outcome<string>)

  /** A generation call: the integrated chain on the question, or the plain
      retrieval-QA chain on a query, with its deadline. */
  datatype ChainCall = IntegratedCall(question: string, deadline: nat) | QaCall(query: string, deadline: nat)

  function Invoke(call: ChainCall, o: ChainOracles): Outcome<string>
  {
    match call
    case IntegratedCall(question, deadline) => o.integrated(question, deadline)
    case QaCall(query, deadline) => o.qa(query, deadline)
  }

  /** The answer together with the generation calls made for it, in order. */
  datatype Generation = Generation(answer: string, calls: seq<ChainCall>)

  /** The result of processing a question. `Answered` is the dictionary with
      `success: True`; `Failed` is the one with `success: False`. */
  datatype QueryResult =
    | Answered(answer: string, originalQuery: string, improvedQuery: string, retrievedDocs: seq<Chunk>,
               retrievedDocsWithScores: seq<Scored>, optimizationUsed: bool)
    | Failed(answer: string, error: string)
  {
    predicate Success() { Answered? }
  }

  /** The chunks of a scored search result, in the same order. */
  function FirstComponents(scored: seq<Scored>): (docs: seq<Chunk>)
    ensures |docs| == |scored|
    ensures forall i :: 0 <= i < |scored| ==> docs[i] == scored[i].0
  {
    seq(|scored|, i requires 0 <= i < |scored| => scored[i].0)
  }

  /** The answer generation: one primary call; a timeout gives the apology and
      nothing more; an error leads to exactly one fallback call to the plain
      chain on the search query with the shorter deadline; when that fails too,
      the answer is the apology carrying the primary call's error. */
  function Generate(primary: ChainCall, searchQuery: string, o: ChainOracles): (g: Generation)
    ensures 1 <= |g.calls| <= 2 && g.calls[0] == primary
    // a fallback happens exactly when the primary call raised
    ensures |g.calls| == 2 <==> Invoke(primary, o).Err?
    ensures |g.calls| == 2 ==> g.calls[1] == QaCall(searchQuery, FallbackDeadline)
    // a call that returned in time gives the answer; only the last call can have
    ensures Invoke(g.calls[|g.calls| - 1], o).Ok? ==> g.answer == Invoke(g.calls[|g.calls| - 1], o).value
    ensures Invoke(primary, o).TimedOut? ==> g.answer == TimeoutApology
    ensures |g.calls| == 2 && !Invoke(g.calls[1], o).Ok? ==>
      g.answer == ErrorApologyPrefix + Invoke(primary, o).message
  {
    match Invoke(primary, o)
    case Ok(text) => Generation(text, [primary])
    case TimedOut => Generation(TimeoutApology, [primary])
    case Err(error) =>
      var fallback := QaCall(searchQuery, FallbackDeadline);
      match Invoke(fallback, o)
      case Ok(text) => Generation(text, [primary, fallback])
      case _ => Generation(ErrorApologyPrefix + error, [primary, fallback])
  }

  /** Every generation call is made with a deadline of at most the primary
      deadline, and there is always an answer: the output of a chain that
      returned in time or one of the two apologies. */
  lemma GenerationBounded(primary: ChainCall, searchQuery: string, o: ChainOracles)
    requires primary.deadline == PrimaryDeadline
    ensures var g := Generate(primary, searchQuery, o);
      && (forall c :: c in g.calls ==> c.deadline <= PrimaryDeadline)
      && (|| (exists c :: c in g.calls && Invoke(c, o).Ok? && g.answer == Invoke(c, o).value)
          || g.answer == TimeoutApology
          || g.answer == ErrorApologyPrefix + Invoke(primary, o).message)
  {
    var g := Generate(primary, searchQuery, o);
    var last := g.calls[|g.calls| - 1];
    if Invoke(last, o).Ok? {
      assert last in g.calls;
    }
  }

  /** The optimisation status snapshot of `get_optimization_status`. */
  datatype OptimizationStatus = OptimizationStatus(enabled: bool, hasChain: bool, dictionaryCount: nat)

  // ---------------------------------------------------------------------------
  // The system object
  // ---------------------------------------------------------------------------

  class EnhancedRAGSystem {
    const database: VectorStore
    const llm: LanguageModel
    /** The number of chunks a search asks for. */
    const topK: nat
    /** The number of entries of the domain dictionary given to the rewrite prompt. */
    const dictionarySize: nat
    var useQueryOptimization: bool
    var hasQueryImprovementChain: bool
    var hasIntegratedChain: bool

    function Chains(): ChainState
      reads this
    {
      ChainState(useQueryOptimization, hasQueryImprovementChain, hasIntegratedChain)
    }

    ghost predicate Valid()
      reads this
    {
      ChainsMatchFlag(Chains())
    }

    /** Builds the plain chain always and the two optional chains when
        optimisation is on. */
    constructor (database: VectorStore, llm: LanguageModel, useQueryOptimization: bool, topK: nat,
                 dictionarySize: nat)
      ensures Valid() && Chains() == InitialChains(useQueryOptimization)
      ensures this.database == database && this.llm == llm
      ensures this.topK == topK && this.dictionarySize == dictionarySize
    {
      this.database := database;
      this.llm := llm;
      this.topK := topK;
      this.dictionarySize := dictionarySize;
      this.useQueryOptimization := useQueryOptimization;
      this.hasQueryImprovementChain := useQueryOptimization;
      this.hasIntegratedChain := useQueryOptimization;
    }

    /** The query used for the search: the language model's rewrite, stripped,
        when optimisation is on and the chain exists and the rewrite returned;
        the query itself otherwise. */
    function ImproveQuery(query: string, o: ChainOracles): (improved: string)
      reads this
      ensures !useQueryOptimization || !hasQueryImprovementChain || o.rewrite(query).Failure? ==> improved == query
      ensures useQueryOptimization && hasQueryImprovementChain && o.rewrite(query).Success? ==>
        improved == Strip(o.rewrite(query).value)
    {
      if !useQueryOptimization || !hasQueryImprovementChain then query
      else
        match o.rewrite(query)
        case Success(text) => Strip(text)
        case Failure(_) => query
    }

    /** The chunks the database returns for a query, as it returns them, or
        none when the search raised. */
    function SearchDocuments(query: string, o: ChainOracles): (results: seq<Scored>)
      reads this
      ensures o.search(query, topK).Success? ==> results == o.search(query, topK).value
      ensures o.search(query, topK).Failure? ==> results == []
    {
      match o.search(query, topK)
      case Success(found) => found
      case Failure(_) => []
    }

    /** The generation call made first: the integrated chain on the original
        question when optimisation is on and the chain exists, the plain chain
        on the search query otherwise. */
    function PrimaryCall(query: string, searchQuery: string): (call: ChainCall)
      reads this
      ensures call.deadline == PrimaryDeadline
      ensures call.IntegratedCall? <==> useQueryOptimization && hasIntegratedChain
      ensures call.IntegratedCall? ==> call.question == query
      ensures call.QaCall? ==> call.query == searchQuery
    {
      if useQueryOptimization && hasIntegratedChain then IntegratedCall(query, PrimaryDeadline)
      else QaCall(searchQuery, PrimaryDeadline)
    }

    /** The query the search and the plain chain use. */
    function SearchQuery(query: string, o: ChainOracles): (searchQuery: string)
      reads this
      ensures !useQueryOptimization ==> searchQuery == query
      ensures useQueryOptimization ==> searchQuery == ImproveQuery(query, o)
    {
      if useQueryOptimization then ImproveQuery(query, o) else query
    }

    /** The generation calls `process_query_with_improvement` makes, in order. */
    function GenerationCalls(query: string, o: ChainOracles): seq<ChainCall>
      reads this
    {
      var searchQuery := SearchQuery(query, o);
      Generate(PrimaryCall(query, searchQuery), searchQuery, o).calls
    }

    /** The whole pipeline. It always succeeds: it reports the original
        question, the query the search used, the scored chunks and the chunks
        alone, and the flag as it was at the call. */
    function ProcessQueryWithImprovement(query: string, o: ChainOracles): (r: QueryResult)
      reads this
      ensures r.Success() && r.originalQuery == query && r.optimizationUsed == useQueryOptimization
      ensures r.improvedQuery == SearchQuery(query, o)
      ensures !useQueryOptimization ==> r.improvedQuery == query
      ensures useQueryOptimization ==> r.improvedQuery == ImproveQuery(query, o)
      ensures r.retrievedDocsWithScores == SearchDocuments(r.improvedQuery, o)
      ensures r.retrievedDocs == FirstComponents(r.retrievedDocsWithScores)
      ensures r.answer == Generate(PrimaryCall(query, r.improvedQuery), r.improvedQuery, o).answer
    {
      var searchQuery := SearchQuery(query, o);
      var withScores := SearchDocuments(searchQuery, o);
      var generation := Generate(PrimaryCall(query, searchQuery), searchQuery, o);
      Answered(generation.answer, query, searchQuery, FirstComponents(withScores), withScores,
               useQueryOptimization)
    }

    /** With optimisation off, nothing reaches the language model but the
        plain chain on the original question, and the search uses that
        question too. */
    lemma OptimizationOffUsesOriginalQuery(query: string, o: ChainOracles)
      requires !useQueryOptimization
      ensures forall c :: c in GenerationCalls(query, o) ==> c == QaCall(query, c.deadline)
      ensures ProcessQueryWithImprovement(query, o).retrievedDocsWithScores == SearchDocuments(query, o)
    {
      var calls := GenerationCalls(query, o);
      assert forall c :: c in calls ==> c == calls[0] || c == calls[|calls| - 1];
    }

    /** With optimisation on and the chains in place, the integrated chain gets
        the original question first, and a fallback uses the rewritten query. */
    lemma OptimizationOnUsesIntegratedChain(query: string, o: ChainOracles)
      requires Valid() && useQueryOptimization
      ensures GenerationCalls(query, o)[0] == IntegratedCall(query, PrimaryDeadline)
      ensures |GenerationCalls(query, o)| == 2 ==>
        GenerationCalls(query, o)[1] == QaCall(ImproveQuery(query, o), FallbackDeadline)
    {
    }

    /** `toggle_query_optimization`. */
    method ToggleQueryOptimization()
      modifies this
      ensures Chains() == Toggled(old(Chains()))
      ensures old(Valid()) ==> Valid()
    {
      useQueryOptimization := !useQueryOptimization;
      if useQueryOptimization && !hasQueryImprovementChain {
        hasQueryImprovementChain := true;
        hasIntegratedChain := true;
      } else if !useQueryOptimization {
        hasQueryImprovementChain := false;
        hasIntegratedChain := false;
      }
    }

    /** The status snapshot: on a system keeping its invariant, the chain is
        reported present exactly when optimisation is on. */
    function GetOptimizationStatus(): (status: OptimizationStatus)
      reads this
      ensures status.enabled == useQueryOptimization && status.dictionaryCount == dictionarySize
      ensures Valid() ==> status.hasChain == status.enabled
    {
      OptimizationStatus(useQueryOptimization, hasQueryImprovementChain, dictionarySize)
    }
  }

  /** A rewritten query carries no white space at either end: whatever
      `improve_query` returns is the query itself or is left alone by `strip()`. */
  lemma ImprovedQueryIsStripped(system: EnhancedRAGSystem, query: string, o: ChainOracles)
    ensures var improved := system.ImproveQuery(query, o);
      improved == query || Strip(improved) == improved
  {
    var improved := system.ImproveQuery(query, o);
    if improved != query {
      StripIdempotent(o.rewrite(query).value);
    }
  }
}
