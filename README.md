# Conversational RAG core, modelled in Dafny

This project models the core of a retrieval-augmented question-answering
assistant (package `retrieval/`):

- **Conversation log** (`conversation_history.py`). A bounded list of
  question/answer exchanges. Each answer is stored with a keyword-based
  summary. The "current context" joins the summaries of the last three
  exchanges. A new question looks up the exchanges that share a keyword
  with it. The log can be cleared, reset, disabled, enabled, and have
  single exchanges removed.
- **Text commands** (`command_processor.py`). A command is lower-cased
  and sent to exactly one operation of the log or of the query
  optimisation switch.
- **Answer pipeline** (`enhanced_rag.py`). An optional rewrite of the
  question by the language model. Then a similarity search. Then the
  answer is generated by either the integrated chain or the plain
  retrieval-QA chain. Every generation call has a deadline. After an
  error there is exactly one fallback call.
- **Shared resource manager** (`shared_rag_manager.py`):
  - caches of embedding models, vector databases and language models;
  - get-or-create, eviction, deletion from disk and forced re-creation;
  - per-user sessions that share the cached resources but own their log.
- **Single-user facade** (`rag_manager.py`). It builds every component
  in turn and guards each operation against a component that was never
  built.

## How the model is organised

| file | module | contents |
|---|---|---|
| `text.dfy` | `Text` | the Python string operations the core relies on: `in`, `split('.')`, `strip()`, `join`, `lower()`, `startswith`, `int()` and `str()` |
| `providers.dfy` | `Providers` | the boundary to the external providers: result types, opaque handles, the configuration, and the factories |
| `conversation_history.dfy` | `History` | specification functions over a `HistoryState` value, and the class `ConversationHistory` whose methods are proved to perform those transitions |
| `command_processor.dfy` | `Commands` | `Classify` (the text-to-command decision), `HistoryEffect`, and the class `CommandProcessor` |
| `enhanced_rag.dfy` | `EnhancedRag` | chain state, the toggle, the generation protocol, and the class `EnhancedRAGSystem` |
| `shared_rag_manager.dfy` | `SharedRag` | resource steps as functions, and the classes `SharedRAGManager` and `UserRAGSession` |
| `rag_manager.dfy` | `RagManager` | the initialisation as a function, and the class `RAGManager` |

### Classes and specification functions

Every class that updates its fields in place has a specification
function on a value of its state. Each mutating method ensures
`State() == Transition(old(State()))`.

- The log keeps the invariant `Consistent`:
  - it holds at most `maxHistory` exchanges;
  - the current context equals `RecentContext` of the exchanges;
  - every stored summary is the summary of its answer.
- The loops of `_extract_context`, `_update_context`,
  `get_relevant_context` and `_extract_keywords` are `while` loops,
  proved against those functions.

### External calls as parameters

The following become parameters:

- every call into an external provider: the embedding factory, document
  loading, opening the database, adding documents, the language-model
  factory, directory removal, the MD5 key digest;
- the language-model chains and the search;
- the clock (the timestamp of an exchange);
- the process environment (`GOOGLE_API_KEY`);
- the list of directories that `./chroma*` matches;
- the set of directories holding a database on disk.

A provider call either returns or raises. A chain call returns, runs past
its deadline, or raises.

### Behaviours of the code worth noting


- The fallback after a generation error always uses the plain chain, on
  the rewritten query, with a 15-second deadline.
- `force_recreate_database` ignores the result of the file deletion. So
  after a failed removal it reopens the old database and still reports
  success. `RecreationAfterFailedRemovalReusesDisk` proves this.

## Model

| member | source | states |
|---|---|---|
| `Text.ParseFormatRoundTrip` | retrieval/command_processor.py:41 | `int(str(n)) == n` for every integer, so the removal argument written as a number reads back as that number |
| `Text.SplitJoin` | retrieval/conversation_history.py:45 | joining the pieces of `split('.')` with `.` gives the text back |
| `Text.SplitPiecesFree` | retrieval/conversation_history.py:45 | no piece of a split contains the separator |
| `Text.StripSlice` | retrieval/conversation_history.py:48 | `strip()` returns a slice of its input that neither starts nor ends with white space and drops only white space |
| `Text.StripIdempotent` | retrieval/enhanced_rag.py:65 | stripping twice is stripping once |
| `Text.TrimStartSpec` | retrieval/command_processor.py:41 | `lstrip()` keeps a suffix and drops only leading white space |
| `Text.TrimEndSpec` | retrieval/command_processor.py:41 | `rstrip()` keeps a prefix and drops only trailing white space |
| `Text.LowerForgetsCase` | retrieval/command_processor.py:18 | lower-casing is idempotent, and it forgets how an ASCII letter was written |
| `Text.JoinEmptyIff` | retrieval/conversation_history.py:63 | a join of non-empty parts is empty exactly when there are no parts |
| `Text.ContainsAt` | retrieval/conversation_history.py:44 | `sub in s` holds exactly when `sub` occurs at some position of `s` |
| `History.Take` | retrieval/conversation_history.py:50 | `xs[:n]` is the prefix of length exactly `min(len(xs), n)`, and the whole list when it is short enough |
| `History.LastN` | retrieval/conversation_history.py:59 | `xs[-n:]` is the suffix of length exactly `min(len(xs), n)`, and the whole list when it is short enough |
| `History.SentenceHits` | retrieval/conversation_history.py:45-48 | the stripped sentences containing one keyword, in sentence order; characterised by `SentenceHitsMembers` |
| `History.ContextParts` | retrieval/conversation_history.py:41-48 | the parts of every keyword occurring in the answer, in keyword order; characterised by `ContextPartsMembers` and `NoKeywordNoSummary` |
| `History.ContextSummary` | retrieval/conversation_history.py:39-50 | the first three parts joined with ". "; empty when no keyword occurs (`NoKeywordNoSummary`) |
| `History.SentenceHitsMembers` | retrieval/conversation_history.py:45-48 | a part comes from one keyword exactly when it is the stripped form of a sentence containing that keyword |
| `History.ContextPartsMembers` | retrieval/conversation_history.py:39-50 | the context parts are exactly the stripped sentences that contain a keyword occurring in the answer |
| `History.NoKeywordNoSummary` | retrieval/conversation_history.py:39-50 | an answer that contains no keyword has no parts and an empty summary |
| `History.NonEmptySummaries` | retrieval/conversation_history.py:58-61 | the non-empty summaries, in order; characterised by `NonEmptySummariesSpec` |
| `History.RecentContext` | retrieval/conversation_history.py:52-63 | the non-empty summaries of the last three exchanges joined with a space; characterised by `RecentContextEmptyIff` |
| `History.NonEmptySummariesSpec` | retrieval/conversation_history.py:58-61 | only non-empty summaries are collected, and none are collected exactly when every summary is empty |
| `History.RecentContextEmptyIff` | retrieval/conversation_history.py:52-63 | the current context is empty exactly when none of the last three exchanges has a summary |
| `History.KeywordsIn` | retrieval/conversation_history.py:83-89 | the configured keywords occurring in the text, in list order; characterised by `KeywordsInMembers` |
| `History.MatchingSummaries` | retrieval/conversation_history.py:73-79 | the summaries of the exchanges sharing a keyword with the question, in history order; characterised by `SharesKeywordIff` and `MatchingSummariesFromMatches` |
| `History.RelevantContext` | retrieval/conversation_history.py:65-81 | the last two matching summaries joined with a space, or nothing when disabled or empty; see `NoKeywordNoRelevantContext` |
| `History.KeywordsInMembers` | retrieval/conversation_history.py:83-89 | the keywords found are exactly the configured keywords that occur in the text |
| `History.SharesKeywordIff` | retrieval/conversation_history.py:70-78 | an exchange matches exactly when some keyword occurs both in the question and in the exchange's text |
| `History.NoKeywordNoRelevantContext` | retrieval/conversation_history.py:65-81 | a question containing no keyword matches no exchange and gets an empty context |
| `History.MatchingSummariesFromMatches` | retrieval/conversation_history.py:73-79 | every summary collected belongs to an exchange that shares a keyword with the question |
| `History.Added` | retrieval/conversation_history.py:19-37 | disabled: no change; enabled: the new exchange is appended, the oldest is dropped when the bound is exceeded, and the context is recomputed |
| `History.Appended` | retrieval/conversation_history.py:32-37 | append, drop the oldest once when over the bound, recompute the context; `Added` states the result |
| `History.Consistent` | retrieval/conversation_history.py:19-63 | the invariant the log's operations keep: within the bound, every summary that of its answer, the context that of the last three exchanges |
| `History.AddedKeepsConsistency` | retrieval/conversation_history.py:32-37 | adding keeps the log within `max_history`, keeps every summary matching its answer, and keeps the context up to date |
| `History.AddedKeepsNewest` | retrieval/conversation_history.py:32-35 | after an enabled add the log grows by one up to the bound, and the new exchange is last |
| `History.Cleared` | retrieval/conversation_history.py:113-118 | clearing empties the log and the context and keeps the flag |
| `History.Reset` | retrieval/conversation_history.py:120-129 | resetting empties the log and the context and enables history |
| `History.ClearedAndDisabled` | retrieval/conversation_history.py:131-139 | empties the log and the context and disables history |
| `History.WithEnabled` | retrieval/conversation_history.py:141-149 | disabling or enabling changes only the flag and keeps the stored exchanges |
| `History.ClearingsDifferOnlyInFlag` | retrieval/conversation_history.py:113-139 | the three clearing commands agree on everything but the flag |
| `History.EmptyIsConsistent` | retrieval/conversation_history.py:13-17 | the empty log is consistent for any bound and any flag |
| `History.WithoutLast` | retrieval/conversation_history.py:151-160 | removing the last exchange on a non-empty log drops exactly the newest one and recomputes the context; an empty log is unchanged |
| `History.WithoutIndex` | retrieval/conversation_history.py:162-171 | an index outside the log changes nothing; otherwise exactly one exchange is removed and the context is recomputed |
| `History.WithoutIndexRemovesExactly` | retrieval/conversation_history.py:166 | the exchanges before the index stay in place and the ones after it move down by one |
| `History.RemoveLastIsRemoveAtEnd` | retrieval/conversation_history.py:151-171 | removing the last exchange is removing at the last index |
| `History.WithoutLastKeepsConsistency` | retrieval/conversation_history.py:151-160 | removing the last exchange keeps the log consistent |
| `History.WithoutIndexKeepsConsistency` | retrieval/conversation_history.py:162-171 | removing by index keeps the log consistent |
| `History.ConversationHistory.constructor` | retrieval/conversation_history.py:13-17 | a new log is empty, enabled, has no context, and is consistent |
| `History.ConversationHistory.AddExchange` | retrieval/conversation_history.py:19-37 | performs `Added` in place and keeps the log consistent |
| `History.ConversationHistory.Append` | retrieval/conversation_history.py:32-37 | appends, evicts the oldest once when over the bound, and recomputes the context |
| `History.ConversationHistory.ExtractContext` | retrieval/conversation_history.py:39-50 | the nested loop computes the summary of the answer |
| `History.ConversationHistory.UpdateContext` | retrieval/conversation_history.py:52-63 | the loop computes the context of the last three exchanges |
| `History.ConversationHistory.GetRelevantContext` | retrieval/conversation_history.py:65-81 | the loop computes the last two summaries of the matching exchanges, or nothing when history is disabled or empty |
| `History.ConversationHistory.ExtractKeywords` | retrieval/conversation_history.py:83-89 | the loop computes the keywords occurring in the text |
| `History.ConversationHistory.ClearHistory` | retrieval/conversation_history.py:113-118 | performs `Cleared` in place and keeps the log consistent |
| `History.ConversationHistory.ResetConversation` | retrieval/conversation_history.py:120-129 | performs `Reset` in place and keeps the log consistent |
| `History.ConversationHistory.ClearAndDisable` | retrieval/conversation_history.py:131-139 | performs `ClearedAndDisabled` in place and keeps the log consistent |
| `History.ConversationHistory.DisableHistory` | retrieval/conversation_history.py:141-144 | only the flag goes off |
| `History.ConversationHistory.EnableHistory` | retrieval/conversation_history.py:146-149 | only the flag goes on |
| `History.ConversationHistory.RemoveLastExchange` | retrieval/conversation_history.py:151-160 | performs `WithoutLast` in place and keeps the log consistent |
| `History.ConversationHistory.RemoveExchangeByIndex` | retrieval/conversation_history.py:162-171 | performs `WithoutIndex` in place and keeps the log consistent |
| `History.ConversationHistory.GetHistoryStatus` | retrieval/conversation_history.py:173-180 | reports the flag, the count (never above the bound) and the bound; `has_context` holds exactly when one of the last three exchanges has a summary |
| `Commands.RemovalIndex` | retrieval/command_processor.py:41 | a removal argument is accepted exactly when its stripped text parses as an integer, and the index is that integer minus one |
| `Commands.Classify` | retrieval/command_processor.py:16-77 | the command a text names after `lower()`; characterised by `RecognisedIff`, `ClassifyIgnoresCase` and `RemoveHistoryIndex` |
| `Commands.ClassifyLowered` | retrieval/command_processor.py:21-77 | the tests of `process_command` in their order on the lower-cased text; see `ClassifyRemoveHistory` |
| `Commands.HistoryEffect` | retrieval/command_processor.py:21-45 | what each command does to the log: no command adds an exchange, and only the four flag-setting commands change the flag |
| `Commands.RecognisedIff` | retrieval/command_processor.py:16-77 | a command is recognised exactly when its lower-cased text is a command word or starts with `remove_history:` |
| `Commands.ClassifyIgnoresCase` | retrieval/command_processor.py:18 | upper-casing a command does not change which command it names |
| `Commands.ClassifyRemoveHistory` | retrieval/command_processor.py:39-41 | lower-case text that starts with `remove_history:` is a removal whose argument is the rest, the empty rest included |
| `Commands.RemoveHistoryIndex` | retrieval/command_processor.py:39-45 | `remove_history:N` asks for the index `N - 1`, for every integer `N` |
| `Commands.FormatIntIsLowerAndStripped` | retrieval/command_processor.py:18-41 | the decimal text of an integer is unchanged by `lower()` and by `strip()` |
| `Commands.NonPositiveRemovalChangesNothing` | retrieval/command_processor.py:39-45 | `remove_history:N` with `N <= 0` leaves the log unchanged |
| `Commands.HistoryEffectKeepsConsistency` | retrieval/command_processor.py:21-45 | every command keeps a consistent log consistent |
| `Commands.CommandProcessor.constructor` | retrieval/command_processor.py:12-14 | the processor keeps the log and the pipeline it dispatches to |
| `Commands.CommandProcessor.ProcessCommand` | retrieval/command_processor.py:16-77 | returns true exactly for recognised commands; the log undergoes exactly the named operation; the optimisation switch flips only for `toggle_optimization` |
| `Commands.CommandProcessor.Execute` | retrieval/command_processor.py:21-77 | each branch performs its operation and returns true; an unrecognised command returns false and changes nothing |
| `EnhancedRag.InitialChains` | retrieval/enhanced_rag.py:29-34 | the optional chains exist exactly when optimisation starts enabled |
| `EnhancedRag.Toggled` | retrieval/enhanced_rag.py:177-188 | the flag flips; the improvement chain exists exactly when the new flag is on; the chains-match-flag invariant is kept |
| `EnhancedRag.ToggleTwiceRestores` | retrieval/enhanced_rag.py:177-188 | toggling twice restores the flag, and restores the whole chain state when the invariant holds |
| `EnhancedRag.FirstComponents` | retrieval/enhanced_rag.py:98-99 | the documents are the scored results' chunks, in order |
| `EnhancedRag.Generate` | retrieval/enhanced_rag.py:109-163 | one primary call; a fallback happens exactly on an error; a timeout gives the apology; a double failure gives the error apology with the primary error |
| `EnhancedRag.Invoke` | retrieval/enhanced_rag.py:123-139 | a generation call goes to the integrated chain or to the plain chain with its deadline |
| `EnhancedRag.EnhancedRAGSystem.GenerationCalls` | retrieval/enhanced_rag.py:123-160 | the generation calls of a query, in order; see `OptimizationOffUsesOriginalQuery` and `OptimizationOnUsesIntegratedChain` |
| `EnhancedRag.GenerationBounded` | retrieval/enhanced_rag.py:109-163 | every generation call is made with a deadline of at most 30 seconds, and the answer is a chain's output or one of the two apologies |
| `EnhancedRag.EnhancedRAGSystem.constructor` | retrieval/enhanced_rag.py:16-34 | the chains are built according to the optimisation flag |
| `EnhancedRag.EnhancedRAGSystem.ImproveQuery` | retrieval/enhanced_rag.py:58-68 | the stripped rewrite when optimisation is on, the chain exists and the call returned; the query itself otherwise |
| `EnhancedRag.EnhancedRAGSystem.SearchDocuments` | retrieval/enhanced_rag.py:70-77 | the database's results as returned, or none when the search raised |
| `EnhancedRag.EnhancedRAGSystem.PrimaryCall` | retrieval/enhanced_rag.py:123-139 | the integrated chain on the original question exactly when optimisation is on and the chain exists, the plain chain on the search query otherwise, with the 30-second deadline |
| `EnhancedRag.EnhancedRAGSystem.SearchQuery` | retrieval/enhanced_rag.py:86-93 | the improved query when optimisation is on, the original otherwise |
| `EnhancedRag.EnhancedRAGSystem.ProcessQueryWithImprovement` | retrieval/enhanced_rag.py:79-175 | always succeeds; reports the original query and, as the improved query, the query the search used (the improved one exactly when optimisation is on); the scored and unscored documents of that search; the flag; and the generated answer |
| `EnhancedRag.EnhancedRAGSystem.OptimizationOffUsesOriginalQuery` | retrieval/enhanced_rag.py:90-93 | with optimisation off, only the plain chain is called, on the original question, and the search uses that question |
| `EnhancedRag.EnhancedRAGSystem.OptimizationOnUsesIntegratedChain` | retrieval/enhanced_rag.py:123-156 | with optimisation on, the integrated chain gets the original question first, and a fallback uses the improved query |
| `EnhancedRag.EnhancedRAGSystem.ToggleQueryOptimization` | retrieval/enhanced_rag.py:177-188 | performs `Toggled` in place and keeps the invariant |
| `EnhancedRag.EnhancedRAGSystem.GetOptimizationStatus` | retrieval/enhanced_rag.py:190-196 | reports the flag and the dictionary size; under the invariant the chain is present exactly when the flag is on |
| `EnhancedRag.ImprovedQueryIsStripped` | retrieval/enhanced_rag.py:58-68 | the improved query is the query itself or has no surrounding white space |
| `SharedRag.DatabasePath` | retrieval/shared_rag_manager.py:73 | each embedding choice has its own directory `./chroma_<choice>` |
| `SharedRag.EmbeddingStep` | retrieval/shared_rag_manager.py:39-49 | a cached model is returned with no call; a missing one is created once and stored only when creation returns |
| `SharedRag.DatabaseStep` | retrieval/shared_rag_manager.py:51-101 | a cached database is returned unchanged; on success the entry is stored, and a database built here is on disk; on failure no entry is stored; at most the choice's directory appears on disk |
| `SharedRag.DatabaseStepCalls` | retrieval/shared_rag_manager.py:73-91 | every database opened is at the choice's directory; documents are added only when building where nothing was on disk, always when such a build succeeds, and only to a store whose directory is then on disk |
| `SharedRag.RetryAfterFailedIngestionReusesStore` | retrieval/shared_rag_manager.py:77-91 | after adding the documents raised, asking again opens the store left on disk without adding any document, and succeeds exactly when that opening returns |
| `SharedRag.BuildDatabase` | retrieval/shared_rag_manager.py:67-101 | the open-or-build step after the embedding is ready: a new store is on disk once it is opened, and the entry is stored only when every call returned; its properties are those of `DatabaseStep` and `DatabaseStepCalls` |
| `SharedRag.LlmStep` | retrieval/shared_rag_manager.py:103-120 | the language model is cached under the digest of the key and created only when missing |
| `SharedRag.SecondRequestReusesResource` | retrieval/shared_rag_manager.py:39-120 | once obtained, asking again returns the same instance, makes no call and changes nothing; for models, any key with the same digest does too |
| `SharedRag.Evicted` | retrieval/shared_rag_manager.py:163-170 | only the database entry of the choice is removed |
| `SharedRag.ClearedPrefix` | retrieval/shared_rag_manager.py:189-193 | the directories are removed in order up to the first removal that raises |
| `SharedRag.Deleted` | retrieval/shared_rag_manager.py:172-204 | returns true exactly when every removal returned; on success the cache entries go and the directories are gone; on failure the database cache is unchanged; only the named directory (or the listed ones) can leave the disk, nothing is added, and a failed single removal leaves the disk as it was |
| `SharedRag.FullSweepClearsEveryDatabase` | retrieval/shared_rag_manager.py:187-197 | when the listing holds every `./chroma` directory on disk, a full sweep that returns true leaves no database of any choice on disk or in the cache |
| `SharedRag.Recreated` | retrieval/shared_rag_manager.py:206-222 | evict, delete, then get-or-create, ignoring the deletion's result; its properties are `RecreationReingests` and `RecreationAfterFailedRemovalReusesDisk` |
| `SharedRag.RecreationReingests` | retrieval/shared_rag_manager.py:206-222 | when the directory is removed, a successful re-creation loads and adds the documents again |
| `SharedRag.RecreationAfterFailedRemovalReusesDisk` | retrieval/shared_rag_manager.py:206-222 | when the removal raises, re-creation reopens the old database without adding documents, and succeeds exactly when the embedding and the opening succeed |
| `SharedRag.SharedRAGManager.constructor` | retrieval/shared_rag_manager.py:30-37 | all three caches start empty |
| `SharedRag.SharedRAGManager.GetOrCreateEmbedding` | retrieval/shared_rag_manager.py:39-49 | performs `EmbeddingStep` in place, with its factory calls |
| `SharedRag.SharedRAGManager.GetOrCreateDatabase` | retrieval/shared_rag_manager.py:51-101 | performs `DatabaseStep` in place, with its factory calls, so a failed ingestion leaves the new directory on disk as the source does |
| `SharedRag.SharedRAGManager.BuildDatabaseAt` | retrieval/shared_rag_manager.py:67-101 | performs `BuildDatabase` in place: opens or builds the database at the choice's directory, recording the directory on disk as soon as a new store is opened |
| `SharedRag.SharedRAGManager.GetOrCreateLlm` | retrieval/shared_rag_manager.py:103-120 | performs `LlmStep` in place, with its factory calls |
| `SharedRag.SharedRAGManager.CreateUserSession` | retrieval/shared_rag_manager.py:122-148 | the caches and the factory calls are exactly those of `SessionStep`; the session exists exactly when every step returned, has its own empty log and fresh chains, and uses the database and model those steps return; an already cached database is shared |
| `SharedRag.SessionStep` | retrieval/shared_rag_manager.py:128-131 | embedding, database, model in that order, stopping at the first failure; on success both resources are cached; a cached database is reused with no loading, opening or adding |
| `SharedRag.CachedSessionMakesNoCall` | retrieval/shared_rag_manager.py:128-131 | when everything is cached, a session makes no factory call and changes nothing |
| `SharedRag.SharedRAGManager.GetDatabaseStatus` | retrieval/shared_rag_manager.py:150-161 | reports the directory, whether it is on disk, and whether the database is cached |
| `SharedRag.SharedRAGManager.ClearDatabaseCache` | retrieval/shared_rag_manager.py:163-170 | returns true exactly when the entry was cached, and performs `Evicted` |
| `SharedRag.SharedRAGManager.DeleteDatabaseFiles` | retrieval/shared_rag_manager.py:172-204 | the removal loop performs `Deleted` |
| `SharedRag.SharedRAGManager.ForceRecreateDatabase` | retrieval/shared_rag_manager.py:206-222 | evicts, deletes (ignoring the result), then gets or creates; returns whether that succeeded |
| `SharedRag.SharedRAGManager.GetResourceStatus` | retrieval/shared_rag_manager.py:224-231 | reports the cached keys and the model count; "High" exactly when an embedding is cached, "None" otherwise |
| `SharedRag.UserRAGSession.constructor` | retrieval/shared_rag_manager.py:237-241 | the session keeps its pipeline, its own log, the embedding choice and the key |
| `SharedRag.UserRAGSession.ProcessQuery` | retrieval/shared_rag_manager.py:243-266 | returns the pipeline's result and records the exchange exactly when it is a success |
| `SharedRag.UserRAGSession.GetConversationHistory` | retrieval/shared_rag_manager.py:268-270 | the session's exchanges, never more than the bound |
| `SharedRag.UserRAGSession.ClearHistory` | retrieval/shared_rag_manager.py:272-274 | clears the session's log |
| `SharedRag.UserRAGSession.ToggleQueryOptimization` | retrieval/shared_rag_manager.py:276-278 | toggles the session's chains |
| `SharedRag.UserRAGSession.GetSystemStatus` | retrieval/shared_rag_manager.py:280-289 | database and model are always reported loaded; the history fields come from the session's log |
| `RagManager.EmbeddingModelLabel` | retrieval/rag_manager.py:165 | choice `'1'` is the Korean model, anything else the Google one |
| `RagManager.ResolveApiKey` | retrieval/rag_manager.py:32 | the given key when it is non-empty, the environment's otherwise; the result is usable exactly when either one is |
| `RagManager.InitialDatabase` | retrieval/rag_manager.py:53-59 | without an error there is a database; on disk, no error exactly when opening returned; a fresh build has no error exactly when loading, opening and adding all returned, and keeps a database exactly when loading and opening returned |
| `RagManager.Initialize` | retrieval/rag_manager.py:44-85 | completion means every component was built and nothing raised; without a key the initialisation stops early, raises nothing on that account, and builds no model; nothing is raised exactly when the embedding, the database and (with a key) the model are built, and the error raised is the first failure's, in the order embedding, database, model |
| `RagManager.RAGManager.constructor` | retrieval/rag_manager.py:18-39 | the key is resolved and no component is built yet |
| `RagManager.RAGManager.InitializeSystem` | retrieval/rag_manager.py:44-85 | the components are those of `Initialize`; the pipeline and the log are built exactly when initialisation completes |
| `RagManager.RAGManager.CreateNewDatabase` | retrieval/rag_manager.py:87-106 | load, open (the database is kept), then add documents; it agrees with `InitialDatabase` |
| `RagManager.RAGManager.Create` | retrieval/rag_manager.py:18-42 | a manager exists exactly when the initialisation did not raise |
| `RagManager.RAGManager.ProcessQuery` | retrieval/rag_manager.py:108-146 | refused before initialisation; otherwise the pipeline's result, recorded in the log exactly on success |
| `RagManager.RAGManager.GetConversationHistory` | retrieval/rag_manager.py:148-150 | the log's exchanges, or none without a log |
| `RagManager.RAGManager.ClearHistory` | retrieval/rag_manager.py:152-155 | clears the log when there is one |
| `RagManager.RAGManager.ToggleQueryOptimization` | retrieval/rag_manager.py:157-160 | toggles the chains when there is a pipeline |
| `RagManager.RAGManager.GetSystemStatus` | retrieval/rag_manager.py:162-171 | each "loaded" flag says whether that component was built; without a log the history is reported disabled and empty |

## Left out

- Printing is not modelled: `show_history` and every message the commands
  print. `show_history` and `show_context` are recognised, and they return
  true without changing anything.
- `lower()` is modelled on ASCII letters only, and `int()` on ASCII digits
  only. Every command word is ASCII, so the decision between commands is
  the same. A removal argument written in non-ASCII digits is read as "not
  an integer".
- Threads, the lock and the singleton `__new__` are not modelled.
  Operations run one at a time. The unlocked cache check of
  `get_or_create_database` and its re-check under the lock become a single
  check.
- EnhancedRag.GenerationBounded: states the deadline each call is made
  with, not how long the caller waits. In the source the wait itself is
  unbounded. `run_with_timeout` (retrieval/enhanced_rag.py:109-121) leaves
  its `with ThreadPoolExecutor` block after a timeout. That runs
  `shutdown(wait=True)`, which blocks until the chain call finishes.
- Deadlines are not timed. `ThreadPoolExecutor` with its 30-second and
  15-second deadlines is reduced to a chain outcome of `TimedOut`. A chain
  that raises `TimeoutError` itself also counts as `TimedOut`.
- The prompts, `hub.pull` and the domain dictionary's text are not
  modelled. Only the dictionary size is kept. Building an
  `EnhancedRAGSystem` is taken to succeed.
- The source timestamps exchanges with `datetime.now()`. The model takes
  the timestamp as a parameter.
- The key lists of `get_resource_status` are kept as sets. List order is
  not modelled.
- MD5 is not computed. The digest is an uninterpreted `keyHash`.
- `create_user_session` can be given a `None` API key. The model requires
  a string. With `None`, the source raises inside `.encode()`.
- `glob("./chroma*")` is not evaluated. Its result is the `listing`
  parameter.
- SharedRag.Deleted: a removal that raises is taken to leave the directory
  on disk. `shutil.rmtree` that raises partway may leave a partial
  directory, or an empty one. `RecreationAfterFailedRemovalReusesDisk`
  relies on the same assumption.
- The file system is a set of directories that hold a database. What
  `check_existing_database` inspects inside a directory is not modelled.
- Similarity scores are opaque reals that the core passes on.
- `SharedRag.UserRAGSession.ProcessQuery` has an `except` branch. The
  pipeline never raises and a session's log always exists, so that branch
  cannot be reached and is not modelled.
