/** The per-session conversation log (retrieval/conversation_history.py).

    The first half states, as functions, what the log computes: the context
    summary kept with each exchange, the current context derived from the last
    three exchanges, the context relevant to a new question, and the state after
    each mutation. The class `ConversationHistory` below holds the log itself;
    each of its methods updates the fields in place and is proved to produce
    exactly the state the corresponding function describes. */
module History {
  import opened Text
  import opened Providers

  /** One question/answer exchange. The timestamp is supplied by the caller,
      since reading the clock is outside the model. */
  datatype Exchange = Exchange(
    timestamp: string,
    question: string,
    answer: string,
    retrievedDocs: seq<Chunk>,
    contextSummary: string)

  /** Python's `s[:n]`: the first n elements, or all of them. */
  function Take<T>(s: seq<T>, n: nat): (r: seq<T>)
    ensures |r| == if |s| <= n then |s| else n
    ensures r == s[..|r|]
    ensures |s| <= n ==> r == s
  {
    if |s| <= n then s else s[..n]
  }

  /** Python's `s[-n:]` for n > 0: the last n elements, or all of them. */
  function LastN<T>(s: seq<T>, n: nat): (r: seq<T>)
    requires n > 0
    ensures |r| == if |s| <= n then |s| else n
    ensures r == s[|s| - |r|..]
    ensures |s| <= n ==> r == s
  {
    if |s| <= n then s else s[|s| - n..]
  }

  // ---------------------------------------------------------------------------
  // Context summary of one answer (`_extract_context`)
  // ---------------------------------------------------------------------------

  /** The stripped sentences that contain `keyword`, in sentence order. */
  function SentenceHits(keyword: string, sentences: seq<string>): seq<string>
  {
    if sentences == [] then []
    else
      var last := sentences[|sentences| - 1];
      SentenceHits(keyword, sentences[..|sentences| - 1])
        + (if IsHit(keyword, last, Strip(last)) then [Strip(last)] else [])
  }

  /** For every keyword that occurs in the answer, in keyword-list order, the
      stripped `.`-separated sentences of the answer that contain it. */
  function ContextParts(keywords: seq<string>, answer: string): seq<string>
  {
    if keywords == [] then []
    else
      var keyword := keywords[|keywords| - 1];
      ContextParts(keywords[..|keywords| - 1], answer)
        + (if Contains(answer, keyword) then SentenceHits(keyword, Split(answer, '.')) else [])
  }

  /** The summary stored with an exchange: the first three context parts joined
      with ". ". */
  function ContextSummary(keywords: seq<string>, answer: string): string
  {
    Join(". ", Take(ContextParts(keywords, answer), 3))
  }

  /** `p` is what `sentence` contributes for `keyword`: the sentence contains
      the keyword and `p` is the stripped sentence. */
  predicate IsHit(keyword: string, sentence: string, p: string)
  {
    Contains(sentence, keyword) && p == Strip(sentence)
  }

  /** `p` is a stripped sentence of the answer containing a keyword that occurs
      in the answer. */
  ghost predicate IsContextPart(keywords: seq<string>, answer: string, p: string)
  {
    var sentences := Split(answer, '.');
    exists i, j {:trigger IsHit(keywords[i], sentences[j], p)} :: 0 <= i < |keywords| && 0 <= j < |sentences|
      && Contains(answer, keywords[i]) && IsHit(keywords[i], sentences[j], p)
  }

  lemma {:induction false} SentenceHitsMembers(keyword: string, sentences: seq<string>, p: string)
    ensures p in SentenceHits(keyword, sentences) <==>
      exists j {:trigger IsHit(keyword, sentences[j], p)} :: 0 <= j < |sentences| && IsHit(keyword, sentences[j], p)
  {
    if sentences != [] {
      var init := sentences[..|sentences| - 1];
      var last := sentences[|sentences| - 1];
      SentenceHitsMembers(keyword, init, p);
      var tail := if IsHit(keyword, last, Strip(last)) then [Strip(last)] else [];
      assert SentenceHits(keyword, sentences) == SentenceHits(keyword, init) + tail;
      assert p in tail <==> IsHit(keyword, last, p);
      if p in SentenceHits(keyword, init) {
        var j :| 0 <= j < |init| && IsHit(keyword, init[j], p);
        assert sentences[j] == init[j];
        assert IsHit(keyword, sentences[j], p);
      }
      if exists j {:trigger IsHit(keyword, sentences[j], p)} :: 0 <= j < |sentences| && IsHit(keyword, sentences[j], p) {
        var j :| 0 <= j < |sentences| && IsHit(keyword, sentences[j], p);
        if j < |init| {
          assert init[j] == sentences[j];
          assert IsHit(keyword, init[j], p);
        } else {
          assert p in tail;
        }
      }
    }
  }

  /** Every context part, and only a context part, is a stripped sentence of the
      answer that contains a keyword occurring in the answer. */
  lemma {:induction false} ContextPartsMembers(keywords: seq<string>, answer: string, p: string)
    ensures p in ContextParts(keywords, answer) <==> IsContextPart(keywords, answer, p)
  {
    var sentences := Split(answer, '.');
    if keywords != [] {
      var init := keywords[..|keywords| - 1];
      var keyword := keywords[|keywords| - 1];
      ContextPartsMembers(init, answer, p);
      SentenceHitsMembers(keyword, sentences, p);
      var tail := if Contains(answer, keyword) then SentenceHits(keyword, sentences) else [];
      assert ContextParts(keywords, answer) == ContextParts(init, answer) + tail;
      if p in ContextParts(init, answer) {
        var i, j :| 0 <= i < |init| && 0 <= j < |sentences|
          && Contains(answer, init[i]) && IsHit(init[i], sentences[j], p);
        assert keywords[i] == init[i];
        assert IsHit(keywords[i], sentences[j], p);
      }
      if p in tail {
        var j :| 0 <= j < |sentences| && IsHit(keyword, sentences[j], p);
        assert IsHit(keywords[|keywords| - 1], sentences[j], p);
      }
      if IsContextPart(keywords, answer, p) {
        var i, j :| 0 <= i < |keywords| && 0 <= j < |sentences|
          && Contains(answer, keywords[i]) && IsHit(keywords[i], sentences[j], p);
        if i < |init| {
          assert init[i] == keywords[i];
          assert IsHit(init[i], sentences[j], p);
        } else {
          assert i == |keywords| - 1 && keywords[i] == keyword;
          assert p in tail;
        }
      }
    }
  }

  /** An answer in which no keyword occurs gets the empty summary. */
  lemma {:induction false} NoKeywordNoSummary(keywords: seq<string>, answer: string)
    requires forall i :: 0 <= i < |keywords| ==> !Contains(answer, keywords[i])
    ensures ContextParts(keywords, answer) == []
    ensures ContextSummary(keywords, answer) == ""
  {
    if keywords != [] {
      NoKeywordNoSummary(keywords[..|keywords| - 1], answer);
    }
  }

  // ---------------------------------------------------------------------------
  // Current context (`_update_context`)
  // ---------------------------------------------------------------------------

  /** The non-empty context summaries of the exchanges, in order. */
  function NonEmptySummaries(exchanges: seq<Exchange>): seq<string>
  {
    if exchanges == [] then []
    else
      var last := exchanges[|exchanges| - 1];
      NonEmptySummaries(exchanges[..|exchanges| - 1])
        + (if last.contextSummary != "" then [last.contextSummary] else [])
  }

  /** No collected summary is empty, and none is collected exactly when every
      summary is empty. */
  lemma {:induction false} NonEmptySummariesSpec(exchanges: seq<Exchange>)
    ensures forall i :: 0 <= i < |NonEmptySummaries(exchanges)| ==> NonEmptySummaries(exchanges)[i] != ""
    ensures NonEmptySummaries(exchanges) == [] <==>
      forall i :: 0 <= i < |exchanges| ==> exchanges[i].contextSummary == ""
  {
    if exchanges != [] {
      var init := exchanges[..|exchanges| - 1];
      NonEmptySummariesSpec(init);
      if NonEmptySummaries(init) == [] && exchanges[|exchanges| - 1].contextSummary == "" {
        forall i | 0 <= i < |exchanges|
          ensures exchanges[i].contextSummary == ""
        {
          if i < |init| {
            assert exchanges[i] == init[i];
          }
        }
      }
      if NonEmptySummaries(init) != [] {
        var i :| 0 <= i < |init| && init[i].contextSummary != "";
        assert exchanges[i] == init[i];
      }
    }
  }

  /** The current context: the non-empty summaries of the last three exchanges
      joined with spaces; empty for an empty history. Older exchanges never
      contribute. */
  function RecentContext(exchanges: seq<Exchange>): string
  {
    Join(" ", NonEmptySummaries(LastN(exchanges, 3)))
  }

  /** The current context is empty exactly when none of the last three
      exchanges has a non-empty summary. */
  lemma RecentContextEmptyIff(exchanges: seq<Exchange>)
    ensures RecentContext(exchanges) == "" <==>
      forall i :: 0 <= i < |exchanges| && |exchanges| - 3 <= i ==> exchanges[i].contextSummary == ""
  {
    var recent := LastN(exchanges, 3);
    var offset := |exchanges| - |recent|;
    assert offset == if |exchanges| <= 3 then 0 else |exchanges| - 3;
    NonEmptySummariesSpec(recent);
    JoinEmptyIff(" ", NonEmptySummaries(recent));
    forall k | 0 <= k < |recent|
      ensures recent[k] == exchanges[offset + k]
    {
    }
    if RecentContext(exchanges) == "" {
      forall i | 0 <= i < |exchanges| && |exchanges| - 3 <= i
        ensures exchanges[i].contextSummary == ""
      {
        assert exchanges[i] == recent[i - offset];
      }
    }
  }

  // ---------------------------------------------------------------------------
  // Relevant context for a new question (`get_relevant_context`)
  // ---------------------------------------------------------------------------

  /** The keywords that occur in `text`, in keyword-list order (`_extract_keywords`). */
  function KeywordsIn(keywords: seq<string>, text: string): seq<string>
  {
    if keywords == [] then []
    else
      var keyword := keywords[|keywords| - 1];
      KeywordsIn(keywords[..|keywords| - 1], text) + (if Contains(text, keyword) then [keyword] else [])
  }

  /** The keywords found are exactly the keywords that occur in the text, and
      there are no more of them than keywords. */
  lemma {:induction false} KeywordsInMembers(keywords: seq<string>, text: string)
    ensures |KeywordsIn(keywords, text)| <= |keywords|
    ensures forall k :: k in KeywordsIn(keywords, text) <==> k in keywords && Contains(text, k)
  {
    if keywords != [] {
      var init := keywords[..|keywords| - 1];
      KeywordsInMembers(init, text);
      assert keywords == init + [keywords[|keywords| - 1]];
    }
  }

  /** The text of an exchange that keywords are looked for in. */
  function ExchangeText(e: Exchange): string
  {
    e.question + " " + e.answer
  }

  /** The keyword sets of the question and of the text intersect. */
  predicate SharesKeyword(keywords: seq<string>, question: string, text: string)
  {
    (set k | k in KeywordsIn(keywords, question)) * (set k | k in KeywordsIn(keywords, text)) != {}
  }

  /** Two texts share a keyword exactly when some keyword occurs in both. */
  lemma SharesKeywordIff(keywords: seq<string>, question: string, text: string)
    ensures SharesKeyword(keywords, question, text) <==>
      exists i :: 0 <= i < |keywords| && Contains(question, keywords[i]) && Contains(text, keywords[i])
  {
    var common := (set k | k in KeywordsIn(keywords, question)) * (set k | k in KeywordsIn(keywords, text));
    KeywordsInMembers(keywords, question);
    KeywordsInMembers(keywords, text);
    if common != {} {
      var k :| k in common;
      var i :| 0 <= i < |keywords| && keywords[i] == k;
    }
    if exists i :: 0 <= i < |keywords| && Contains(question, keywords[i]) && Contains(text, keywords[i]) {
      var i :| 0 <= i < |keywords| && Contains(question, keywords[i]) && Contains(text, keywords[i]);
      assert keywords[i] in common;
    }
  }

  /** The summaries of the exchanges that share a keyword with the question,
      in history order. */
  function MatchingSummaries(keywords: seq<string>, exchanges: seq<Exchange>, question: string): seq<string>
  {
    if exchanges == [] then []
    else
      var last := exchanges[|exchanges| - 1];
      MatchingSummaries(keywords, exchanges[..|exchanges| - 1], question)
        + (if SharesKeyword(keywords, question, ExchangeText(last)) then [last.contextSummary] else [])
  }

  /** The context relevant to a new question: nothing when the history is
      disabled or empty; otherwise the last two summaries among the exchanges
      that share a keyword with the question, joined with a space. */
  function RelevantContext(keywords: seq<string>, enabled: bool, exchanges: seq<Exchange>, question: string): string
  {
    if !enabled || exchanges == [] then ""
    else Join(" ", LastN(MatchingSummaries(keywords, exchanges, question), 2))
  }

  /** A question in which no keyword occurs matches no exchange, so no context
      is relevant to it. */
  lemma {:induction false} NoKeywordNoRelevantContext(keywords: seq<string>, enabled: bool,
                                                      exchanges: seq<Exchange>, question: string)
    requires forall i :: 0 <= i < |keywords| ==> !Contains(question, keywords[i])
    ensures MatchingSummaries(keywords, exchanges, question) == []
    ensures RelevantContext(keywords, enabled, exchanges, question) == ""
  {
    if exchanges != [] {
      NoKeywordNoRelevantContext(keywords, enabled, exchanges[..|exchanges| - 1], question);
      SharesKeywordIff(keywords, question, ExchangeText(exchanges[|exchanges| - 1]));
    }
  }

  /** Each summary in the relevant context belongs to a matching exchange. */
  lemma {:induction false} MatchingSummariesFromMatches(keywords: seq<string>, exchanges: seq<Exchange>,
                                                        question: string, s: string)
    requires s in MatchingSummaries(keywords, exchanges, question)
    ensures exists j :: 0 <= j < |exchanges| && exchanges[j].contextSummary == s
                        && SharesKeyword(keywords, question, ExchangeText(exchanges[j]))
  {
    var init := exchanges[..|exchanges| - 1];
    if s in MatchingSummaries(keywords, init, question) {
      MatchingSummariesFromMatches(keywords, init, question, s);
      var j :| 0 <= j < |init| && init[j].contextSummary == s
               && SharesKeyword(keywords, question, ExchangeText(init[j]));
      assert exchanges[j] == init[j];
    } else {
      assert exchanges[|exchanges| - 1].contextSummary == s;
    }
  }

  // ---------------------------------------------------------------------------
  // The log's state and its transitions
  // ---------------------------------------------------------------------------

  /** The observable state of a log: its exchanges, the current context and the
      enabled flag. */
  datatype HistoryState = HistoryState(exchanges: seq<Exchange>, currentContext: string, enabled: bool)

  /** The exchange carries the summary of its own answer. */
  predicate Summarised(keywords: seq<string>, e: Exchange)
  {
    e.contextSummary == ContextSummary(keywords, e.answer)
  }

  /** Every exchange of the sequence carries the summary of its own answer. */
  predicate AllSummarised(keywords: seq<string>, exchanges: seq<Exchange>)
  {
    forall i {:trigger Summarised(keywords, exchanges[i])} :: 0 <= i < |exchanges| ==>
      Summarised(keywords, exchanges[i])
  }

  lemma SummarisedAppend(keywords: seq<string>, exchanges: seq<Exchange>, e: Exchange)
    requires AllSummarised(keywords, exchanges) && Summarised(keywords, e)
    ensures AllSummarised(keywords, exchanges + [e])
  {
    var grown := exchanges + [e];
    forall i | 0 <= i < |grown|
      ensures Summarised(keywords, grown[i])
    {
      if i < |exchanges| {
        assert grown[i] == exchanges[i];
      }
    }
  }

  lemma SummarisedSlice(keywords: seq<string>, exchanges: seq<Exchange>, lo: nat, hi: nat)
    requires AllSummarised(keywords, exchanges) && lo <= hi <= |exchanges|
    ensures AllSummarised(keywords, exchanges[lo..hi])
  {
    forall i | 0 <= i < hi - lo
      ensures Summarised(keywords, exchanges[lo..hi][i])
    {
      assert exchanges[lo..hi][i] == exchanges[lo + i];
    }
  }

  lemma SummarisedConcat(keywords: seq<string>, xs: seq<Exchange>, ys: seq<Exchange>)
    requires AllSummarised(keywords, xs) && AllSummarised(keywords, ys)
    ensures AllSummarised(keywords, xs + ys)
  {
    forall i | 0 <= i < |xs + ys|
      ensures Summarised(keywords, (xs + ys)[i])
    {
      if i < |xs| {
        assert (xs + ys)[i] == xs[i];
      } else {
        assert (xs + ys)[i] == ys[i - |xs|];
      }
    }
  }

  /** What every reachable state satisfies: the bound on the length, the current
      context derived from the exchanges, and each summary derived from its answer. */
  ghost predicate Consistent(s: HistoryState, keywords: seq<string>, maxHistory: nat)
  {
    && |s.exchanges| <= maxHistory
    && s.currentContext == RecentContext(s.exchanges)
    && AllSummarised(keywords, s.exchanges)
  }

  /** The exchange recorded for a question and its answer. */
  function NewExchange(keywords: seq<string>, timestamp: string, question: string, answer: string,
                       docs: seq<Chunk>): Exchange
  {
    Exchange(timestamp, question, answer, docs, ContextSummary(keywords, answer))
  }

  /** The state after `add_exchange`. */
  function Added(s: HistoryState, keywords: seq<string>, maxHistory: nat, timestamp: string,
                 question: string, answer: string, docs: seq<Chunk>): (t: HistoryState)
    // a disabled log ignores the exchange entirely
    ensures !s.enabled ==> t == s
    // otherwise the exchange goes at the end and only the oldest one may go
    ensures s.enabled ==> t.enabled && t.currentContext == RecentContext(t.exchanges)
    ensures s.enabled && |s.exchanges| < maxHistory ==>
      t.exchanges == s.exchanges + [NewExchange(keywords, timestamp, question, answer, docs)]
    ensures s.enabled && |s.exchanges| >= maxHistory ==>
      t.exchanges == (s.exchanges + [NewExchange(keywords, timestamp, question, answer, docs)])[1..]
  {
    if !s.enabled then s else Appended(s, maxHistory, NewExchange(keywords, timestamp, question, answer, docs))
  }

  /** Appending an exchange: it goes at the end, the oldest exchange is evicted
      once the bound is passed, and the current context is recomputed. */
  function Appended(s: HistoryState, maxHistory: nat, e: Exchange): HistoryState
  {
    var grown := s.exchanges + [e];
    var kept := if |grown| > maxHistory then grown[1..] else grown;
    HistoryState(kept, RecentContext(kept), s.enabled)
  }

  /** Adding keeps a log consistent: the bound holds after the eviction, the
      context is recomputed, and the new exchange carries its own summary. */
  lemma AddedKeepsConsistency(s: HistoryState, keywords: seq<string>, maxHistory: nat, timestamp: string,
                              question: string, answer: string, docs: seq<Chunk>)
    requires Consistent(s, keywords, maxHistory)
    ensures Consistent(Added(s, keywords, maxHistory, timestamp, question, answer, docs), keywords, maxHistory)
  {
    if s.enabled {
      var e := NewExchange(keywords, timestamp, question, answer, docs);
      var grown := s.exchanges + [e];
      SummarisedAppend(keywords, s.exchanges, e);
      if |grown| > maxHistory {
        SummarisedSlice(keywords, grown, 1, |grown|);
        assert grown[1..|grown|] == grown[1..];
      }
    }
  }

  /** On an enabled, consistent log the new exchange is the newest one kept
      (unless the bound is zero) and the length grows by one up to the bound. */
  lemma AddedKeepsNewest(s: HistoryState, keywords: seq<string>, maxHistory: nat, timestamp: string,
                         question: string, answer: string, docs: seq<Chunk>)
    requires s.enabled && Consistent(s, keywords, maxHistory)
    ensures var t := Added(s, keywords, maxHistory, timestamp, question, answer, docs);
      && |t.exchanges| == (if |s.exchanges| < maxHistory then |s.exchanges| + 1 else maxHistory)
      && (maxHistory > 0 ==>
            t.exchanges[|t.exchanges| - 1] == NewExchange(keywords, timestamp, question, answer, docs))
      && (maxHistory == 0 ==> t.exchanges == [])
  {
  }

  /** The state after `clear_history`: empty, flag unchanged. */
  function Cleared(s: HistoryState): (t: HistoryState)
    ensures t.exchanges == [] && t.currentContext == "" && t.enabled == s.enabled
  {
    HistoryState([], "", s.enabled)
  }

  /** The state after `reset_conversation`: empty and enabled. */
  function Reset(s: HistoryState): (t: HistoryState)
    ensures t.exchanges == [] && t.currentContext == "" && t.enabled
  {
    HistoryState([], "", true)
  }

  /** The state after `clear_and_disable`: empty and disabled. */
  function ClearedAndDisabled(s: HistoryState): (t: HistoryState)
    ensures t.exchanges == [] && t.currentContext == "" && !t.enabled
  {
    HistoryState([], "", false)
  }

  /** The state after `enable_history` / `disable_history`: only the flag changes. */
  function WithEnabled(s: HistoryState, enabled: bool): (t: HistoryState)
    ensures t.exchanges == s.exchanges && t.currentContext == s.currentContext && t.enabled == enabled
  {
    s.(enabled := enabled)
  }

  /** An empty log is consistent, whatever its flag. */
  lemma EmptyIsConsistent(enabled: bool, keywords: seq<string>, maxHistory: nat)
    ensures Consistent(HistoryState([], "", enabled), keywords, maxHistory)
  {
    assert NonEmptySummaries(LastN([], 3)) == [];
  }

  /** The three clearing operations agree on everything but the flag. */
  lemma ClearingsDifferOnlyInFlag(s: HistoryState)
    ensures Cleared(s) == WithEnabled(Reset(s), s.enabled)
    ensures ClearedAndDisabled(s) == WithEnabled(Reset(s), false)
  {
  }

  /** The state after `remove_last_exchange`: the newest exchange goes; an
      empty log is left as it is. */
  function WithoutLast(s: HistoryState): (t: HistoryState)
    ensures s.exchanges == [] ==> t == s
    ensures s.exchanges != [] ==>
      && t.exchanges + [s.exchanges[|s.exchanges| - 1]] == s.exchanges
      && t.currentContext == RecentContext(t.exchanges) && t.enabled == s.enabled
  {
    if s.exchanges == [] then s
    else
      var kept := s.exchanges[..|s.exchanges| - 1];
      HistoryState(kept, RecentContext(kept), s.enabled)
  }

  /** The state after `remove_exchange_by_index(index)`: nothing changes when
      the index is out of range. */
  function WithoutIndex(s: HistoryState, index: int): (t: HistoryState)
    ensures !(0 <= index < |s.exchanges|) ==> t == s
    ensures 0 <= index < |s.exchanges| ==>
      |t.exchanges| == |s.exchanges| - 1 && t.currentContext == RecentContext(t.exchanges) && t.enabled == s.enabled
  {
    if 0 <= index < |s.exchanges| then
      var kept := s.exchanges[..index] + s.exchanges[index + 1..];
      HistoryState(kept, RecentContext(kept), s.enabled)
    else s
  }

  /** An in-range removal takes out exactly the exchange at `index`: the ones
      before it keep their positions and the ones after it move down by one. */
  lemma WithoutIndexRemovesExactly(s: HistoryState, index: int)
    requires 0 <= index < |s.exchanges|
    ensures var t := WithoutIndex(s, index);
      && (forall j :: 0 <= j < index ==> t.exchanges[j] == s.exchanges[j])
      && (forall j :: index <= j < |t.exchanges| ==> t.exchanges[j] == s.exchanges[j + 1])
  {
    var kept := s.exchanges[..index] + s.exchanges[index + 1..];
    assert WithoutIndex(s, index).exchanges == kept;
  }

  /** Removing by the last index is removing the last exchange. */
  lemma RemoveLastIsRemoveAtEnd(s: HistoryState)
    ensures WithoutIndex(s, |s.exchanges| - 1) == WithoutLast(s)
  {
    if s.exchanges != [] {
      var n := |s.exchanges|;
      assert s.exchanges[..n - 1] + s.exchanges[n..] == s.exchanges[..n - 1];
    }
  }

  /** Removing the newest exchange keeps a log consistent. */
  lemma WithoutLastKeepsConsistency(s: HistoryState, keywords: seq<string>, maxHistory: nat)
    requires Consistent(s, keywords, maxHistory)
    ensures Consistent(WithoutLast(s), keywords, maxHistory)
  {
    if s.exchanges != [] {
      SummarisedSlice(keywords, s.exchanges, 0, |s.exchanges| - 1);
    }
  }

  /** Removing an exchange by index keeps a log consistent. */
  lemma WithoutIndexKeepsConsistency(s: HistoryState, keywords: seq<string>, maxHistory: nat, index: int)
    requires Consistent(s, keywords, maxHistory)
    ensures Consistent(WithoutIndex(s, index), keywords, maxHistory)
  {
    var n := |s.exchanges|;
    if 0 <= index < n {
      SummarisedSlice(keywords, s.exchanges, 0, index);
      SummarisedSlice(keywords, s.exchanges, index + 1, n);
      SummarisedConcat(keywords, s.exchanges[0..index], s.exchanges[index + 1..n]);
      assert s.exchanges[0..index] == s.exchanges[..index];
      assert s.exchanges[index + 1..n] == s.exchanges[index + 1..];
    }
  }

  /** The status snapshot of `get_history_status`. */
  datatype HistoryStatus = HistoryStatus(enabled: bool, count: nat, maxHistory: nat, hasContext: bool)

  // ---------------------------------------------------------------------------
  // The log object
  // ---------------------------------------------------------------------------

  class ConversationHistory {
    var history: seq<Exchange>
    const maxHistory: nat
    var currentContext: string
    var historyEnabled: bool
    /** The domain keyword list of the configuration. */
    const keywords: seq<string>

    function State(): HistoryState
      reads this
    {
      HistoryState(history, currentContext, historyEnabled)
    }

    ghost predicate Valid()
      reads this
    {
      Consistent(State(), keywords, maxHistory)
    }

    constructor (maxHistory: nat, keywords: seq<string>)
      ensures Valid()
      ensures State() == HistoryState([], "", true)
      ensures this.maxHistory == maxHistory && this.keywords == keywords
    {
      this.history := [];
      this.maxHistory := maxHistory;
      this.currentContext := "";
      this.historyEnabled := true;
      this.keywords := keywords;
    }

    method AddExchange(timestamp: string, question: string, answer: string, retrievedDocs: seq<Chunk>)
      requires Valid()
      modifies this
      ensures Valid()
      ensures State() == Added(old(State()), keywords, maxHistory, timestamp, question, answer, retrievedDocs)
    {
      if !historyEnabled {
        return;
      }
      ghost var before := State();
      var summary := ExtractContext(answer);
      var exchange := Exchange(timestamp, question, answer, retrievedDocs, summary);
      Append(exchange);
      assert exchange == NewExchange(keywords, timestamp, question, answer, retrievedDocs);
      AddedKeepsConsistency(before, keywords, maxHistory, timestamp, question, answer, retrievedDocs);
    }

    /** The bookkeeping of `add_exchange` once the exchange is built. */
    method Append(exchange: Exchange)
      modifies this
      ensures State() == Appended(old(State()), maxHistory, exchange)
    {
      history := history + [exchange];
      if |history| > maxHistory {
        history := history[1..];
      }
      UpdateContext();
    }

    /** The context summary of an answer, computed by the nested keyword and
        sentence loops. */
    method ExtractContext(answer: string) returns (summary: string)
      ensures summary == ContextSummary(keywords, answer)
    {
      var parts: seq<string> := [];
      for i := 0 to |keywords|
        invariant parts == ContextParts(keywords[..i], answer)
      {
        var keyword := keywords[i];
        assert keywords[..i + 1][..i] == keywords[..i];
        if Contains(answer, keyword) {
          var sentences := Split(answer, '.');
          for j := 0 to |sentences|
            invariant parts == ContextParts(keywords[..i], answer) + SentenceHits(keyword, sentences[..j])
          {
            assert sentences[..j + 1][..j] == sentences[..j];
            if Contains(sentences[j], keyword) {
              parts := parts + [Strip(sentences[j])];
            }
          }
          assert sentences[..|sentences|] == sentences;
        }
      }
      assert keywords[..|keywords|] == keywords;
      summary := Join(". ", Take(parts, 3));
    }

    /** Recomputes the current context from the last three exchanges. */
    method UpdateContext()
      modifies this`currentContext
      ensures currentContext == RecentContext(history)
    {
      if history == [] {
        currentContext := "";
        return;
      }
      var recent := LastN(history, 3);
      var contexts: seq<string> := [];
      for i := 0 to |recent|
        invariant contexts == NonEmptySummaries(recent[..i])
      {
        assert recent[..i + 1][..i] == recent[..i];
        if recent[i].contextSummary != "" {
          contexts := contexts + [recent[i].contextSummary];
        }
      }
      assert recent[..|recent|] == recent;
      currentContext := Join(" ", contexts);
    }

    /** The context relevant to a new question. */
    method GetRelevantContext(newQuestion: string) returns (context: string)
      ensures context == RelevantContext(keywords, historyEnabled, history, newQuestion)
    {
      if !historyEnabled || history == [] {
        return "";
      }
      var questionKeywords := ExtractKeywords(newQuestion);
      var relevant: seq<string> := [];
      for i := 0 to |history|
        invariant relevant == MatchingSummaries(keywords, history[..i], newQuestion)
      {
        var exchange := history[i];
        assert history[..i + 1][..i] == history[..i];
        var exchangeKeywords := ExtractKeywords(exchange.question + " " + exchange.answer);
        var common := (set k | k in questionKeywords) * (set k | k in exchangeKeywords);
        if common != {} {
          relevant := relevant + [exchange.contextSummary];
        }
      }
      assert history[..|history|] == history;
      context := Join(" ", LastN(relevant, 2));
    }

    /** The keywords occurring in a text, in keyword-list order. */
    method ExtractKeywords(text: string) returns (found: seq<string>)
      ensures found == KeywordsIn(keywords, text)
    {
      found := [];
      for i := 0 to |keywords|
        invariant found == KeywordsIn(keywords[..i], text)
      {
        assert keywords[..i + 1][..i] == keywords[..i];
        if Contains(text, keywords[i]) {
          found := found + [keywords[i]];
        }
      }
      assert keywords[..|keywords|] == keywords;
    }

    method ClearHistory()
      requires Valid()
      modifies this
      ensures Valid() && State() == Cleared(old(State()))
    {
      history := [];
      currentContext := "";
    }

    method ResetConversation()
      requires Valid()
      modifies this
      ensures Valid() && State() == Reset(old(State()))
    {
      history := [];
      currentContext := "";
      historyEnabled := true;
    }

    method ClearAndDisable()
      requires Valid()
      modifies this
      ensures Valid() && State() == ClearedAndDisabled(old(State()))
    {
      history := [];
      currentContext := "";
      historyEnabled := false;
    }

    method DisableHistory()
      requires Valid()
      modifies this
      ensures Valid() && State() == WithEnabled(old(State()), false)
    {
      historyEnabled := false;
    }

    method EnableHistory()
      requires Valid()
      modifies this
      ensures Valid() && State() == WithEnabled(old(State()), true)
    {
      historyEnabled := true;
    }

    method RemoveLastExchange()
      requires Valid()
      modifies this
      ensures Valid() && State() == WithoutLast(old(State()))
    {
      ghost var before := State();
      ghost var after := WithoutLast(before);
      if history != [] {
        history := history[..|history| - 1];
        assert history == after.exchanges;
        UpdateContext();
        assert currentContext == after.currentContext;
      }
      assert State() == after;
      WithoutLastKeepsConsistency(before, keywords, maxHistory);
    }

    method RemoveExchangeByIndex(index: int)
      requires Valid()
      modifies this
      ensures Valid() && State() == WithoutIndex(old(State()), index)
    {
      ghost var before := State();
      ghost var after := WithoutIndex(before, index);
      if 0 <= index < |history| {
        history := history[..index] + history[index + 1..];
        assert history == after.exchanges;
        UpdateContext();
        assert currentContext == after.currentContext;
      }
      assert State() == after;
      WithoutIndexKeepsConsistency(before, keywords, maxHistory, index);
    }

    /** The status snapshot: the count is the number of exchanges kept, and
        there is a context exactly when one of the last three exchanges has a
        non-empty summary. */
    function GetHistoryStatus(): (status: HistoryStatus)
      requires Valid()
      reads this
      ensures status.enabled == historyEnabled && status.count == |history|
      ensures status.maxHistory == maxHistory && status.count <= status.maxHistory
      ensures status.hasContext <==>
        exists i :: 0 <= i < |history| && |history| - 3 <= i && history[i].contextSummary != ""
    {
      RecentContextEmptyIff(history);
      HistoryStatus(historyEnabled, |history|, maxHistory, currentContext != "")
    }
  }
}
