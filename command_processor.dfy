/** The text commands of `retrieval/command_processor.py`: a command is
    lower-cased and then dispatched to exactly one operation of the
    conversation log or of the optimisation switch; the processor reports
    whether it recognised the command. */
module Commands {
  import opened Text
  import History
  import EnhancedRag

  /** The recognised commands; `RemoveHistory` carries the 0-based index its
      argument asks for, or `None` when the argument is not an integer. */
  datatype Command =
    | DisableHistory
    | EnableHistory
    | ClearHistory
    | ResetConversation
    | ClearAndDisable
    | RemoveLast
    | RemoveHistory(index: Option<int>)
    | HistoryStatus
    | ShowHistory
    | ShowContext
    | ToggleOptimization
    | OptimizationStatus
    | Unrecognized

  const RemoveHistoryPrefix: string := "remove_history:"

  /** The index asked for by the text after `remove_history:`: the stripped
      text read as an integer, minus one, so `1` names the oldest exchange. */
  function RemovalIndex(argument: string): (index: Option<int>)
    ensures index.Some? <==> ParseInt(Strip(argument)).Some?
    ensures index.Some? ==> index.value + 1 == ParseInt(Strip(argument)).value
  {
    match ParseInt(Strip(argument))
    case Some(n) => Some(n - 1)
    case None => None
  }

  /** The command a text names, compared after lower-casing. */
  function Classify(command: string): Command
  {
    ClassifyLowered(ToLower(command))
  }

  /** The tests of `process_command` on the lower-cased text, in the order the
      processor makes them. The text after the prefix is everything after the
      first colon, since the prefix ends with the first colon. */
  function ClassifyLowered(lc: string): Command
  {
    if lc == "disable_history" then DisableHistory
    else if lc == "enable_history" then EnableHistory
    else if lc == "clear_history" then ClearHistory
    else if lc == "reset_conversation" then ResetConversation
    else if lc == "clear_and_disable" then ClearAndDisable
    else if lc == "remove_last" then RemoveLast
    else if StartsWith(lc, RemoveHistoryPrefix) then RemoveHistory(RemovalIndex(lc[|RemoveHistoryPrefix|..]))
    else if lc == "history_status" then HistoryStatus
    else if lc == "show_history" then ShowHistory
    else if lc == "show_context" then ShowContext
    else if lc == "toggle_optimization" then ToggleOptimization
    else if lc == "optimization_status" then OptimizationStatus
    else Unrecognized
  }

  /** The command words matched exactly. */
  const Words: set<string> := {
    "disable_history", "enable_history", "clear_history", "reset_conversation", "clear_and_disable",
    "remove_last", "history_status", "show_history", "show_context", "toggle_optimization",
    "optimization_status"}

  /** A command is recognised exactly when its lower-cased text is one of the
      command words or starts with `remove_history:`. */
  lemma RecognisedIff(command: string)
    ensures Classify(command) != Unrecognized <==>
      ToLower(command) in Words || StartsWith(ToLower(command), RemoveHistoryPrefix)
  {
  }

  /** Matching ignores case: upper-casing a command does not change what it names. */
  lemma ClassifyIgnoresCase(command: string)
    ensures Classify(ToUpper(command)) == Classify(command)
  {
    LowerForgetsCase(command);
    assert ToLower(ToUpper(command)) == ToLower(command);
  }

  /** Lower-case text that starts with `remove_history:` is a removal whose
      argument is the rest of the text (the empty rest included). */
  lemma ClassifyRemoveHistory(rest: string)
    ensures ClassifyLowered(RemoveHistoryPrefix + rest) == RemoveHistory(RemovalIndex(rest))
  {
    var lc := RemoveHistoryPrefix + rest;
    assert StartsWith(lc, RemoveHistoryPrefix);
    assert lc[|RemoveHistoryPrefix|..] == rest;
    // longer than every command word of up to 14 characters; the longer
    // words differ from it in the first or the third character
    assert |lc| >= 15 && lc[0] == 'r' && lc[2] == 'm';
  }

  /** `remove_history:N` for the decimal text of any integer `N` asks for the
      index `N - 1`. */
  lemma RemoveHistoryIndex(n: int)
    ensures Classify(RemoveHistoryPrefix + FormatInt(n)) == RemoveHistory(Some(n - 1))
  {
    RemovalCommandIsLower(n);
    FormatIntRemovalIndex(n);
    ClassifyRemoveHistory(FormatInt(n));
  }

  lemma RemovalCommandIsLower(n: int)
    ensures ToLower(RemoveHistoryPrefix + FormatInt(n)) == RemoveHistoryPrefix + FormatInt(n)
  {
    FormatIntIsLowerAndStripped(n);
  }

  lemma FormatIntRemovalIndex(n: int)
    ensures RemovalIndex(FormatInt(n)) == Some(n - 1)
  {
    FormatIntIsLowerAndStripped(n);
    ParseFormatRoundTrip(n);
  }

  /** The decimal text of an integer has no letters and no white space. */
  lemma FormatIntIsLowerAndStripped(n: int)
    ensures ToLower(FormatInt(n)) == FormatInt(n)
    ensures Strip(FormatInt(n)) == FormatInt(n)
  {
    var s := FormatInt(n);
    assert forall i :: 0 <= i < |s| ==> s[i] == '-' || IsDigit(s[i]);
    assert ToLower(s) == s;
    assert !IsSpace(s[0]) && TrimStart(s) == s;
    assert !IsSpace(s[|s| - 1]) && TrimEnd(s) == s;
  }

  /** What a command does to the conversation log. A `remove_history`
      argument that is not an integer leaves the log alone. */
  function HistoryEffect(command: Command, s: History.HistoryState): (t: History.HistoryState)
    // no command adds an exchange, and only the flag commands change the flag
    ensures |t.exchanges| <= |s.exchanges|
    ensures t.enabled != s.enabled ==>
      command in {DisableHistory, EnableHistory, ResetConversation, ClearAndDisable}
  {
    match command
    case DisableHistory => History.WithEnabled(s, false)
    case EnableHistory => History.WithEnabled(s, true)
    case ClearHistory => History.Cleared(s)
    case ResetConversation => History.Reset(s)
    case ClearAndDisable => History.ClearedAndDisabled(s)
    case RemoveLast => History.WithoutLast(s)
    case RemoveHistory(Some(index)) => History.WithoutIndex(s, index)
    case _ => s
  }

  /** `remove_history:N` with `N <= 0` asks for a negative index and changes nothing. */
  lemma NonPositiveRemovalChangesNothing(n: int, s: History.HistoryState)
    requires n <= 0
    ensures HistoryEffect(Classify(RemoveHistoryPrefix + FormatInt(n)), s) == s
  {
    RemoveHistoryIndex(n);
  }

  /** Every command keeps a consistent log consistent. */
  lemma HistoryEffectKeepsConsistency(command: Command, s: History.HistoryState, keywords: seq<string>,
                                      maxHistory: nat)
    requires History.Consistent(s, keywords, maxHistory)
    ensures History.Consistent(HistoryEffect(command, s), keywords, maxHistory)
  {
    var t := HistoryEffect(command, s);
    match command
    case ClearHistory => History.EmptyIsConsistent(s.enabled, keywords, maxHistory);
    case ResetConversation => History.EmptyIsConsistent(true, keywords, maxHistory);
    case ClearAndDisable => History.EmptyIsConsistent(false, keywords, maxHistory);
    case RemoveLast =>
      History.WithoutLastKeepsConsistency(s, keywords, maxHistory);
      assert t == History.WithoutLast(s);
    case RemoveHistory(Some(index)) =>
      History.WithoutIndexKeepsConsistency(s, keywords, maxHistory, index);
      assert t == History.WithoutIndex(s, index);
    case _ =>
  }

  class CommandProcessor {
    const conversationHistory: History.ConversationHistory
    const enhancedRag: EnhancedRag.EnhancedRAGSystem

    constructor (conversationHistory: History.ConversationHistory, enhancedRag: EnhancedRag.EnhancedRAGSystem)
      ensures this.conversationHistory == conversationHistory && this.enhancedRag == enhancedRag
    {
      this.conversationHistory := conversationHistory;
      this.enhancedRag := enhancedRag;
    }

    /** `process_command`: recognised commands return true, and only the
        operation the command names takes effect; the optimisation switch flips
        only for `toggle_optimization`. */
    method ProcessCommand(command: string) returns (handled: bool)
      requires conversationHistory.Valid()
      modifies conversationHistory, enhancedRag
      ensures handled <==> Classify(command) != Unrecognized
      ensures conversationHistory.Valid()
      ensures conversationHistory.State() == HistoryEffect(Classify(command), old(conversationHistory.State()))
      ensures enhancedRag.Chains() ==
        if Classify(command) == ToggleOptimization then EnhancedRag.Toggled(old(enhancedRag.Chains()))
        else old(enhancedRag.Chains())
    {
      handled := Execute(Classify(command));
    }

    /** The branch of `process_command` taken for a classified command. */
    method Execute(c: Command) returns (handled: bool)
      requires conversationHistory.Valid()
      modifies conversationHistory, enhancedRag
      ensures handled <==> c != Unrecognized
      ensures conversationHistory.Valid()
      ensures conversationHistory.State() == HistoryEffect(c, old(conversationHistory.State()))
      ensures enhancedRag.Chains() ==
        if c == ToggleOptimization then EnhancedRag.Toggled(old(enhancedRag.Chains()))
        else old(enhancedRag.Chains())
    {
      match c {
        case DisableHistory => conversationHistory.DisableHistory();
        case EnableHistory => conversationHistory.EnableHistory();
        case ClearHistory => conversationHistory.ClearHistory();
        case ResetConversation => conversationHistory.ResetConversation();
        case ClearAndDisable => conversationHistory.ClearAndDisable();
        case RemoveLast => conversationHistory.RemoveLastExchange();
        case RemoveHistory(index) =>
          if index.Some? {
            conversationHistory.RemoveExchangeByIndex(index.value);
          }
        case HistoryStatus => var status := conversationHistory.GetHistoryStatus();
        case ShowHistory =>
        case ShowContext =>
        case ToggleOptimization => enhancedRag.ToggleQueryOptimization();
        case OptimizationStatus => var status := enhancedRag.GetOptimizationStatus();
        case Unrecognized => return false;
      }
      return true;
    }
  }
}
