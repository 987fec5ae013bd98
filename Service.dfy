/** The orchestration layer (`ChatbotService`): validate, pick the session, fetch the history
    from the cache or else the message store, run the workflow graph, persist the exchange and
    refresh the cache. The message store (the `ChatMessage` table behind `MessageService`) is
    an ordered sequence of messages per session; the id generator is the `freshId` argument;
    failures of the store and of the graph engine are oracle arguments. */
module Service {
  import opened Common
  import opened Validators
  import opened Cache
  import opened Nodes
  import opened Graph

  /** `process_chat_message` and `_get_conversation_history` ask the store for this many. */
  const StoreFetchLimit := 20

  const SessionPrefix := "session-"
  const InvalidQueryPrefix := "Invalid query: "
  const UnexpectedErrorResponse := "An unexpected error occurred. Please try again."
  const NegativeLimitError := "Negative indexing is not supported."

  /** Python's `xs[:limit]`: a negative limit counts from the end. */
  function SliceTo<T>(xs: seq<T>, limit: int): (r: seq<T>)
    ensures |r| <= |xs| && r == xs[..|r|]
    ensures limit >= 0 ==> |r| == (if limit < |xs| then limit else |xs|)
    ensures limit < 0 ==> |r| == (if |xs| + limit > 0 then |xs| + limit else 0)
  {
    if limit >= 0 then (if limit < |xs| then xs[..limit] else xs)
    else if |xs| + limit > 0 then xs[..|xs| + limit]
    else []
  }

  /** `MessageService.get_session_history(session_id, limit)` read through
      `format_history_for_api`: the oldest messages first; the limit applies only when it is
      non-zero (`if limit:`), and the query set refuses a negative one. */
  function StoreHistory(messages: seq<Message>, limit: int): (r: Result<seq<Message>>)
    ensures r.Err? <==> limit < 0
    ensures r.Ok? ==> |r.value| <= |messages| && r.value == messages[..|r.value|]
    ensures limit == 0 ==> r == Ok(messages)
    ensures limit > 0 ==> |r.value| == (if limit < |messages| then limit else |messages|)
  {
    if limit == 0 then Ok(messages)
    else if limit < 0 then Err(NegativeLimitError)
    else Ok(SliceTo(messages, limit))
  }

  /** A limit of zero reads as "everything" from the store but as "nothing" from the cache. */
  lemma ZeroLimitDisagrees(messages: seq<Message>)
    requires messages != []
    ensures StoreHistory(messages, 0) == Ok(messages)
    ensures SliceTo(messages, 0) == []
  {
  }

  /** The store fallback of a conversation returns the OLDEST twenty messages, not the latest. */
  lemma {:induction false} FallbackKeepsOldest(messages: seq<Message>)
    requires |messages| > StoreFetchLimit
    ensures StoreHistory(messages, StoreFetchLimit) == Ok(messages[..StoreFetchLimit])
    ensures StoreHistory(messages, StoreFetchLimit).value != messages[|messages| - StoreFetchLimit..] <==>
      messages[..StoreFetchLimit] != messages[|messages| - StoreFetchLimit..]
  {
  }

  /** How the two writes of `save_conversation` fare: both succeed, the first raises, or the
      second raises after the first was stored (the pair is not saved atomically). */
  datatype WriteOutcome = BothWritten | FirstWriteFails(error: string) | SecondWriteFails(error: string)

  /** The messages `save_conversation` writes: the user's, tagged with the query type, then
      the bot's. */
  function UserRecord(userMessage: string, queryType: string): Message
  {
    Message("user", userMessage, Some(queryType))
  }

  function BotRecord(botResponse: string): Message
  {
    Message("bot", botResponse, None)
  }

  /** The messages stored for a session; none for a session never written. */
  function MessagesOf(sessions: map<string, seq<Message>>, sessionId: string): seq<Message>
  {
    if sessionId in sessions then sessions[sessionId] else []
  }

  class MessageStore {
    /** The `ChatMessage` table, per session, oldest first. */
    var sessions: map<string, seq<Message>>

    constructor()
      ensures sessions == map[]
    {
      sessions := map[];
    }

    function Messages(sessionId: string): seq<Message>
      reads this
    {
      MessagesOf(sessions, sessionId)
    }

    /** `save_message`: append one message unless the write raises. */
    method SaveMessage(sessionId: string, m: Message, fault: Option<string>) returns (failure: Option<string>)
      modifies this
      ensures failure == fault
      ensures fault.None? ==> sessions == old(sessions)[sessionId := old(Messages(sessionId)) + [m]]
      ensures fault.Some? ==> sessions == old(sessions)
    {
      if fault.Some? {
        return fault;
      }
      sessions := sessions[sessionId := Messages(sessionId) + [m]];
      return None;
    }

    /** `save_conversation`: the user message, then the bot message. */
    method SaveConversation(sessionId: string, userMessage: string, botResponse: string,
                            queryType: string, outcome: WriteOutcome)
      returns (failure: Option<string>)
      modifies this
      ensures failure.None? <==> outcome.BothWritten?
      ensures outcome.BothWritten? ==>
        sessions == old(sessions)[sessionId :=
          old(Messages(sessionId)) + [UserRecord(userMessage, queryType), BotRecord(botResponse)]]
      ensures outcome.FirstWriteFails? ==> sessions == old(sessions)
      ensures outcome.SecondWriteFails? ==>
        sessions == old(sessions)[sessionId := old(Messages(sessionId)) + [UserRecord(userMessage, queryType)]]
    {
      var first := if outcome.FirstWriteFails? then Some(outcome.error) else None;
      failure := SaveMessage(sessionId, UserRecord(userMessage, queryType), first);
      if failure.Some? {
        return;
      }
      assert Messages(sessionId) == old(Messages(sessionId)) + [UserRecord(userMessage, queryType)];
      var second := if outcome.SecondWriteFails? then Some(outcome.error) else None;
      failure := SaveMessage(sessionId, BotRecord(botResponse), second);
      assert old(Messages(sessionId)) + [UserRecord(userMessage, queryType)] + [BotRecord(botResponse)] ==
        old(Messages(sessionId)) + [UserRecord(userMessage, queryType), BotRecord(botResponse)];
    }

    /** `get_session_history` followed by `format_history_for_api`. */
    method History(sessionId: string, limit: int) returns (r: Result<seq<Message>>)
      ensures r == StoreHistory(Messages(sessionId), limit)
    {
      var messages := Messages(sessionId);
      if limit == 0 {
        return Ok(messages);
      }
      if limit < 0 {
        return Err(NegativeLimitError);
      }
      return Ok(SliceTo(messages, limit));
    }

    /** `delete_session_history`: remove the session's messages; report how many there were. */
    method DeleteSessionHistory(sessionId: string) returns (count: nat)
      modifies this
      ensures count == |old(Messages(sessionId))|
      ensures sessions == old(sessions) - {sessionId}
    {
      count := |Messages(sessionId)|;
      sessions := sessions - {sessionId};
    }
  }

  /** The dictionary `process_chat_message` returns; `calculation_result` appears only on
      success. */
  datatype ChatReply = ChatReply(
    success: bool,
    sessionId: string,
    response: string,
    queryType: string,
    calculationResult: Option<string>,
    error: string)

  /** The dictionary `get_session_history` returns: where the history came from. */
  datatype HistoryReply = HistoryReply(sessionId: string, history: seq<Message>, source: string)

  /** The dictionary `clear_session` returns. */
  datatype ClearReply = ClearReply(sessionId: string, cacheCleared: bool, messagesDeleted: nat)

  /** The session a valid request runs in: the caller's, or a generated one when it is missing
      or empty (`if not session_id`). */
  function EffectiveSessionId(sessionId: Option<string>, freshId: string): (id: string)
    ensures id != []
    ensures sessionId.Some? && sessionId.value != [] ==> id == sessionId.value
    ensures (sessionId.None? || sessionId.value == []) ==> id == SessionPrefix + freshId
  {
    if sessionId.Some? && sessionId.value != [] then sessionId.value else SessionPrefix + freshId
  }

  /** `session_id or ''`. */
  function SessionIdOrEmpty(sessionId: Option<string>): string
  {
    if sessionId.Some? then sessionId.value else ""
  }

  /** The history `_get_conversation_history` hands to the graph: the live cached history when
      there is one, otherwise the store's first twenty messages, unless that read raises. */
  function FetchedHistory(entries: Sessions, stored: seq<Message>, id: string, now: int,
                          readFault: Option<string>): (r: Result<seq<Message>>)
    ensures r.Err? <==> Lookup(entries, id, now) == [] && readFault.Some?
  {
    var cached := Lookup(entries, id, now);
    if cached != [] then Ok(cached)
    else if readFault.Some? then Err(readFault.value)
    else Ok(SliceTo(stored, StoreFetchLimit))
  }

  /** The cache `_get_conversation_history` leaves: the session's expired entry evicted, and a
      non-empty store read cached. */
  function CacheAfterFetch(entries: Sessions, stored: seq<Message>, id: string, now: int,
                           readFault: Option<string>): Sessions
  {
    var evicted := AfterLookup(entries, id, now);
    var fetched := FetchedHistory(entries, stored, id, now, readFault);
    if Lookup(entries, id, now) == [] && fetched.Ok? && fetched.value != [] then
      evicted[id := Entry(fetched.value, now)]
    else evicted
  }

  /** The store after `save_conversation` under each outcome of its two writes. */
  function AfterSave(sessions: map<string, seq<Message>>, id: string, user: Message, bot: Message,
                     outcome: WriteOutcome): map<string, seq<Message>>
  {
    match outcome
    case BothWritten => sessions[id := MessagesOf(sessions, id) + [user, bot]]
    case FirstWriteFails(_) => sessions
    case SecondWriteFails(_) => sessions[id := MessagesOf(sessions, id) + [user]]
  }

  /** Everything `process_chat_message` leaves behind: the reply, the cache and the store. */
  datatype ChatOutcome = ChatOutcome(reply: ChatReply, entries: Sessions, sessions: map<string, seq<Message>>)

  /** Steps three to seven of `process_chat_message` for a sanitised query in its session, on
      the cache `entries` and the store `sessions`: fetch the history, run the graph, save the
      exchange (a failed save is ignored), cache the new history, reply. */
  function Respond(entries: Sessions, sessions: map<string, seq<Message>>, cleanQuery: string, id: string,
                   now: int, readFault: Option<string>, engineFault: Option<string>,
                   writeOutcome: WriteOutcome, llm: LanguageModel, evaluate: Evaluator): (r: ChatOutcome)
    ensures r.reply.sessionId == id
    ensures r.reply.response != []
    ensures r.reply.success <==> (Lookup(entries, id, now) != [] || readFault.None?) && engineFault.None?
    ensures Lookup(entries, id, now) == [] && readFault.Some? ==>
      r == ChatOutcome(ChatReply(false, id, UnexpectedErrorResponse, "", None, readFault.value),
                       AfterLookup(entries, id, now), sessions)
    ensures (Lookup(entries, id, now) != [] || readFault.None?) && engineFault.Some? ==>
      r == ChatOutcome(ChatReply(false, id, FaultResponse, "", None, engineFault.value),
                       CacheAfterFetch(entries, MessagesOf(sessions, id), id, now, readFault), sessions)
    ensures (Lookup(entries, id, now) != [] || readFault.None?) && engineFault.None? ==>
      var history := FetchedHistory(entries, MessagesOf(sessions, id), id, now, readFault).value;
      var t := Run(InitialState(cleanQuery, id, history), llm, evaluate);
      && r.reply == ChatReply(true, id, t.response, t.queryType, Some(t.calculationResult), "")
      && (t.queryType == "text" || t.queryType == "calculation")
      && r.entries == CacheAfterFetch(entries, MessagesOf(sessions, id), id, now, readFault)[id := Entry(t.chatHistory, now)]
      && 2 <= |t.chatHistory| <= MaxHistory
      && r.sessions == AfterSave(sessions, id, UserRecord(cleanQuery, t.queryType), BotRecord(t.response), writeOutcome)
  {
    var stored := MessagesOf(sessions, id);
    var fetched := FetchedHistory(entries, stored, id, now, readFault);
    var cached := CacheAfterFetch(entries, stored, id, now, readFault);
    if fetched.Err? then
      ChatOutcome(ChatReply(false, id, UnexpectedErrorResponse, "", None, fetched.message), cached, sessions)
    else if engineFault.Some? then
      ChatOutcome(ChatReply(false, id, FaultResponse, "", None, engineFault.value), cached, sessions)
    else
      var s0 := InitialState(cleanQuery, id, fetched.value);
      var t := Run(s0, llm, evaluate);
      RunOutcome(s0, llm, evaluate);
      ChatOutcome(ChatReply(true, id, t.response, t.queryType, Some(t.calculationResult), ""),
                  cached[id := Entry(t.chatHistory, now)],
                  AfterSave(sessions, id, UserRecord(cleanQuery, t.queryType), BotRecord(t.response), writeOutcome))
  }

  /** A request touches only its own session: every other session's cache entry and stored
      messages are as they were. */
  lemma RespondKeepsOtherSessions(entries: Sessions, sessions: map<string, seq<Message>>, cleanQuery: string,
                                  id: string, now: int, readFault: Option<string>, engineFault: Option<string>,
                                  writeOutcome: WriteOutcome, llm: LanguageModel, evaluate: Evaluator,
                                  other: string)
    requires other != id
    ensures var r := Respond(entries, sessions, cleanQuery, id, now, readFault, engineFault, writeOutcome, llm, evaluate);
      && (other in r.entries <==> other in entries)
      && (other in entries ==> r.entries[other] == entries[other])
      && (other in r.sessions <==> other in sessions)
      && MessagesOf(r.sessions, other) == MessagesOf(sessions, other)
  {
  }

  /** A failed save never changes the reply or the cache: only the store tells the outcomes
      apart. */
  lemma SaveFailureIsSwallowed(entries: Sessions, sessions: map<string, seq<Message>>, cleanQuery: string,
                               id: string, now: int, readFault: Option<string>, engineFault: Option<string>,
                               llm: LanguageModel, evaluate: Evaluator, w1: WriteOutcome, w2: WriteOutcome)
    ensures var r1 := Respond(entries, sessions, cleanQuery, id, now, readFault, engineFault, w1, llm, evaluate);
      var r2 := Respond(entries, sessions, cleanQuery, id, now, readFault, engineFault, w2, llm, evaluate);
      r1.reply == r2.reply && r1.entries == r2.entries
  {
  }

  /** After a successful request, a read of the same session within the hour, whatever the
      store holds and whether or not a store read would fail, hands the next request the history
      the graph produced, ending with the exchange just made. */
  lemma ConversationContinues(entries: Sessions, sessions: map<string, seq<Message>>, cleanQuery: string,
                              id: string, now: int, readFault: Option<string>, writeOutcome: WriteOutcome,
                              llm: LanguageModel, evaluate: Evaluator,
                              later: int, laterStored: seq<Message>, laterFault: Option<string>)
    requires Lookup(entries, id, now) != [] || readFault.None?
    requires now <= later <= now + TtlMicros
    ensures var r := Respond(entries, sessions, cleanQuery, id, now, readFault, None, writeOutcome, llm, evaluate);
      var history := FetchedHistory(entries, MessagesOf(sessions, id), id, now, readFault).value;
      var t := Run(InitialState(cleanQuery, id, history), llm, evaluate);
      && FetchedHistory(r.entries, laterStored, id, later, laterFault) == Ok(t.chatHistory)
      && t.chatHistory[|t.chatHistory| - 1] == Message("assistant", Answered(InitialState(cleanQuery, id, history), llm, evaluate).response, None)
  {
    var history := FetchedHistory(entries, MessagesOf(sessions, id), id, now, readFault).value;
    var s0 := InitialState(cleanQuery, id, history);
    var t := Run(s0, llm, evaluate);
    RunOutcome(s0, llm, evaluate);
    SaveThenLookup(CacheAfterFetch(entries, MessagesOf(sessions, id), id, now, readFault), id, t.chatHistory, now, later);
  }

  /** `ChatbotService`, over the process-wide cache, the message store and the graph
      singleton. */
  class ChatbotService {
    const cache: SessionCache
    const store: MessageStore
    const registry: DagRegistry
    const llm: LanguageModel
    const evaluate: Evaluator

    /** The graph singleton, once built, runs this service's language model and evaluator. */
    ghost predicate Valid()
      reads registry
    {
      registry.instance != null ==>
        registry.instance.nodes.llm == llm && registry.instance.nodes.evaluate == evaluate
    }

    constructor(llm: LanguageModel, evaluate: Evaluator)
      ensures fresh(cache) && fresh(store) && fresh(registry)
      ensures cache.entries == map[] && store.sessions == map[] && registry.instance == null
      ensures this.llm == llm && this.evaluate == evaluate
      ensures Valid()
    {
      cache := new SessionCache();
      store := new MessageStore();
      registry := new DagRegistry();
      this.llm := llm;
      this.evaluate := evaluate;
    }

    /** `_get_conversation_history`: a non-empty cached history is used as is and the store is
        not read; otherwise the store's first twenty messages, cached when there are any. A
        store read that raises (`readFault`) fails the call. */
    method GetConversationHistory(sessionId: string, now: int, readFault: Option<string>)
      returns (r: Result<seq<Message>>)
      modifies cache
      ensures var cached := Lookup(old(cache.entries), sessionId, now);
        var evicted := AfterLookup(old(cache.entries), sessionId, now);
        if cached != [] then r == Ok(cached) && cache.entries == evicted
        else if readFault.Some? then r == Err(readFault.value) && cache.entries == evicted
        else
          var stored := SliceTo(store.Messages(sessionId), StoreFetchLimit);
          && r == Ok(stored)
          && cache.entries == (if stored != [] then evicted[sessionId := Entry(stored, now)] else evicted)
      ensures r == FetchedHistory(old(cache.entries), store.Messages(sessionId), sessionId, now, readFault)
      ensures cache.entries == CacheAfterFetch(old(cache.entries), store.Messages(sessionId), sessionId, now, readFault)
    {
      var cached := cache.GetSessionHistory(sessionId, now);
      if cached != [] {
        return Ok(cached);
      }
      if readFault.Some? {
        return Err(readFault.value);
      }
      var fetched := store.History(sessionId, StoreFetchLimit);
      var history := fetched.value;
      if history != [] {
        cache.SaveSessionHistory(sessionId, history, now);
      }
      return Ok(history);
    }

    /** `process_chat_message`. An invalid query is answered at once and touches nothing. A
        valid one is sanitised and handled by `Respond` in the effective session. */
    method ProcessChatMessage(userQuery: PyArg, sessionId: Option<string>, freshId: string, now: int,
                              readFault: Option<string>, engineFault: Option<string>,
                              writeOutcome: WriteOutcome)
      returns (reply: ChatReply)
      requires Valid()
      modifies cache, store, registry
      ensures Valid()
      ensures ValidateQuery(userQuery).Reject? ==>
        var msg := ValidateQuery(userQuery).message;
        && reply == ChatReply(false, SessionIdOrEmpty(sessionId), InvalidQueryPrefix + msg, "", None, msg)
        && unchanged(cache) && unchanged(store) && unchanged(registry)
      ensures ValidateQuery(userQuery).Accept? ==>
        ChatOutcome(reply, cache.entries, store.sessions) ==
          Respond(old(cache.entries), old(store.sessions), Sanitize(userQuery.s), EffectiveSessionId(sessionId, freshId),
                  now, readFault, engineFault, writeOutcome, llm, evaluate)
      ensures ValidateQuery(userQuery).Accept? && engineFault.None? &&
              (readFault.None? || Lookup(old(cache.entries), EffectiveSessionId(sessionId, freshId), now) != []) ==>
        reply.success
      ensures reply.response != []
    {
      var validated := ValidateAndSanitize(userQuery);
      if validated.Err? {
        return ChatReply(false, SessionIdOrEmpty(sessionId), InvalidQueryPrefix + validated.message, "",
                         None, validated.message);
      }
      var id := EffectiveSessionId(sessionId, freshId);
      reply := RespondInSession(validated.value, id, now, readFault, engineFault, writeOutcome);
    }

    /** Steps three to seven of `process_chat_message` on the service's own cache and store. */
    method RespondInSession(cleanQuery: string, id: string, now: int, readFault: Option<string>,
                            engineFault: Option<string>, writeOutcome: WriteOutcome)
      returns (reply: ChatReply)
      requires Valid()
      modifies cache, store, registry
      ensures Valid()
      ensures ChatOutcome(reply, cache.entries, store.sessions) ==
        Respond(old(cache.entries), old(store.sessions), cleanQuery, id, now, readFault, engineFault,
                writeOutcome, llm, evaluate)
    {
      assert store as object != cache && store as object != registry;
      ghost var entries, sessions := cache.entries, store.sessions;
      var history := GetConversationHistory(id, now, readFault);
      if history.Err? {
        return ChatReply(false, id, UnexpectedErrorResponse, "", None, history.message);
      }

      var dag := registry.GetChatbotDag(llm, evaluate);
      var result := dag.ProcessQuery(cleanQuery, id, history.value, engineFault);
      if !result.success {
        return ChatReply(false, id, result.response, result.queryType, None, result.error);
      }
      assert store.sessions == sessions;

      var saveFailure := store.SaveConversation(id, cleanQuery, result.response, result.queryType,
                                                writeOutcome);
      ghost var saved := store.sessions;
      cache.SaveSessionHistory(id, result.chatHistory, now);
      assert store.sessions == saved;
      return ChatReply(true, id, result.response, result.queryType, Some(result.calculationResult), "");
    }

    /** `get_session_history`: a non-empty cached history, cut to `limit`, from the cache;
        otherwise the store's, cached when non-empty. A negative limit on the store path
        raises. */
    method GetSessionHistory(sessionId: string, limit: int, now: int) returns (r: Result<HistoryReply>)
      modifies cache
      ensures var cached := Lookup(old(cache.entries), sessionId, now);
        var evicted := AfterLookup(old(cache.entries), sessionId, now);
        if cached != [] then
          r == Ok(HistoryReply(sessionId, SliceTo(cached, limit), "cache")) && cache.entries == evicted
        else match StoreHistory(store.Messages(sessionId), limit)
          case Err(e) => r == Err(e) && cache.entries == evicted
          case Ok(stored) =>
            && r == Ok(HistoryReply(sessionId, stored, "database"))
            && cache.entries == (if stored != [] then evicted[sessionId := Entry(stored, now)] else evicted)
    {
      var cached := cache.GetSessionHistory(sessionId, now);
      if cached != [] {
        return Ok(HistoryReply(sessionId, SliceTo(cached, limit), "cache"));
      }
      var fetched := store.History(sessionId, limit);
      if fetched.Err? {
        return Err(fetched.message);
      }
      var history := fetched.value;
      if history != [] {
        cache.SaveSessionHistory(sessionId, history, now);
      }
      return Ok(HistoryReply(sessionId, history, "database"));
    }

    /** `clear_session`: drop the session from the cache and the store. */
    method ClearSession(sessionId: string) returns (reply: ClearReply)
      modifies cache, store
      ensures reply.sessionId == sessionId
      ensures reply.cacheCleared <==> sessionId in old(cache.entries)
      ensures reply.messagesDeleted == |old(store.Messages(sessionId))|
      ensures cache.entries == old(cache.entries) - {sessionId}
      ensures store.sessions == old(store.sessions) - {sessionId}
    {
      var cleared := cache.ClearSession(sessionId);
      var deleted := store.DeleteSessionHistory(sessionId);
      return ClearReply(sessionId, cleared, deleted);
    }

    /** `cleanup_expired_sessions`: sweep the cache. */
    method CleanupExpiredSessions(now: int) returns (cleaned: nat)
      modifies cache
      ensures cleaned == |ExpiredIds(old(cache.entries), now)|
      ensures cache.entries == Swept(old(cache.entries), now)
    {
      cleaned := cache.CleanupExpiredSessions(now);
    }
  }
}
