# Chatbot workflow core, modelled in Dafny

This project models the core of a Django chatbot backend. A user query passes through these steps:

- It is validated and sanitised.
- It runs through a six-node LangGraph workflow: input → decision → (language model | calculator tool) → memory → output.
- The exchange is then persisted to a message store and cached in a process-wide session cache with a sixty-minute expiry.

The model has seven modules:

- `Common`: `Option`, `Result` and the chat-history `Message`.
- `Text`: Python's `str.isspace`, `lower`, `strip`, and the scans the regular expressions need, written character by character.
- `Validators`: `QueryValidator`, `SessionValidator` and `validate_and_sanitize_query`. These are pure functions. Every regular expression is a character-level predicate, and where it has a declarative reading, a lemma ties the two together.
- `Cache`: `CacheService`, as the class `SessionCache` over a `map`. Time is the explicit argument `now`, in microseconds.
- `Nodes`: `GraphState` and `WorkflowNodes`.
  - Each node is a pure stage function on a `State` value.
  - It is also a method that updates a `GraphState` object in place and is proved equal to that function.
- `Graph`: the graph (`ChatbotDAG`).
  - Its edges and router form a generic engine over any six node functions.
  - The engine is instantiated with the chatbot's own nodes.
  - It includes `process_query` and the `get_chatbot_dag` / `clear_dag_cache` singleton.
- `Service`: `ChatbotService`, with the message store as an ordered sequence of messages per session.

The language model and the numeric evaluator are function arguments that return a reply or a failure. So are the generated session id and the faults of the store and of the graph engine.

## Model

| member | source | states |
|---|---|---|
| Cache.ExpiryIsStrict | backend/chatbot/services/cache_service.py:153-154 | an entry is still live exactly sixty minutes after it was saved and expired one microsecond later; once expired it stays expired |
| Cache.SaveThenLookup | backend/chatbot/services/cache_service.py:38-49 | reading a session after saving it returns exactly the saved history while the window lasts and `[]` after; reads of other sessions are unaffected |
| Cache.LookupEvictsOnlyExpired | backend/chatbot/services/cache_service.py:38-47 | a read of an absent session leaves the cache unchanged; a read of an expired one removes that entry and no other; no entry that is kept changes; no read at the same instant can observe the eviction |
| Cache.SweepPartitions | backend/chatbot/services/cache_service.py:104-113 | the sweep keeps only live entries; the kept and the counted entries add up to the old size; every read at that instant answers as before the sweep |
| Cache.SweepComposes | backend/chatbot/services/cache_service.py:104-113 | sweeping at one instant and then at a later one is the same as sweeping once at the later one |
| Cache.SessionCache.constructor | backend/chatbot/services/cache_service.py:19 | the cache starts empty |
| Cache.SessionCache.GetSessionHistory | backend/chatbot/services/cache_service.py:38-49 | returns the live history or `[]`; an expired entry for that session is evicted and nothing else changes |
| Cache.SessionCache.SaveSessionHistory | backend/chatbot/services/cache_service.py:63-66 | overwrites only that session's entry, stamped with `now` |
| Cache.SessionCache.ClearSession | backend/chatbot/services/cache_service.py:79-82 | returns true iff the session was cached; afterwards it is absent and every other entry is unchanged |
| Cache.SessionCache.ClearAllSessions | backend/chatbot/services/cache_service.py:92-94 | returns the previous number of entries and leaves the cache empty |
| Cache.SessionCache.CleanupExpiredSessions | backend/chatbot/services/cache_service.py:104-113 | the loop over the collected ids removes exactly the expired entries, keeps every other unchanged, and returns the number removed |
| Cache.SessionCache.SessionCount | backend/chatbot/services/cache_service.py:123 | the number of entries, expired ones included |
| Cache.SessionCache.SessionExists | backend/chatbot/services/cache_service.py:136-140 | true iff the session is cached and unexpired, in which case a read returns its history; the cache is not modified |
| Text.Strip | backend/chatbot/utils/validators.py:139 | `strip()` returns the slice between the leading and trailing whitespace; it is empty iff the string is all whitespace, and otherwise starts and ends with non-whitespace |
| Validators.ValidateQuery | backend/chatbot/utils/validators.py:44-65 | accepts iff the argument is a string whose stripped form has 1 to 5000 characters and contains no harmful pattern; each failing check, in source order, gives its own message |
| Validators.ValidateQueryIgnoresPadding | backend/chatbot/utils/validators.py:50-59 | whitespace around a query never changes the verdict |
| Validators.CloseTagFromSpec | backend/chatbot/utils/validators.py:80 | the scan for the lazy `.*?</script>` succeeds iff a `</script>` follows with no newline before it |
| Validators.ScriptAtSpec | backend/chatbot/utils/validators.py:80 | the scanning predicate for `<script[^>]*>.*?</script>` holds iff a declarative match span exists, in both directions |
| Validators.HandlerAtSpec | backend/chatbot/utils/validators.py:82 | the scanning predicate for `on\w+\s*=` holds iff a declarative match span exists, in both directions |
| Validators.OrdinaryAssignmentIsHarmful | backend/chatbot/utils/validators.py:82 | `money = 2` counts as harmful content, because the handler pattern matches inside `money` |
| Validators.OperatorSpec | backend/chatbot/utils/validators.py:107 | the scan for `\d+\s*[op]\s*\d+` holds iff a declarative digits–operator–digits span exists, in both directions |
| Validators.DocumentedCalculation | backend/chatbot/utils/validators.py:99-100 | `What is 5 + 3?` is classified as a calculation |
| Validators.ClassifierQuirks | backend/chatbot/utils/validators.py:107-112 | the bare word `math` makes a calculation, and so does a phone number such as `555-1234` |
| Validators.TagLengthAt | backend/chatbot/utils/validators.py:133 | a `<[^>]+>` match spans at least three characters and lies inside the string |
| Validators.StripTags | backend/chatbot/utils/validators.py:133 | tag removal never lengthens the string and introduces no new character |
| Validators.StripTagsDeletesFirstTag | backend/chatbot/utils/validators.py:133 | when the first `<[^>]+>` match starts at `i`, the result is the input up to `i` followed by tag removal on what comes after that match: the characters before it survive in order and the match is deleted whole |
| Validators.StripTagsKeepsPrefix | backend/chatbot/utils/validators.py:133 | the characters before the first match survive tag removal, in order, in front of the result for the rest |
| Validators.StripTagsKeepsUnmatched | backend/chatbot/utils/validators.py:133 | a string in which no `<[^>]+>` match starts is left unchanged |
| Validators.StripTagsTagFree | backend/chatbot/utils/validators.py:133 | after tag removal no `<…>` span is left |
| Validators.StripTagsOfTagFree | backend/chatbot/utils/validators.py:133 | tag removal leaves a string without `<…>` spans unchanged |
| Validators.CollapseSpaces | backend/chatbot/utils/validators.py:136 | whitespace collapsing adds no character except a plain space |
| Validators.CollapseRunThenRest | backend/chatbot/utils/validators.py:136 | a whole whitespace run of any length and any mix of whitespace characters becomes exactly one plain space, so neighbouring words never merge |
| Validators.CollapseWordThenRest | backend/chatbot/utils/validators.py:136 | a run of non-whitespace characters is kept whole, and collapsing resumes after it |
| Validators.CollapseSeparatesWords | backend/chatbot/utils/validators.py:136 | `a`, a space, a tab, a newline and `b` collapse to `a b` |
| Validators.CollapseIsCollapsed | backend/chatbot/utils/validators.py:136 | after collapsing, every whitespace character is a single plain space with no neighbouring whitespace |
| Validators.CollapseKeepsNonSpace | backend/chatbot/utils/validators.py:136 | collapsing keeps the non-whitespace characters, in order |
| Validators.CollapseKeepsTagFree | backend/chatbot/utils/validators.py:133-136 | collapsing whitespace cannot create a `<…>` span |
| Validators.CollapseOfCollapsed | backend/chatbot/utils/validators.py:136 | collapsing leaves an already collapsed string unchanged |
| Validators.StripKeepsNonSpace | backend/chatbot/utils/validators.py:139 | stripping removes only whitespace |
| Validators.SanitizeGuarantees | backend/chatbot/utils/validators.py:133-141 | the sanitised query has no `<…>` span, no whitespace at either end and single plain spaces inside, and it keeps the non-whitespace characters left after tag removal, in order |
| Validators.SanitizeIsIdempotent | backend/chatbot/utils/validators.py:133-141 | sanitising a sanitised query changes nothing |
| Validators.DocumentedQueryIsClean | backend/chatbot/workflows/chatbot_graph.py:137 | the documented query `What is 5 + 3?` is accepted and is already in sanitised form |
| Validators.TagOnlyQuerySanitisesToEmpty | backend/chatbot/utils/validators.py:194-199 | `<b>` passes validation (which looks at the stripped query) and sanitises to the empty string |
| Validators.ValidateAndSanitize | backend/chatbot/utils/validators.py:194-199 | fails iff `validate_query` refuses, with its message; otherwise returns the sanitised form of the original, unstripped query |
| Validators.ValidateSessionIdAsWritten | backend/chatbot/utils/validators.py:160-174 | accepts iff the argument is a string of 1 to 255 characters that `^[a-zA-Z0-9\-_]+$` matches under Python's `$`, which also accepts one trailing newline |
| Validators.ValidateSessionId | backend/chatbot/utils/validators.py:160-174 | accepts iff the argument is a string of 1 to 255 letters, digits, hyphens and underscores; otherwise it gives the message of the first failing check (required, must be a string, too long, invalid characters) |
| Validators.SessionIdTrailingNewline | backend/chatbot/utils/validators.py:171 | the as-written check accepts `abc\n` where the intended one refuses it; the two differ only on strings ending in a newline |
| Nodes.InputStage | backend/chatbot/workflows/nodes.py:67-80 | the input node changes only `user_query` or `error`, and it keeps the query whenever it sets an error |
| Nodes.InputStageOutcome | backend/chatbot/workflows/nodes.py:67-80 | an empty query sets `error` to `No user query provided`; a refused query sets `error` to the validator's message; otherwise the query is replaced by its sanitised form; nothing else changes |
| Nodes.InputStageAccepts | backend/chatbot/workflows/nodes.py:73-80 | an accepted query is replaced by its sanitised form and nothing else changes |
| Nodes.InputStageRefuses | backend/chatbot/workflows/nodes.py:67-77 | an empty or refused query only records the error |
| Nodes.DecisionStage | backend/chatbot/workflows/nodes.py:115-124 | the decision node sets `query_type` to `text` or `calculation` and changes no other field |
| Nodes.DecisionStageRoutes | backend/chatbot/workflows/nodes.py:115-124 | the route is `calculation` iff `is_calculation_query` holds, and `text` iff it does not |
| Nodes.LlmStage | backend/chatbot/workflows/nodes.py:146-170 | the language-model node changes only `response` and `error` |
| Nodes.LlmStageAbsorbsFailure | backend/chatbot/workflows/nodes.py:146-167 | a reply becomes the response and leaves `error` alone; a failure sets `LLM error: …` and the fixed apology |
| Nodes.ToolStage | backend/chatbot/workflows/nodes.py:191-213 | the tool node changes only `response`, `error` and `calculation_result` |
| Nodes.ToolStageOutcome | backend/chatbot/workflows/nodes.py:191-210 | on success it records the result and answers `The result of <expression> is <result>`, with the extracted expression; on failure it sets `Calculation error: …` and the fixed reply, and keeps the old result |
| Nodes.MemoryStageKeepsLatest | backend/chatbot/workflows/nodes.py:235-249 | the new history is the last `min(old + 2, 20)` messages of the old history followed by this exchange, whose two messages are its last two entries; no other field changes |
| Nodes.KeepLatestOfAppended | backend/chatbot/workflows/nodes.py:235-249 | keeping the latest `max` (at least 2) messages of a history with two messages appended gives `min(len + 2, max)` messages, a suffix of the whole, ending with the two appended ones |
| Nodes.OutputStage | backend/chatbot/workflows/nodes.py:276-277 | the output node always leaves a non-empty response and changes no other field |
| Nodes.OutputStageSettles | backend/chatbot/workflows/nodes.py:276-277 | a non-empty response is kept as it is, and the output node is idempotent |
| Nodes.SplitJoin | backend/chatbot/workflows/nodes.py:304 | splitting newline-joined parts that contain no newline returns the parts |
| Nodes.HistoryTextLines | backend/chatbot/workflows/nodes.py:296-304 | when no content holds a newline, the formatted history splits into exactly one `User:`/`Assistant:` line per message of the latest ten, in order |
| Nodes.LinesOfLatest | backend/chatbot/workflows/nodes.py:296-304 | the lines of the last ten messages are, index by index, the role-labelled lines of the corresponding messages at the end of the history |
| Nodes.HistoryTextUsesLatestTen | backend/chatbot/workflows/nodes.py:300 | only the latest ten messages affect the formatted history |
| Nodes.FillerLength | backend/chatbot/workflows/nodes.py:319 | a non-zero match length is the length of an alternative that occurs, ignoring case, at the front of the string |
| Nodes.FillerLengthIsFirstMatch | backend/chatbot/workflows/nodes.py:318-323 | the alternation is ordered: the match length at the front is 0 exactly when no alternative matches there, ignoring case, and otherwise it is the length of the FIRST alternative in list order that does |
| Nodes.DeleteFillers | backend/chatbot/workflows/nodes.py:318-323 | deleting filler words never lengthens the query |
| Nodes.DeleteFillersKeepsPrefix | backend/chatbot/workflows/nodes.py:318-323 | the characters before the first filler match survive the deletion, in order |
| Nodes.DeleteFillersDeletesFirstMatch | backend/chatbot/workflows/nodes.py:318-323 | the first match, of the first alternative in list order that matches there, is deleted whole and the scan resumes after it, as in a left-to-right `re.sub` |
| Nodes.DeleteFillersKeepsUnmatched | backend/chatbot/workflows/nodes.py:318-323 | a query in which no alternative matches anywhere is left unchanged |
| Nodes.DeletionRemovesSymbols | backend/chatbot/workflows/nodes.py:318-323 | after the deletion no `=` or `?` remains, and every character left comes from the query |
| Nodes.ExtractDeletesInsideWords | backend/chatbot/workflows/nodes.py:319 | deletion works on substrings, not words: `other` becomes `or` |
| Nodes.ExtractMathExpression | backend/chatbot/workflows/nodes.py:318-332 | the expression is what remains after deletion and strip whenever anything remains, and the original query exactly when nothing does; it is empty iff the query is, and otherwise either the fallback or stripped and free of `=` and `?` |
| Nodes.StrippedDeletionShape | backend/chatbot/workflows/nodes.py:318-332 | deleting the filler patterns and stripping leaves no `=` or `?` and no leading or trailing whitespace, and the empty query stays empty |
| Nodes.DocumentedExpression | backend/chatbot/workflows/nodes.py:318-332 | `What is 5 + 3?` gives the expression `5 + 3` |
| Nodes.GraphState.constructor | backend/chatbot/workflows/nodes.py:20-31 | the state object holds exactly the given field values |
| Nodes.WorkflowNodes.constructor | backend/chatbot/workflows/nodes.py:40-45 | the nodes hold the given language model and evaluator |
| Nodes.WorkflowNodes.InputNode | backend/chatbot/workflows/nodes.py:67-91 | the in-place update leaves the state equal to the input stage applied to the old state |
| Nodes.WorkflowNodes.DecisionNode | backend/chatbot/workflows/nodes.py:115-126 | the in-place update equals the decision stage |
| Nodes.WorkflowNodes.LlmNode | backend/chatbot/workflows/nodes.py:146-170 | the in-place update equals the language-model stage |
| Nodes.WorkflowNodes.ToolNode | backend/chatbot/workflows/nodes.py:191-213 | the in-place update equals the tool stage |
| Nodes.WorkflowNodes.MemoryNode | backend/chatbot/workflows/nodes.py:235-254 | the two appends and the cut to twenty equal the memory stage |
| Nodes.WorkflowNodes.OutputNode | backend/chatbot/workflows/nodes.py:276-283 | the in-place update equals the output stage |
| Nodes.WorkflowNodes.FormatChatHistory | backend/chatbot/workflows/nodes.py:296-304 | the loop builds exactly the formatted history: `No previous conversation.` for an empty history, otherwise the newline-joined lines of the latest ten messages |
| Graph.EdgesDescend | backend/chatbot/workflows/chatbot_graph.py:64-89 | every edge goes one level deeper, so the graph has no cycle; only the decision node's edge depends on the route; only `End`, or a route other than `text` or `calculation`, lacks an edge |
| Graph.FinishFrom | backend/chatbot/workflows/chatbot_graph.py:85-89 | memory is followed by output and then the end |
| Graph.BranchFrom | backend/chatbot/workflows/chatbot_graph.py:79-89 | either branch is followed by memory and output, whatever the state |
| Graph.DecisionFrom | backend/chatbot/workflows/chatbot_graph.py:70-77 | from the decision node the run takes the branch the route names, then memory and output |
| Graph.EntryFrom | backend/chatbot/workflows/chatbot_graph.py:64-77 | from the entry point a run goes input, decision, the chosen branch, memory and output |
| Graph.EveryRunVisitsAllStages | backend/chatbot/workflows/chatbot_graph.py:64-89 | every run is the six stages composed in order and visits input, decision, exactly one of llm and tool, memory and output; the tool is visited iff the entered query is a calculation; there is no early exit on `error` |
| Graph.RunOutcome | backend/chatbot/workflows/chatbot_graph.py:64-89 | a run always ends with a non-empty response and the decided route. The history has `min(old + 2, 20)` messages, ending with the entered query and the reply as it was before the output node's fallback |
| Graph.BranchKeepsQuery | backend/chatbot/workflows/chatbot_graph.py:70-77 | neither branch changes the query, the route or the history |
| Graph.FinishOutcome | backend/chatbot/workflows/nodes.py:235-277 | memory followed by output records the exchange as the last two messages and leaves a non-empty response |
| Graph.InputErrorPersists | backend/chatbot/workflows/chatbot_graph.py:67-89 | an error set at the input node is still there at the end unless the language model or the evaluator fails; the later stages still run |
| Graph.EmptyQueryStillRuns | backend/chatbot/workflows/nodes.py:67-70 | an empty query is flagged and then routed to the language model; if the model answers, the run ends with `No user query provided` |
| Graph.CalculationRun | backend/chatbot/workflows/chatbot_graph.py:149-175 | an accepted calculation query whose expression evaluates is answered `The result of <expression> is <value>`, with route `calculation`, the value recorded and no new error |
| Graph.EmptyReplyFallsBack | backend/chatbot/workflows/nodes.py:242-277 | an empty model reply is answered with the fixed fallback, while the history records the empty reply |
| Graph.DocumentedExample | backend/chatbot/workflows/chatbot_graph.py:136-139 | `What is 5 + 3?` is answered `The result of 5 + 3 is 8` whenever the evaluator gives 8 for `5 + 3` |
| Graph.ChatbotDag.constructor | backend/chatbot/workflows/chatbot_graph.py:30-31 | the graph is compiled over the given language model and evaluator |
| Graph.ChatbotDag.RunNode | backend/chatbot/workflows/chatbot_graph.py:50-55 | running a node name applies that node's stage to the state |
| Graph.ChatbotDag.Invoke | backend/chatbot/workflows/chatbot_graph.py:159-161 | the loop that follows the edges leaves the state equal to the complete run, and returns the visited nodes in order |
| Graph.ChatbotDag.ProcessQuery | backend/chatbot/workflows/chatbot_graph.py:149-190 | on an engine fault it gives `success = false`, the fixed message, empty route and result, and the given history; otherwise it gives `success = true` and the final state's fields. The response is never empty, and on success the route is `text` or `calculation` and the history has 2 to 20 messages |
| Graph.DagRegistry.constructor | backend/chatbot/workflows/chatbot_graph.py:210 | no graph is cached at first |
| Graph.DagRegistry.GetChatbotDag | backend/chatbot/workflows/chatbot_graph.py:227-240 | the first call builds a fresh graph; later calls return the same one |
| Graph.DagRegistry.ClearDagCache | backend/chatbot/workflows/chatbot_graph.py:248-249 | forgets the cached graph, so the next call builds a new one |
| Service.SliceTo | backend/chatbot/services/chatbot_service.py:156 | Python's `xs[:limit]`: a prefix of length `limit`, capped at the length; a negative limit counts from the end |
| Service.StoreHistory | backend/chatbot/services/message_service.py:123-130 | the store's messages come oldest first; a zero limit returns them all, a positive one returns that many from the front, and a negative one fails |
| Service.ZeroLimitDisagrees | backend/chatbot/services/chatbot_service.py:156-161 | with `limit = 0` the cache path returns nothing while the store path returns everything |
| Service.FallbackKeepsOldest | backend/chatbot/services/chatbot_service.py:226 | the store fallback returns the first twenty messages of a longer conversation, not the latest twenty |
| Service.EffectiveSessionId | backend/chatbot/services/chatbot_service.py:74-75 | the caller's session id is used when it is non-empty; otherwise `session-` is prefixed to the fresh id |
| Service.MessageStore.constructor | backend/chatbot/services/message_service.py:15 | the store starts empty |
| Service.MessageStore.SaveMessage | backend/chatbot/services/message_service.py:49-55 | appends the message to that session unless the write fails, in which case nothing changes |
| Service.MessageStore.SaveConversation | backend/chatbot/services/message_service.py:86-103 | appends the user message (tagged with the route) and then the bot message. If the first write fails, nothing is stored; if the second fails, only the user message is stored |
| Service.MessageStore.History | backend/chatbot/services/message_service.py:123-130 | reads the session's messages under the limit, as the store defines |
| Service.MessageStore.DeleteSessionHistory | backend/chatbot/services/message_service.py:160-161 | removes the session's messages and returns how many there were |
| Service.ChatbotService.constructor | backend/chatbot/services/chatbot_service.py:19 | the service starts with an empty cache, an empty store and no graph |
| Service.ChatbotService.GetConversationHistory | backend/chatbot/services/chatbot_service.py:221-233 | a non-empty cached history is returned without reading the store. Otherwise the store's first twenty messages are returned and cached only if non-empty; a failed store read fails the call |
| Service.ChatbotService.ProcessChatMessage | backend/chatbot/services/chatbot_service.py:60-135 | an invalid query gives `Invalid query: <message>` and touches no state. For a valid one, the reply, the cache and the store are `Respond` on the sanitised query in the effective session. A valid request with no engine fault, and with a live cached history or no store-read fault, always succeeds. The response is never empty |
| Service.Respond | backend/chatbot/services/chatbot_service.py:77-135 | a failed history read on a cache miss gives the unexpected-error reply with the fault as error. An engine fault gives the graph's fault reply. Neither touches the store. Otherwise the request succeeds whatever the store writes do: the reply carries the response, route and result of the graph run on the fetched history with an empty error, the cache maps the session to that run's history stamped `now` (2 to 20 messages), and the store holds what each write outcome saved |
| Service.FetchedHistory | backend/chatbot/services/chatbot_service.py:221-233 | the history read fails exactly when the cache has no live history and the store read raises |
| Service.RespondKeepsOtherSessions | backend/chatbot/services/chatbot_service.py:77-126 | a request changes neither the cache entry nor the stored messages of any other session |
| Service.SaveFailureIsSwallowed | backend/chatbot/services/chatbot_service.py:97-110 | the reply and the cache are the same whatever happens to the two store writes |
| Service.ConversationContinues | backend/chatbot/services/chatbot_service.py:112-116 | after a success, the next request in the session within the hour is handed the graph's history, which ends with the reply just recorded, whatever the store holds or whether its read would fail |
| Service.ChatbotService.RespondInSession | backend/chatbot/services/chatbot_service.py:77-135 | the reply, the new cache and the new store are exactly `Respond` of the old cache and store |
| Service.ChatbotService.GetSessionHistory | backend/chatbot/services/chatbot_service.py:150-172 | a non-empty cached history, cut to `limit`, with source `cache`. Otherwise the store's history with source `database`, cached if non-empty; a negative limit on the store path fails |
| Service.ChatbotService.ClearSession | backend/chatbot/services/chatbot_service.py:187-196 | `cache_cleared` is whether the cache held the session and `messages_deleted` is the store's count. Afterwards the session is gone from both and nothing else changes |
| Service.ChatbotService.CleanupExpiredSessions | backend/chatbot/services/chatbot_service.py:257-261 | returns the number of expired sessions and leaves the swept cache |

## Left out

- Character classes are ASCII-only. `\d`, `\w` and case folding (`str.lower`, `re.IGNORECASE`) are restricted to ASCII. Whitespace is Python's `str.isspace` set.
- Time is the explicit argument `now`, in microseconds; `datetime.now()` is not modelled. Each call reads the clock once. In the source, `get_session_history` and `_is_expired` read it separately.
- The language model, prompt construction (`langchain_utils.py`) and `numexpr.evaluate` are left out.
  - The model and the evaluator are oracle functions.
  - Float and integer formatting of the evaluator's result is the oracle's business. The response uses the same text as `calculation_result`.
- `uuid.uuid4()` is the `freshId` argument.
- Logging (`print`) is left out, and so is the metadata the store attaches to each message (the `calculation_result` metadata and timestamps).
- The message store (Django ORM) is an ordered sequence of messages per session. Its other queries (`get_recent_sessions`, `get_message_count`, `search_messages`) and `get_statistics` are not part of this model.
- A store read raises in the model only inside `process_chat_message`, where it is caught. Store failures in `get_session_history` and `clear_session` would propagate in the source; they are not modelled.
- Concurrency is left out. The cache is a process-wide dictionary without locking, and the model is sequential.
- Aliasing is left out. In the source, the history list handed to the graph is the cached list itself, and `memory_node` appends to it in place. The model treats histories as immutable sequences.
- The graph singleton is taken to run the service's own language model and evaluator (the invariant `ChatbotService.Valid`). The source has a single global configuration, so a graph built with different oracles cannot arise there.
- The graph engine's own faults (LangGraph internals) are the `engineFault` argument. Failure to build the graph in `get_chatbot_dag` is not modelled.
- The router's unknown-route error is not modelled as an error. A route other than `text` or `calculation` stops the run in the model, and `Graph.EdgesDescend` and `Graph.ChatbotDag.Invoke` show that the decision node never produces one.
- `input_node`'s defaults for a missing `chat_history` or `error` (nodes.py:83-87) and `memory_node`'s default route (nodes.py:238) cannot apply: `process_query` always sets every key.
- A query that is not a string reaches the validators only as the `PyArg` cases `PyNone` and `PyOther`. The graph state always holds a string.
- In a complete run (`Graph.RunOutcome`, `Graph.EmptyReplyFallsBack`), the reply recorded in the history is the one from before the output node's fallback, because memory runs before output. This is modelled as written.
- The store fallback (`Service.FallbackKeepsOldest`) loads the OLDEST twenty messages. This is modelled as written, not corrected.
- Pattern behaviour is kept as written (`Validators.ClassifierQuirks`, `Validators.OrdinaryAssignmentIsHarmful`, `Nodes.ExtractDeletesInsideWords`): `math`, phone numbers, `money = 2`, and deletion inside words.
- A query of only a tag is accepted (`Validators.TagOnlyQuerySanitisesToEmpty`). The graph then sees an empty query and records `No user query provided` (`Graph.EmptyQueryStillRuns`). `process_chat_message` nevertheless reports success with an empty error, because its reply always carries `''` there.

## Findings

| source | as written | input that shows it | evidently intended | confidence | as-written member | corrected member |
|---|---|---|---|---|---|---|
| backend/chatbot/utils/validators.py:171 | `re.match(r'^[a-zA-Z0-9\-_]+$', session_id)`: without MULTILINE, `$` also matches just before a final newline | `"abc\n"` is accepted as a session id | only letters, digits, `-` and `_` (a full match, `\Z` or `re.fullmatch`) | high; not executed | Validators.ValidateSessionIdAsWritten, Validators.SessionIdTrailingNewline | Validators.ValidateSessionId |
