# infinite-chat core, modelled in Dafny

infinite-chat is a chat back end that keeps conversations as JSON files and
gives the language model access to earlier history. This project models its
core:

- **Fuzzy search** (`search.py`). An fzf-style score of a pattern against a
  text. A sliding-window span finder. Sentence-based snippets. Ranked message
  search. Expansion of the context around a message.
- **Context window** (`context.py`). Token estimates, the newest-messages
  window that fits a budget, the fit check for a new message, and window
  statistics.
- **Conversation storage** (`storage.py`). Load, save and append, plus lookup
  by id and by index. The storage directory is a map from conversation id to
  message list.
- **RLM storage** (`rlm_storage.py`). An RLM dialogue track and an agent
  track per conversation, and the merged history used for search. Also mode
  switching, statistics, and migration back to standard storage.
- **Retrieval agent** (`rlm_agent.py`). Context retrieval (search, expand,
  de-duplicate, cap), context formatting, the enriched-prompt result, and the
  assistant prompt.
- **Root agent** (`true_rlm_agent.py`). The context tools the root model can
  call: overview, chunk, search, recursive call and final answer. Also the
  dispatch over them, and the loop of up to twenty rounds of tool use that
  answers a query.

## Design of the model

Pure computations are functions, each with lemmas stating what it means.
Examples: the score is 0 exactly when the pattern is no subsequence; the window
is the longest suffix within budget; the merged history is a sorted, stable
permutation.

Every Python loop is a Dafny `method` with a loop. Each method is
proved equal to the function that specifies it.

The two storages are classes. Their file system is a `map` field that the
methods reassign, and each method states the whole new state: "this
conversation changes, every other stays as it was".

The language model is a `ScriptedBackend` object that answers call after call
from a fixed script and records every request. This makes `process_user_query`
a method over that object. It is proved to return exactly `Answer(Run(...))`,
where `Run` is the loop written as a recursive function. Beside `Run` are
lemmas about every possible script:

- at most twenty rounds;
- at most twenty-one requests from the loop itself, and a script that reaches
  the bound;
- a well-formed log;
- each way the loop can end.

Where the code and its documentation differ, the model follows the code:

- **The score never reaches 1.0.** `fuzzy_match_score` is documented as a
  score in 0..1, but a full match scores at most `1 - 0.3/len(pattern)`
  (`FuzzySearch.ScoreRange`).
- **A negative `end_index` counts from the end.** The chunk tool clamps only
  the upper bound of `end_index`, so a negative one is used as a Python
  negative index (`Common.PySlice`, `Toolset.ChunkSound`).

## Model

| member | source | states |
|---|---|---|
| Common.PySlice | true_rlm_agent.py:286 | Python slicing `s[i:j]`: negative bounds count from the end, bounds are clamped into the list, and a crossed range is empty |
| Common.Take | search.py:149 | `s[:limit]`: a prefix of `s`, at most `limit` long, exactly `limit` long when `s` has that many |
| Common.IndexOfId | storage.py:50-56 | the linear scan for an id: -1 or an index in range whose message carries the id |
| Common.IndexOfIdFirst | search.py:154-162 | the index found is the first holder of the id, and -1 means that no message holds it |
| Text.Lower | search.py:11-12 | `lower()`: same length, each ASCII capital replaced by its small letter, everything else kept |
| Text.Upper | rlm_agent.py:84 | `upper()`: same length, each ASCII small letter replaced by its capital |
| Text.Words | context.py:14 | `split()`: non-empty words that contain no whitespace (whitespace as `str.isspace` defines it) |
| Text.WordsConcat | context.py:14 | `split()` loses and reorders nothing: the words run together are exactly the non-space characters of the text, in order |
| Text.WordsCount | context.py:14 | `len(text.split())` is the number of positions where a non-space character starts the text or follows whitespace |
| Text.StripRemovesOnlySpaces | search.py:87 | `strip()` removes exactly the leading and trailing whitespace: the result neither starts nor ends with whitespace |
| Text.CountOccurrences | true_rlm_agent.py:248 | `str.count`: a non-empty word counted at least once occurs in the text |
| Text.CountOccurrencesIff | true_rlm_agent.py:248 | a non-empty word is counted at least once exactly when it occurs in the text, both directions |
| Text.CountOccurrencesBound | true_rlm_agent.py:248 | the occurrences counted do not overlap: their number times the word's length is at most the text's length |
| Text.NatToStringValue | rlm_storage.py:81 | the printed counter is the decimal numeral of the number: its digits denote it, with no leading zero |
| Text.NatToStringInjective | rlm_storage.py:98 | different counters print differently |
| Text.StrLtTransitive | rlm_storage.py:125 | Python's string order on timestamps is transitive (with `StrLtIrreflexive` and `StrLtTotal`, a strict total order) |
| Sorting.StableSort | search.py:148 | the sort is a permutation of its input (multiset equality) |
| Sorting.StableSortSorted | search.py:148 | for any strict weak order, the result is sorted |
| Sorting.StableSortSameClass | rlm_storage.py:125 | stability: elements with equal keys keep their input order |
| FuzzySearch.Greedy | search.py:19-23 | the scan records at most one position per pattern character, and runs out of text when it stops short |
| FuzzySearch.GreedyPositions | search.py:19-23 | the recorded positions lie in the text, strictly increase, and hold the pattern's characters in order |
| FuzzySearch.GreedyFullIff | search.py:19-27 | the scan matches every pattern character exactly when the pattern is a subsequence of the text |
| FuzzySearch.Contiguity | search.py:33-37 | the contiguity bonus is at most one less than the number of matches |
| FuzzySearch.Boundaries | search.py:39-43 | the word-boundary bonus is at most the number of matches |
| FuzzySearch.CombineBounds | search.py:45-57 | the weighted sum of a full match lies above 0.5 and at most `1 - 0.3/len(pattern)` |
| FuzzySearch.ScoreZeroIff | search.py:9-31 | the score is 0 exactly when the lowered pattern is empty or is no subsequence of the lowered text |
| FuzzySearch.ScoreRange | search.py:9-57 | every score is in [0, 1]; a non-empty subsequence scores in (0.5, 1 - 0.3/len(pattern)], so never 1.0 |
| FuzzySearch.ScoreAboveHalfIff | search.py:25-57 | a score above 0.5 means exactly that the whole non-empty lowered pattern was found in order |
| FuzzySearch.CountContiguous | search.py:33-37 | the contiguity loop counts the adjacent pairs of matches |
| FuzzySearch.CountBoundaries | search.py:39-43 | the boundary loop counts the matches at the start or after ` \t\n_-` |
| FuzzySearch.ScanMatches | search.py:14-23 | the scanning loop records the greedy positions and the number of matched pattern characters |
| FuzzySearch.FuzzyMatchScore | search.py:9-57 | `fuzzy_match_score` returns the score whose range and zero cases the lemmas above state |
| FuzzySearch.WindowSize | search.py:102 | the window is at least 3 wide and at least as wide as the pattern |
| FuzzySearch.Offsets | search.py:104 | the offsets tried are `len(text) - window + 1`, and none when the text is shorter than the window |
| FuzzySearch.SpanAt | search.py:105-120 | a span reported for one offset is valid: inside the text, non-empty, containing the pattern as a subsequence, starting and ending on matched characters |
| FuzzySearch.MatchSpansValid | search.py:95-122 | every span of `find_match_positions` is valid, and a text shorter than the window has none |
| FuzzySearch.SpanImpliesSubsequence | search.py:104-120 | any span means that the pattern scores above 0.5 against the whole text |
| FuzzySearch.WalkWindow | search.py:109-117 | the window re-walk records the greedy positions, shifted to positions of the whole text |
| FuzzySearch.ProbeWindow | search.py:105-120 | one offset's score test and re-walk yield that offset's span, if any |
| FuzzySearch.CollectWindow | search.py:104-120 | one pass of the sliding loop appends the offset's span to the spans of the earlier offsets |
| FuzzySearch.FindMatchPositions | search.py:95-122 | `find_match_positions` returns the spans of all offsets, in offset order |
| FuzzySearch.SplitSentencesShape | search.py:62 | `re.split(r'([.!?]+)')` alternates text without sentence ends and maximal, non-empty runs of `.!?` |
| FuzzySearch.SplitSentencesConcat | search.py:62 | the split pieces concatenate back to the content |
| FuzzySearch.PairUp | search.py:64-70 | the pairing loop yields `(pieces + 1) / 2` sentences |
| FuzzySearch.SentencesConcat | search.py:61-70 | there is at least one sentence, and the sentences concatenate back to the content |
| FuzzySearch.TargetCovers | search.py:72-81 | for a match start inside the content, the target sentence's character range contains it |
| FuzzySearch.Around | search.py:83-87 | the joined and stripped neighbouring sentences are a substring of the content |
| FuzzySearch.SnippetBodyInContent | search.py:59-87 | the snippet before truncation occurs in the content |
| FuzzySearch.SnippetShape | search.py:89-93 | the snippet is the stripped text when at most 300 characters long, else its first 300 characters plus "..." |
| FuzzySearch.PairSentences | search.py:64-70 | the pairing loop glues each text piece to the punctuation after it |
| FuzzySearch.FindTargetSentence | search.py:72-81 | the running-count loop picks the first sentence containing the match start, else 0 |
| FuzzySearch.JoinSentences | search.py:83-87 | the sentences `full[start_idx:end_idx]` around the target are joined and stripped |
| FuzzySearch.ExtractSnippet | search.py:59-93 | `extract_snippet` returns the snippet shaped as above |
| FuzzySearch.HitForSound | search.py:128-145 | a message's hit carries its id and first span, with its score above 0.5 and at most 1 |
| FuzzySearch.SearchSound | search.py:124-149 | at most `limit` results and no more than there are messages, ordered by non-increasing score, each the hit of some message |
| FuzzySearch.SearchStable | search.py:147-148 | results with equal scores keep message order |
| FuzzySearch.SearchMessages | search.py:124-149 | `search_messages` collects the hits, sorts them by score and keeps the first `limit` |
| FuzzySearch.ExpandTarget | search.py:154-164 | an unknown id expands to nothing; a known id always yields the first message holding it |
| FuzzySearch.ExpandBoth | search.py:164-176 | "both" yields exactly `messages[max(0, t-2p) : min(n, t+1+2p)]` around the first index `t` of the id |
| FuzzySearch.ExpandLength | search.py:151-178 | at most `2 * pairs` messages on each requested side; any other direction yields only the target |
| FuzzySearch.LocateMessage | search.py:154-162 | the scan finds the first index holding the id, or -1 |
| FuzzySearch.JoinAroundTarget | search.py:164-178 | the slices before and after the target are prepended and appended as the direction asks |
| FuzzySearch.ExpandContext | search.py:151-178 | `expand_context` returns the expansion the lemmas above describe |
| Context.EstimateTokens | context.py:7-9 | `len(text) // 4`: four times the estimate is within the last four characters of the length |
| Context.ExactTokenCountFloor | context.py:11-17 | the estimate is the floor of `chars/8 + words*0.65` |
| Context.FitProperties | context.py:37-45 | the window is a suffix of the history, within budget unless empty, and the next older message would not fit beside it |
| Context.FitWhole | context.py:37-45 | a non-empty history is kept whole exactly when its total cost is within budget |
| Context.FitLongest | context.py:37-45 | no longer suffix of the history fits in the budget |
| Context.TakeNewest | context.py:33-47 | the backwards loop with prepending and `break` computes that suffix |
| Context.FloorMean | context.py:67 | `total // n` is the floor of the mean |
| Context.ContextWindow.WindowShape | context.py:25-47 | `get_context_window`'s result is a contiguous, in-order suffix of the history, within the budget left after the reserve, and maximal |
| Context.ContextWindow.WindowLongest | context.py:25-47 | no longer suffix fits the budget left after the reserve |
| Context.ContextWindow.GetContextWindow | context.py:25-47 | the method returns that window, and nothing for no messages |
| Context.ContextWindow.CanFitMessageIffWholeWindow | context.py:49-59 | a new message fits exactly when the history with `user: <content>` appended would be kept whole by the window selection |
| Context.ContextWindow.GetWindowStats | context.py:61-73 | message count, summed cost and floored mean cost; all zero for no messages |
| Storage.ConversationStorage.constructor | storage.py:8-10 | a new store holds no conversation |
| Storage.ConversationStorage.LoadConversation | storage.py:12-19 | a conversation that was never saved loads as empty |
| Storage.ConversationStorage.SaveConversation | storage.py:21-25 | the conversation now loads as the saved list, and every other conversation is unchanged |
| Storage.ConversationStorage.AppendMessage | storage.py:27-40 | the conversation grows by exactly the new message at the end, under the fresh id it returns; others are unchanged |
| Storage.ConversationStorage.GetMessageById | storage.py:42-48 | the first message carrying the id, or none |
| Storage.ConversationStorage.GetMessageIndex | storage.py:50-56 | the index of the first message carrying the id, or -1 |
| RlmStorage.RlmConversationId | rlm_storage.py:30-32 | the RLM track's key is `rlm_` followed by the base id |
| RlmStorage.RlmAgentConversationId | rlm_storage.py:34-36 | the agent track's key is `rlm_agent_` followed by the base id |
| RlmStorage.TrackKeysInjective | rlm_storage.py:30-36 | different conversations never share a track |
| RlmStorage.TrackMessageId | rlm_storage.py:81 | an appended message's id is the prefix, the decimal counter, `_` and then the clock |
| RlmStorage.TrackMessageIdCounter | rlm_storage.py:81 | two ids of one track with different counters differ, whatever the clocks |
| RlmStorage.TimestampOrder | rlm_storage.py:125 | the timestamp sort key is a strict weak order |
| RlmStorage.TimestampEquivalent | rlm_storage.py:125 | two messages tie under that sort key exactly when their timestamps are equal |
| RlmStorage.FullHistory | rlm_storage.py:109-127 | the merged history has every standard and RLM message, nothing dropped or added (multiset), sorted by timestamp |
| RlmStorage.FullHistoryStable | rlm_storage.py:122-125 | messages sharing a timestamp keep their order, standard messages before RLM messages |
| RlmStorage.EstimatedTokensBracket | rlm_storage.py:154-164 | the summed `len // 4` estimate brackets the character total: `4e <= chars <= 4e + 3n` |
| RlmStorage.Migrated | rlm_storage.py:175-184 | the migrated copy has one message per track message, with the same id, role, content and timestamp and no extra fields |
| RlmStorage.RlmStorage.constructor | rlm_storage.py:17-28 | new storage has empty tracks and an empty standard store of its own |
| RlmStorage.RlmStorage.LoadRlmConversation | rlm_storage.py:38-47 | a missing RLM track loads as empty |
| RlmStorage.RlmStorage.LoadRlmAgentConversation | rlm_storage.py:57-66 | a missing agent track loads as empty |
| RlmStorage.RlmStorage.SaveRlmConversation | rlm_storage.py:49-55 | only the RLM track of this conversation changes, to the saved list |
| RlmStorage.RlmStorage.SaveRlmAgentConversation | rlm_storage.py:68-74 | only the agent track of this conversation changes, to the saved list |
| RlmStorage.RlmStorage.AppendRlmMessage | rlm_storage.py:76-90 | the track grows by one message, marked `rlm`, with id `rlm_<n+1>_<clock>`; only this conversation's file is written: every other RLM file, and whether it exists, stays as it was, and the agent files are unchanged |
| RlmStorage.RlmStorage.AppendRlmAgentMessage | rlm_storage.py:92-107 | the agent track grows by one message with id `agent_<n+1>_<clock>`, missing metadata stored as `{}`; only this conversation's agent file is written: every other agent file, and whether it exists, stays as it was, and the RLM files are unchanged |
| RlmStorage.RlmStorage.GetFullHistoryForSearch | rlm_storage.py:109-127 | the merged, timestamp-sorted history of the standard conversation and the RLM track |
| RlmStorage.RlmStorage.SwitchToRlmMode | rlm_storage.py:129-141 | returns both track keys and creates only the missing tracks, empty; afterwards the conversation is in RLM mode and existing contents are kept |
| RlmStorage.RlmStorage.GetRlmStats | rlm_storage.py:149-166 | counts, character totals and summed `len // 4` estimates of both tracks, and whether RLM mode is active |
| RlmStorage.RlmStorage.MigrateFromRlmMode | rlm_storage.py:168-193 | true exactly when the RLM track is non-empty; then the standard conversation becomes its migrated copy, otherwise nothing changes |
| RlmAgent.DedupeFirstOccurrences | rlm_agent.py:67-73 | de-duplication keeps only the first message of each id, in order, so no two kept messages share an id |
| RlmAgent.DedupeComplete | rlm_agent.py:67-73 | every id among the gathered messages is kept |
| RlmAgent.ExpansionsOfShortHistory | rlm_agent.py:63-65 | a history of fewer than two messages yields no exchange |
| RlmAgent.ExpansionsWithin | rlm_agent.py:53-65 | expansions only hold messages of the history |
| RlmAgent.RetrieveSound | rlm_agent.py:38-75 | retrieved context is empty for fewer than two messages, at most 10 messages, all from the history, with pairwise different ids |
| RlmAgent.CollectExpansions | rlm_agent.py:53-65 | the expansion loop keeps each hit's one-pair exchange when it has two or more messages |
| RlmAgent.DropRepeatedIds | rlm_agent.py:67-73 | the seen-ids loop computes the de-duplication |
| RlmAgent.RetrieveContext | rlm_agent.py:38-75 | `retrieve_context` returns the retrieval the lemmas above describe |
| RlmAgent.Truncated | rlm_agent.py:86-88 | content over 500 characters becomes its first 500 plus "...", shorter content is kept |
| RlmAgent.Entries | rlm_agent.py:82-89 | one rendered `ROLE: content` entry per message, in order |
| RlmAgent.EntryBound | rlm_agent.py:83-89 | an entry is at most the role, two characters and 503 content characters long |
| RlmAgent.FormatContext | rlm_agent.py:77-91 | the entries joined by blank lines; a fixed notice for no messages; a single entry alone |
| RlmAgent.Fallback | rlm_agent.py:136-142 | the fallback prompt is the user's own message, flagged with whether context was found |
| RlmAgent.ProcessUserMessage | rlm_agent.py:93-142 | the result keeps the message and context; without context, or when the model call fails, it is the fallback |
| RlmAgent.AssistantPromptChoice | rlm_agent.py:144-151 | the assistant prompt is the agent's reply exactly when context was found and the agent replied, else the user's message |
| Toolset.ParseToolNameRoundTrip | true_rlm_agent.py:202-218 | the dispatch names and the tools correspond one to one; other names are unknown tools |
| Toolset.ScriptedBackend.Chat | true_rlm_agent.py:409-414 | a model call returns the next scripted reply and records the request |
| Toolset.AsInt | true_rlm_agent.py:273-290 | a JSON argument is usable as an integer exactly when it is an int or a bool |
| Toolset.TopicsSound | true_rlm_agent.py:245-248 | at most ten topics, each a word of the joined text, longer than four characters, occurring more than twice |
| Toolset.SetCountGet | true_rlm_agent.py:251-254 | updating the role tally changes that role's count only |
| Toolset.DistributionSound | true_rlm_agent.py:250-254 | the role tally has distinct keys, exactly the roles present, each with its number of messages, adding up to the message count |
| Toolset.OverviewSound | true_rlm_agent.py:220-263 | no history gives the zero overview; otherwise exact message and character totals, an exact role tally, and at most ten topics |
| Toolset.GetContextOverview | true_rlm_agent.py:220-266 | the overview tool returns that overview |
| Toolset.FitPrefixProperties | true_rlm_agent.py:292-301 | the truncation keeps a prefix within `max_tokens` (unless empty), and the first message dropped would have gone over |
| Toolset.TruncatedSound | true_rlm_agent.py:288-301 | a slice within `max_tokens` is kept whole, otherwise it becomes its longest prefix that fits |
| Toolset.ChunkSound | true_rlm_agent.py:268-310 | a start past the history is an error payload, a non-integer `max_tokens` is an error, and otherwise the chunk is a prefix of `history[start:end]`, truncated as above, with exact figures and `has_more` |
| Toolset.TruncateChunk | true_rlm_agent.py:292-301 | the truncation loop with `break` keeps the longest prefix within `max_tokens` |
| Toolset.GetContextChunk | true_rlm_agent.py:268-313 | the chunk tool decodes its defaults (0, start + 10, 2000) and returns that chunk |
| Toolset.ExpandHitsSound | true_rlm_agent.py:328-339 | each expansion belongs to a hit and holds 1 to 9 messages, including the hit's own message |
| Toolset.ExpandHitsOrder | true_rlm_agent.py:328-339 | expanding keeps the hits' score order |
| Toolset.AsLimit | true_rlm_agent.py:320 | a `None` limit keeps every result |
| Toolset.SearchAndExpandSound | true_rlm_agent.py:325-345 | at most `limit` results, no more than there are messages, in non-increasing score order, each expanded two pairs each way around its message |
| Toolset.SearchContext | true_rlm_agent.py:315-348 | the search tool returns no results for no history, an error for a non-string query or a bad limit, else the expanded hits |
| Toolset.Recursive | true_rlm_agent.py:350-388 | an empty `context_subset` is an error and sends nothing; otherwise exactly one analysis request goes out and its reply is the result, with the subset's length |
| Toolset.RecursiveLmCall | true_rlm_agent.py:350-388 | the recursive call returns that result, and the model receives exactly the requests it states |
| Toolset.Execute | true_rlm_agent.py:198-218 | only `final_answer` gives a final answer, holding its arguments unchanged; an unknown name is an error; only the recursive call talks to the model, at most once |
| Toolset.ExecuteContextTool | true_rlm_agent.py:198-218 | the dispatch method returns that step's result, and the model receives that step's requests |
| RootAgent.ToolsFaithful | true_rlm_agent.py:198-218 | the tools behave as the loop relies on: only `final_answer` ends the batch, and a tool sends at most one analysis request |
| RootAgent.BatchShape | true_rlm_agent.py:446-471 | one log entry per executed call, in call order; without a final answer every call runs and yields a tool message; otherwise the batch stops at the first `final_answer`, whose arguments are the answer |
| RootAgent.BatchLog | true_rlm_agent.py:446-464 | the batch log names its calls and, after a final answer, ends with that answer's result |
| RootAgent.StepsIterations | true_rlm_agent.py:426-427 | the round count only grows, stays within twenty, and counts every round that runs |
| RootAgent.StepsLog | true_rlm_agent.py:426-513 | the loop's log entries are rounds, each a request followed by results naming its calls in order |
| RootAgent.StepsLogEnd | true_rlm_agent.py:473-511 | a direct answer or a final answer is the last log entry |
| RootAgent.StepsCalls | true_rlm_agent.py:426-491 | at most one model request from the loop per remaining round |
| RootAgent.StepsBuffer | true_rlm_agent.py:486-491 | every later request from the loop extends the message list of its round |
| RootAgent.RunBounds | true_rlm_agent.py:408-513 | at most twenty rounds and twenty-one loop requests; the first request is the query alone; every later one starts with the system prompt and the query |
| RootAgent.ProcessQueryShape | true_rlm_agent.py:390-538 | an error result exactly when the iteration count is 0, exactly when the log is empty; otherwise 1 to 20 rounds and a log of the two seed entries followed by well-formed rounds |
| RootAgent.AnswerShape | true_rlm_agent.py:473-538 | the result dictionary built from any trace of one to twenty rounds has that shape |
| RootAgent.DirectAnswer | true_rlm_agent.py:493-511 | a first reply with content is the answer after one round, logged as a direct response |
| RootAgent.NoChoicesApology | true_rlm_agent.py:512-525 | a first reply without choices leaves the loop after one round with the apology |
| RootAgent.OutOfRounds | true_rlm_agent.py:515-525 | after the twentieth round the loop ends with the apology |
| RootAgent.EmptyBatchesExhaust | true_rlm_agent.py:426-491 | replies that ask for no tools drive the loop through all twenty rounds, one request each |
| RootAgent.TwentyOneCalls | true_rlm_agent.py:408-525 | the bound is reached: twenty-one empty tool-call replies make twenty-one loop requests and end with the apology after twenty rounds |
| RootAgent.TrueRlmAgent.constructor | true_rlm_agent.py:22-25 | the agent holds the given storage and model client |
| RootAgent.TrueRlmAgent.RunToolCalls | true_rlm_agent.py:443-471 | the tool loop with `break` yields the batch's log, tool messages and final answer, and sends the model exactly the batch's requests |
| RootAgent.TrueRlmAgent.CallTool | true_rlm_agent.py:447-451 | one call runs the tool the dispatch names |
| RootAgent.TrueRlmAgent.ToolRound | true_rlm_agent.py:443-491 | a round runs its batch and, without a final answer, sends the grown message list once more |
| RootAgent.TrueRlmAgent.ToolStep | true_rlm_agent.py:433-491 | a round of tool use ends the trace with the final answer or resumes it with the next reply |
| RootAgent.TrueRlmAgent.LoopStep | true_rlm_agent.py:426-513 | one pass of the loop either delivers the trace's result or keeps the loop invariant for the next round |
| RootAgent.TrueRlmAgent.RunRounds | true_rlm_agent.py:422-525 | the loop returns the result of the recursive specification, and the model receives exactly its requests |
| RootAgent.TrueRlmAgent.ProcessQueryOver | true_rlm_agent.py:397-525 | over a given history: the first call and the loop return `Answer(Run(...))`, and the model receives exactly the run's requests |
| RootAgent.TrueRlmAgent.ProcessUserQuery | true_rlm_agent.py:390-538 | `process_user_query` returns `Answer(Run(...))` over the merged history of the conversation, and the model receives exactly the run's requests |

## Left out

- RlmStorage.FullHistory: every message carries a timestamp, so the `.get('timestamp', '')` default for a message without one is not modelled (`RlmStorage.TimestampBefore` compares the timestamps themselves).
- RlmStorage.Migrated: the `.get` defaults used when a track message lacks a field are not modelled, because every message carries id, role, content and timestamp. These are `migrated_<n>` for a missing id, `user` for a missing role, `""` for missing content, and the current time for a missing timestamp.
- Toolset.Overview: likewise the tools read `content` and `role` as always present, so the defaults `''` and `'unknown'` are not modelled. The same holds for the `id` of a tool call.
- Toolset.Overview: the payload's constant `"context_available": True` key is not part of `OverviewStats`.
- Toolset.AsInt: JSON values have no floating-point case. A float `max_tokens`, which Python compares without error, cannot be expressed, and every non-integer argument is treated as the tool's error payload.
- Toolset.AnalysisOf: the recursive call's payload also carries `"timestamp": datetime.now().isoformat()`; `Analysis` has no timestamp field, so that key is not modelled.
- Toolset.AnalysisOf: a reply to the recursive call that carries tool calls maps to the error payload. The source's outcome depends on whether the message has a `content` key: a missing key is a `KeyError`, caught as the error payload, while `content: None` gives a result of `None`. `Reply` does not tell these apart.
- RootAgent.DirectAnswer: a direct reply always carries text. The `"No response generated"` default and a `content` of `None` are not modelled.
- Text.Lower: lower-casing changes ASCII letters only; Unicode case mapping is left out.
- Text.Upper: upper-casing changes ASCII letters only, so Unicode case mapping, including mappings that lengthen the string such as `'ß'.upper()`, is left out.
- FuzzySearch.Score: the score uses exact real arithmetic, not floating point, so rounding in the last bits is not modelled.
- Context.ExactTokenCount: `int((chars / 4 + words * 1.3) / 2)` is computed exactly as `(5 * chars + 26 * words) / 40`, without floating-point rounding.
- Storage.ConversationStorage.AppendMessage: the uuid and the current time are parameters. The same holds for the clock and time of `AppendRlmMessage` and `AppendRlmAgentMessage`, and for the clock in `TrackMessageId`.
- Storage.ConversationStorage.LoadConversation: the storage directory is a map from id to message list. Paths, file encoding, unreadable or corrupt JSON files, and `os.makedirs` are left out.
- RlmStorage.RlmStorage.constructor: the storage owns a private `ConversationStorage`. In the running system it shares the `conversations` directory with the API's global store, and that aliasing is not modelled.
- RootAgent.TrueRlmAgent.ProcessUserQuery: `json.dumps` and `json.loads` are not modelled. Tool results go to the model and into the log as values, not JSON text, and tool-call arguments arrive already parsed. So a malformed argument string, which would end the query with the error result, is not represented.
- RootAgent.TrueRlmAgent.ProcessUserQuery: the `processing_time_seconds` and `rlm_pattern` fields of the result, and the timestamps of log entries, are not modelled.
- RootAgent.TrueRlmAgent.ProcessUserQuery: the history is read once per query and handed to every tool call. The source re-reads it in each tool (true_rlm_agent.py:223, 271, 318). While a query awaits the model, another request to the server can append to the same conversation, and a later tool would then see that message. This interleaving is not modelled.
- RootAgent.Answer: exception messages are abstracted. A raising model call carries its reason, a final answer without `answer` carries `'answer'`, and a tool's caught exception is `Failed(<operation>)`.
- Toolset.ScriptedBackend: The language-model client in `llm.py` is not part of this model. The language model is a scripted object, and a call beyond its script raises. The call at rlm_agent.py:117-121 passes the messages and the tools, plus `context_window_size` by keyword. The calls at true_rlm_agent.py:373, 409-414 and 491 each pass four positional arguments, a system prompt being the fourth. `chat` in llm.py:126-127 takes only three (`messages`, `tools`, `context_window_size`). Against that client each four-argument call raises `TypeError`. That would end a recursive call in its error payload (true_rlm_agent.py:387-388) and a query in the error result (true_rlm_agent.py:527-538). The model keeps the backend abstract and does not model this `TypeError`.
- RlmAgent.ProcessUserMessage: the model's reply is a parameter (`None` when the call fails). The prompt text and the `print` in the fallback are not modelled.
- RlmAgent.RetrieveContext: takes the already loaded history. Whether it comes from `get_full_history_for_search` or `load_conversation` (the `hasattr` branch) is the caller's choice.
- The prompt texts and the tool schema (`get_rlm_system_prompt`, `get_root_lm_system_prompt`, `get_recursive_lm_system_prompt`, `get_rlm_tools_schema`) appear only as symbolic request entries.
- `async`/`await` is modelled as sequential calls. In the running server, requests are handled concurrently, so two queries or a query and an append can interleave at every `await`. That interleaving is not modelled.
- `list_conversations`, `list_rlm_conversations` and `_cleanup_rlm_storage` are not modelled. They list or delete directory entries, and the cleanup is never called.
- Sorting.StableSort: Python's in-place `list.sort` is modelled as a function on values; only the returned order matters to the callers.
- `api.py`, `client.py` and `main.py` are not part of this model. They are the HTTP layer, the terminal client and the entry point.
