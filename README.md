# Voice agent backend — a Dafny model

This project models the core of the Python backend of a voice assistant.
A browser streams microphone audio over a websocket. The server forwards the
audio to a speech-to-text service and collects the final transcripts it gets
back into an utterance. When the browser reports silence, the utterance
becomes one transcript, and a pipeline run answers it:

- the conversation history is sanitised and the user turn is appended;
- the LLM reply is streamed to the browser token by token;
- the first characters of the reply classify it as either a normal answer or
  a `[SEARCH: query]` command;
- a normal answer is cut into sentences, cleaned of emoji and markdown, and
  queued for speech synthesis;
- a search command triggers a web search (a speculative search of the
  filler-stripped transcript is reused when the two queries are similar
  enough) and a second, spoken LLM reply built on the results.

A barge-in from the browser cancels the run that is speaking.

The model is split by source file:

| module | models |
|---|---|
| `Text` (text.dfy) | the Python `str` operations the code relies on: `isspace`/`\s`, `strip()`, `strip(chars)`, `split()`, `' '.join`, `lower()`, `in` |
| `Config` (config.dfy) | `SENTENCE_END`, `EMOJI_PATTERN`, the message history and `sanitize_history` (app/config.py) |
| `Llm` (llm.dfy) | `clean_for_tts`, `extract_sentences`, the sentence queue and the `data:` line filter of `stream_tokens` (app/llm.py) |
| `Search` (search.dfy) | `FILLER_WORDS`, `clean_for_search` and `query_similarity` (app/search.py) |
| `Wire` (wire.dfy) | the JSON messages the server sends to the browser, and the socket as an append-only log |
| `Pipeline` (pipeline.dfy) | `run`, its `llm_producer`, the `[SEARCH:` regular expression and `_search_llm_tts` (app/pipeline.py) |
| `Server` (server.dfy) | the per-connection dispatch of the websocket endpoint (app/server.py) |

The code works by updating state, and the model keeps that form:

- `Config.Conversation` is the shared history list, and `sanitize_history` is
  its in-place merge loop.
- `Llm.SentenceQueue` is the `asyncio.Queue`.
- `Wire.Channel` is the websocket, as a log of sent messages.
- `Pipeline.Producer` holds `llm_producer`'s nonlocals.
- `Pipeline.ChatService` is the LLM endpoint, as a log of the histories it
  was asked about.
- `Server.Session` holds the per-connection variables of `websocket_endpoint`.

Each method is proved against a pure specification function:

- `Sanitized`, `CutSentences`/`Queued`, `DataTokens`, `KeptWords`/`CleanedQuery`
  for the helpers;
- `Step`/`Feed`/`FinalItems` for the producer;
- `RunTurn` for a whole turn;
- `Transition`/`Replay` for the session.

The properties of the system are proved about those functions. The turn
functions `RunTurn`, `SearchTurn` and `Answer` take the search prompt
template as a parameter `promptOf`. `Run` passes `SearchPrompt`, the
template of app/pipeline.py; the lemmas about a turn hold for any template.

Cancellation is modelled without concurrency. A run's cancel event is given
as the number `cancelFrom`: the k-th call of `cancel_event.is_set()` in
`run`, counting from 0, sees the event set exactly when k >= `cancelFrom`.
The calls are made at app/pipeline.py lines 111, 154, 179 and 188, in that
order. The LLM is a function from the history it is sent to the token stream
it returns. `web_search` is a function from query to result text. Whether the
speculative search delivered within its 5 s timeout is the boolean
`speculativeOk`.

## Model

| member | source | states |
|---|---|---|
| Config.EmojiClassShape | app/config.py:43-50 | the overlapping ranges of `EMOJI_PATTERN` are exactly U+200D, U+231A, U+23CF, U+23E9 and everything from U+24C2 up (which includes CJK text); the only whitespace character in the class is U+3000 |
| Config.MatchAtShape | app/config.py:41 | a `SENTENCE_END` match is a single newline, or one of `.!?;` followed by a maximal, non-empty run of whitespace |
| Config.FindSentenceEnd | app/config.py:41 | `SENTENCE_END.search`: none exactly when no position matches, otherwise the leftmost match at or after the start |
| Config.Conversation.constructor | app/config.py:115-117 | the history starts as the single system entry |
| Config.Conversation.Append | app/pipeline.py:34 | `list.append` adds the entry at the end |
| Config.Conversation.Pop | app/pipeline.py:113 | `list.pop()` removes the last entry |
| Config.Conversation.Sanitize | app/config.py:120-132 | the in-place merge loop leaves exactly `Sanitized` of the old history |
| Config.MergeStep | app/config.py:127-131 | merging entry i+1 into entry i keeps the loop's finished prefix and the specification of what remains |
| Config.AdvanceStep | app/config.py:126-132 | moving past an entry whose successor has a different role keeps the loop's invariant |
| Config.MergeRunsAlternates | app/config.py:120-132 | after merging, no two adjacent entries share a role, and the first role is kept |
| Config.SanitizedAlternates | app/config.py:120-132 | the system entry stays first and the entries after it alternate |
| Config.MergeRunsRoles | app/config.py:120-132 | the roles after merging are the run-length compression of the roles before |
| Config.SanitizedShorter | app/config.py:120-132 | sanitising never lengthens the history |
| Config.MergeRunsOfAlternating | app/config.py:120-132 | an already alternating history is left unchanged |
| Config.SanitizeIdempotent | app/config.py:120-132 | a second sanitize changes nothing |
| Config.MergeRunsHead | app/config.py:127-129 | each maximal same-role run becomes one entry whose content is the run's contents joined by single spaces |
| Config.RunLenOfMerged | app/config.py:127-130 | one merge shortens the leading same-role run by one |
| Llm.RemoveEmoji | app/llm.py:12 | no emoji-class character survives `EMOJI_PATTERN.sub('', text)` |
| Llm.RemoveMarkup | app/llm.py:13 | no `*`, `#` or backtick survives the three replaces |
| Llm.CleanForTts | app/llm.py:10-14 | the cleaned text is empty or has no whitespace at either end |
| Llm.CleanForTtsRemovesAll | app/llm.py:10-14 | the cleaned text holds no emoji-class and no markdown character |
| Llm.RemoveNothing | app/llm.py:12-13 | deleting characters that do not occur changes nothing |
| Llm.CleanForTtsIdempotent | app/llm.py:10-14 | cleaning a cleaned text changes nothing |
| Llm.CleanForTtsEmpty | app/llm.py:10-14 | the result is empty exactly when the input holds only emoji, markdown and whitespace |
| Llm.SentenceQueue.constructor | app/pipeline.py:41 | the queue starts empty |
| Llm.SentenceQueue.PutNowait | app/llm.py:32 | `put_nowait` appends the item |
| Llm.Queued | app/llm.py:27-32 | each raw piece yields at most one item, and every item is a non-empty sentence |
| Llm.ExtractSentences | app/llm.py:17-33 | the loop returns `CutSentences(buffer).rest` and queues exactly `Queued` of the pieces it cut, in order |
| Llm.QueuePiece | app/llm.py:27-32 | one piece is stripped, cleaned and queued only when something is left |
| Llm.CutSentencesStep | app/llm.py:23-28 | one loop round cuts the buffer at the end of the leftmost match |
| Llm.QueuedAppend | app/llm.py:22-32 | queueing two runs of pieces queues their items in order |
| Llm.ConcatAppend | app/llm.py:26-28 | concatenation of pieces distributes over appending runs of pieces |
| Llm.CutSentencesConcat | app/llm.py:22-33 | nothing is lost or reordered: the pieces followed by the remainder are the buffer |
| Llm.CutSentencesRest | app/llm.py:23-25 | the returned remainder holds no `SENTENCE_END` match |
| Llm.CutSentencesPieces | app/llm.py:23-28 | every piece ends exactly at the end of its first `SENTENCE_END` match |
| Llm.FirstMatchPrefix | app/llm.py:23-27 | `buffer[:end_pos]` has the match that ended it as its own first match |
| Llm.QueuedAreClean | app/llm.py:29-32 | every queued item is non-empty and already in cleaned form |
| Llm.DataTokens | app/llm.py:59-71 | only non-empty contents are yielded |
| Llm.StreamTokens | app/llm.py:50-71 | a non-200 status yields nothing; otherwise the tokens are `DataTokens` of the lines read before the cancel check fires |
| Llm.DataTokensAppend | app/llm.py:55-71 | lines before the end of the stream contribute independently of what follows them |
| Llm.DataTokensStopAtEnd | app/llm.py:61-71 | nothing after the first `data: [DONE]`, or after the first payload whose exception escapes the per-line handler, is yielded |
| Llm.DataTokensSkipsOtherLines | app/llm.py:59-60 | a line without the `data: ` prefix yields nothing wherever it stands |
| Search.KeptWords | app/search.py:35-38 | filtering never adds words |
| Search.CleanForSearch | app/search.py:30-43 | the method returns `CleanedQuery` of the transcript |
| Search.KeepNonFillers | app/search.py:34-38 | the loop keeps exactly `KeptWords`, the non-fillers in order |
| Search.KeptWordsAppend | app/search.py:35-38 | filtering distributes over concatenation |
| Search.KeptWordsMembers | app/search.py:35-38 | a word is kept exactly when it occurs and is not a filler after lower-casing and stripping `.,!?` |
| Search.KeptWordsAreWords | app/search.py:33-38 | the kept words are still whitespace-free words |
| Search.CleanedQueryCases | app/search.py:39-43 | fewer than 5 characters kept falls back to the stripped transcript; otherwise the result is the kept words joined by single spaces, in normalised form |
| Search.MultiWordFillersNeverMatch | app/search.py:8-13 | the entries of `FILLER_WORDS` that contain a space never cause a word to be dropped |
| Search.StripCharsNoSpace | app/search.py:36 | `strip('.,!?')` of a word adds no whitespace |
| Search.SimilarityRange | app/search.py:46-52 | the ratio has a positive denominator, lies between 0 and 1, and is 0 when either query has no words |
| Search.SimilaritySymmetric | app/search.py:46-52 | the similarity is symmetric |
| Search.SimilarityOne | app/search.py:46-52 | the similarity is 1 exactly when both queries have the same non-empty word set |
| Search.SimilarityThreshold | app/pipeline.py:133-137 | a similarity of at least 0.4 implies a shared word, and equal non-empty word sets reach 0.4 |
| Search.SimilarityIgnoresCase | app/search.py:48-49 | lower-casing a query first changes nothing |
| Search.SimilarityIgnoresOrder | app/search.py:48-49 | word order does not matter |
| Search.SimilarityIgnoresRepeats | app/search.py:48-49 | repeated words do not matter |
| Search.SameWordSets | app/search.py:48-52 | the similarity depends on a query only through its word set |
| Wire.Channel.constructor | app/server.py:50-52 | a new socket has sent nothing |
| Wire.Channel.Send | app/pipeline.py:36 | `send_text` appends one message |
| Pipeline.DecisionIsFinal | app/pipeline.py:62-79 | once the reply is classified, later tokens never change `is_search` |
| Pipeline.SearchTakesPrecedence | app/pipeline.py:62-67 | `[SEARCH:` in the reply classifies it as a search, whatever its length or sentence ends, and queues nothing |
| Pipeline.UndecidedMeans | app/pipeline.py:62-74 | a reply stays unclassified only while it has no `[SEARCH:`, is at most 80 characters long and has no sentence end |
| Pipeline.StepAccounts | app/pipeline.py:58-79 | one token keeps the classifier coherent and every character of a normal reply in exactly one place: cut pieces or the sentence buffer |
| Pipeline.FeedAccounts | app/pipeline.py:53-79 | after a whole stream `full_response` is the concatenation of the tokens, and a normal reply is exactly the cut pieces followed by the buffer |
| Pipeline.FinalItemsShape | app/pipeline.py:80-89 | the `finally` block queues one end-of-stream sentinel, last; before classification or for a search command nothing else |
| Pipeline.SpokenReply | app/pipeline.py:49-89 | a normal reply is queued, in order, as the cleaned pieces of the whole reply, then the sentinel; every piece but the final buffer ends at its first `SENTENCE_END` match |
| Pipeline.StepCutsSentences | app/pipeline.py:62-79 | every piece one token cuts ends at its first `SENTENCE_END` match |
| Pipeline.FeedCutsSentences | app/pipeline.py:53-79 | every piece a token stream cuts ends at its first `SENTENCE_END` match |
| Pipeline.SearchReplyQueuesNothing | app/pipeline.py:62-67 | a search command queues nothing but the sentinel |
| Pipeline.Producer.constructor | app/pipeline.py:40-46 | `run`'s producer starts with an empty, unclassified reply |
| Pipeline.Producer.ForSearchReply | app/pipeline.py:211-214 | `_search_llm_tts`'s producer feeds every token to the sentence buffer |
| Pipeline.Producer.OnToken | app/pipeline.py:58-79 | one token updates the state as `Step` says, queues `Step`'s pieces and sends one `llm_chunk` |
| Pipeline.Producer.Finish | app/pipeline.py:80-89 | queues `FinalItems` and marks the reply classified |
| Pipeline.Chunks | app/pipeline.py:59 | one `llm_chunk` per token, in order |
| Pipeline.Produce | app/pipeline.py:53-89 | a whole stream leaves the state `Feed` gives, queues the cut pieces then `FinalItems`, and echoes every token |
| Pipeline.CloseAt | app/pipeline.py:121 | the lazy `(.+?)\]` stops at the first `]` and crosses no newline |
| Pipeline.LazyGroup | app/pipeline.py:121 | the group takes at least one character and stops at the first later `]` |
| Pipeline.Backtrack | app/pipeline.py:121 | greedy `\s*` gives back whitespace until the group matches; the group it finds is one `(.+?)\]` accepts |
| Pipeline.BacktrackLatest | app/pipeline.py:121 | `\s*` gives back as little as it can: no later start lets the group match, and a failure means no start does |
| Pipeline.SearchMatchAt | app/pipeline.py:121 | a match starts with the literal `[SEARCH:`, then whitespace, then the group, then `]` |
| Pipeline.FindSearch | app/pipeline.py:121 | a match `re.search` finds is a match of the pattern at that position |
| Pipeline.FindSearchLeftmost | app/pipeline.py:121 | the match `re.search` finds is the leftmost: the pattern matches at no earlier position |
| Pipeline.NoSearchMatch | app/pipeline.py:121-122 | when `re.search` finds nothing, the pattern matches at no position |
| Pipeline.SearchQueryShape | app/pipeline.py:121-123 | the query is the stripped group: a non-empty, newline-free text before the first `]` |
| Pipeline.SearchQueryNeedsTag | app/pipeline.py:121-122 | a reply without `[SEARCH:` has no query |
| Pipeline.BlankSearchQuery | app/pipeline.py:121-123 | `[SEARCH: ]` matches, with an empty query |
| Pipeline.OneWordSearchQuery | app/pipeline.py:121-123 | `[SEARCH:news]` gives the query `news` |
| Pipeline.ChatService.constructor | app/llm.py:36-47 | no request has been made yet |
| Pipeline.ChatService.Request | app/llm.py:36-69 | each request posts the current history and returns the reply to it |
| Pipeline.ResultsQueryCases | app/pipeline.py:133-149 | queries with no common word are searched afresh, as are all queries when the speculative search failed; the speculative results are used for the same non-empty word set |
| Pipeline.SearchLlmTts | app/pipeline.py:208-243 | the second reply is the concatenation of its tokens, each echoed as an `llm_chunk` |
| Pipeline.Conclude | app/pipeline.py:186-205 | `llm_done`, then the cancel and empty-reply checks that take the user entry back, else the recorded reply and `tts_done` |
| Pipeline.SearchBranch | app/pipeline.py:120-157 | the search announcement, the choice of results and the cancel check leave the state `SearchTurn` gives |
| Pipeline.AnswerWith | app/pipeline.py:158-205 | the second LLM call with the reply and search prompt pushed and popped again leaves the state `Answer` gives |
| Pipeline.FirstReply | app/pipeline.py:36-109 | `tts_start`, then the first reply streamed and classified |
| Pipeline.Run | app/pipeline.py:27-205 | the history, the messages sent and the LLM requests of a whole turn are those `RunTurn` gives |
| Pipeline.CompleteShape | app/pipeline.py:186-205 | the end of a turn either takes the user entry back or records one non-empty reply followed by `tts_done` |
| Pipeline.CompletedWellEnded | app/pipeline.py:186-205 | a turn that ends through the finish-up code is well ended |
| Pipeline.EarlyWellEnded | app/pipeline.py:111-114 | a turn that returns early after a cancel check is well ended |
| Pipeline.AnswerWellEnded | app/pipeline.py:158-205 | the search answer leaves a well-ended turn |
| Pipeline.AnswerHistory | app/pipeline.py:158-198 | the search answer records the second reply exactly when neither of its cancel checks fired and it is not empty, and otherwise takes the user entry back |
| Pipeline.AnswerRequests | app/pipeline.py:158-177 | the search answer posts exactly one more request: the history with an assistant reply and a user prompt on top |
| Pipeline.SearchTurnWellEnded | app/pipeline.py:120-205 | the search branch leaves a well-ended turn and takes the user entry back on an early cancel |
| Pipeline.SearchTurnHistory | app/pipeline.py:120-198 | the search branch records only the second reply, exactly when none of its three cancel checks fired and it is not empty, and otherwise takes the user entry back |
| Pipeline.SearchTurnRequests | app/pipeline.py:120-181 | the search branch keeps the earlier requests and makes at most one more, the history with an assistant reply and a user prompt on top |
| Pipeline.RunTurnHistory | app/pipeline.py:27-198 | the spoken reply (the first one, or the second on the search path) is recorded after the user entry exactly when no cancel check saw the event (two checks on a plain turn, four on a search turn) and it is not empty; otherwise the sanitised history is left |
| Pipeline.RunTurnWellEnded | app/pipeline.py:27-205 | every turn opens with `tts_start`; it leaves the history as it found it, or with one user entry and one non-empty assistant reply; it sends `tts_done` exactly in the second case, last and right after `llm_done`; a cancel seen at the first two checks always takes the user entry back |
| Pipeline.RunTurnRequests | app/pipeline.py:27-205 | the LLM is first asked about the sanitised history with the user entry, and at most once more, only with an assistant reply and a user prompt on top |
| Server.TransitionConsistent | app/server.py:73-146 | every event keeps the session consistent: the AI speaks only while its run is running and uncancelled, and every run has a non-empty stripped transcript |
| Server.ReplayConsistent | app/server.py:110-150 | any sequence of events keeps the session consistent |
| Server.StopSpeaking | app/server.py:126-138 | silence joins and strips the utterance and clears it whatever happens; only whitespace means nothing sent and nothing started; anything else sends `final_transcript` and starts a run that speaks under a fresh cancel flag, after setting the running one's flag |
| Server.BargeInGuard | app/server.py:140-146 | barge-in acts exactly when the AI speaks and its cancel flag is unset: it sets the flag, silences the AI and sends one `stop_audio`; otherwise nothing changes |
| Server.BargeInIdempotent | app/server.py:140-146 | a second barge-in straight after the first is a no-op |
| Server.NoStopAudioWithoutRestart | app/server.py:91-92 | while no silence starts a new run, a silent AI stays silent and no `stop_audio` is sent |
| Server.AudioForwarding | app/server.py:118-124 | audio is forwarded exactly while speech-to-text is connected and the send succeeds; a failed send marks it disconnected |
| Server.Heard | app/server.py:163-164 | one transcript event per heard text, in order |
| Server.Echoed | app/server.py:166-168 | one `transcript` message per heard text, in order |
| Server.TranscriptsInOrder | app/server.py:163-168 | transcripts join the utterance in arrival order and are each echoed; nothing else changes |
| Server.FinishSilences | app/server.py:104-105 | when a run ends, however it ends, the AI is silent and no task runs |
| Server.Session.constructor | app/server.py:55-62 | a session starts silent, with no task, no utterance and speech-to-text disconnected |
| Server.Session.OnSttConnected | app/server.py:65-70 | a successful connect marks speech-to-text connected |
| Server.Session.OnSttLost | app/server.py:172-177 | a lost connection marks speech-to-text disconnected |
| Server.Session.OnSttTranscript | app/server.py:163-168 | the state and messages are those `Transition` gives for a transcript |
| Server.Session.OnAudioChunk | app/server.py:118-124 | the state is the one `Transition` gives for an audio chunk |
| Server.Session.SignalCancel | app/server.py:78 | `cancel_event.set()` sets the current run's flag |
| Server.Session.OnPipelineFinished | app/server.py:96-105 | the `finally` of a run: the AI is silent and no pipeline task runs |
| Server.Session.DoLlmTts | app/server.py:73-107 | a running task is cancelled and awaited, then a run starts with a fresh unset cancel flag |
| Server.Session.OnUserStoppedSpeaking | app/server.py:126-138 | the state and messages are those `Transition` gives for silence |
| Server.Session.OnBargeIn | app/server.py:140-146 | the state and messages are those `Transition` gives for a barge-in |
| Server.Session.Handle | app/server.py:118-146 | each message is routed to its handler |
| Server.Session.Serve | app/server.py:110-150 | a sequence of events leaves the state and messages `Replay` gives, and keeps the session consistent |
| Text.StripSlice | app/llm.py:14 | what `strip()` keeps is a contiguous slice of its input; what it drops before and after that slice is all whitespace |
| Text.StripEmpty | app/server.py:128-131 | `strip()` leaves nothing exactly when the text is all whitespace |
| Text.SplitJoin | app/search.py:33-39 | `split()` undoes `' '.join` on a list of words |
| Text.JoinNormalized | app/search.py:39 | `' '.join` of words has no leading, trailing or doubled whitespace and is empty only for no words |
| Text.WordsAroundSpace | app/search.py:48-49 | `split()` treats a single space as a word boundary |

## Left out

- The client side (voice activity detection, PCM encoding and audio playback in the browser) is not part of this model.
- app/tts.py, app/stt.py and `web_search` are not part of this model. Speech synthesis is left out, and with it the `tts_consumer` of `run`, its cancel check at app/pipeline.py:95, and the sentence queue's consumer. Speech-to-text appears only as the transcript, connected and lost events. Web search is a function parameter.
- HTTP, JSON and the SSE transport are not modelled. The JSON decoding of a `data:` line is a parameter `decode` of `Llm.DataTokens`. It has three outcomes: the content, an exception the per-line handler catches, and an exception that escapes to the handler around the whole stream and ends it. An HTTP request that raises before or while its lines are read is not modelled.
- Concurrency is not modelled. This covers the `asyncio.gather` interleaving of producer and consumer, `asyncio.sleep(0.7)`, the 5 s wait for the speculative search (reduced to `speculativeOk`), and the 3 s `wait_for` with its force-cancel in `do_llm_tts` (reduced to "the old task finishes"). Events are handled one at a time.
- Pipeline.Run: a cancel seen by `stream_tokens` inside the turn shortens the token stream. The LLM reply function is given the whole stream, so `cancelFrom` and a shortened stream are not linked. `Llm.StreamTokens` models that cancel check on its own.
- Pipeline.Run: exceptions inside `run` and failed `send_text` calls are left out. Only `run`'s `finally` in app/server.py:104-105 is modelled, as the pipeline-finished event.
- Pipeline.Run: the speculative search task and its cancellation are not modelled. Only which query's results are used is modelled.
- Logging, `ts()` and the timings are left out. This includes the `total_time` field of `tts_done`.
- The FastAPI routes, static files, the speech-to-text reconnect loop and its sleeps, and the keep-alive ping are left out.
- Text.LowerChar: `str.lower()` is modelled on the ASCII letters only. Unicode case mapping is left out.
- Llm.RemoveMarkup: the three `str.replace` calls are merged into one pass that deletes all three characters. The result is the same.
- Search.QuerySimilarity: the float is kept as a fraction. The test `similarity >= 0.4` becomes `5 * common >= 2 * largest`; the two agree on the word counts that can occur.
- Server.Session.OnAudioChunk: the `stt_state["ws"]` test is folded into the connected flag. Connecting sets both, and losing the connection clears only the flag.
- Server.Transition: a pipeline-finished event always clears `ai_speaking`, as `run`'s `finally` does. In the source that event only happens to a running task.
