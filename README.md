# YouTube transcript chatbot — a verified model of its core

The application lets a user paste a YouTube link and then chat about the video. The back end
fetches the transcript, indexes its chunks, and answers questions from retrieved context. This
project models, in Dafny, the sequential logic under both ends. Every network, storage and
model call becomes an input.

- **Front end:**
  - the chat-session store kept in the browser's storage slot;
  - the gateway holding the current video id, with its question extraction and error wrapping;
  - the conversation panel's message-list transitions: submit, regenerate, clear, and when
    regeneration is offered;
  - the chat page's start-up dispatch, new-session draft and persistence of message changes;
  - the landing page's video-id extractor and the controls that depend on it;
  - the hash-route builder.
- **Back end:**
  - the three in-memory maps of the HTTP server: transcript cache hit and insert, chat, delete;
  - the summary-keyword choice of how many chunks to retrieve, and the short-context retry;
  - the fallback hybrid retriever: deduplicate, score, stable sort, top `k`, join;
  - the two video-id extractors (the configurable one and the command-line one).

The files follow the source. `chat_service.dfy` (`ChatService`) and `llm_service.dfy`
(`LlmService`) model `Frontend/api/chatService.ts`. The other files are:

| file | module | models |
|---|---|---|
| `chat_interface.dfy` | `ChatInterface` | the conversation panel |
| `chat_page.dfy` | `ChatPage` | the chat page |
| `home_page.dfy` | `HomePage` | the landing page |
| `page_url.dfy` | `PageUrl` | `createPageUrl` |
| `hybrid_retriever.dfy` | `HybridRetriever` | `Backend/retriever.py` |
| `api_server.dfy` | `ApiServer` | `Backend/api_server.py` |
| `video_id_extractor.dfy` | `VideoIdExtractor` | `utils.py` and `Backend/main.py` |

Three files are shared:

- `video_id_patterns.dfy` holds the two regex shapes, written as explicit leftmost-first scans.
- `stable_sort.dfy` holds the stable descending sort that both JavaScript's `Array.prototype.sort`
  and Python's `list.sort` perform.
- `text.dfy` holds trim, lower, split, join and substring search.
- `keyed.dfy` holds `findIndex`, `find` and `filter` by a string key, which the session store
  (by chat id) and the conversation panel (by message id) both use.

Where state is changed in place, the model is imperative:

- the session store (`ChatStore.slot`);
- the gateway (`LlmGateway.currentVideoId`);
- the panel (`ChatPanel.messages`, `input`, `isTyping`);
- the page (`ChatPageView`);
- the server's maps (`Server`);
- the retriever's two merge loops (`Retriever`).

Each method is specified against a function of its inputs and old state. The properties are
proved about those functions.

Where the prose description of the system and the code disagree, the model follows the code:

- The transcript request of the front-end gateway never rejects. It resolves to a placeholder
  record whose transcript names the failure, and leaves the current video id as it was.
- Created ids are not guaranteed unique: they are `chat_<time>_<random>`. Uniqueness is a
  precondition of `ChatService.FindAfterCreate`, not a proved property.

## Model

| member | source | states |
|---|---|---|
| ChatService.ChatStore.constructor | Frontend/api/chatService.ts:7-14 | The store holds the given storage slot: nothing, text that is not JSON, or a list. `StoredChats` reads both unreadable cases as no sessions. |
| ChatService.ChatStore.ListChats | Frontend/api/chatService.ts:23-36 | The result is a permutation of the stored sessions, and storage is only read. For `-created_date` it is sorted by date descending (a missing date counts as 0), and sessions with equal dates keep their stored order. Any other field after `-` keeps the stored order; a sort without a leading `-` returns the stored list. |
| ChatService.ChatStore.CreateChat | Frontend/api/chatService.ts:39-49 | Exactly one session is appended at the end and every earlier one is kept. It carries every draft field except `id` and `created_date`, which are overwritten by `chat_<now>_<random>` and the current time. |
| ChatService.NewChatId | Frontend/api/chatService.ts:43 | A created id always starts with `chat_`. |
| ChatService.ChatStore.UpdateChat | Frontend/api/chatService.ts:52-61 | The first session with the id is replaced by the shallow merge in which the patch's keys win, and the merged session is returned. Without a match the result is 'Chat not found' and the slot is unchanged. |
| ChatService.ChatStore.DeleteChat | Frontend/api/chatService.ts:64-68 | The slot becomes `Keyed.WithoutKey` of the stored list by the id. With `Keyed.WithoutKeyAppend` and `Keyed.WithoutKeySingle` that is exactly the sessions whose id differs, in their stored order and with their repetitions. |
| ChatService.ChatStore.GetChatById | Frontend/api/chatService.ts:71-75 | Returns the session at the first position carrying the id, or none exactly when no stored session has it. |
| Keyed.FirstWithKey | Frontend/api/chatService.ts:54 | `findIndex`: a position carrying the key before which none carries it; none exactly when no element carries it (also Frontend/Components/chat/ChatInterface.tsx:120). |
| Keyed.FirstKeyFound | Frontend/api/chatService.ts:54 | `findIndex` answers the first position carrying the key. |
| Keyed.SameKeyPositions | Frontend/api/chatService.ts:54 | Two lists carrying the key at the same positions give the same `findIndex`. |
| Keyed.FindWithKey | Frontend/api/chatService.ts:73-74 | `find`: the element at the position `findIndex` answers; a found element is in the list and carries the key; none exactly when no element carries it. |
| Keyed.WithoutKey | Frontend/api/chatService.ts:66 | `filter`: every kept element is in the list and lacks the key, every element lacking the key is kept, and the list never grows (also Frontend/Components/chat/ChatInterface.tsx:128). |
| Keyed.WithoutKeySingle | Frontend/api/chatService.ts:66 | On one element the filter keeps it exactly when its key differs. |
| Keyed.WithoutKeyAppend | Frontend/api/chatService.ts:66 | The filter of a concatenation is the concatenation of the filters. With the one-element case this fixes the kept elements, their order and their repetitions. |
| Keyed.WithoutAbsentKey | Frontend/api/chatService.ts:64-68 | Filtering by a key no element carries leaves the list equal. |
| Keyed.WithoutKeyIdempotent | Frontend/api/chatService.ts:66 | Filtering twice is filtering once. |
| Keyed.WithoutKeySplit | Frontend/Components/chat/ChatInterface.tsx:128 | Removing an element whose key no other element carries leaves the elements before and after it, in order. |
| ChatService.DeleteIdempotent | Frontend/api/chatService.ts:64-68 | Deleting twice is the same as deleting once. |
| ChatService.FindAfterDelete | Frontend/api/chatService.ts:64-75 | After a delete, `getChatById` finds nothing for that id. |
| ChatService.FindAfterCreate | Frontend/api/chatService.ts:39-49 | A session appended under an id no stored session has is what `getChatById` then returns for it. |
| ChatService.FindAfterUpdate | Frontend/api/chatService.ts:52-61 | After an update whose patch has no `id`, the id finds the merged session. |
| ChatService.FindOtherAfterUpdate | Frontend/api/chatService.ts:52-61 | After such an update, every other id finds what it found before. |
| ChatService.MergeMessagesOnly | Frontend/api/chatService.ts:56 | A patch carrying only `messages` replaces the message list and leaves every other key as stored. |
| ChatService.MergeIdempotent | Frontend/api/chatService.ts:56 | Applying the same patch twice gives the same session as applying it once. |
| LlmService.LlmGateway.constructor | Frontend/api/chatService.ts:79-82 | No current video id; the base URL is the configured one when non-empty, else `http://localhost:8000`. |
| LlmService.LlmGateway.SetVideoId | Frontend/api/chatService.ts:86-88 | The current video id becomes the given one. |
| LlmService.LlmGateway.GetVideoId | Frontend/api/chatService.ts:91-93 | Returns the current video id. |
| LlmService.ResolveVideoId | Frontend/api/chatService.ts:101-105 | The explicit id when non-empty, else the current one when non-empty, else none (the 'Video ID is required for chat' case). A resolved id is never empty. |
| LlmService.LlmGateway.InvokeLLM | Frontend/api/chatService.ts:96-148 | A request is sent exactly when an id resolves; otherwise the result is 'Video ID is required for chat'. The request carries the resolved id and the extracted question, and the result is the settled outcome of the reply. |
| LlmService.FirstQuestionMatch | Frontend/api/chatService.ts:109 | The leftmost position where `USER QUESTION:` occurs with at least one character after it; none when there is no such position. |
| LlmService.Capture | Frontend/api/chatService.ts:109 | The regex group after the marker is non-empty. It holds no newline unless it is made of whitespace only (the `\s*` backtracking case). |
| LlmService.ExtractQuestion | Frontend/api/chatService.ts:109-110 | Without a match the whole prompt is the question; with one, the question is trimmed and on one line. |
| LlmService.QuestionRoundTrip | Frontend/api/chatService.ts:109-110 | A prompt of marker-free text, the marker, one space, a trimmed non-empty one-line question, then a newline or the end, gives back exactly that question. |
| LlmService.NoMatchBefore | Frontend/api/chatService.ts:109 | No match starts inside a prefix that holds no marker, not even one overlapping the marker that follows. |
| LlmService.FirstMatchAfterPrefix | Frontend/api/chatService.ts:109 | After a marker-free prefix, the leftmost match is the marker that follows it. |
| LlmService.CaptureOfQuestion | Frontend/api/chatService.ts:109 | One space, then the question, then a newline or nothing: the group is the question. |
| LlmService.FailureDetail | Frontend/api/chatService.ts:125-127 | A non-2xx response always yields a non-empty message, and that message is the server's `detail` whenever the body carries a non-empty one. |
| LlmService.ChatOutcome | Frontend/api/chatService.ts:125-147 | Succeeds exactly for a 2xx reply. The answer is `{answer}` exactly when the caller's schema names `answer`, and the whole body otherwise. Every failure message starts with 'Backend API error: '. |
| LlmService.ChatErrorNamesDetail | Frontend/api/chatService.ts:142-146 | A failed chat request's message contains the server's detail, the status or the thrown message. |
| LlmService.TranscriptResult | Frontend/api/chatService.ts:151-189 | The transcript call never rejects. Title, transcript and duration come from the body when non-empty, else default to `YouTube Video <id>`, '' and `Unknown`. A failure gives the placeholder title and duration and a transcript starting 'Error fetching transcript: '. The title and duration are never empty. |
| LlmService.TranscriptErrorNamesDetail | Frontend/api/chatService.ts:180-187 | The placeholder transcript of a failed request contains the failure's detail. |
| LlmService.LlmGateway.GetVideoTranscript | Frontend/api/chatService.ts:151-189 | Returns `TranscriptResult`; the current video id becomes the requested one only after a successful response, and is otherwise unchanged. |
| ChatInterface.InitialMessages | Frontend/Components/chat/ChatInterface.tsx:11-19 | Never empty: the given messages when there are some, else the single greeting 'Hi! Ask me about this video.'. |
| ChatInterface.ChatPanel.constructor | Frontend/Components/chat/ChatInterface.tsx:20-22 | The panel starts with the initial messages, an empty input and no pending reply. |
| ChatInterface.ChatPanel.SyncInitialMessages | Frontend/Components/chat/ChatInterface.tsx:35-48 | The list is reset to the initial messages and the same list is reported to `onMessagesChange`. |
| ChatInterface.ChatPanel.SetInput | Frontend/Components/chat/ChatInterface.tsx:21 | The input becomes the typed text. |
| ChatInterface.ChatPanel.SubmitStart | Frontend/Components/chat/ChatInterface.tsx:50-66 | For a blank input or while a reply is pending, nothing changes and nothing is sent. Otherwise exactly one user message with the trimmed text is appended, the input is cleared and typing starts, all before the request. The prompt carrying that text is sent, and the new list is reported. |
| ChatInterface.ChatPanel.SubmitComplete | Frontend/Components/chat/ChatInterface.tsx:93-116 | On an answer, the list becomes the pre-submit list plus the user message and a reply whose `userQuestion` is the user's text; the list is reported. On an error, exactly one non-user error message without `userQuestion` is appended to the current list. Typing ends on both paths. |
| ChatInterface.PromptCarriesQuestion | Frontend/Components/chat/ChatInterface.tsx:69-82 | For a transcript whose text holds no marker, the gateway extracts from the built prompt exactly the trimmed one-line question the user typed. |
| ChatInterface.PromptAfter | Frontend/Components/chat/ChatInterface.tsx:76-82 | The text after the question starts with a newline, so the question's line ends there. |
| ChatInterface.ChatPanel.RegenerateStart | Frontend/Components/chat/ChatInterface.tsx:119-129 | For an unknown id, or a message without `userQuestion`, nothing changes. Otherwise the list becomes `Keyed.WithoutKey` of it by that id (every message with the id removed, the others in order), typing starts, and the question and the message's index are kept for the insertion. |
| ChatInterface.ChatPanel.RegenerateComplete | Frontend/Components/chat/ChatInterface.tsx:156-183 | On an answer, the new reply is inserted after the matching question; on an error, the fixed apology is appended. Typing ends on both paths. |
| ChatInterface.QuestionIndex | Frontend/Components/chat/ChatInterface.tsx:166 | The first index at or after the start position (the regenerated message's index minus one) holding a user message with the question's text; none when there is none. |
| ChatInterface.InsertAnswerAddsOne | Frontend/Components/chat/ChatInterface.tsx:163-173 | Insertion adds exactly the reply, as one more element. It goes right after the matching question, or at the end when there is none, and removing it gives the list back. |
| ChatInterface.RegenerateReplacesReply | Frontend/Components/chat/ChatInterface.tsx:119-173 | When the reply answers the user message just before it and its id is unique, regeneration puts the new reply exactly in the old reply's place. |
| ChatInterface.RegenerateOfferedAfterAnswer | Frontend/Components/chat/ChatInterface.tsx:236 | After a successful submit only the last message, the new reply, can be regenerated; after a failed one no message can. |
| ChatInterface.ChatPanel.ClearConversation | Frontend/Components/chat/ChatInterface.tsx:186-196 | The list becomes the single greeting and is reported. |
| ChatPage.Dispatch | Frontend/Pages/Chat.tsx:53-67 | A present `chatId` always loads that chat, even beside a `videoId`. With only a `videoId` a new chat is created. With neither the page goes home. |
| ChatPage.FormDecode | Frontend/Pages/Chat.tsx:53-54 | The decoding `searchParams.get` applies: never longer than its input, non-empty for a non-empty input, and the identity on text without `+` and `%`. |
| ChatPage.SingleParam | Frontend/Pages/Chat.tsx:53-54 | For a query of one `name=value` pair whose name needs no decoding, `get` gives the decoded value for that name and nothing for any other name. |
| ChatPage.VideoQueryCreates | Frontend/Pages/Chat.tsx:53-62 | The query `videoId=<id>` of an id without `&` has no `chatId`, so the page creates a chat for the decoded id. |
| ChatPage.HomeIdCreatesChat | Frontend/Pages/Home.tsx:104 | Start Chat navigates to `/chat?videoId=<id>`. The chat page finds no `chatId` there and creates a chat for the decoded id (Chat.tsx:53-62). That id is never empty, and it is the id itself when it holds no `+` and no `%`. |
| ChatPage.SharedLinkWithPlus | Frontend/Pages/Home.tsx:16 | The landing page reads `youtu.be/ab+cd` as the id `ab+cd`. |
| ChatPage.PlusDecodedToSpace | Frontend/Pages/Chat.tsx:54 | The chat page decodes that id to `ab cd`: the video the chat is created for is not the one the link named. |
| ChatPage.NewChatDraft | Frontend/Pages/Chat.tsx:102-123 | The draft always has the video id, no messages and the `maxresdefault` thumbnail, and never lacks a duration. When the transcript resolved, it carries that title and transcript and the duration, or '10:00' when empty. When it threw, the title is 'YouTube Video', the duration '10:00' and the transcript `Error: <message>`. |
| ChatPage.GatewayDraft | Frontend/Pages/Chat.tsx:99-109 | With the real gateway the draft keeps the title, transcript and duration it answered: the '10:00' default is never used. |
| ChatPage.ChatRouteKeepsId | Frontend/Pages/Chat.tsx:37 | A chat id without `?` survives the route builder whole: the page goes to `#/chat?chatId=<id>`. |
| ChatPage.NewChatRouteKeepsId | Frontend/Pages/Chat.tsx:37 | A created id whose random part has no `?` reaches the route whole. |
| ChatPage.ChatQueryLoads | Frontend/Pages/Chat.tsx:53-60 | The query `chatId=<id>` of an id without `&`, `+` or `%` loads the chat with that very id. |
| ChatPage.NewChatRouteLoads | Frontend/Pages/Chat.tsx:33-37 | The route a created chat navigates to is `#/chat?chatId=<id>`, and the page opened on it loads that chat, when the random part holds no `?`, `&`, `+` or `%`. |
| ChatPage.ChatPageView.constructor | Frontend/Pages/Chat.tsx:15-16 | The page starts loading, with no current chat and no navigation. |
| ChatPage.ChatPageView.LoadExistingChat | Frontend/Pages/Chat.tsx:70-89 | A stored chat becomes current, and when it names a video that video becomes the gateway's current one. An unknown id sends the page to Home and leaves the rest as it was. Loading ends on both paths. |
| ChatPage.ChatPageView.CreateNewChat | Frontend/Pages/Chat.tsx:91-128 | The video becomes current and its transcript is requested. The draft built from the answer is stored as one new session, and the page moves to that session's route with loading ended (the mutation's success handler, lines 33-37). |
| ChatPage.ChatPageView.Open | Frontend/Pages/Chat.tsx:53-67 | Going home leaves the store and the gateway alone. Loading never writes the store. Creating adds exactly one session, for the video, at the end of the store. |
| ChatPage.ChatPageView.HandleMessagesChange | Frontend/Pages/Chat.tsx:130-137 | Only a loaded chat is updated, and only with `{messages}` for its id; without one the store is untouched. |
| HomePage.ExtractVideoId | Frontend/Pages/Home.tsx:14-24 | A returned id is non-empty and holds no `&`, `?`, `#` or newline. The result is null exactly when neither pattern matches. |
| HomePage.UrlPatternFirst | Frontend/Pages/Home.tsx:15-22 | The URL pattern is tried first: when it matches, its capture is the result; otherwise the bare-id pattern decides. |
| HomePage.ShareLinkId | Frontend/Pages/Home.tsx:16 | After a URL prefix at the start, the id is the whole run of characters up to `&`, `?`, `#`, a newline or the end. |
| HomePage.BareId | Frontend/Pages/Home.tsx:17 | Eleven id characters alone are an id. With a trailing newline they are not, since JavaScript's `$` does not match before a final newline. |
| HomePage.ControlsFollowId | Frontend/Pages/Home.tsx:26-27 | The thumbnail exists, and Start Chat leads to `/chat?videoId=<id>`, exactly when an id was read (also lines 98-104). |
| PageUrl.CreatePageUrl | Frontend/utils.ts:6-12 | Every route starts with `#/`. |
| PageUrl.RouteParts | Frontend/utils.ts:8-11 | The page before the first `?` is lowercased. The text between the first and the second `?` follows after `?`, and only when it is non-empty. |
| PageUrl.SecondQuestionMarkDrops | Frontend/utils.ts:8 | Anything after a second `?` is dropped. |
| PageUrl.PageAndQuery | Frontend/utils.ts:8-11 | A page and a non-empty query without `?` give the lowercased page, `?`, and the query verbatim (so `Chat?videoId=123` gives `#/chat?videoId=123`). |
| PageUrl.PageThenRest | Frontend/utils.ts:8-11 | For a page without `?`, the query is the rest of the path up to its next `?`. |
| PageUrl.HomeExample | Frontend/utils.ts:3-4 | `Home` gives `#/home`. |
| PageUrl.EmptyQueryExample | Frontend/utils.ts:10 | `Chat?` gives `#/chat`: an empty query adds nothing, not even the `?`. |
| VideoIdPatterns.RunLength | Frontend/Pages/Home.tsx:16 | `[^&\n?#]+` is greedy: the run stops only at the end or at an excluded character. |
| VideoIdPatterns.TailMatch | config.py:21 | The captured tail is the maximal non-empty run `[^&\n?#]+`, or exactly eleven `[a-zA-Z0-9_-]` characters (`{11}`), whatever follows them. |
| VideoIdPatterns.AltIndex | config.py:21 | At one position, the alternatives of the group are tried in written order, and the first one followed by a tail match is taken. |
| VideoIdPatterns.MatchAt | config.py:21 | The pattern matches at a position exactly when one of the alternatives works there. |
| VideoIdPatterns.FirstMatchStart | utils.py:17 | `re.search` takes the leftmost position where the pattern matches. |
| VideoIdPatterns.MatchPrefixed | utils.py:17-19 | The capture of a prefixed pattern is the match at the leftmost working position, and none exactly when no position works. |
| VideoIdPatterns.MatchAnchored | config.py:22 | `^([a-zA-Z0-9_-]{11})$` matches exactly a whole input of eleven id characters, and, where `$` allows it, the same followed by one final newline; the capture is the eleven characters. |
| VideoIdPatterns.MatchPattern | utils.py:17-19 | Any capture has the tail's shape: a non-empty run of allowed characters, or eleven id characters. |
| VideoIdPatterns.FirstMatchingPattern | utils.py:16-19 | The index of the first pattern in the list that matches; none when no pattern matches. |
| VideoIdPatterns.FirstCapture | utils.py:16-21 | Some pattern's capture, or none exactly when no pattern matches. |
| VideoIdPatterns.UrlPatternMissesBareId | config.py:21 | Every URL prefix ends in `=` or `/`, so a bare id, with or without a final newline, never matches a URL pattern. |
| VideoIdPatterns.NoPrefixIn | config.py:21 | No URL prefix occurs in a text of id characters and newlines. |
| VideoIdPatterns.PrefixesExclusive | config.py:21 | At most one of the three URL prefixes occurs at any position. |
| VideoIdPatterns.PrefixAtStart | config.py:21 | A URL prefix at the very start followed by a tail match gives that tail as the capture. |
| VideoIdExtractor.NewExtractor | utils.py:10-12 | Given patterns replace the configured defaults, unless none or an empty tuple is given. |
| VideoIdExtractor.ExtractWith | utils.py:14-21 | A result is the capture of some pattern. The error 'Invalid YouTube URL or video ID' is raised exactly when no pattern matches. |
| VideoIdExtractor.DefaultIdShape | config.py:21-22 | With the default patterns every extracted id is exactly eleven `[A-Za-z0-9_-]` characters. |
| VideoIdExtractor.MainAgreesWithDefault | Backend/main.py:11-23 | The command-line extractor gives the same result as the default `VideoIDExtractor` on every input, so its ids are eleven id characters too. |
| VideoIdExtractor.ShareLinkId | config.py:21 | After a URL prefix at the start, exactly the next eleven id characters are returned, even when more id characters follow. |
| VideoIdExtractor.BareId | config.py:22 | Eleven id characters are accepted alone and with one trailing newline (Python's `$`), which is not part of the id. |
| VideoIdExtractor.FrontAndBackDiffer | Frontend/Pages/Home.tsx:16 | For a share link with more than eleven id characters, the page keeps the whole run while the back end takes the first eleven (config.py:21). |
| HybridRetriever.Dedup | Backend/retriever.py:40-61 | The merged list holds exactly the contents found by either search. |
| HybridRetriever.DedupNoRepeats | Backend/retriever.py:41-61 | The merged list holds each content once. |
| HybridRetriever.ElemsIn | Backend/retriever.py:41 | The `seen_content` set holds exactly the contents read so far. |
| HybridRetriever.KeywordStep | Backend/retriever.py:46-51 | One pass of the BM25 loop keeps the merge state: a new content is recorded and appended with `weights[0]`; a repeated one changes nothing. |
| HybridRetriever.VectorStepSeen | Backend/retriever.py:56-57 | A vector result already seen gains `weights[1]` on its score, and the list is unchanged. |
| HybridRetriever.VectorStepNew | Backend/retriever.py:58-61 | A new vector result is recorded and appended with `weights[1]`. |
| HybridRetriever.ScoresStep | Backend/retriever.py:54-61 | After a vector step every recorded score is the content's score over the longer vector list. |
| HybridRetriever.BonusCountsOccurrences | Backend/retriever.py:54-57 | Each vector occurrence of a content adds `weights[1]` once. |
| HybridRetriever.Retriever.constructor | Backend/retriever.py:29-32 | The retriever keeps the given weights and `k`. |
| HybridRetriever.Retriever.MergeKeywordResult | Backend/retriever.py:47-51 | One pass of the first loop keeps the merge state over one more BM25 result. |
| HybridRetriever.Retriever.MergeKeywordResults | Backend/retriever.py:41-51 | After the first loop, the set, the list and the scores are the merge of the BM25 results. |
| HybridRetriever.Retriever.MergeVectorResult | Backend/retriever.py:55-61 | One pass of the second loop keeps the merge state over one more vector result. |
| HybridRetriever.Retriever.MergeVectorResults | Backend/retriever.py:54-61 | After the second loop, the state is the merge of both result lists. |
| HybridRetriever.SortByRecordedScores | Backend/retriever.py:64 | Sorting by `doc_scores.get(content, 0)` is sorting by each content's score. |
| HybridRetriever.Retriever.GetRelevantDocuments | Backend/retriever.py:34-67 | The documents are the first `k` of the merged contents, stable-sorted by descending score. |
| HybridRetriever.TopK | Backend/retriever.py:67 | `combined_docs[:k]`: a prefix of at most `k` elements, or, for a negative `k`, all but the last `-k`. |
| HybridRetriever.RetrieveNoRepeats | Backend/retriever.py:40-67 | No two returned documents share their content. |
| HybridRetriever.RetrieveFromInputs | Backend/retriever.py:46-67 | Every returned document comes from the BM25 or the vector results. |
| HybridRetriever.RetrieveOrder | Backend/retriever.py:64-67 | The result is a prefix of the ranking. The ranking is sorted by descending score, and equal scores keep first-appearance order: BM25 order first, then new vector documents. |
| HybridRetriever.DefaultScore | Backend/retriever.py:31 | With the default weights and no repeats in the vector results, the score is 1.0 for both lists, 0.6 for vector only and 0.4 for BM25 only. |
| HybridRetriever.DefaultCategoryOrder | Backend/retriever.py:31-67 | Under the defaults, documents found by both searches come first, then vector-only ones, then BM25-only ones. |
| HybridRetriever.ContextHoldsDocs | Backend/retriever.py:113-125 | `get_context` gives "" for no documents and contains every document's content. |
| StableSort.SortDesc | Backend/retriever.py:64 | The sort returns a permutation of its input. |
| StableSort.SortDescSorted | Backend/retriever.py:64 | The sort orders by key, largest first (as does `listChats`, Frontend/api/chatService.ts:28-33). |
| StableSort.SortDescStable | Backend/retriever.py:64 | Stability: the elements of each key value keep their input order. |
| StableSort.SortDescConstantKey | Frontend/api/chatService.ts:28-33 | A comparator that always answers 0 leaves the list as it was. |
| StableSort.SortDescCongruent | Backend/retriever.py:64 | Keys that agree on every element sort the same way. |
| ApiServer.Server.constructor | Backend/api_server.py:33-36 | All three maps start empty. |
| ApiServer.Server.GetVideoTranscript | Backend/api_server.py:69-127 | A cached id is answered from the cache, with title `YouTube Video <id>` and duration `Unknown` as defaults, and nothing changes. Otherwise the index and chunks are stored and the joined transcript is cached and returned with the default title and duration. Any failure is a 500 'Error fetching transcript: …'. A cached transcript or chunk list always has its index in memory. |
| ApiServer.CacheReplaysFetch | Backend/api_server.py:77-125 | A later cached answer is exactly what the fetch that filled the cache answered. |
| ApiServer.ContainsAny | Backend/api_server.py:168 | `any(word in s …)`: true exactly when one of the phrases is a substring. |
| ApiServer.RetrievalK | Backend/api_server.py:167-169 | `k` is 10 exactly when the lowercased question contains one of the five summary phrases, else 5. |
| ApiServer.RetrievalKIgnoresCase | Backend/api_server.py:167-169 | The choice of `k` ignores case. |
| ApiServer.RetryK | Backend/api_server.py:178-183 | A retry happens exactly when the context, stripped of Python whitespace (which includes U+001C to U+001F), is shorter than 50 and the chunks are known and non-empty. It asks for `min(20, len(chunks))`, between 1 and 20. |
| ApiServer.BlankContextRetried | Backend/api_server.py:178 | An empty or all-blank context is always retried when chunks are known. |
| ApiServer.Server.ChatWithVideo | Backend/api_server.py:130-196 | An id neither in memory nor saved is a 404 'not processed', passed through unwrapped. A saved index is loaded into memory, with its chunks when their file reads. When the chunk file exists but cannot be read, the index stays in memory without chunks and the answer is a 500, so a later chat skips the load and never retries with more chunks. Every other failure is a 500 'Error processing chat: …'. An answer comes from the first context, or from the retried one when the retry condition holds, for the same id and question. |
| ApiServer.Server.DeleteVideoData | Backend/api_server.py:199-228 | The id is removed from all three maps, every other key is untouched, and an absent id is no error. |
| ApiServer.DeleteKeepsOthers | Backend/api_server.py:206-213 | Removing one id keeps every other id's entry as it was. |
| Text.Trim | Frontend/Components/chat/ChatInterface.tsx:52-56 | `trim()` with JavaScript's whitespace, and `strip()` (Backend/api_server.py:178) with Python's: the result is the input with a whitespace-only prefix and suffix cut off, with no whitespace at either end. A trimmed text is unchanged and an all-blank text is emptied. |
| Text.TrimIdempotent | Frontend/Components/chat/ChatInterface.tsx:56 | Trimming twice is trimming once. |
| Text.Lower | Frontend/utils.ts:9 | `toLowerCase()` lowercases each character in place. |
| Text.LowerIdempotent | Backend/api_server.py:167 | Lowercasing twice is lowercasing once. |
| Text.Split | Frontend/utils.ts:8 | `split('?')` always gives at least one part, and no part holds the separator. |
| Text.SplitFirst | Frontend/utils.ts:8 | The first part ends at the first separator; the other parts are the split of what follows it. |
| Text.JoinSplit | Frontend/utils.ts:8 | Joining the parts with the separator gives the text back. |
| Text.SplitJoin | Frontend/utils.ts:8 | Splitting a join of separator-free parts gives the parts back. |
| Text.ContainsIff | Backend/api_server.py:168 | A substring test holds exactly when the pattern occurs at some position. |
| Text.NatToStringDigits | Frontend/api/chatService.ts:43 | A number is rendered as decimal digits, with no leading zero. |

## Left out

- Network, HTTP and JSON. Each `fetch` and its parsed body are an input (`Reply`). FastAPI routing, CORS and the server start-up are not modelled.
- Browser storage and JSON serialisation. The slot is a field that holds a list, nothing, or text that is not JSON. The round trip through JSON is not modelled.
- Time and randomness. `Date.now()`, `Math.random()` and the message ids are parameters, so id uniqueness is only ever assumed.
- Date parsing. Creation dates are integer milliseconds, and a missing date counts as 0. An unparsable date (NaN in the comparator) is not modelled.
- Text. `trim` and `\s` use JavaScript's whitespace set (`Text.IsJsSpace`) and `strip()` uses Python's `str.isspace` set (`Text.IsPySpace`), one UTF-16 code unit or code point per `char`. `toLowerCase`/`lower` are modelled on ASCII letters only.
- ChatPage.FormDecode: a `%` escape becomes the one character of that code. The UTF-8 decoding of multi-byte escapes (such as `%C3%A9`) and the replacement character for invalid sequences are not modelled.
- `mockLLMResponse` is never called, and is not modelled.
- Non-`Error` throws. The fallback texts for thrown values that are not `Error`s are not modelled:
  - in `invokeLLM`, 'Failed to connect…';
  - in `handleSubmit`, 'I'm sorry, I encountered an error processing your question…'.

  The gateway always throws `Error`s, so these branches are unreachable from the modelled callers. `ChatPage.NewChatDraft` does model the non-`Error` demo transcript.
- Asynchronous interleaving.
  - Each handler is a start step and a completion step run in sequence.
  - React's batching of state updates, stale closures between overlapping requests, and the mutation library's scheduling are not modelled.
  - `handleRegenerate` reads `messageIndex` from the list that the removal acts on.
- `createChat` failure. The mutation's error handler (an alert) is not modelled, because storing cannot fail in the model.
- The `loadExistingChat` catch branch is not modelled, because reading the store never throws.
- ChatPage.ChatPageView.Open: its contract for the load path states only that the store is not written and that either the found chat is current or the page goes home. The full effect is stated by `ChatPage.ChatPageView.LoadExistingChat`.
- ChatPage.ChatPageView.CreateNewChat: the page records the path it hands to `createPageUrl`, not the resulting `href`. `ChatPage.ChatRouteKeepsId` relates the two.
- Rendering and components. Rendering, animation, the theme preference and the presentational components are not modelled.
- Retriever libraries. The language model, the embeddings, the BM25/FAISS construction and the `EnsembleRetriever` branch of `create_compressed_retriever` are not modelled. The two searches' results are inputs, and documents are their `page_content` only (metadata is dropped).
- `ApiServer.Server.ChatWithVideo`: the retriever and the model are the function parameters `contextFor` and `answerFor`. It is not tied to `HybridRetriever`, because the chat handler may receive the ensemble or vector-only retriever.
- Retriever weights. They are reals rather than Python floats. The length of the weights list is not modelled: two named weights replace it.
- Disk persistence. The server's disk copies (`save_local`, `pickle`, `load_local`, `rmtree`, `unlink`) are an input (`SavedIndex`, `ChunksFile`, `Pipeline.saveError`). The disk side of delete, and its 500 error, are not modelled.
- Transcript pipeline. Fetching, splitting and embedding the transcript are inputs.
- Interactive loops. The `input()` loop of the command-line scripts is not modelled.
- Regex shapes. Only the regular-expression shapes these extractors use are modelled: a prefixed alternative with a tail, and an anchored id. Patterns given to `VideoIDExtractor` must take those shapes.
