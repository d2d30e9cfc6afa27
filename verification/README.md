# Harness-mem: verified models of its stateful and algorithmic core

This project models the parts of harness-mem whose behaviour is easiest to get wrong, and proves what they
promise. Each module stands beside one component of the repository; loops are methods with invariants,
objects and hooks that update their fields are classes, and every such method is proved equal to a
specification function, about which the theorems are then stated.

| module | component | main results |
|---|---|---|
| `FeedMerge` | merging feed items | congruence on concatenation, page by page equals all at once, what every field of a merged item holds |
| `FeedClient` | the feed pagination hook | request discipline, page chaining, no leak between cache keys, loading flag, progress of load-more, over every run |
| `EventStream` | event recorder and `/v1/stream` | exactly-once delivery exactly when no poll comes too late, what a client may see, progress, reconnects |
| `SseWire` | the chunk encoder | round trip through an event-stream parser; what a client learns, also across a reconnect |
| `FeedViews` | collapsing and grouping of cards | lossless, unique greedy partitions; when adjacent groups differ |
| `ConversationTurns` | turn building | turns of a session depend on that session only; conservation |
| `ProjectsReload` | reload coalescing | single flight, no request lost, settles in four steps |
| `CaseSelection` | round-robin case selection | size, prefixes, fairness, order of the categories |
| `ProjectLabels` | project display names | when labels are unique, and which label a project gets |
| `ManagedBlock` | managed block in a configuration file | exactly when a second write leaves no trace of the first; put-get |
| `TomlReader`, `ManagedSettings` | what a TOML reader finds in that block | escaping and block read back exactly, if no value has a line break |
| `RetrievalScores`, `RetrievalVectors` | ranking signals | meaning and range of idf, overlap, vectors, cosine (Cauchy-Schwarz) |
| `RetrievalGraph`, `RetrievalRanking` | graph scores and ranking | indexed scores equal a scan, what a ranking holds and in which order, corpus order does not matter, score bounds |
| `JsText`, `RealArithmetic` | shared string primitives, products and quotients of reals | |

## Results that differ from what one might expect

- Event stream: the recorder keeps the last 600 events, so delivery is complete exactly when no poll finds
  an unread, unskipped event already evicted (`EventStream.Delivery`); `FallingBehindLoses` gives a case.
- Reconnecting before any event was delivered, without replay, starts at the newest event; the output stays
  complete exactly when nothing in between passes the filter (`EventStream.ReconnectWithoutId`).
- Feed cache keys: two selections can share a key and still filter differently. The pairs that do are exactly
  `__all__` with any other spelling of it that normalises to `__all__` (`FeedClient.SharedKeyFilters`); such
  spellings end in a slash or a backslash or have a space in front, for example (`SpellingsOfAll`).
- Session groups: a group opened by an item with an empty session id is not joined by the next item without
  a session, so two adjacent groups can share a key; `FeedViews.AdjacentGroupsDiffer` says exactly when.
- Project labels are unique exactly when no rewritten label meets another project's
  (`ProjectLabels.LabelsAreUniqueExactly`, for every list). For trimmed names with a stable normal form that
  comes down to path-like projects that differ in normal form (`LabelsAreUnique`). Neither half of that domain
  can be dropped: `UntrimmedNamesCollide` and `UnstableNamesCollide` give lists whose labels collide.
- Managed block: a second write is the same as writing once exactly if the file is left alone, or if the values
  of the first block hold no end marker and the text has a well-formed block or else words and no marker
  (`ManagedBlock.PutPutExactly`). Blank text (no blank line before the first block), a lone begin marker (the
  text behind it is lost), an end marker before the begin marker (the block is no longer found) and an end
  marker in a value (the rest of the block stays behind as text) all fail.
- Managed block: a value with a line break makes the block unreadable as TOML, since only backslashes and quotes
  are escaped (`ManagedSettings.BlockReads`).

## Model

| member | source | states |
|---|---|---|
| FeedMerge.MergeStringArray | harness-mem-ui/src/lib/merge.ts:13-26 | the loop with its set of seen values computes the merge of both lists |
| FeedMerge.MergedStringsMeaning | harness-mem-ui/src/lib/merge.ts:13-26 | a merged tag list holds exactly the non-empty strings of both lists, each once, in order of first occurrence |
| FeedMerge.MergedStringsAssociative | harness-mem-ui/src/lib/merge.ts:13-26 | merging tag lists is associative |
| FeedMerge.TakeStringAssociative | harness-mem-ui/src/lib/merge.ts:3-11 | preferring the first non-blank string is associative, blank and missing values included |
| FeedMerge.MergeItemAssociative | harness-mem-ui/src/lib/merge.ts:28-47 | merging feed items is associative in every field |
| FeedMerge.MergeFeedItems | harness-mem-ui/src/lib/merge.ts:49-69 | the loop over index map and growing list computes the specification, for both orders |
| FeedMerge.MergeIntoIds | harness-mem-ui/src/lib/merge.ts:54-66 | the ids of a merge are the first occurrences of the ids that went in, the empty id dropped |
| FeedMerge.MergeCongruence | harness-mem-ui/src/lib/merge.ts:49-69 | either part of a concatenation may be merged beforehand; merging twice is merging once |
| FeedMerge.PageByPage | harness-mem-ui/src/lib/merge.ts:49-69 | accumulating any number of pages one at a time equals one merge of them all |
| FeedMerge.ItemIsFold | harness-mem-ui/src/lib/merge.ts:59-65 | each merged item is the left fold of the occurrences of its id in order of arrival |
| FeedMerge.MergedText | harness-mem-ui/src/lib/merge.ts:3-11 | each of the eleven text fields of a merged item holds the first value that is not blank among those that arrived under its id, or else the first present one |
| FeedMerge.MergedExtra | harness-mem-ui/src/lib/merge.ts:29-31 | every other property has the value of the earliest occurrence that has it |
| FeedMerge.MergedTags | harness-mem-ui/src/lib/merge.ts:44-46 | the tags and privacy tags of an item that came more than once are the non-empty ones of all its occurrences, each once, in order of first occurrence; an item that came once stays as it is |
| FeedMerge.OccurrencesFirst | harness-mem-ui/src/lib/merge.ts:59-65 | the occurrences that are folded begin with the first item of that id |
| FeedMerge.FirstOccurrenceOrder | harness-mem-ui/src/lib/merge.ts:54-66 | output ids are non-empty, distinct, exactly those present, in order of first occurrence |
| FeedMerge.AppendKeepsPositions | harness-mem-ui/src/lib/merge.ts:49-69 | appending keeps every present id at its position and adds exactly the unseen ids behind them |
| FeedMerge.ShownTextSurvives | harness-mem-ui/src/lib/merge.ts:3-11 | a text field that is not blank on screen stays as it is when a further page is appended |
| FeedMerge.PrependMovesToFront | harness-mem-ui/src/lib/merge.ts:49-69 | a live item goes to the front, merged over what was known of it, and the other ids keep their order |
| FeedMerge.NormalizeFixes | harness-mem-ui/src/lib/merge.ts:49-69 | a list with distinct non-empty ids is its own merge |
| FeedClient.RunInv | harness-mem-ui/src/hooks/useFeedPagination.ts:139-287 | requests, lists and provenance invariants hold after every interleaving of renders, load-mores, responses and live items |
| FeedClient.RequestDiscipline | harness-mem-ui/src/hooks/useFeedPagination.ts:139-204 | a non-null controller belongs to the newest request, un-aborted and pending; every other pending request is aborted; commits happen in issue order |
| FeedClient.StaleResponseIsInert | harness-mem-ui/src/hooks/useFeedPagination.ts:167-201 | the response to an aborted or overtaken request changes nothing |
| FeedClient.PagesChain | harness-mem-ui/src/hooks/useFeedPagination.ts:139-264 | the list on screen is one merge of the live items since its first page, its seed before that, and its pages; the pages chain cursor to next cursor, so nothing is missing, repeated or added |
| FeedClient.AppendCommitsAtItsCursor | harness-mem-ui/src/hooks/useFeedPagination.ts:171-187 | a page that can still commit was asked for with the cursor the refs hold; appending keeps the list and adds exactly the fetched ids, a first page replaces it |
| FeedClient.LiveSurvivesAppend | harness-mem-ui/src/hooks/useFeedPagination.ts:171-187 | a live item taken in while a load-more is in flight survives its commit whatever happens in between while the request stays current: the list is one merge with the item in its place, the commit keeps every id at its position, and the cache agrees |
| FeedClient.NoLeak | harness-mem-ui/src/hooks/useFeedPagination.ts:57-79 | every item on screen or cached under a key is a merge of items that arrived under that key by a response, an accepted live item or a filtered seed; the active cache entry equals the refs |
| FeedClient.LoadingNeverStuck | harness-mem-ui/src/hooks/useFeedPagination.ts:149-201 | loading is up exactly while the newest request is a foreground one pending and un-aborted, and settling it clears the flag |
| FeedClient.LoadMoreAsks | harness-mem-ui/src/hooks/useFeedPagination.ts:259-264 | in every reachable state with a further page, a cursor and no request under way, load-more issues one foreground append request for that cursor and the current selection and raises loading; in every other state it changes nothing |
| FeedClient.PageArrives | harness-mem-ui/src/hooks/useFeedPagination.ts:171-201 | a page for the request under way replaces the list, or is merged behind it if asked for as more; cursor, further pages, cache entry and flags follow, and nothing else changes |
| FeedClient.LoadMoreProgresses | harness-mem-ui/src/hooks/useFeedPagination.ts:159-264 | load-more and the page that answers it make the pages of the list the old ones and that page |
| FeedClient.FailureArrives | harness-mem-ui/src/hooks/useFeedPagination.ts:188-201 | a failure of the request under way sets the error, ends the request and leaves list, cursor and cache alone |
| FeedClient.RenderAsks | harness-mem-ui/src/hooks/useFeedPagination.ts:206-257 | every enabled render aborts the request under way, shows the cache entry, else the seed, else nothing, and issues one request without a cursor, in the foreground only if there is neither entry nor seed |
| FeedClient.RenderClears | harness-mem-ui/src/hooks/useFeedPagination.ts:206-257 | a disabled render aborts the request under way and clears everything but the cache |
| FeedClient.LiveArrives | harness-mem-ui/src/hooks/useFeedPagination.ts:266-287 | a live item is merged in at the front, on screen and in the cache, exactly if it has an id, its project matches, and it is neither private nor sensitive unless those are shown |
| FeedClient.ShownTextStays | harness-mem-ui/src/hooks/useFeedPagination.ts:171-174 | text that can be read on screen is not changed by a page that comes in as more |
| FeedClient.ProjectMatchesMeaning | harness-mem-ui/src/hooks/useFeedPagination.ts:31-44 | a selection shows a project if their keys are equal and non-empty or one is an ancestor directory of the other; all-projects shows every item |
| FeedClient.NormalFormMeaning | harness-mem-ui/src/hooks/useFeedPagination.ts:24-29 | the key of a project is the text without white space around it and slashes or backslashes behind it, slashes for backslashes |
| FeedClient.ResolvedMeaning | harness-mem-ui/src/hooks/useFeedPagination.ts:46-51 | the project of an item is its canonical project unless that is blank |
| FeedClient.FilterAdds | harness-mem-ui/src/hooks/useFeedPagination.ts:70 | the seed filter goes item by item and keeps the order |
| FeedClient.CacheKeySeparates | harness-mem-ui/src/hooks/useFeedPagination.ts:57-60 | two selections share a key exactly when privacy, limit and normalised project agree |
| FeedClient.SharedKeyFilters | harness-mem-ui/src/hooks/useFeedPagination.ts:31-60 | two selections share a key and filter differently exactly when privacy and limit agree and one is the all-projects selection and the other another spelling of it |
| FeedClient.SpellingsOfAll | harness-mem-ui/src/hooks/useFeedPagination.ts:24-60 | there are such spellings: with a trailing slash, a trailing backslash or a leading space |
| FeedClient.FeedHook.constructor | harness-mem-ui/src/hooks/useFeedPagination.ts:95-109 | the initial refs are the initial state of the protocol |
| FeedClient.FeedHook.AbortCurrent | harness-mem-ui/src/hooks/useFeedPagination.ts:145-147 | exactly the controller's request becomes aborted |
| FeedClient.FeedHook.Fetch | harness-mem-ui/src/hooks/useFeedPagination.ts:139-157 | the part of `fetchPage` before its await, equal to the protocol's fetch |
| FeedClient.FeedHook.ApplyCacheEntry | harness-mem-ui/src/hooks/useFeedPagination.ts:130-137 | the refs become the entry, with the flags the effect sets beside it |
| FeedClient.FeedHook.CleanupEffect | harness-mem-ui/src/hooks/useFeedPagination.ts:251-256 | the cleanup aborts and forgets the controller |
| FeedClient.FeedHook.RunEffect | harness-mem-ui/src/hooks/useFeedPagination.ts:206-249 | the effect body in all four cases: disabled, cached, seeded, empty |
| FeedClient.FeedHook.ClearOut | harness-mem-ui/src/hooks/useFeedPagination.ts:207-222 | the effect while disabled |
| FeedClient.FeedHook.ApplySeed | harness-mem-ui/src/hooks/useFeedPagination.ts:232-237 | a seed is shown with no cursor and no further pages |
| FeedClient.FeedHook.ApplyNothing | harness-mem-ui/src/hooks/useFeedPagination.ts:240-246 | the refs are emptied before a foreground first page |
| FeedClient.FeedHook.RenderEffect | harness-mem-ui/src/hooks/useFeedPagination.ts:206-257 | a key switch, refresh, enable or disable is one step of the protocol and keeps the class invariant |
| FeedClient.FeedHook.LoadMore | harness-mem-ui/src/hooks/useFeedPagination.ts:259-264 | load-more with its guards is one step of the protocol, the one LoadMoreAsks describes |
| FeedClient.FeedHook.StorePage | harness-mem-ui/src/hooks/useFeedPagination.ts:171-187 | the refs and the cache entry of a page that commits |
| FeedClient.FeedHook.CommitPage | harness-mem-ui/src/hooks/useFeedPagination.ts:171-187 | the commit of a page, with the record of what the list is made of |
| FeedClient.FeedHook.Finish | harness-mem-ui/src/hooks/useFeedPagination.ts:194-201 | the `finally` block |
| FeedClient.FeedHook.Settle | harness-mem-ui/src/hooks/useFeedPagination.ts:159-202 | the continuation after the await, for a page and for a failure, is one step of the protocol |
| FeedClient.FeedHook.PrependLiveItem | harness-mem-ui/src/hooks/useFeedPagination.ts:266-287 | taking in a live item, with its three guards, is one step of the protocol |
| EventStream.EventRecorder.constructor | memory-server/src/core/event-recorder.ts:354-357 | a recorder starts with nothing logged |
| EventStream.EventRecorder.Append | memory-server/src/core/event-recorder.ts:373-388 | an append takes the next id, and the buffer stays the last 600 events of the log |
| EventStream.EventRecorder.LatestId | memory-server/src/core/event-recorder.ts:401-404 | the latest id is the length of the log |
| EventStream.PollReads | memory-server/src/core/event-recorder.ts:390-399 | a read returns the oldest retained events after the cursor, ascending, up to the batch limit |
| EventStream.StreamConnection.constructor | memory-server/src/server.ts:991-1106 | start cursor, ready chunk, health chunk and first emission of a connection |
| EventStream.StreamConnection.EmitHealthChange | memory-server/src/server.ts:1056-1076 | a health chunk is sent exactly when the signature changed |
| EventStream.StreamConnection.EmitEvents | memory-server/src/server.ts:1078-1094 | the loop sends the unskipped events of the batch and moves the cursor past all of them |
| EventStream.StreamConnection.PollTick | memory-server/src/server.ts:1108-1113 | a poll emits unless the stream is closed |
| EventStream.StreamConnection.HeartbeatTick | memory-server/src/server.ts:1115-1121 | a heartbeat sends a health change if any and a ping, unless closed |
| EventStream.StreamConnection.Close | memory-server/src/server.ts:1006-1024 | closing stops both timers and closes the controller, once; cursor and output stay |
| EventStream.StreamConnection.Cancel | memory-server/src/server.ts:1123-1133 | cancelling stops both timers and leaves the controller to its reader |
| EventStream.SliceMeaning | memory-server/src/server.ts:1078-1094 | the range used in the delivery theorems holds exactly the events with start < id <= last |
| EventStream.OpeningPolls | memory-server/src/server.ts:1096-1106 | opening a connection is connecting and polling once |
| EventStream.ConnectedFresh | memory-server/src/server.ts:991-1105 | a connection about to poll for the first time has delivered nothing and its cursor is its start |
| EventStream.RunInv | memory-server/src/server.ts:1028-1121 | over any run, what was delivered and what was lost together account for the whole range read |
| EventStream.LostNothing | memory-server/src/core/event-recorder.ts:384-386 | nothing is lost exactly when every poll of the run was covered |
| EventStream.Delivery | memory-server/src/server.ts:1028-1113 | ids strictly increase, only unskipped events of the range are sent, and all of them are exactly when every poll was covered |
| EventStream.CompleteDelivery | memory-server/src/server.ts:1028-1113 | a covered run delivers exactly the unskipped events with start < id <= last, in order, once each |
| EventStream.OnlyVisibleDelivered | memory-server/src/server.ts:1028-1094 | in every run, a delivered chunk is tagged neither private nor sensitive unless asked for, is of a selected project if it names one, and of the type asked for if it is an observation or the end of a session; it carries an event of the range |
| EventStream.VisibleIsDelivered | memory-server/src/server.ts:1028-1094 | if every poll was covered, each event of the range that meets these conditions is delivered with its id, its kind and all its fields, a canonical project name added only where it was missing |
| EventStream.CoveredMeaning | memory-server/src/core/event-recorder.ts:384-386 | a poll loses nothing exactly when no unread event outside the last 600 meets these conditions |
| EventStream.RecorderReads | memory-server/src/core/event-recorder.ts:390-399 | a read returns the oldest of the last 600 events behind the cursor, as many as the limit, clamped to 1 to 500, allows |
| EventStream.ConnectedMeaning | memory-server/src/server.ts:991-1106 | a connection starts at the id asked for, or at the newest event without an id and without replay, and first sends the ready chunk and its health |
| EventStream.ReplayFromFirstRetained | memory-server/src/server.ts:991-997 | with replay and no id a connection delivers, within three polls, all retained events the filter lets through, from the first on |
| EventStream.HeartbeatMeaning | memory-server/src/server.ts:1115-1121 | an open stream's heartbeat sends the health if its signature changed, then a ping; a closed one sends nothing |
| EventStream.ClosedIsSilent | memory-server/src/server.ts:1006-1133 | nothing is sent on a closed connection, whatever follows |
| EventStream.PollAdvances | memory-server/src/server.ts:1078-1113 | a poll of an open stream moves a cursor that is behind by 200 events, or to the end of the log |
| EventStream.PollsCatchUp | memory-server/src/server.ts:1108-1113 | enough polls of an open stream bring its cursor to the end of the log |
| EventStream.CaughtUp | memory-server/src/server.ts:1028-1113 | once appends cease, a covered connection left open has delivered every due event of the log |
| EventStream.KeepingUpIsCovered | memory-server/src/core/event-recorder.ts:384-386 | a connection at most 600 events behind loses nothing |
| EventStream.FallingBehindLoses | memory-server/src/core/event-recorder.ts:384-386 | 601 events between two polls do lose one |
| EventStream.Reconnect | memory-server/src/server.ts:989-997 | reconnecting with the same filters and a positive last delivered id makes the two outputs concatenate without loss or duplicate |
| EventStream.ReconnectWithoutId | memory-server/src/server.ts:991-997 | without a delivered id and without replay the outputs are complete exactly when nothing in between passes the filter |
| SseWire.ToSseChunk | memory-server/src/server.ts:343-352 | pushing lines and joining them writes the encoding of the chunk |
| SseWire.ChunkRoundTrip | memory-server/src/server.ts:343-352 | parsing one chunk by sections 9.2.5 and 9.2.6 of the WHATWG HTML Living Standard dispatches its event and data, and moves the last event id only if it carried one |
| SseWire.WireRoundTrip | memory-server/src/server.ts:343-352 | parsing any concatenation of chunks gives back the same messages in order |
| SseWire.ClientIdIsLastDelivered | memory-server/src/server.ts:1075-1120 | the client's last event id is the id of the last chunk that carried one: pings, health and ready chunks do not move it |
| SseWire.MovingIsDelivered | memory-server/src/server.ts:1084-1120 | the messages that move the client's last event id are just the delivered events, with their ids |
| SseWire.ClientReceivesDueEvents | memory-server/src/server.ts:1028-1120 | a client that parses a covered connection takes from those messages exactly the due events, in order, once each |
| JsText.ParseDecimal | memory-server/src/server.ts:332-341 | reading back a number that was written into an id line gives that number |
| SseWire.ClientResumes | memory-server/src/server.ts:989-997 | reconnecting with the last event id it parsed, a client has in the end exactly the due events of the whole range, none lost or repeated |
| FeedViews.CollapseClaudeToolUseItems | harness-mem-ui/src/components/FeedPanel.tsx:302-350 | the index and cursor loops compute the tool-use pass of the specification |
| FeedViews.CollapseConsecutiveSameCards | harness-mem-ui/src/components/FeedPanel.tsx:352-383 | the index and cursor loops compute the same-card pass of the specification |
| FeedViews.RunsGreedy | harness-mem-ui/src/components/FeedPanel.tsx:302-383 | the runs partition the input in order, every run obeys its pairing rule and none can be extended |
| FeedViews.GreedyUnique | harness-mem-ui/src/components/FeedPanel.tsx:302-383 | there is only one such partition |
| FeedViews.CollapsedShowsRuns | harness-mem-ui/src/components/FeedPanel.tsx:341-345 | the output shows the runs one by one: short ones verbatim, long ones as their summary |
| FeedViews.CollapseMeaning | harness-mem-ui/src/components/FeedPanel.tsx:302-383 | any partition that obeys the rules determines the output of the pass |
| FeedViews.CollapseInFields | harness-mem-ui/src/components/FeedPanel.tsx:244-383 | the list falls into runs, linked card by card and not extensible: tool use of one project and session at most three minutes after the card before, or the same card at most three minutes from the head; runs of four, or of two, and more become one card each, shorter ones stay |
| FeedViews.SummaryMeaning | harness-mem-ui/src/components/FeedPanel.tsx:302-383 | every card on screen is one of the list or stands for such a run of at least four, or two, of its cards |
| FeedViews.SummaryNames | harness-mem-ui/src/components/FeedPanel.tsx:202-300 | id, title and platform of a summary tell which card it replaces and how many |
| FeedViews.CollapseLossless | harness-mem-ui/src/components/FeedPanel.tsx:302-383 | both passes in a row keep every card, in order and once, summaries unfolded |
| FeedViews.GroupBySession | harness-mem-ui/src/components/FeedPanel.tsx:398-418 | the loop computes the groups of the specification |
| FeedViews.GroupsFlatten | harness-mem-ui/src/components/FeedPanel.tsx:398-418 | groups flatten back to the input and never mix sessions |
| FeedViews.AdjacentGroupsDiffer | harness-mem-ui/src/components/FeedPanel.tsx:400-414 | adjacent groups have different keys exactly when no empty session id opens a run of items without a session |
| ConversationTurns.BuildConversationTurns | harness-mem-ui/src/components/FeedPanel.tsx:420-450 | the loop with its map of pending state computes the turns of the specification |
| ConversationTurns.PendingProjects | harness-mem-ui/src/components/FeedPanel.tsx:425-427 | the pending state of a session depends on that session's items only |
| ConversationTurns.TurnsProject | harness-mem-ui/src/components/FeedPanel.tsx:420-450 | the turns of one session of an interleaved feed are the turns built from its items alone |
| ConversationTurns.AfterLastPromptMeaning | harness-mem-ui/src/components/FeedPanel.tsx:429-439 | where the window of a prompt begins: behind the session's previous prompt |
| ConversationTurns.TurnWindow | harness-mem-ui/src/components/FeedPanel.tsx:429-446 | a prompt's turn holds, reversed, the responses of its own session since that session's previous prompt, and counts the rest as hidden |
| ConversationTurns.TurnsInFields | harness-mem-ui/src/components/FeedPanel.tsx:140-149 | the prompt of every turn is a user prompt and no system envelope, and every response has one of the two assistant markers and is of the prompt's session |
| ConversationTurns.PromptHasTurn | harness-mem-ui/src/components/FeedPanel.tsx:146-149 | every user prompt that is no system envelope has a turn |
| ConversationTurns.ResponsesMeaning | harness-mem-ui/src/components/FeedPanel.tsx:140-144 | the responses of a window are exactly its items with an assistant marker |
| ConversationTurns.SessionKeyMeaning | harness-mem-ui/src/components/FeedPanel.tsx:424-425 | items share a session if their ids agree, a missing and an empty id both standing for none, for ids other than the mark for none |
| ConversationTurns.Conservation | harness-mem-ui/src/components/FeedPanel.tsx:420-450 | prompts, responses, hidden counts and leftover pending add up to the number of items |
| ConversationTurns.JoinsAtMostOnce | harness-mem-ui/src/components/FeedPanel.tsx:429-444 | a response joins at most one turn, and none while it is pending |
| ProjectsReload.RunInv | harness-mem-ui/src/app/App.tsx:105-136 | the reload invariant holds after every run of schedules, calls, timers and load ends |
| ProjectsReload.NoRequestLost | harness-mem-ui/src/app/App.tsx:105-136 | at most one load runs; a request without a later load start has a timer set or a load in flight with the pending flag; at rest none is left |
| ProjectsReload.LoadsBounded | harness-mem-ui/src/app/App.tsx:113-117 | at most two loads start per request |
| ProjectsReload.Settles | harness-mem-ui/src/app/App.tsx:105-136 | once requests cease at most four timer or load events follow, and then every request is served and loading is off |
| ProjectsReload.RequestsAreAnswered | harness-mem-ui/src/app/App.tsx:105-136 | a stream event, a call or a due timer during a load makes another start when it ends; at rest a call starts one and a stream event sets the timer, which starts one when it fires |
| ProjectsReload.OnlyCallsShowLoading | harness-mem-ui/src/app/App.tsx:87-136 | loads that the timer starts and loads that follow another run in the background and never raise loading, nor does a stream event; a direct foreground call does, if none runs |
| ProjectsReload.App.constructor | harness-mem-ui/src/app/App.tsx:105-136 | the initial refs |
| ProjectsReload.App.StartLoad | harness-mem-ui/src/app/App.tsx:111-116 | one pass of the do-while up to its await |
| ProjectsReload.App.RunProjectsLoad | harness-mem-ui/src/app/App.tsx:105-115 | a call during a load only sets the pending flag, otherwise it starts a load |
| ProjectsReload.App.CallRunProjectsLoad | harness-mem-ui/src/app/App.tsx:105-121 | a direct call is one step of the model |
| ProjectsReload.App.ScheduleProjectsLoad | harness-mem-ui/src/app/App.tsx:123-136 | scheduling is one step of the model; a set timer is kept |
| ProjectsReload.App.TimerFired | harness-mem-ui/src/app/App.tsx:130-133 | the timer callback is one step of the model |
| ProjectsReload.App.LoadSettled | harness-mem-ui/src/app/App.tsx:115-120 | the continuation after the await: another pass if pending, else the `finally` |
| CaseSelection.BuildBuckets | scripts/bench-cold-warm-locomo.ts:170-194 | each bucket holds its category's cases in order, and the keys are in order of first occurrence |
| CaseSelection.SelectSingleQaCases | scripts/bench-cold-warm-locomo.ts:169-215 | the nested loops terminate and select the first `limit` cases of the full round-robin order |
| CaseSelection.OrderedIsPermutation | scripts/bench-cold-warm-locomo.ts:196-199 | the categories visited are the bucket keys, each once |
| CaseSelection.SortAscending | scripts/bench-cold-warm-locomo.ts:198 | categories outside the fixed list come in ascending order |
| CaseSelection.PositionIsPrefix | scripts/bench-cold-warm-locomo.ts:202-212 | every state of the loop has selected a prefix of the full order |
| CaseSelection.SelectionSize | scripts/bench-cold-warm-locomo.ts:201-214 | exactly max(0, min(limit, total)) cases are selected |
| CaseSelection.LimitMonotone | scripts/bench-cold-warm-locomo.ts:201-214 | a smaller limit selects a prefix of what a larger one does |
| CaseSelection.Fairness | scripts/bench-cold-warm-locomo.ts:202-212 | a prefix of each queue is taken, and two counts differ by two or more only if the smaller category is exhausted |
| CaseSelection.EarlierFirst | scripts/bench-cold-warm-locomo.ts:196-212 | in every selection a category that comes earlier, as the fixed list has it and then by name, has at least as many cases as a later one, or all it has |
| CaseSelection.LexLessMeaning | scripts/bench-cold-warm-locomo.ts:198 | the order of names: a proper prefix, or the smaller character at the first difference |
| ProjectLabels.Split | harness-mem-ui/src/lib/project-label.ts:5-7 | the pieces of a split hold no slash and join back to the text |
| ProjectLabels.Tally | harness-mem-ui/src/lib/project-label.ts:69-72 | the counting loop gives every listed name its number of occurrences |
| ProjectLabels.CountBaseNames | harness-mem-ui/src/lib/project-label.ts:44-51 | base names of all projects and how often each occurs |
| ProjectLabels.AssignFirstLabels | harness-mem-ui/src/lib/project-label.ts:53-67 | the labels of the first stage, by project in insertion order |
| ProjectLabels.CountLabels | harness-mem-ui/src/lib/project-label.ts:69-72 | how many projects have each first label |
| ProjectLabels.BuildProjectDisplayNameMap | harness-mem-ui/src/lib/project-label.ts:43-81 | both stages: the map has the projects as keys and each final label, rewritten exactly when its first label clashes |
| ProjectLabels.BaseIsLastSegment | harness-mem-ui/src/lib/project-label.ts:17-33 | for a trimmed name with a stable, non-empty normal form the base name is the last segment of that form |
| ProjectLabels.TailHasLastTwoSegments | harness-mem-ui/src/lib/project-label.ts:35-41 | the tail of depth two has just the last two segments |
| ProjectLabels.LabelShowsBase | harness-mem-ui/src/lib/project-label.ts:53-78 | for a trimmed name with a stable, non-empty normal form the label's last segment is the base name, at either stage |
| ProjectLabels.ClashMeansAnother | harness-mem-ui/src/lib/project-label.ts:69-78 | a first label is counted more than once exactly when another project has it |
| ProjectLabels.EqualLabelsShareBase | harness-mem-ui/src/lib/project-label.ts:53-78 | if all names are trimmed and have a stable normal form, equal final labels come from equal base names |
| ProjectLabels.RewriteMissesOthers | harness-mem-ui/src/lib/project-label.ts:74-78 | if all names are trimmed and have a stable normal form, a rewritten label never meets an untouched one of the same base name |
| ProjectLabels.UnsharedLabel | harness-mem-ui/src/lib/project-label.ts:53-58 | among trimmed names with stable normal forms, a project whose last segment nobody else has is labelled with it |
| ProjectLabels.TwoSegmentLabel | harness-mem-ui/src/lib/project-label.ts:60-67 | if somebody else has its last segment but no other path its last two, those two are the label |
| ProjectLabels.FullPathLabel | harness-mem-ui/src/lib/project-label.ts:69-78 | if another path has the same last two segments, the label is the whole normalised path |
| ProjectLabels.LabelsAreUniqueExactly | harness-mem-ui/src/lib/project-label.ts:43-81 | for every list the final map is injective exactly when no label the last loop writes meets another it writes or one it leaves alone |
| ProjectLabels.LabelsAreUnique | harness-mem-ui/src/lib/project-label.ts:43-81 | for trimmed names with a stable normal form the final map is injective exactly when its paths differ in normal form |
| ProjectLabels.NormalNamesGetUniqueLabels | harness-mem-ui/src/lib/project-label.ts:43-81 | the map is injective on names the normaliser leaves alone |
| ProjectLabels.UntrimmedNamesCollide | harness-mem-ui/src/lib/project-label.ts:43-81 | a concrete list with an untrimmed name where two projects get one label |
| ProjectLabels.UnstableNamesCollide | harness-mem-ui/src/lib/project-label.ts:1-81 | a concrete list of trimmed names, one with an unstable normal form, where two projects get one label |
| ManagedBlock.EscapedIncludes | scripts/lib/mcp-config.js:48-50 | escaping a value neither creates nor destroys text free of quotes and backslashes |
| ManagedBlock.BuiltBlock | scripts/lib/mcp-config.js:52-68 | the built block is one marked section that contains its header, with an end marker inside exactly if a value has one |
| ManagedSettings.EscapedReadsBack | scripts/lib/mcp-config.js:48-50 | a reader of TOML basic strings gives back every value from its escaped form and stops behind the closing quote |
| ManagedSettings.BlockReads | scripts/lib/mcp-config.js:52-68 | a written block reads as its settings exactly if no value has a line break, and otherwise it cannot be read |
| ManagedBlock.WriteOverBlock | scripts/lib/mcp-config.js:74-82 | writing over a well-formed block keeps the text before and behind it up to white space at the seams |
| ManagedBlock.WriteBehindText | scripts/lib/mcp-config.js:84-92 | a first write puts the trimmed text, a blank line and the block |
| ManagedBlock.ReadBack | scripts/lib/mcp-config.js:70-81 | in a written file a block without an inner end marker and both surrounding texts are found again |
| ManagedBlock.DirtyBlockLeavesText | scripts/lib/mcp-config.js:71-80 | an inner end marker closes the block early, and the rest of it counts as text behind it |
| ManagedBlock.PutPutHolds | scripts/lib/mcp-config.js:70-93 | over a well-formed block, or behind words without a marker, a second write leaves no trace of a first block without an inner end marker, for any well-behaved markers |
| ManagedBlock.BlankTextFails | scripts/lib/mcp-config.js:88-91 | on blank text a second write differs from a single one |
| ManagedBlock.LoneBeginFails | scripts/lib/mcp-config.js:70-82 | with a begin marker and no end marker the second write drops text |
| ManagedBlock.EarlyEndFails | scripts/lib/mcp-config.js:74-86 | with an end marker before the first begin marker the second write is refused |
| ManagedBlock.DirtyBlockFails | scripts/lib/mcp-config.js:70-82 | an end marker in a value of the first block makes a second write differ |
| ManagedBlock.PutPutExactly | scripts/lib/mcp-config.js:70-93 | for all contents and values, writing twice equals writing once exactly if the write is refused, or the first values hold no end marker and the text has a well-formed block or else words and no marker |
| ManagedBlock.CleanWriteReadsBack | scripts/lib/mcp-config.js:70-93 | a block without an inner end marker reads back over a well-formed block, behind unmarked text and in blank text |
| ManagedBlock.StrayMarkerIsLost | scripts/lib/mcp-config.js:70-93 | beside a stray marker the block does not read back |
| ManagedBlock.PutGetExactly | scripts/lib/mcp-config.js:70-93 | for all contents and values, the write is refused exactly for an unmanaged section, and otherwise the block reads back exactly if its values hold no end marker and the text had a well-formed block or no marker, with the text around it kept |
| ManagedSettings.WriteThenRead | scripts/lib/mcp-config.js:52-93 | in a written file command, argument, host, port, database path and node path are found as they were, each under its own key in its own section, and the server is enabled |
| RetrievalScores.CountDocuments | scripts/s108-retrieval-ablation.ts:541-547 | the loop counts, for each token that occurs, the entries it occurs in, repeats within an entry once |
| RetrievalScores.BuildIdf | scripts/s108-retrieval-ablation.ts:540-554 | exactly the tokens that occur are weighed, by the logarithm of their inverse document frequency |
| RetrievalScores.IdfWeights | scripts/s108-retrieval-ablation.ts:548-552 | weights are positive, and the rarer of two tokens weighs more |
| RetrievalScores.IdfFormula | scripts/s108-retrieval-ablation.ts:548-552 | the weight of a token is the logarithm of one plus the corpus size over one plus the number of entries that hold it |
| RetrievalScores.OverlapScore | scripts/s108-retrieval-ablation.ts:556-573 | the counting and summing loops compute the overlap of the specification |
| RetrievalScores.OverlapMeaning | scripts/s108-retrieval-ablation.ts:556-573 | overlap lies in [0,1], is 0 exactly when no query token occurs and 1 when all occur |
| RetrievalScores.OverlapFormula | scripts/s108-retrieval-ablation.ts:562-572 | a token weighs its idf, or 1 without one, and hits with one plus the logarithm of its count; the overlap is the ratio of both sums, at most 1 |
| RetrievalScores.WeightsAdd | scripts/s108-retrieval-ablation.ts:564-571 | both sums go over the query token by token, repeats included |
| RetrievalScores.Latest | scripts/s108-retrieval-ablation.ts:604 | the newest time stamp of a corpus in which all are finite |
| RetrievalScores.RecencyRange | scripts/s108-retrieval-ablation.ts:603-608 | recency lies in [0,1] and is positive exactly if every time stamp of the corpus is finite |
| RetrievalScores.RecencyFormula | scripts/s108-retrieval-ablation.ts:603-608 | with finite time stamps recency is the exponential of minus a thirtieth of the days behind the newest entry |
| RetrievalScores.EntityScore | scripts/s108-retrieval-ablation.ts:610-615 | the share of query entities lies in [0,1], is 0 exactly when none is present and 1 exactly when there are some and all are |
| RetrievalScores.EntityFormula | scripts/s108-retrieval-ablation.ts:610-615 | the share is the number of query positions whose entity is present over the number of all positions |
| RetrievalVectors.Vectorize | scripts/s108-retrieval-ablation.ts:575-587 | the nested loops build the vector of the specification |
| RetrievalVectors.VectorMeaning | scripts/s108-retrieval-ablation.ts:575-587 | a key weighs one for each token it is and a fifth for each window of a long token it names; stored entries are positive |
| RetrievalVectors.VectorOfOne | scripts/s108-retrieval-ablation.ts:577-585 | one token adds 1 under itself and, from five letters on, a fifth under each of its three-letter windows |
| RetrievalVectors.VectorAdds | scripts/s108-retrieval-ablation.ts:577-585 | the vector of a token list adds up token by token |
| RetrievalVectors.Cosine | scripts/s108-retrieval-ablation.ts:589-601 | the three loops compute the cosine of the specification and never divide by zero |
| RetrievalVectors.CosineFormula | scripts/s108-retrieval-ablation.ts:589-601 | for non-empty vectors it is the dot product over the root of the product of the squared norms, which is positive |
| RetrievalVectors.DotAdds | scripts/s108-retrieval-ablation.ts:593-598 | a sum of products adds up key by key |
| RetrievalVectors.CauchySchwarz | scripts/s108-retrieval-ablation.ts:593-598 | the squared dot product over a list of keys is at most the product of the squared sums |
| RetrievalVectors.DotBelowNorms | scripts/s108-retrieval-ablation.ts:593-598 | the dot product over the left keys is at most the product of the two norms |
| RetrievalVectors.CosineRange | scripts/s108-retrieval-ablation.ts:589-601 | the cosine of two vectors with positive entries lies in [0,1] |
| RetrievalVectors.CosineIsSymmetric | scripts/s108-retrieval-ablation.ts:596-600 | although only the left keys are walked, the arguments may change places |
| RetrievalVectors.CosineOfItself | scripts/s108-retrieval-ablation.ts:589-601 | a non-empty vector has cosine 1 with itself |
| RetrievalGraph.BuildEntityIndex | scripts/s108-retrieval-ablation.ts:617-627 | an id is listed under an entity exactly when an entry of that id names it |
| RetrievalGraph.CorpusById | scripts/s108-retrieval-ablation.ts:783 | every id of the corpus maps to an entry with that id |
| RetrievalGraph.LastEntryStays | scripts/s108-retrieval-ablation.ts:783 | of several entries with one id the last is found |
| RetrievalGraph.GraphScores | scripts/s108-retrieval-ablation.ts:629-650 | the nested loops over seeds, entities and linked ids give every id the score of a scan over the first five candidates |
| RetrievalGraph.PassOn | scripts/s108-retrieval-ablation.ts:639-647 | one seed raises exactly the other ids listed under its entities, to at least half its score |
| RetrievalGraph.ReachesIsSharing | scripts/s108-retrieval-ablation.ts:637-644 | through both indexes a seed reaches exactly the other entries that share an entity with it |
| RetrievalGraph.IndexedScoreIsBestHalf | scripts/s108-retrieval-ablation.ts:629-650 | the indexed score is the larger of 0 and half the best score among the seeds that share an entity |
| RetrievalGraph.BestHalfIsUnique | scripts/s108-retrieval-ablation.ts:629-650 | that description determines the number |
| RetrievalRanking.SortInPlace | scripts/s108-retrieval-ablation.ts:693 | the array becomes the stable sort of its contents by score, newness and id |
| RetrievalRanking.SortedIsOrdered | scripts/s108-retrieval-ablation.ts:704 | the sort puts every pair in order if all time stamps are finite |
| RetrievalRanking.OrderedIsUnique | scripts/s108-retrieval-ablation.ts:704 | two ordered arrangements of the same candidates are one arrangement |
| RetrievalRanking.ScoreEntry | scripts/s108-retrieval-ablation.ts:674-688 | the callback computes the signals and the base score of one entry |
| RetrievalRanking.ScoreEntries | scripts/s108-retrieval-ablation.ts:663-689 | the map over the corpus computes every candidate |
| RetrievalRanking.RankCase | scripts/s108-retrieval-ablation.ts:652-705 | scoring, sorting, rescoring and sorting again, in place, end in the ranking that RankingMeaning, BestFirst and TiesAreBroken describe |
| RetrievalRanking.BuildIndexes | scripts/s108-retrieval-ablation.ts:779-784 | the four indexes of a corpus |
| RetrievalRanking.FrequencyOfShuffled | scripts/s108-retrieval-ablation.ts:540-547 | document frequencies do not depend on corpus order |
| RetrievalRanking.SameIndexes | scripts/s108-retrieval-ablation.ts:779-784 | shuffled corpora have equal indexes |
| RetrievalRanking.CorpusOrderIsIrrelevant | scripts/s108-retrieval-ablation.ts:652-705 | shuffling a corpus with finite time stamps, indexes and all, leaves the whole ranking as it is |
| RetrievalRanking.ScoresAreBounded | scripts/s108-retrieval-ablation.ts:673-702 | every final score lies in [0, 0.9568] with vectors and [0, 1.0608] without |
| RetrievalRanking.RankingMeaning | scripts/s108-retrieval-ablation.ts:691-704 | for every variant the ranking holds one candidate for each entry: its signals are those the toggles choose, its score their weighted sum, and its graph signal half the best base score among the seeds that share an entity |
| RetrievalRanking.BestFirst | scripts/s108-retrieval-ablation.ts:704 | for every corpus and variant no candidate stands before one with a higher score |
| RetrievalRanking.TiesAreBroken | scripts/s108-retrieval-ablation.ts:704 | if all time stamps are finite, of two equal scores the newer is first, and of two equally new the one whose id comes first |
| RetrievalRanking.SeedsAreBest | scripts/s108-retrieval-ablation.ts:634-693 | the seeds are the five best base candidates, or all of fewer, and no candidate outside them scores more than a seed |

## Left out

- React rendering and scheduling: effects that mirror state into refs (useFeedPagination.ts:118-128), mounting and unmounting, several mounted hooks, and the platform filter of the displayed list; a key's callbacks are assumed to run only while that key is active.
- Conservation of live items across a first-page refresh: that response replaces the list, so there is no such law.
- Strings are sequences of characters, not UTF-16 code units, which matters only for sorting and counting characters outside the Basic Multilingual Plane.
- Event stream: ids start at 1 and the recorder lives as long as the connections; a restart that resets ids is not modelled. `getCanonicalProjectName` and `expandProjectSelection` are fixed parameters, payloads and signatures of health, ready and ping chunks are inputs, and clocks are left out.
- Event-stream parsing: the byte order mark, reconnection time and comments matter to no chunk the encoder writes; `JSON.stringify` is a function whose output has no line break. Of the spellings of a number that the `since` parameter may use, the model reads decimal integers.
- HTTP routing, authentication, the stores behind the server (lease, signal, sync merge, audit chain, search) and the proxies: the first two are plumbing, and the source of the stores is not part of this model.
- Feed views: time stamps, categories and normalised text of a card are inputs, and so is the text of a summary beyond what later passes compare; collapsing again after a summary is not claimed to change nothing.
- Projects reload: which `includePrivate` value a coalesced load uses, and unmounting, which clears the timer.
- ProjectLabels.LabelsAreUnique: is stated for trimmed names with a stable normal form, since other names can collide; ProjectLabels.LabelsAreUniqueExactly covers all lists, in terms of the first labels and the normal forms.
- ProjectLabels.BaseIsLastSegment, LabelShowsBase, EqualLabelsShareBase, RewriteMissesOthers, UnsharedLabel, TwoSegmentLabel and FullPathLabel: are false or unstated outside that domain, for the same reason.
- Managed block: reading and writing the file, and resolving the server specification. The reader covers what the block uses of TOML 1.0: headers, comments, bare keys, basic strings without escapes by code point, arrays of them, and booleans; control characters inside a string, which TOML forbids, are not refused.
- Retrieval: tokenisers, query expansion rules and entity extraction are inputs; scores are real numbers, so floating-point rounding is not modelled; `log`, `exp` and `sqrt` are functions with `log(1) = 0`, `log` increasing from 1 on, `0 < exp(x) <= 1` for `x <= 0`, and `sqrt` the non-negative root.
- RetrievalRanking.CorpusOrderIsIrrelevant: is stated for finite time stamps, since a failed date parse makes the comparison intransitive and leaves the order to the runtime's sort; entries with one id are one entry, and comparing ids by locale is a total order.
- RetrievalRanking.SortInPlace: the runtime's sort is modelled by its result, a stable sort, and not by its steps; likewise `sort()` of the category names.
- Recall, reciprocal rank, percentiles, miss classification, report writing and latency measurement: easy members or input and output.
