# Verified model of the Launchpad core

The repository is a hub (HQ), one daemon per project, and a browser client. This project models its stateful cores in Dafny
and proves what they keep over whole runs. Every state machine appears twice: as a class whose methods follow the source
statement by statement, and as a step function on an immutable state that the methods are proved against. The theorems are
about that step function, over every run, and compare it with definitions that do not mention it: an unbounded map, a token
stream, the longest suffix within a budget, or the history of events. A history is read off the fields of the events, or off
the calls made, never through the step function's own helpers: the modules named `...History`, `EventFields` and
`EventEntries` hold those readings. A history is read off the fields of the events, or off
the calls made, never through the step function's own helpers: the modules named `...History`, `EventFields` and
`EventEntries` hold those readings. A history is read off the fields of the events, or off
the calls made, never through the step function's own helpers: the modules named `...History`, `EventFields` and
`EventEntries` hold those readings. A history is read off the fields of the events, or off
the calls made, never through the step function's own helpers: the modules named `...History`, `EventFields` and
`EventEntries` hold those readings. A history is read off the fields of the events, or off
the calls made, never through the step function's own helpers: the modules named `...History`, `EventFields` and
`EventEntries` hold those readings. A history is read off the fields of the events, or off
the calls made, not through the step function's own helpers: the modules named `...History`, `EventFields` and
`EventEntries` hold those readings.

| files | core |
|---|---|
| `LruCache`, `LruTheorems` | the API cache: map, recency list, expiry, eviction |
| `SessionEvents`, `EventFields` | session events, and what their fields name |
| `EventProcessor`, `EventEffects`, `EventProcessorTheorems`, `EventRouting`, `EventHistory`, `EventEntries`, `ToolTags`, `Text` | the client's fold of session events into nested conversation entries |
| `Activity`, `ActivityTheorems`, `ActivityHistory`, `SubagentTools` | the server's fold of the same events into an activity state |
| `SubagentAgreement` | the two folds side by side |
| `EventLog`, `Persistence`, `StoreHistory`, `LineCodec`, `LogAndDisk`, `CappedPaging`, `RunningHistory`, `HistoryLoss` | backward paging, the buffered JSONL store, the capped log, and all of them together |
| `WsManager`, `WsTheorems`, `WsHistory`, `Backoff` | the browser's reconnecting WebSocket |
| `DaemonClient`, `DaemonHistory`, `DaemonRegistry`, `RegistryTheorems`, `RegistryHistory` | the daemon's connection, HQ's handler and registry, heartbeat timing |
| `RingBuffer` | terminal replay |
| `Jsonc` | the comment stripper |
| `Optional`, `Sequences` | shared vocabulary |

Clock readings, whether a socket could be constructed, and message formatting are parameters; nothing is assumed about them
beyond what a contract states. A callback runs as one step.

## Where the code does less than its comments or intent

Where a promise fails, the condition under which it holds is proved exactly, for all inputs, next to an input that shows the
failure.

- Idle phase: `session.idle` without background tasks while subagents are listed leaves phase `idle` over running subagents,
  and nothing else does (`IdleOverSubagentsExactly`, `IdleOverSubagentsHappens`).
- Waiting: a turn, a tool or a subagent that starts, or an error, hides a waiting state behind its own phase until the next
  event that derives the phase (`WaitIsHiddenExactly`, `WaitIsHiddenHappens`).
- Subagents: the server drops the first entry of an ended id, the client all of them; only the server clears its list on
  shutdown; and only the server accepts a start or an end without a call id. The two agree after an event exactly when none
  of this matters for the ids then running (`AgreementIsKeptExactly`, `DoubleStartDisagrees`, `ShutdownDisagrees`,
  `UnnamedStartDisagrees`).
- Tool outcomes: a completion without `success` counts as completed on the server and as failed on the client; the two agree
  exactly when it is there (`OutcomesAgreeExactly`, `MissingSuccessDisagrees`).
- Tool completions: a completion looks for its call only among its owner's entries, the owner being the named parent or else
  the innermost running subagent. When no entry there is its call's and some tool there is running, it settles that tool,
  which is another call's, even though its own call may be on an entry elsewhere (`CompletionMisfiresExactly`,
  `CompletionCanMisfire`).
- Paging: events that share a timestamp across a page boundary are skipped; in timestamp order the walk is complete exactly
  when there are none (`PagingIsCompleteExactly`, `SharedTimestampIsSkipped`), and in any order exactly when each fetch finds
  its cursor where the page before it began (`PagingAnyOrderExactly`).
- History: after a restart everything is served, unless the log drops its oldest events while a client pages back through
  them (`HistorySurvivesRestartExactly`, `HistoryCanLoseEvents`).
- Store: two session ids with the same sanitised file name read each other's events (`IsolatedExactly`, `SanitisedNamesCanCollide`).
- Full queue: a refused subscribe or unsubscribe does harm exactly when it contradicts the last queued message about its
  channel (`DropHarmsExactly`, `DropCanDiverge`).
- Two sockets: a second live socket of the daemon client appears exactly when one is constructed beside a live one
  (`OneSocketIsKeptExactly`, `SingleSocketExactly`); a `connect()` during the pause after a failed construction leads there
  (`RetryIsAloneExactly`, `SocketCanLeak`).
- Two ids on one socket: the end of a socket clears it exactly when it held at most one registration (`GoneClearsExactly`,
  `TwoIdsLeaveOne`).

The ring buffer's comment speaks of bytes; the code counts UTF-16 code units, and so does the model.

## Model

| member | source | states |
|---|---|---|
| `LruTheorems.NextCapacityInclusion` | src/server/cache/cache-manager.ts:64-97 | After the same operations at the same clock readings, the cache with `maxEntries` n is the one with n+1 minus at most one key: same entries, same recency order |
| `LruTheorems.LargerCacheContainsSmaller` | src/server/cache/cache-manager.ts:64-97 | For any n <= m the larger cache holds every entry of the smaller, in the same order, and never misses where the smaller hits |
| `LruTheorems.StepInclusion` | src/server/cache/cache-manager.ts:64-152 | Every single operation keeps the inclusion between capacities n and n+1 |
| `LruTheorems.StoredIsCurrent` | src/server/cache/cache-manager.ts:82-152 | Over any run, whatever is stored is, payload, data type and expiry, what the last `set` of its key was given, not invalidated, cleared or replaced since |
| `LruTheorems.HitIsCurrent` | src/server/cache/cache-manager.ts:64-79 | A hit returns the last value set for the key, not past its expiry and not invalidated since |
| `LruTheorems.NothingLostWithoutPressure` | src/server/cache/cache-manager.ts:64-97 | With room for every key ever set and a clock that never runs backwards, only expired entries are missing |
| `LruTheorems.GetIsExactWithoutPressure` | src/server/cache/cache-manager.ts:64-79 | Under those conditions `get` answers exactly as an unbounded map with expiry |
| `LruTheorems.SetStoresItsArguments` | src/server/cache/cache-manager.ts:82-94 | A set stores its own arguments, until 1000 times the seconds configured for its data type after the clock reading |
| `LruTheorems.SetThenLookup` | src/server/cache/cache-manager.ts:64-97 | With room for one entry, right after a set the key is the most recent and a lookup gives the payload set until it expires, and nothing later |
| `LruTheorems.GetEffect` | src/server/cache/cache-manager.ts:64-79 | A get keeps every other key and their order; the key it asks for goes exactly when it has expired, and otherwise becomes the most recent |
| `LruTheorems.RecentlyUsedIsKept` | src/server/cache/cache-manager.ts:232-248 | A key is evicted only when `maxEntries` other keys were touched since its own last touch |
| `LruTheorems.EvictionIsExact` | src/server/cache/cache-manager.ts:232-248 | While other keys are set or got and no get finds an expired entry, a key survives if and only if fewer than `maxEntries` other keys were used since its own last use |
| `LruTheorems.SetsEvictExactly` | src/server/cache/cache-manager.ts:82-97 | Under sets alone a key survives if and only if fewer than `maxEntries` other keys were set since |
| `LruTheorems.SurvivorsAfter` | src/server/cache/cache-manager.ts:240-248 | While a key survives such a run, the keys listed after it are exactly the other keys used since |
| `LruCache.StepKeepsInv` | src/server/cache/cache-manager.ts:64-152 | Every operation keeps: `accessOrder` lists the stored keys, each once, and there are at most `maxEntries` |
| `LruCache.RunKeepsInv` | src/server/cache/cache-manager.ts:64-152 | The same after any sequence of operations |
| `LruCache.CacheManager.constructor` | src/server/cache/cache-manager.ts:53-59 | A new cache is empty with zero counters |
| `LruCache.CacheManager.Get` | src/server/cache/cache-manager.ts:64-79 | Returns the payload unless missing or expired, removes an expired entry, makes a hit the most recent key, and counts hit or miss |
| `LruCache.CacheManager.Set` | src/server/cache/cache-manager.ts:82-97 | Stores the entry as most recent, then evicts exactly the oldest keys beyond capacity and counts them |
| `LruCache.CacheManager.Invalidate` | src/server/cache/cache-manager.ts:116-120 | Removes one key from map and list and says whether it was there |
| `LruCache.CacheManager.InvalidateByType` | src/server/cache/cache-manager.ts:123-133 | Removes exactly the entries of a type and returns their number |
| `LruCache.CacheManager.InvalidateByPrefix` | src/server/cache/cache-manager.ts:136-146 | Removes exactly the keys with a prefix and returns their number |
| `LruCache.CacheManager.ClearAll` | src/server/cache/cache-manager.ts:149-152 | Empties map and list |
| `LruCache.CacheManager.EvictIfNeeded` | src/server/cache/cache-manager.ts:232-238 | Shifts out keys from the old end until the map fits, counting each |
| `LruCache.CacheManager.TouchAccessOrder` | src/server/cache/cache-manager.ts:240-243 | Moves a key to the recent end, listing it once |
| `LruCache.CacheManager.RemoveFromAccessOrder` | src/server/cache/cache-manager.ts:245-248 | Takes a key out of the list and keeps the order of the others |
| `EventProcessorTheorems.LiveAndBatchAgree` | src/client/services/event-processor.ts:202-902 | From equal state, live and batch processing of any events give the same entries, and the same refs except the streaming and reasoning partials |
| `EventProcessorTheorems.DeltasAddNothing` | src/client/services/event-processor.ts:250-268 | Deleting every delta event changes no entry and nothing in the refs but the partials, in either mode |
| `EventProcessorTheorems.StepGrows` | src/client/services/event-processor.ts:335-358 | Every event keeps each entry in place with its id, kind, call id and agent tag, and each nested id list as a prefix |
| `EventProcessorTheorems.EntriesOnlyGrow` | src/client/services/event-processor.ts:202-902 | Over any run the old id list is a prefix of the new one, at top level and inside every container |
| `EventProcessorTheorems.ContainersAreOneLevelDeep` | src/client/services/event-processor.ts:440-475 | Only agent containers hold nested entries, and nested entries hold none and are never agents |
| `EventProcessorTheorems.StepContainers` | src/client/services/event-processor.ts:440-475 | One event adds an agent container exactly when it is a start of the `task` tool, at top level |
| `EventProcessorTheorems.ContainersAreTaskStarts` | src/client/services/event-processor.ts:365-477 | The agent containers are exactly the `task` starts of the stream, in order |
| `EventEffects.EffectOf` | src/client/services/event-processor.ts:224-901 | Every event does nothing to the entries, adds one, alters one container or settles one completion; tool entries come from starts and carry their call id, agent containers from `task` starts at top level, completions never carry the agent tag |
| `EventEffects.CompletionIsNotAgent` | src/client/services/event-processor.ts:480-535 | A completion that reaches the entry lists never carries the agent tag |
| `EventProcessorTheorems.NestedEntriesGoToTheirOwner` | src/client/services/event-processor.ts:335-358 | No event changes the nested entries of a container other than its owner: the named parent, else the innermost running subagent |
| `EventHistory.OwnerFollowsHistory` | src/client/services/event-processor.ts:335-358 | The owner of an event is its named parent, else the call of the subagent started last among those not ended since, told from the events alone |
| `EventHistory.RefsFollowHistory` | src/client/services/event-processor.ts:70-82 | The selected agent, the intent, the usage, the names of `task` calls and the arguments of a call are what the last events about them said |
| `EventHistory.SaidFollowsHistory` | src/client/services/event-processor.ts:286-325 | What is remembered of subagents is their messages since the last echo, whole and by their first 40 and 20 characters |
| `EventHistory.EchoExactly` | src/client/services/event-processor.ts:304-325 | A text counts as an echo exactly when it contains, or is contained in, something remembered, as substrings by position |
| `EventHistory.TrimIsInner` | src/client/services/event-processor.ts:335 | Trimming takes white space off both ends and nothing else |
| `EventHistory.PartialsFollowHistory` | src/client/services/event-processor.ts:250-268 | In live mode the partial texts are the deltas since the last final message, or reasoning, joined in order, under an id with the time of the first |
| `EventEntries.PlainEventShows` | src/client/services/event-processor.ts:827-900 | A plain event adds the entry its own fields describe at the end of the list; a user message does so unless it is blank |
| `EventEntries.QuietEventShowsNothing` | src/client/services/event-processor.ts:250-268 | Deltas and the selection of an agent change no entry |
| `EventEntries.MessageIsShown` | src/client/services/event-processor.ts:271-363 | A message adds one trimmed entry, with the sender and usage the history tells, at the end of its owner's container or of the list, unless it is blank or an echo |
| `EventEntries.ToolStartIsShown` | src/client/services/event-processor.ts:365-477 | A tool start shows nothing for infrastructure tools, an intent for `report_intent`, a container at the end of the list for `task`, and otherwise a running tool at its owner by the history |
| `EventEntries.CompletionIsShown` | src/client/services/event-processor.ts:480-624 | A completion that is not hidden and ends no `task` settles, in the list its owner by the history has, the first entry of its call, else the last running tool, and else is added on its own; the settled entry is spelled out |
| `EventEntries.MisfiresByHistoryExactly` | src/client/services/event-processor.ts:480-623 | By the history, a completion changes an entry of another call if and only if it is neither hidden nor the end of a `task`, the list of its owner holds no entry of its call, and some tool there is running |
| `EventEntries.ReportIsShown` | src/client/services/event-processor.ts:688-825 | Usage, the lifecycle of a subagent and the end of a `task` change the first container of the call they are about, as their fields say, and nothing else |
| `EventEntries.ContainerExists` | src/client/services/event-processor.ts:365-477 | A call has a container exactly when a `task` start with its id came |
| `EventEntries.ContainerFollowsHistory` | src/client/services/event-processor.ts:688-825 | What the first container of a call shows, its nested entries apart, is its `task` start changed by every event that reports on it since |
| `EventEntries.NestedEntriesFollowHistory` | src/client/services/event-processor.ts:335-358 | An event changes the entries nested in a container only if the history names that container as its owner |
| `EventRouting.AddToLands` | src/client/services/event-processor.ts:335-358 | An entry with an owner goes to the end of the nested entries of the owner's first container and nothing else changes; without a container it goes to the end of the list |
| `EventRouting.EchoIsDroppedOnce` | src/client/services/event-processor.ts:304-325 | A main-agent message is hidden exactly when it echoes what a subagent said, and the main-agent message after a hidden one is always shown |
| `EventRouting.FinishedCallLands` | src/client/services/event-processor.ts:365-624 | A call new to its owner's list is settled in place: whatever happens between its start and its completion, as long as nothing starts, completes or picks the call and the completion looks where the start put it, that one entry changes and nothing else, to the outcome and result of the completion with the arguments of the start |
| `EventRouting.StepKeepsCall` | src/client/services/event-processor.ts:202-902 | An event that neither starts, completes nor picks a call leaves its running entry as it is, and the only one of the call in its list |
| `EventRouting.PlaceStays` | src/client/services/event-processor.ts:335-358 | An owner with a container keeps the same list, however the entries grow |
| `EventRouting.CompletionMisfiresExactly` | src/client/services/event-processor.ts:480-623 | A completion changes an entry of another call if and only if it is neither skipped nor a `task` completion, the list it looks in holds no entry of its call, and some tool there is running |
| `EventRouting.OwnCallIsSettledExactly` | src/client/services/event-processor.ts:537-623 | A completion that looks for an entry changes one of its own call if and only if the list it looks in holds one |
| `EventRouting.CompletionCanMisfire` | src/client/services/event-processor.ts:600-619 | Five events: a view beside a running task completes, an inner view is settled with its result, and the outer one keeps running although it is on an entry: an entry of another call is changed |
| `EventProcessorTheorems.CompletionResolves` | src/client/services/event-processor.ts:537-598 | Within the list searched, a known call id settles the first entry of that id; otherwise the last running tool is settled, or a standalone entry added when none runs; nothing else changes |
| `EventProcessorTheorems.StartThenComplete` | src/client/services/event-processor.ts:537-574 | Within the list searched, right after an entry with a new call id was appended, the completion settles that entry and no other |
| `EventProcessorTheorems.FindToolEntryIsFirst` | src/client/services/event-processor.ts:540-544 | The lookup by call id finds the first tool entry with that id |
| `EventProcessorTheorems.LastRunningIsLast` | src/client/services/event-processor.ts:545-552 | The fallback lookup finds the last running tool entry |
| `EventProcessor.EventProcessorRefs.constructor` | src/client/services/event-processor.ts:70-82 | Fresh refs are empty |
| `EventProcessor.EventProcessorRefs.ProcessSessionEvent` | src/client/services/event-processor.ts:202-902 | Updates the refs and returns the entries as the step function for the event and mode says |
| `EventProcessor.EventProcessorRefs.OnSubagentStarted` | src/client/services/event-processor.ts:743-773 | Pushes a named call on the stack and marks its container running |
| `EventProcessor.EventProcessorRefs.OnSubagentEnded` | src/client/services/event-processor.ts:775-825 | Takes every occurrence of a named call off the stack and marks its container |
| `EventProcessor.EventProcessorRefs.OnSubagentEvent` | src/client/services/event-processor.ts:743-825 | Refs and entries after the start or the end of a subagent |
| `EventProcessor.EventProcessorRefs.OnMainAgentEvent` | src/client/services/event-processor.ts:688-741 | Refs and entries after a usage report or the selection of an agent |
| `EventProcessor.EventProcessorRefs.OnDelta` | src/client/services/event-processor.ts:251-268 | In live mode a delta starts or extends its partial text; in batch mode it does nothing |
| `EventProcessor.EventProcessorRefs.OnPlainEvent` | src/client/services/event-processor.ts:827-900 | One plain entry or none; a final reasoning also clears its partial text |
| `EventProcessor.EventProcessorRefs.OnAssistantMessage` | src/client/services/event-processor.ts:271-363 | Clears the partial, usage and intent; records what subagents said; drops an echo; routes the message to its owner |
| `EventProcessor.EventProcessorRefs.OnToolStart` | src/client/services/event-processor.ts:366-477 | Hides infrastructure tools, records arguments and names, and adds the intent or tool entry to its owner, `task` starts always at top level |
| `EventProcessor.EventProcessorRefs.OnToolComplete` | src/client/services/event-processor.ts:480-624 | Skips infrastructure and intent completions, sets a container's tool status for `task`, else settles an entry under the owner |
| `EventProcessor.ProcessEventBatch` | src/client/services/event-processor.ts:910-930 | Replays events in batch mode from an empty list: the result is the fold of all of them |
| `ToolTags.ToolTag` | src/client/services/tool-tags.ts:25-51 | The agent tag is given to the `task` tool and to no other |
| `ToolTags.ToolTagIs` | src/client/services/tool-tags.ts:25-51 | The tag of every tool name, as a table; `bash` has the tag of its command, and of the other names only the prefix `github-mcp-server-` counts |
| `ToolTags.BashTagIs` | src/client/services/tool-tags.ts:7-18 | The tag of a command is decided by its first word alone, up to a word boundary, as a table |
| `ActivityTheorems.PhaseIsNeverStale` | src/server/copilot-aggregator/aggregator.ts:356-597 | In every reachable activity `waiting` has a waiting state, `tool` a listed main tool, `idle` neither; every listed tool and subagent is running; no subagent keeps more than ten recent events |
| `ActivityTheorems.StepKeepsPhaseFresh` | src/server/copilot-aggregator/aggregator.ts:356-597 | Every event keeps that |
| `ActivityTheorems.DerivedPhaseIsFresh` | src/server/copilot-aggregator/aggregator.ts:116-121 | The derived phase is backed by the state, and is idle exactly when nothing is waiting or listed |
| `ActivityTheorems.IdleOverSubagentsExactly` | src/server/copilot-aggregator/aggregator.ts:472-495 | Idle over listed subagents arises exactly from `session.idle` without background tasks while some are listed |
| `ActivityTheorems.IdleOverSubagentsHappens` | src/server/copilot-aggregator/aggregator.ts:472-495 | Two events that lead there |
| `ActivityTheorems.WaitIsHiddenExactly` | src/server/copilot-aggregator/aggregator.ts:365-597 | A waiting state is behind another phase after an event exactly when there is one and the event is a turn, tool or subagent start or an error, or it was hidden already and the event neither asks, answers, idles nor derives the phase |
| `ActivityTheorems.WaitIsHiddenHappens` | src/server/copilot-aggregator/aggregator.ts:383-399 | A tool start while the session waits: the phase is `tool` |
| `ActivityTheorems.WaitingRefinesHistory` | src/server/copilot-aggregator/aggregator.ts:472-544 | The waiting state is what the last request asks for, unless an answer, an idle or a shutdown came since; phases `waiting` and `idle` agree with it |
| `ActivityHistory.PhaseRefinesHistory` | src/server/copilot-aggregator/aggregator.ts:356-597 | With distinct ids and matching attributions the phase is what the last event that sets it says: turn, intent, tool, subagent, waiting, error, or what is then open by the history |
| `ActivityHistory.StatusRefinesHistory` | src/server/copilot-aggregator/aggregator.ts:236-353 | The session status is what the last event that sets it says |
| `ActivityHistory.FieldsRefineHistory` | src/server/copilot-aggregator/aggregator.ts:365-597 | Turn count, intent, token usage and background tasks are what the events since the last shutdown say |
| `ActivityHistory.SubagentStartEffect` | src/server/copilot-aggregator/aggregator.ts:438-453 | A subagent that starts is listed last, running, under the call id and name its event gives, with its start as its first recent event |
| `ActivityHistory.MainStartEffect` | src/server/copilot-aggregator/aggregator.ts:383-399 | A main tool that starts is listed last, running, under the call id and name its event gives |
| `ActivityHistory.SubagentToolEffect` | src/server/copilot-aggregator/aggregator.ts:383-399 | A tool that starts under a subagent is listed last under it, remembered among its last ten events, and changes nothing else in the lists |
| `ActivityHistory.DeltaEffect` | src/server/copilot-aggregator/aggregator.ts:572-587 | A delta of a subagent is remembered among its last ten events |
| `ActivityHistory.MainProgressEffect` | src/server/copilot-aggregator/aggregator.ts:425-435 | Progress replaces the progress text of the first main tool with that id, and changes nothing else |
| `ActivityHistory.SubagentProgressEffect` | src/server/copilot-aggregator/aggregator.ts:425-435 | The same for a tool under a subagent |
| `ActivityTheorems.MainToolsRefineHistory` | src/server/copilot-aggregator/aggregator.ts:364-423 | With distinct ids and matching attributions, the main tools are exactly those started since the last turn start, idle or shutdown and not completed by an event with their call id, in start order |
| `ActivityTheorems.SubagentsRefineHistory` | src/server/copilot-aggregator/aggregator.ts:438-469 | With distinct ids, the subagents are exactly those started and neither completed nor failed since the last shutdown, in start order |
| `SubagentTools.SubagentToolsRefineHistory` | src/server/copilot-aggregator/aggregator.ts:383-423 | With distinct ids, the tools listed under a subagent are exactly those started under it since it started and not completed under it since by an event with their call id, in start order |
| `ActivityTheorems.OpenSnoc` | src/server/copilot-aggregator/aggregator.ts:364-469 | What is open according to a history, one event later: the survivors of that event plus what it opens |
| `ActivityTheorems.CompleteToolSurvivors` | src/server/copilot-aggregator/aggregator.ts:405-420 | Completing an id drops that call and nothing else, among the main tools as under a subagent |
| `Activity.MarkThenFilter` | src/server/copilot-aggregator/aggregator.ts:405-419 | Giving the first call with an id its outcome and keeping only running calls is removing that call |
| `Activity.MarkSubagentThenFilter` | src/server/copilot-aggregator/aggregator.ts:460-466 | The same for subagents |
| `ActivityTheorems.EndInRemoves` | src/server/copilot-aggregator/aggregator.ts:460-466 | Ending an id takes out the first subagent with that id and no other |
| `ActivityTheorems.OtherEventsKeepSubagents` | src/server/copilot-aggregator/aggregator.ts:364-597 | Only starts, ends and shutdown change which subagents are listed |
| `Activity.AggregatedSession.HandleSessionEvent` | src/server/copilot-aggregator/aggregator.ts:236-353 | Status and activity after an event; a shutdown ends the session and resets the activity |
| `Activity.AggregatedSession.UpdateActivity` | src/server/copilot-aggregator/aggregator.ts:356-597 | The activity after any other event, case by case |
| `Activity.AggregatedSession.ResetActivity` | src/server/copilot-aggregator/aggregator.ts:102-113 | The default activity |
| `Activity.AggregatedSession.OnToolStart` | src/server/copilot-aggregator/aggregator.ts:383-399 | Lists the tool with its subagent or with the main tools, and sets the phase |
| `Activity.AggregatedSession.OnToolComplete` | src/server/copilot-aggregator/aggregator.ts:401-423 | Settles the tool where it is listed, keeps only running ones, derives the phase |
| `Activity.AggregatedSession.MarkAndFilter` | src/server/copilot-aggregator/aggregator.ts:405-419 | What is left are the running calls but the first one with the id, whatever the outcome |
| `Activity.AggregatedSession.OnUsage` | src/server/copilot-aggregator/aggregator.ts:547-569 | Token usage and limit after either usage event, kept when the event carries none |
| `Activity.AggregatedSession.OnToolProgress` | src/server/copilot-aggregator/aggregator.ts:425-435 | Sets the progress text of the first matching tool |
| `Activity.AggregatedSession.OnSubagentEnd` | src/server/copilot-aggregator/aggregator.ts:456-469 | What is left are the running subagents but the first one with the id; the phase is derived |
| `Activity.AggregatedSession.OnIdle` | src/server/copilot-aggregator/aggregator.ts:472-495 | Clears tools, waiting state and intent, and lists the background tasks |
| `Activity.AggregatedSession.CollectTasks` | src/server/copilot-aggregator/aggregator.ts:479-491 | Agents first, then shells, each with its first available description |
| `Activity.AggregatedSession.AwaitAnswer` | src/server/copilot-aggregator/aggregator.ts:498-535 | Stores what is being waited for and sets phase `waiting` |
| `Activity.AggregatedSession.OnAnswer` | src/server/copilot-aggregator/aggregator.ts:538-544 | Clears the waiting state and derives the phase |
| `Activity.AggregatedSession.OnDelta` | src/server/copilot-aggregator/aggregator.ts:572-587 | Appends to the subagent's recent events, keeping the last ten |
| `SubagentAgreement.FoldsAgreeOnSubagents` | src/client/services/event-processor.ts:743-825 | Over one stream with distinct subagent calls and no shutdown, the server's subagent ids equal the client's stack, in order, after every event |
| `SubagentAgreement.AgreementIsKeptExactly` | src/server/copilot-aggregator/aggregator.ts:438-469 | From agreement, any event keeps it if and only if a start names its call, an end names a call listed at most once or, without a call id, nothing listed, and a shutdown finds nothing running |
| `SubagentAgreement.DoubleStartDisagrees` | src/client/services/event-processor.ts:743-795 | One call started twice and ended once is still listed by the server and not by the client |
| `SubagentAgreement.ShutdownDisagrees` | src/server/copilot-aggregator/aggregator.ts:244-265 | After a shutdown over a running subagent only the server has forgotten it |
| `SubagentAgreement.UnnamedStartDisagrees` | src/server/copilot-aggregator/aggregator.ts:438-440 | A start with an agent id but no call id is listed by the server only |
| `SubagentAgreement.OutcomesAgreeExactly` | src/server/copilot-aggregator/aggregator.ts:403-409 | Server and client give a completed tool the same outcome if and only if the event carries `success` |
| `SubagentAgreement.MissingSuccessDisagrees` | src/client/services/event-processor.ts:557 | A completion without it is a success on the server and a failure on the client |
| `SubagentAgreement.RemovalsDiffer` | src/client/services/event-processor.ts:775-795 | Dropping the first occurrence and dropping all agree exactly when the id occurs at most once |
| `SubagentAgreement.StackIsDistinct` | src/client/services/event-processor.ts:743-825 | With distinct starts the client's stack holds only started ids, each at most once |
| `EventLog.GetPage` | src/server/copilot-aggregator/aggregator.ts:716-737 | The page strictly older than the cursor, its size capped to 1..500, with `hasMore` and the oldest timestamp |
| `EventLog.PageIsExactly` | src/server/copilot-aggregator/aggregator.ts:713-738 | A page is the one for a cursor and limit if and only if it holds the newest events before the cursor, as many as there are but at most max(1, min(limit, 500)), says whether older ones remain, and names the timestamp of its oldest |
| `EventLog.FindCursorEnd` | src/server/copilot-aggregator/aggregator.ts:724-729 | One past the rightmost event strictly older than the cursor; invalid dates compare false |
| `EventLog.CursorAt` | src/server/copilot-aggregator/aggregator.ts:720-730 | Asking with event s's timestamp ends at s exactly when the event before s is strictly older |
| `EventLog.WalkFrom` | src/client/services/conversation-hooks.ts:60-61 | From any cursor a walk ends with a page that has no more, never yields more events than precede the cursor, and yields all of them exactly when no equal timestamps straddle a page boundary |
| `EventLog.PagingIsCompleteExactly` | src/server/copilot-aggregator/aggregator.ts:713-738 | In timestamp order, paging back gives the whole log of the first fetch if and only if page boundaries are clean, whatever is appended between fetches |
| `EventLog.SharedTimestampIsSkipped` | src/server/copilot-aggregator/aggregator.ts:720-730 | Two events with one timestamp, fetched one at a time: the first is never delivered |
| `EventLog.PagingAnyOrderExactly` | src/server/copilot-aggregator/aggregator.ts:713-738 | Whatever the order of the timestamps, with no event stored twice, paging gives the whole log if and only if every later fetch finds its cursor where the page before it began |
| `EventLog.PagesPartitionTheLog` | src/client/services/conversation-hooks.ts:131-133 | With strictly increasing timestamps the reversed pages are the whole log, in ceil(n/cap) pages (one for an empty log) |
| `EventLog.PagesAreDisjoint` | src/server/copilot-aggregator/aggregator.ts:713-738 | In timestamp order each page holds only events strictly older than all of the page before it |
| `CappedPaging.CappedPagingHasNoGaps` | src/server/copilot-aggregator/aggregator.ts:713-738 | When the log also drops its oldest events between fetches, the pages are an unbroken stretch up to the newest event of the first fetch, and only events no longer held are missing |
| `CappedPaging.CappedPagingIsCompleteExactly` | src/server/copilot-aggregator/aggregator.ts:713-738 | Under such drops the pages hold the whole log of the first fetch if and only if the fetch for the oldest page still finds the oldest event |
| `CappedPaging.WindowCursor` | src/server/copilot-aggregator/aggregator.ts:720-730 | In a window of the history, the cursor of an event ends just below it, or at nothing when that event is gone |
| `RunningHistory.PagingARunningSession` | src/server/copilot-aggregator/aggregator.ts:693-738 | The same for the real logs of a running session: stores, flushes, reads and capping may happen between the fetches |
| `RunningHistory.HistorySurvivesRestartExactly` | src/server/copilot-aggregator/aggregator.ts:689-738 | After a restart, paging back from the first read returns everything recorded up to it, once and in order, if and only if, when the oldest page is asked for, the history still fits 10000 events or nothing was stored since the first fetch |
| `HistoryLoss.HistoryCanLoseEvents` | src/server/copilot-aggregator/aggregator.ts:165-178 | With a full log, and one event stored after the first fetch, a client misses events of the log it first found, whatever its page size |
| `RunningHistory.WholeExactly` | src/server/copilot-aggregator/aggregator.ts:165-178 | Once first read, the log is the whole history exactly while the history fits the cap or nothing was stored since |
| `RunningHistory.LogIsWindow` | src/server/copilot-aggregator/aggregator.ts:165-178 | At any time the in-memory log is the newest part of everything ever recorded for the session |
| `RunningHistory.WindowsMoveForward` | src/server/copilot-aggregator/aggregator.ts:165-178 | Once a session was read, that part never moves back: what was dropped stays dropped |
| `Persistence.LoadReturnsAppended` | src/server/copilot-aggregator/event-persistence.ts:105-128 | For any interleaving of appends, flushes and cleanups of sessions with other file names, loading returns exactly the session's events since its last cleanup, in order |
| `Persistence.ContentsFollowAppends` | src/server/copilot-aggregator/event-persistence.ts:62-128 | File and buffer together always hold exactly those events |
| `LineCodec.LinesIsGoodCodec` | src/server/copilot-aggregator/event-persistence.ts:63 | The assumption of the store theorems can be met: a format with escaped newlines and quotes is one line per event, without white space around it, and read back unchanged |
| `Persistence.StepContents` | src/server/copilot-aggregator/event-persistence.ts:62-154 | How one append, flush or cleanup changes what a session's file and buffer hold |
| `Persistence.ParseAppend` | src/server/copilot-aggregator/event-persistence.ts:117-127 | Appending one encoded line to complete lines appends exactly its event when read back |
| `Persistence.IsolatedIffNamesDiffer` | src/server/copilot-aggregator/event-persistence.ts:48-52 | Every run of two sessions loads the first one's own events if and only if their sanitised file names differ |
| `StoreHistory.IsolatedExactly` | src/server/copilot-aggregator/event-persistence.ts:48-52 | The same on the ids: unless they have one length and differ only where both have a character outside letters, digits and `-` |
| `StoreHistory.FileNameIs` | src/server/copilot-aggregator/event-persistence.ts:48-52 | A file name keeps letters, digits, `_` and `-` of the session id, replaces every other character by `_`, and ends in `.jsonl` |
| `StoreHistory.BufferFollowsHistory` | src/server/copilot-aggregator/event-persistence.ts:62-96 | What waits in a buffer is one line for each event appended since the last flush or cleanup and since their number last reached the threshold |
| `StoreHistory.FileHoldsAllButWaiting` | src/server/copilot-aggregator/event-persistence.ts:62-96 | At any time the file holds all of a session's events since its last cleanup but those that wait, which are the newest and fewer than the threshold |
| `StoreHistory.FileIsReadByLines` | src/server/copilot-aggregator/event-persistence.ts:117-127 | Whatever a file holds, it reads as its first line, if that decodes, followed by the rest |
| `StoreHistory.BadLineIsSkipped` | src/server/copilot-aggregator/event-persistence.ts:117-127 | A blank or malformed line among complete lines hides no other event |
| `Persistence.CollisionLeaks` | src/server/copilot-aggregator/event-persistence.ts:48-52 | With equal file names, what one session wrote is loaded for the other |
| `Persistence.SanitisedNamesCanCollide` | src/server/copilot-aggregator/event-persistence.ts:50-51 | Two different ids with one file name |
| `Persistence.EventPersistence.AppendEvent` | src/server/copilot-aggregator/event-persistence.ts:62-80 | Buffers one line and flushes at the threshold |
| `Persistence.EventPersistence.FlushSession` | src/server/copilot-aggregator/event-persistence.ts:83-96 | Appends the buffered lines to the file and drops the buffer; nothing when there are none |
| `Persistence.EventPersistence.LoadEvents` | src/server/copilot-aggregator/event-persistence.ts:105-128 | Flushes, then returns the lines that decode, in order; nothing when there is no file |
| `Persistence.EventPersistence.DecodeLines` | src/server/copilot-aggregator/event-persistence.ts:117-127 | Skips blank and undecodable lines |
| `Persistence.EventPersistence.CleanupSession` | src/server/copilot-aggregator/event-persistence.ts:141-154 | Drops buffer and file |
| `LogAndDisk.MemoryLogFollowsDisk` | src/server/copilot-aggregator/aggregator.ts:693-709 | The in-memory log is always a suffix of (file events ++ pending events); once read it is all of it or its newest 10000 |
| `LogAndDisk.MemoryAndDisk` | src/server/copilot-aggregator/aggregator.ts:165-178 | File and buffer hold what was there at the start followed by everything stored since, and the log is a suffix of that |
| `LogAndDisk.UnreadLogIsLastStored` | src/server/copilot-aggregator/aggregator.ts:165-178 | Until first read, the log is exactly the last min(n, 10000) stored events in arrival order |
| `LogAndDisk.FirstReadServesHistory` | src/server/copilot-aggregator/aggregator.ts:693-709 | After a restart the first read makes the log everything ever recorded for the session, even beyond the cap |
| `LogAndDisk.DiskFollowsStore` | src/server/copilot-aggregator/aggregator.ts:165-178 | Whatever happens to the logs, the disk is what the store makes of one append per stored event, one flush per timer and one for the first read of each session |
| `LogAndDisk.EventLogs.StoreEvent` | src/server/copilot-aggregator/aggregator.ts:165-178 | Appends, caps from the front, and hands the event to the store |
| `LogAndDisk.EventLogs.HydrateFromDisk` | src/server/copilot-aggregator/aggregator.ts:693-709 | Loads the disk log once per session and replaces the memory log unless the disk has none |
| `LogAndDisk.EventLogs.GetEvents` | src/server/copilot-aggregator/aggregator.ts:713-738 | Hydrates, then returns the page |
| `Backoff.IteratedIsClosedForm` | src/daemon/client.ts:305-308 | Doubling and capping at every retry gives the closed form min(base * 2^n, cap) |
| `WsHistory.SubscriptionsConverge` | src/client/services/ws.ts:133-182 | Over any run before dispose without a dropped message: while open, a server that processed all that was sent holds a channel if and only if a handler was added to it and not given up since |
| `WsHistory.HandlersFollowHistory` | src/client/services/ws.ts:133-154 | After any operations, the handlers of a channel are exactly those added to it and neither removed nor disposed of since |
| `WsHistory.SubscriptionsFollowHistory` | src/client/services/ws.ts:133-154 | Until dispose the subscriptions are exactly the channels with a handler, each once, in the order in which they came to have one |
| `WsHistory.MessagesGoOutInOrder` | src/client/services/ws.ts:174-182 | Until dispose, what went out over all connections, without the repeated subscriptions, followed by the queue, is everything asked for and not refused, in order; refused is what comes while no connection is open and the queue is full |
| `WsHistory.NothingIsLost` | src/client/services/ws.ts:174-182 | If nothing was refused, that is everything asked for: nothing lost, repeated or reordered |
| `WsHistory.OpeningResubscribes` | src/client/services/ws.ts:218-277 | Opening sends one subscription for each channel with a handler, in order, and then the queue, which it empties |
| `WsHistory.QueueIsBounded` | src/client/services/ws.ts:174-182 | The queue never holds more than its maximum |
| `WsHistory.RetriesFollowHistory` | src/client/services/ws.ts:279-295 | The retry that becomes due after n others since a connection last opened waits min(base * 2^n, max), and stays due until it fires, a later one takes its place, or dispose |
| `WsHistory.DocumentedDelays` | src/client/services/ws.ts:1-12 | With the default delays: 1, 2, 4, 8, 16 and then 30 seconds |
| `WsHistory.StatusFollowsHistory` | src/client/services/ws.ts:92-130 | The status tells what there is: a wired socket that is open or closing, or connecting or closing, or a pending retry without a live socket, or nothing, which is so exactly before the first connect and after dispose |
| `WsHistory.ConnectionFollowsHistory` | src/client/services/ws.ts:201-240 | What becomes of the newest socket with each operation, and that pings go out from the opening of a connection until its close is heard or dispose |
| `WsHistory.DisposeIsFinal` | src/client/services/ws.ts:108-130 | After dispose there is no socket, retry or ping, and nothing goes out, whatever is called |
| `WsHistory.DisposeForgets` | src/client/services/ws.ts:108-130 | Dispose forgets handlers and queue and keeps the subscription set |
| `WsTheorems.RunKeepsConverging` | src/client/services/ws.ts:133-182 | Over any such run the queue agrees with the subscriptions while no connection is open, and the server holds them while one is |
| `WsTheorems.OpeningConvergesExactly` | src/client/services/ws.ts:218-224 | On opening, resubscribe-then-flush leaves a fresh server with exactly the subscriptions if and only if the last queued message per channel agrees with them |
| `WsTheorems.StepKeepsConverging` | src/client/services/ws.ts:133-277 | Every step that drops nothing keeps that |
| `WsTheorems.ServerFollowsLastWish` | src/client/services/ws.ts:265-277 | A server's channel set is decided, channel by channel, by the last message about it |
| `WsTheorems.DropHarmsExactly` | src/client/services/ws.ts:174-182 | A full queue does harm exactly when the refused message contradicts the last queued one about its channel |
| `WsTheorems.DropCanDiverge` | src/client/services/ws.ts:174-182 | A run that ends with the server subscribed to a channel the client left |
| `WsTheorems.NeverStalls` | src/client/services/ws.ts:201-240 | Once connected and until dispose there is always a socket whose events will be handled or a pending retry |
| `WsManager.WebSocketManager.ConnectSocket` | src/client/services/ws.ts:92-105 | Does nothing when disposed, open or connecting; else detaches the old socket and creates one, or schedules a retry |
| `WsManager.WebSocketManager.DisposeAll` | src/client/services/ws.ts:108-130 | Stops timers, forgets socket, handlers and queue |
| `WsManager.WebSocketManager.SubscribeTo` | src/client/services/ws.ts:133-142 | Records channel and handler and sends the subscription |
| `WsManager.WebSocketManager.UnsubscribeFrom` | src/client/services/ws.ts:144-154 | Only removing a channel's last handler unsubscribes |
| `WsManager.WebSocketManager.SendMessage` | src/client/services/ws.ts:174-182 | Sends when open, queues otherwise, and drops when the queue is full |
| `WsManager.WebSocketManager.HandleOpen` | src/client/services/ws.ts:218-224 | Resubscribes to everything, then flushes the queue in order, and resets the attempt counter |
| `WsManager.WebSocketManager.Resubscribe` | src/client/services/ws.ts:265-269 | Sends one subscription per channel, in order |
| `WsManager.WebSocketManager.FlushQueue` | src/client/services/ws.ts:271-277 | Sends the queued messages in order and empties the queue |
| `WsManager.WebSocketManager.HandleClose` | src/client/services/ws.ts:226-231 | Stops pinging and schedules a retry unless disposed |
| `WsManager.WebSocketManager.ScheduleRetry` | src/client/services/ws.ts:279-295 | Sets the timer to min(base * 2^attempt, max) and counts the attempt |
| `WsManager.WebSocketManager.HandleTimer` | src/client/services/ws.ts:291-294 | Clears the timer and connects |
| `DaemonHistory.NeverStalls` | src/daemon/client.ts:68-117 | After a `connect`, without `disconnect` and without a close of code 4001, the process has not exited, still reconnects, and has a socket it listens to or a pending retry |
| `DaemonHistory.ExitsExactly` | src/daemon/client.ts:98-112 | The process exits exactly when a socket it listens to closes with code 4001 |
| `DaemonHistory.ReconnectsExactly` | src/daemon/client.ts:188-203 | A running process reconnects exactly until the first `disconnect` |
| `DaemonHistory.RetriesFollowHistory` | src/daemon/client.ts:294-309 | The retry that becomes due after n others since a socket last opened waits min(1000 * 2^n, 30000) ms, and is pending until it fires, `disconnect`, or the close of a socket listened to |
| `DaemonHistory.AuthenticationFollowsHistory` | src/daemon/client.ts:222-231 | The client is authenticated exactly when accepted and since then neither rejected, disconnected nor closed, and sends heartbeats likewise, a rejection notwithstanding |
| `DaemonHistory.SocketsFollowHistory` | src/daemon/client.ts:68-117 | Which sockets the client listens to, and which is its current one, after any operation |
| `DaemonClient.RunIsSound` | src/daemon/client.ts:68-117 | In every run authenticated implies a running heartbeat, the delay is the closed form of the retries so far, and a started client that has not given up waits for something |
| `DaemonClient.NthRetryDelay` | src/daemon/client.ts:294-309 | The retry after n consecutive ones waits min(1000 * 2^n, 30000) ms |
| `DaemonClient.OneSocketIsKeptExactly` | src/daemon/client.ts:68-82 | From at most one live socket, a step leaves at most one if and only if it does not construct a socket, by `connect` or a retry, beside a live one |
| `DaemonClient.SingleSocketExactly` | src/daemon/client.ts:68-117 | A run never has two live sockets if and only if it never constructs one beside a live one |
| `DaemonClient.RetryIsAloneExactly` | src/daemon/client.ts:294-309 | That only the current socket is live, and none while a retry is pending, is kept by every step but a `connect` that finds no socket and constructs one while a retry is pending |
| `DaemonClient.SingleSocket` | src/daemon/client.ts:68-117 | Without such a call there is never more than the current live socket, and none while a retry is pending |
| `DaemonClient.SocketCanLeak` | src/daemon/client.ts:299-303 | Three steps that leave two live sockets |
| `DaemonClient.DaemonWebSocketClient.ConnectToHq` | src/daemon/client.ts:69-82 | Does nothing with a socket present; else constructs one or schedules a retry |
| `DaemonClient.DaemonWebSocketClient.ScheduleReconnect` | src/daemon/client.ts:294-309 | Keeps a pending timer; else sets one with the current delay, then doubles and caps the delay |
| `DaemonClient.DaemonWebSocketClient.CleanUp` | src/daemon/client.ts:311-319 | Stops heartbeat and timer and forgets authentication |
| `DaemonClient.DaemonWebSocketClient.HandleOpen` | src/daemon/client.ts:84-87 | Resets the delay |
| `DaemonClient.DaemonWebSocketClient.HandleAuthAccept` | src/daemon/client.ts:222-226 | Marks authenticated and starts the heartbeat |
| `DaemonClient.DaemonWebSocketClient.HandleAuthReject` | src/daemon/client.ts:228-231 | Forgets authentication |
| `DaemonClient.DaemonWebSocketClient.HandleClose` | src/daemon/client.ts:98-112 | Cleans up, then exits on code 4001, else schedules a retry unless disconnected |
| `DaemonClient.DaemonWebSocketClient.HandleTimer` | src/daemon/client.ts:299-303 | Forgets the socket and connects |
| `DaemonClient.DaemonWebSocketClient.DisconnectFromHq` | src/daemon/client.ts:188-203 | Stops reconnecting and closes the current socket |
| `RegistryTheorems.RegistryMirrorsEvents` | src/server/daemon-registry/registry.ts:62-100 | A daemon is registered if and only if its last lifecycle event was `daemon:connected`, and every `daemon:disconnected` follows a `daemon:connected` of that daemon |
| `RegistryTheorems.SupersededSocketsAreHarmless` | src/server/daemon-registry/handler.ts:411-434 | When each socket registers one id, the registry holds for every daemon exactly what that daemon's own history says: last registration, last heartbeat, not ended, not timed out |
| `RegistryHistory.SupersededSocketIsClosed` | src/server/daemon-registry/registry.ts:62-85 | When each socket registers one id, a registration closes exactly the socket on which that daemon's history has it registered, if it is another one |
| `RegistryHistory.EveryOpAnnounces` | src/server/daemon-registry/registry.ts:62-212 | After any operations: a registration emits `connected` and closes the superseded socket, the end of a socket emits `disconnected` for the first daemon on it, a check closes and reports the daemons silent for more than 45 seconds in the map's order, a heartbeat does nothing of this |
| `RegistryHistory.OrderFollowsHistory` | src/server/daemon-registry/registry.ts:62-100 | The map lists daemons in the order in which they came to be registered; registering again keeps the place |
| `RegistryHistory.OwnersFollowHistory` | src/server/daemon-registry/handler.ts:208-214 | The handler knows for every socket the id it last registered, until the socket ends |
| `RegistryTheorems.OtherSocketsAreSafe` | src/server/daemon-registry/handler.ts:411-434 | A socket's end never removes a daemon registered on another socket |
| `RegistryTheorems.GoneClearsExactly` | src/server/daemon-registry/handler.ts:420-433 | A socket's end leaves no daemon on it exactly when it held at most one registration |
| `RegistryTheorems.TwoIdsLeaveOne` | src/server/daemon-registry/handler.ts:420-433 | Two ids registered on one socket: when it ends, one of them stays registered on it |
| `RegistryTheorems.SecondEndIsHarmless` | src/server/daemon-registry/handler.ts:80-87 | When error and close both fire, the second changes no registration and emits nothing |
| `RegistryTheorems.CheckRemovesExactlyOverdue` | src/server/daemon-registry/registry.ts:195-212 | A check removes, and returns, exactly the overdue daemons |
| `RegistryTheorems.SilentIsDropped` | src/server/daemon-registry/registry.ts:180-212 | With checks every 45000 ms, a daemon silent since t is removed by a check at some time in (t + 45000, t + 90000] |
| `RegistryTheorems.BeatingIsNeverDropped` | src/shared/constants.ts:11-15 | A daemon whose gaps never exceed 45000 ms is never dropped |
| `RegistryTheorems.TwoLostBeatsAreTolerated` | src/shared/constants.ts:11-15 | A daemon that sends a heartbeat every 15000 ms is never dropped as long as no three in a row are lost |
| `RegistryTheorems.ThreeLostBeatsAreNot` | src/shared/constants.ts:11-15 | A check just after three were lost drops it |
| `DaemonRegistry.Registry.RegisterDaemon` | src/server/daemon-registry/registry.ts:62-85 | Closes a superseded socket, replaces the entry in place, and emits `connected` |
| `DaemonRegistry.Registry.UnregisterDaemon` | src/server/daemon-registry/registry.ts:88-100 | Removes the entry and emits `disconnected`, once |
| `DaemonRegistry.Registry.BeatHeartbeat` | src/server/daemon-registry/registry.ts:175-178 | Updates the last heartbeat of a registered daemon |
| `DaemonRegistry.Registry.CheckHeartbeats` | src/server/daemon-registry/registry.ts:195-212 | Drops every overdue daemon in the map's order and returns their ids |
| `DaemonRegistry.Registry.ExpireOverdue` | src/server/daemon-registry/registry.ts:199-210 | The scan while entries are deleted from the map it scans |
| `DaemonRegistry.DaemonWsHandler.DispatchRegister` | src/server/daemon-registry/handler.ts:208-214 | Records the socket's id and registers the daemon |
| `DaemonRegistry.DaemonWsHandler.DispatchHeartbeat` | src/server/daemon-registry/handler.ts:216-218 | Records the heartbeat |
| `DaemonRegistry.DaemonWsHandler.HandleDisconnect` | src/server/daemon-registry/handler.ts:411-434 | Unregisters the first daemon that the socket owns |
| `DaemonRegistry.DaemonWsHandler.FindOwner` | src/server/daemon-registry/handler.ts:421-423 | The first registered daemon on the socket, in the map's order |
| `RingBuffer.BufferIsBestSuffix` | src/daemon/copilot-cli/manager.ts:99-124 | After any run the buffer is the longest whole-chunk suffix of all output within the budget, or the last chunk alone, and its recorded size is its length sum |
| `RingBuffer.BestSuffixIsUnique` | src/daemon/copilot-cli/manager.ts:106-110 | That suffix is unique, so the buffer is determined |
| `RingBuffer.TrimFindsBest` | src/daemon/copilot-cli/manager.ts:106-110 | Evicting oldest chunks while over budget finds it |
| `RingBuffer.LiveOutput` | src/daemon/copilot-cli/manager.ts:112-123 | While nothing but output happens an attached session forwards exactly that output, a detached one nothing |
| `RingBuffer.AttachmentIs` | src/daemon/copilot-cli/manager.ts:182-214 | A session is attached exactly when it was resumed and not detached since, calls after its exit not counting |
| `RingBuffer.SendingFollowsHistory` | src/daemon/copilot-cli/manager.ts:112-206 | In every run output is sent exactly while attached by the history, a resume before the exit sends the buffer as one message unless it is empty, and nothing else sends anything |
| `RingBuffer.ResumedStreamIsSuffix` | src/daemon/copilot-cli/manager.ts:182-214 | From a resume on, what is sent reads as one contiguous suffix of the output, from where the buffer began: no gap, no repetition |
| `RingBuffer.CliSession.OnData` | src/daemon/copilot-cli/manager.ts:99-124 | Buffers, evicts, and forwards when attached |
| `RingBuffer.CliSession.ResumeSession` | src/daemon/copilot-cli/manager.ts:182-206 | Attaches and replays the whole buffer as one message, unless empty or the session is gone |
| `RingBuffer.CliSession.DetachSession` | src/daemon/copilot-cli/manager.ts:209-214 | Stops forwarding |
| `RingBuffer.CliSession.OnExit` | src/daemon/copilot-cli/manager.ts:127-156 | The session leaves the map |
| `Jsonc.StripIsProjection` | src/daemon/preview-detect.ts:106-148 | The output, lexed again, is exactly the non-comment tokens of the input, in order |
| `Jsonc.OutputTokens` | src/daemon/preview-detect.ts:106-148 | The output holds no comment, and the string literals verbatim and in order |
| `Jsonc.UnchangedIffCommentFree` | src/daemon/preview-detect.ts:106-148 | Text is unchanged if and only if it holds no comment |
| `Jsonc.StripIsIdempotent` | src/daemon/preview-detect.ts:106-148 | Stripping twice is stripping once |
| `Jsonc.LexIsLossless` | src/daemon/preview-detect.ts:111-148 | The tokens joined are the text: nothing is lost, terminated or not |
| `Jsonc.CommentExtent` | src/daemon/preview-detect.ts:132-144 | A line comment ends before the next newline, a block comment after the first closer past its opener, and both at the end of text that has none |
| `Jsonc.KeptTokenIsFirst` | src/daemon/preview-detect.ts:112-130 | A kept token followed by stripped text is still one token: no comment or string can form across a removed comment |
| `Jsonc.StripComments` | src/daemon/preview-detect.ts:106-148 | The loop returns the text of the non-comment tokens, and terminates |
| `Jsonc.CopyBody` | src/daemon/preview-detect.ts:116-128 | Copies the rest of a string literal verbatim, escapes included, unterminated included |
| `Jsonc.SkipLine` | src/daemon/preview-detect.ts:134 | Stops at the newline or the end |
| `Jsonc.FindCloser` | src/daemon/preview-detect.ts:141 | Stops at the first closer or the end |
| `Jsonc.SkipBlock` | src/daemon/preview-detect.ts:140-142 | Moves past the closer, or past the end |

## Left out

- SubscriptionsConverge: runs in which a caller passes raw subscribe or unsubscribe messages to the public `send` (src/client/services/ws.ts:174) are excluded, because such messages bypass the subscription set; runs that drop a message are covered by `DropHarmsExactly` instead.
- StoreEvent: every aggregator has a persistence store here; the optional store of src/server/copilot-aggregator/aggregator.ts:177 only removes behaviour.
- HydrateFromDisk: hydration is one step; an event stored between its read and its `set` (src/server/copilot-aggregator/aggregator.ts:697-707) is not modelled.
- FlushSession: a flush is one step; two appends to one file in flight at once, and write errors, are not modelled.
- CheckHeartbeats: entries always have a socket and state `connected`, as `register` makes them; the drift of `setInterval` is not modelled.
- HandleDisconnect: sockets are modelled from authentication on; nonce, token, auth timer and the pending map are left out.
- InvalidateByType: bulk invalidation visits keys in any order; the map's iteration order does not show in the result.
- ProcessSessionEvent: the callbacks that only reach the screen (streaming and reasoning entries, queued and steering messages, query invalidation, raw event capture) are left out; the partial texts they show are kept in the refs. Tool arguments are strings, `eventData` is a list of layers, and text formatting and dedup normalisation are parameters.
- HandleSessionEvent: title, mode, model, session type, `lastEvent` and the emitter are left out, as are tombstones, removal and the cleanup timer; the map of sessions only picks the session an event names.
- OnExit: the exit message and the synthetic shutdown event sent to HQ (src/daemon/copilot-cli/manager.ts:127-154) are left out.
- SharedTimestampIsSkipped, TwoIdsLeaveOne, CompletionCanMisfire and the other counterexamples each show one input; the lemmas ending in `Exactly` describe all of them.
- Events carry a parsed timestamp; the fallback to the current time for a missing one is left out.
- Strings are sequences of characters, one per UTF-16 code unit of the source.
- The regular expression for trailing commas (src/daemon/preview-detect.ts:151): it also rewrites text inside strings, so no lexer law holds of it.
- The cache's disk snapshot, `pruneExpired` and `getOrFetch` (src/server/cache/cache-manager.ts:100-111, 176-230): loading neither evicts nor restores recency, and fetching waits between get and set.
- Status and message listeners of the browser manager, and the delivery of server messages to handlers: no state beyond a list of callbacks.
- Commands, terminal and preview messages of the daemon client, and the request table, tool invocation and message history of the aggregator: single map updates.
- Routes, views, command line, onboarding, tracing and logging; the Copilot coordinator and the tunnel, whose intent depends on await interleavings the code leaves open.
