# Conversation server: a verified model

This project models the conversation engine of the chat server, the server loop that
drives it concurrently, and the storage that sessions are saved to and restored from, and
proves what they guarantee together.

A *session* owns an append-only chain of message records, a context strategy (whole
history, sliding window, or rolling summary) and two levels of token and cost statistics.
A *turn* records the client's query, sends the strategy's context to a model, streams the
answer, stores it and lets the strategy condense the history with a second model call. A
turn can be cancelled or fail wherever it waits; its partial effects stay.

## Reading order

| file | contents |
|---|---|
| `UsageStats.dfy`, `Billing.dfy` | accumulators as heap objects, conservation, order independence; prices, cost of accumulated usage |
| `LlmPort.dfy`, `LlmAdapter.dfy`, `StatsDecorator.dfy` | event streams, the chunk loop against a declarative reading, the accounting pass-through |
| `Records.dfy`, `ContextStrategy.dfy` | the record chain; strategies, factory, exact rolling summaries |
| `Conversation.dfy`, `Session.dfy` | a whole turn as a function and what holds over all runs; the mutable session and strategy proved against it |
| `Persistence.dfy`, `Services.dfy` | session directories, restarts, use cases, frames |
| `Engine.dfy`, `Server.dfy` | the turn and the server as interleaved steps |
| `StreamSafety.dfy`, `StorageSafety.dfy`, `Recovery.dfy` | guarantees over all interleavings; the server's disk against the session files |
| `Paths.dfy`, `Serving.dfy` | what one session object can go through on its own; a message served from the client's frame to the disk |
| `Races.dfy` | event by event, exactly when a guarantee survives; runs on which it does not |

A model call is an arbitrary finite event sequence that may be cut short. New UUIDs are
ids not used before. One server event is the code between two suspension points; a
cancellation and any failure are the same event, possible at every suspension point.

## What is guaranteed only under a condition

Five properties one would expect of every run are false of the code. For the first four,
the events that endanger the property are named. Each such event is shown, from every
reachable state (for a handshake: every state reached with free sockets so far), to leave
the property intact however things go on afterwards, if and only if a condition on the
state before the event holds. The conditions concern one session object or one id; what
other sessions do is unrestricted. "However things go on" ranges over all continuations
whose later events of the same sort meet the condition too.

- **One stream per session object.** `handle_ws` tests `sc.ws` before awaiting the
  handshake and assigns it afterwards (`server/adapter/inbound/web/ws_handler.py:166-172`),
  so two handshakes may overlap. When the first client leaves, its clean-up forgets the
  stream the second has started meanwhile, and a third stream can run beside it. A
  completed handshake is harmless if and only if the socket is still free then
  (`Races.SingleStreamIff`).
- **No record lost from summary and context.** A query recorded during another stream's
  summarisation is covered by neither, because the anchor is read after the model call
  (`server/application/domain/model/context_strategy/summary_strategy.py:89`). A completed
  handshake is harmless if and only if the socket is free or the session keeps no summary
  (`Races.NothingLostIff`, `Races.AnchorsSafeIff`; `ContextStrategy.AnchorSoundIff` is the
  step that depends on it).
- **The disk never diverges from the registered session.** Until a delete of an id begins
  this holds on every run (`StorageSafety.DiskLags`). After a delete, a stream of the old
  session object can write into the directory of a new one. Creating or loading the id is
  harmless if and only if in every earlier session object of it that is still alive no
  handler serves or awaits a handshake, and every unfinished stream is about to write just
  the session that is being opened (`Races.DiskIsPastIff`).
- **Every registered session is stored.** While a delete waits for the socket to close
  (`server/adapter/inbound/web/session_routes.py:111-118`), a load of the id registers a
  session whose directory is about to go; so does a create, once a second delete has
  removed the directory. Either is harmless if and only if no delete of the id is under
  way (`Races.RegistryStoredIff`).
- **A restart loses nothing.** Prompt files are read in text mode, which turns carriage
  returns into newlines, and the two prompts of a session share a file when their digests
  agree. A restart gives the same session back if and only if no prompt contains a carriage
  return and equal digests mean equal prompts (`Persistence.RestartFaithfulIff`).

## Where code and documents disagree

The model follows the code.

- The repository's session requirements let `get_context` summarise; the code does so in
  `update_context`, after the answer is stored (`server/application/domain/model/session.py:184-185`).
- Its strategy requirements always prepend the summary text; the code omits an
  empty one (`server/application/domain/model/context_strategy/summary_strategy.py:69`, `:103`).
- The same requirements have the factory build a summary strategy from empty metadata; the
  constructor refuses the empty default prompt
  (`server/application/domain/model/context_strategy/summary_strategy.py:38-39`).
- `messages` is documented as distinct from a context "with system prompt"
  (`server/application/domain/model/session.py:115-122`); the session's own system prompt is
  never sent, only the strategy's is, in summarisation requests.

## Model

| member | source | states |
|---|---|---|
| UsageStats.Conservation | server/application/domain/model/usage_stats.py:56-87 | for every pair, the accumulated amount is the initial one joined with the sum of its logged completions, read without any map |
| UsageStats.OrderIrrelevant | server/application/domain/model/usage_stats.py:56-87 | any reordering of the same completions gives the same nested statistics |
| UsageStats.AmountsAreSums | server/application/domain/model/usage_stats.py:56-87 | each row shows the plain sums of the tokens and of the costs its log entries give, a missing cost adding nothing, and no cost exactly when none of them has one |
| UsageStats.TotalsGrow | server/application/domain/model/usage_stats.py:64-73 | recording more never shows fewer tokens for any pair |
| UsageStats.LifecycleIsSumOfTurns | server/application/domain/model/usage_stats.py:90-127 | the lifecycle total is the initial amount plus the per-turn statistics, turn by turn |
| UsageStats.UsageStatsAccumulator.AddStats | server/application/domain/model/usage_stats.py:56-87 | the nested dictionaries change in place to exactly the old contents with this entry added; new tables are new objects |
| UsageStats.UsageStatsAccumulator.Zero | server/application/domain/model/usage_stats.py:52-54 | the outer dictionary itself is emptied, the inner ones are left alone |
| UsageStats.SessionUsageStats.AddStats | server/application/domain/model/usage_stats.py:106-115 | both levels take the entry, and stay what the whole log and the log since the last begin say; no table is reachable from both |
| UsageStats.SessionUsageStats.BeginInvocation | server/application/domain/model/usage_stats.py:117-119 | restarts the current level, keeps the lifecycle level |
| Billing.EstimateAtRates | server/application/domain/model/model_billing.py:39-44 | prompt tokens are priced at the input rate, completion tokens at the output rate, per `tokens_per_price`; the total is their sum |
| Billing.LoadPricing | server/adapter/outbound/persistence/model_billing_factory_adapter.py:38-47 | succeeds exactly when all entries are valid; maps exactly the listed pairs, each to its last entry; otherwise reports the first invalid index |
| Billing.BillingHomomorphism | server/application/domain/model/llm_stats_decorator.py:55-70 | accumulated cost is missing exactly for unpriced pairs and otherwise the accumulated tokens at the pair's own rates |
| Billing.AmountsGrow | server/application/domain/model/model_billing.py:39-44 | under one table a longer log shows no smaller amount for any pair, in tokens or in cost |
| LlmAdapter.LlmAdapter.ReadChunks | server/adapter/outbound/llm/llm_adapter.py:64-91 | text is the non-empty deltas of chunks with choices, usage the last one seen, stop reason the last finish reason, with stop read as length exactly when the usage seen by then equals the limit; an unknown reason cuts the stream there |
| LlmAdapter.LlmAdapter.Acompletion | server/adapter/outbound/llm/llm_adapter.py:38-91 | every call keeps the port contract and names the configured provider and model; a provider mismatch yields nothing; both modes are specified |
| LlmAdapter.ReadingText | server/adapter/outbound/llm/llm_adapter.py:65-79 | the stream's text is that of the chunks read, all of them exactly when it completes |
| LlmAdapter.StopOfReading | server/adapter/outbound/llm/llm_adapter.py:65-91 | a fully read stream ends with the last usage and the last named reason, stop being read as length exactly at the token limit |
| LlmAdapter.ParseStopInvertsName | server/application/domain/model/session.py:35-39 | a string is read as a stop reason exactly when it is that reason's name |
| StatsDecorator.LlmStatsDecorator.Acompletion | server/application/domain/model/llm_stats_decorator.py:44-71 | events pass unchanged, and wherever the stream ends all completion events forwarded so far are recorded, nothing else |
| StatsDecorator.RecordedOnce | server/application/domain/model/llm_stats_decorator.py:52-71 | a conforming call is recorded exactly once when it completes, with the pair and the usage its completion event reports, and at most once when cut |
| StatsDecorator.EntriesReport | server/application/domain/model/llm_stats_decorator.py:55-71 | entry by entry, what is recorded is the provider, model and usage of the completion events, in order |
| StatsDecorator.EntriesPriced | server/application/domain/model/llm_stats_decorator.py:55-70 | with billing taken from the table for the configured pair, every recorded cost is the table's price |
| Records.AppendKeepsChain | server/application/domain/model/context_strategy/base.py:38-52 | both add operations keep ids distinct and each record linked to its predecessor |
| Records.ChainDeterminesOrder | server/application/domain/model/context_strategy/base.py:26-52 | two chains with the same set of records are the same list |
| ContextStrategy.BuildSucceedsIff | server/application/domain/model/context_strategy/factory.py:19-50 | exactly which stored types and metadata can be rebuilt |
| ContextStrategy.BuildDefaults | server/application/domain/model/context_strategy/factory.py:26-49 | what a strategy is built with: the stored window or 4 and 8, the stored prompt, text and anchor |
| ContextStrategy.BuildInvertsMetadata | server/application/domain/model/context_strategy/factory.py:26-49 | building from a strategy's type and metadata gives its state back, exactly for states a strategy object can be in |
| ContextStrategy.SummaryReachesModel | server/application/domain/model/context_strategy/summary_strategy.py:67-105 | a non-empty summary text is the first message of every context and every summarisation, an empty one adds none; all records after the anchor follow |
| ContextStrategy.EndOfMember | server/application/domain/model/context_strategy/summary_strategy.py:54-58 | the anchor search finds the position of a record's own id |
| ContextStrategy.ExactAppend | server/application/domain/model/context_strategy/summary_strategy.py:49-60 | a new record joins the verbatim tail and leaves the summarised partition alone |
| ContextStrategy.AnchorSoundIff | server/application/domain/model/context_strategy/summary_strategy.py:83-89 | the summary with the anchor read after the call is exact if and only if no record was appended during the call |
| ContextStrategy.PartitionOfHistory | server/application/domain/model/context_strategy/summary_strategy.py:92-105 | summarised segments followed by the context's verbatim part are the history |
| ContextStrategy.AmortisedCost | server/application/domain/model/context_strategy/summary_strategy.py:67 | completed summarisations times the window never exceed the number of records |
| ContextStrategy.SummaryIsFold | server/application/domain/model/context_strategy/summary_strategy.py:68-89 | for a deterministic summariser the text is its left fold over the segments, empty texts left out |
| Conversation.TextConserved | server/application/domain/model/session.py:174-185 | a completed turn stores exactly the text it streamed; an abandoned one stores the query and all or nothing of the answer |
| Conversation.TurnAccounting | server/application/domain/model/session.py:169-192 | both levels grow by exactly the turn's recorded calls however it ends; a done event reports exactly those |
| Conversation.TurnReports | server/application/domain/model/session.py:169-192 | a turn's statistics show for every pair exactly the tokens its calls' completion events report |
| Conversation.RecordedOncePerCall | server/application/domain/model/session.py:177-185 | one recorded entry for the main call and one for a completed summarisation, if its port is metered |
| Conversation.EventGrammar | server/application/domain/model/session.py:177-193 | chunks one for one, then exactly one done event with the model's stop reason, or a cut-short start of that |
| Conversation.RequestIs | server/application/domain/model/session.py:174-177 | the request message by message: whole history, its last window, or summary text and all messages after the anchor, and the query last |
| Conversation.RollingRequest | server/application/domain/model/context_strategy/summary_strategy.py:92-105 | for an exact summary: the last reply, if any, and every message not yet summarised |
| Conversation.DigestIs | server/application/domain/model/context_strategy/summary_strategy.py:67-84 | when a turn summarises, and with which system prompt, prompt, summary text and messages |
| Conversation.SummaryAfter | server/application/domain/model/context_strategy/summary_strategy.py:83-89 | the summary after a turn is the whole reply, anchored at the stored answer, or the old one |
| Conversation.RunAccounting | server/application/domain/model/session.py:165-193 | over any run the lifecycle total is the initial amount plus each turn's own statistics, abandoned turns included |
| Conversation.HistoryIsWhatWasSaid | server/application/domain/model/session.py:116-133 | over turns, abandoned turns and switches the history is the chronological queries and complete answers |
| Conversation.ContextIsSuffix | server/application/domain/model/context_strategy/sliding_window_strategy.py:34-35 | every context is at most one summary message and a suffix of the history, of the size its strategy says |
| Conversation.ChainKept | server/application/domain/model/session.py:124-133 | the record chain survives turns, abandoned turns and strategy switches |
| Conversation.Bisimilar | server/application/domain/model/session.py:165-193 | sessions equal up to last-invocation statistics and prompt paths show the same for every future |
| Session.Strategy.FindAnchor | server/application/domain/model/context_strategy/summary_strategy.py:54-58 | the index search computes the specified anchor position |
| Session.Strategy.GetContext | server/application/domain/model/context_strategy/summary_strategy.py:92-105 | the read computes the specified context for each of the three strategies |
| Session.Strategy.UpdateContext | server/application/domain/model/context_strategy/summary_strategy.py:49-90 | asks the model exactly when a window is full, with the specified request; replaces the summary only when the call completes; records usage either way |
| Session.Session.Acompletion | server/application/domain/model/session.py:165-193 | the method's effect on the object and everything it shows are those of the turn function, wherever a call is cut |
| Session.Session.SetMessageContextStrategy | server/application/domain/model/session.py:124-133 | keeps the records, takes everything else from the given strategy, metered port or not |
| Persistence.ReadTextIsTranslation | server/common/config_loader.py:27-30 | the reading turns each of the three line endings into a newline and keeps every other character |
| Persistence.ReadTextExactIff | server/common/config_loader.py:27-30 | text-mode reading returns the text written exactly when it has no carriage return |
| Persistence.StoredPrompt | server/common/config_loader.py:62-76 | a prompt is stored in the file its configuration names or in one named by its digest, and nowhere else |
| Persistence.WritesOnlyItsFiles | server/adapter/outbound/persistence/session_file_adapter.py:119-163 | a save leaves every file but its own as it was |
| Persistence.ReadsWhatWasWritten | server/adapter/outbound/persistence/session_file_adapter.py:55-117 | reading a written directory succeeds and gives back all but the prompts as written |
| Persistence.ReloadedIs | server/adapter/outbound/persistence/session_file_adapter.py:55-117 | the session that comes back, prompts included: each prompt as text mode reads it, the strategy's where both share a file |
| Persistence.RestartFaithfulIff | server/adapter/outbound/persistence/session_file_adapter.py:55-163 | a saved session always reloads, and agrees with the live one if and only if its prompts are safe |
| Persistence.RestartKeepsWired | server/common/config_loader.py:45-76 | after a faithful reload the next save and reload is faithful again |
| Persistence.RestartsInvisible | server/adapter/outbound/persistence/session_file_adapter.py:55-163 | a session reloaded after any number of phases shows, turn by turn, what the never-restarted session shows |
| Persistence.SessionFileAdapter.WriteSessionFiles | server/adapter/outbound/persistence/session_file_adapter.py:119-163 | the step-by-step writes leave exactly the specified directory, stale files included |
| Persistence.SessionFileAdapter.CreateSession | server/adapter/outbound/persistence/session_file_adapter.py:165-171 | refuses an existing directory and changes nothing then |
| Persistence.SessionFileAdapter.UpdateSession | server/adapter/outbound/persistence/session_file_adapter.py:173-177 | never creates a directory |
| Persistence.SessionFileAdapter.DeleteSession | server/adapter/outbound/persistence/session_file_adapter.py:179-186 | removes the directory or reports that there is none |
| Persistence.SessionFileAdapter.GetSession | server/adapter/outbound/persistence/session_file_adapter.py:55-117 | the file-by-file read reports the first missing or unreadable file and otherwise inverts the write, prompts apart |
| Services.Restore | server/application/domain/service/get_session.py:21-51 | rebuilds a valid live object equal to the specified revived session, with one new statistics object shared by both decorators |
| Services.CreateSession | server/application/domain/service/create_session.py:28-56 | succeeds exactly for a known strategy, buildable metadata and a free id; stores what it returns; leaves storage alone on every error |
| Services.CreatedIs | server/application/domain/service/create_session.py:28-54 | a new session's identity, both configurations, billing and strategy, field by field, and nothing recorded yet |
| Services.CreatedIsWired | server/application/domain/service/create_session.py:28-54 | created sessions meet the precondition of every restart theorem |
| Services.GetSession | server/application/domain/service/get_session.py:21-51 | loads exactly the ids whose directory can be read and rebuilt |
| Services.DoneFrames | server/adapter/inbound/web/ws_handler.py:57-70 | exactly one done frame per pair of the statistics |
| Services.StreamResponse | server/adapter/inbound/web/ws_handler.py:47-102 | chunk frames first, then one done frame per pair of the statistics, their text exactly the model's; the session is written only after the done event was taken and only into an existing directory |
| Services.EndToEndText | server/adapter/inbound/web/ws_handler.py:54-56 | the text of a turn's frames is the model's text, and in a completed answer the stored one |
| Services.ProviderTextReachesClient | server/adapter/outbound/llm/llm_adapter.py:65-79 | from provider chunks to client and disk the text is the concatenated deltas |
| Services.CutTextIsPrefix | server/adapter/outbound/llm/llm_adapter.py:65-79 | wherever provider, adapter or client cut the stream, the frames sent carry a prefix of the provider's text |
| Engine.StepTallied | server/application/domain/model/session.py:165-193 | chain, statistics, prices and anchor membership survive every step, also of overlapping turns |
| Engine.StepSound | server/application/domain/model/session.py:165-193 | every step of an undisturbed turn, abandonment included, keeps the summary exact and the tail within its bound |
| Engine.StepGrows | server/application/domain/model/session.py:165-193 | records, recorded usage and summaries only grow, and a step changes nothing else of the session |
| Engine.DriveIsPlay | server/application/domain/model/session.py:165-193 | the steps run without interference are the session method's turn, down to the request sent |
| Engine.DriveRemembers | server/application/domain/model/context_strategy/summary_strategy.py:67-89 | a remembered summarisation is the records it covered, what the model was shown and what it replied |
| StreamSafety.ControlKept | server/adapter/inbound/web/ws_handler.py:105-187 | the unfinished task is the registered one and whoever serves holds the socket, after every event |
| StreamSafety.OneStream | server/adapter/inbound/web/ws_handler.py:105-187 | a session object whose own handshakes found the socket free has one stream at a time, with a socket, in every state of every run |
| StreamSafety.OnlyOverlapsCollide | server/adapter/inbound/web/ws_handler.py:161-172 | a connection finding a socket is refused, so without overlapping handshakes every one completes on a free socket and there is one stream |
| StreamSafety.AnchorsSound | server/adapter/inbound/web/ws_handler.py:127-139 | under the same condition on one id, none of its session objects appends a record during a summarisation or loses one |
| StreamSafety.RollingSummaryExact | server/application/domain/model/context_strategy/summary_strategy.py:49-105 | on those runs, restarts and abandoned turns included, the summary is an exact fold over a partition of the history, with bounded cost |
| StreamSafety.RequestsBounded | server/application/domain/model/context_strategy/summary_strategy.py:67-105 | a request after c abandoned turns carries at most w + 1 + 2c messages |
| StorageSafety.CostsMatchTable | server/application/domain/model/llm_stats_decorator.py:52-71 | on every run every cost shown is the table's price of the usage shown |
| StorageSafety.ChainsIntact | server/application/domain/model/context_strategy/base.py:38-52 | the record chain is intact in every session of every run |
| StorageSafety.DiskLags | server/application/domain/service/send_message.py:17-19 | on every run until a delete of the id begins, a registered session is stored as one of its past or present states: records a prefix, tokens and costs nowhere larger, anchor among the stored records |
| StorageSafety.DiskLagsWhenClean | server/application/domain/service/send_message.py:17-19 | the same after deletes too, whenever the id was reopened only beside harmless earlier session objects |
| StorageSafety.StoredOnlyGrows | server/adapter/outbound/persistence/session_file_adapter.py:165-177 | until a delete of the id begins, what is stored for it never loses a record or an amount, whatever restarts and requests come |
| StorageSafety.NoResurrection | server/adapter/outbound/persistence/session_file_adapter.py:173-177 | an id absent from storage stays absent until it is created, whatever streams still run |
| StorageSafety.DeleteBegins | server/adapter/inbound/web/session_routes.py:106-121 | a delete request unregisters the id at once and removes its directory at once unless a client is attached, when it stays pending; no other id is touched |
| StorageSafety.PendingUntilDone | server/adapter/inbound/web/session_routes.py:111-121 | a pending delete stays pending until it completes or the process ends |
| StorageSafety.DeletedStaysAway | server/adapter/inbound/web/session_routes.py:106-121 | from the event that removed the directory until a create of the id, it is not stored, and unregistered it stays unregistered |
| StorageSafety.RestartKeepsDisk | server/adapter/inbound/web/session_routes.py:58-71 | the end of the process loses memory and pending deletes, nothing on disk |
| StorageSafety.RegistryConsistent | server/adapter/inbound/web/session_routes.py:58-124 | when loads and creates of an id wait for its deletes, its cached entry is stored under its own id |
| Server.RunsAreNamed | server/adapter/inbound/web/session_routes.py:58-124 | on every run, whatever the interleaving, every cached entry is a live session object under its own id |
| Serving.ServedTurn | server/adapter/inbound/web/ws_handler.py:127-139 | from any reachable state a served message can run undisturbed, and then session and disk are as the session method and a write after a finished turn leave them |
| Recovery.RoomsAreWired | server/application/domain/service/get_session.py:21-51 | every session object of every run meets the precondition of the restart theorems |
| Recovery.LoadIsReload | server/application/domain/service/get_session.py:21-51 | what the server loads after a write and a restart is what the files give back, if and only if the prompts are safe; then no future tells them apart |
| Races.TwoStreams | server/adapter/inbound/web/ws_handler.py:166-187 | a run from start-up that ends with two unfinished streams of one session |
| Races.LostQuery | server/application/domain/model/context_strategy/summary_strategy.py:83-89 | a run on which a recorded query is in neither summary nor context |
| Races.OldStreamOverwrites | server/application/domain/service/send_message.py:17-19 | a run, with a create after a delete, whose last event is an old stream's write that leaves the new session's directory in no state of that session |
| Races.LoadDuringDelete | server/adapter/inbound/web/session_routes.py:63-71 | a run ending in a load and the end of a delete, which leaves the loaded session registered without a directory |
| Races.CreateDuringDelete | server/adapter/inbound/web/session_routes.py:85-97 | a run ending in a create and the end of a delete, which leaves the created session registered without a directory |
| Races.SingleStreamIff | server/adapter/inbound/web/ws_handler.py:105-187 | from every state reached with free sockets, completing a handshake keeps one stream for all continuations if and only if the socket is free |
| Races.NothingLostIff | server/application/domain/model/context_strategy/summary_strategy.py:83-89 | from every such state, it loses no record for all continuations if and only if the socket is free or the session keeps no summary |
| Races.AnchorsSafeIff | server/application/domain/model/context_strategy/summary_strategy.py:83-89 | the same for no record being appended between building the input and reading the anchor |
| Races.DiskIsPastIff | server/application/domain/service/send_message.py:17-19 | from every reachable state, opening an id keeps the disk a past state for all continuations if and only if its earlier live session objects are harmless |
| Races.RegistryStoredIff | server/adapter/inbound/web/session_routes.py:58-124 | from every reachable state, opening an id keeps it stored for all continuations if and only if no delete of it is under way |

## Left out

- Server.Local: cancellation of a connection handler from outside (server shutdown) is not an event; a handler always finishes its clean-up.
- Server.Apply: handlers and routes are a transition system over values, not methods on `SessionConnections` and the registry dictionary; sending a frame that cannot fail the task is not an event of its own.
- Server.Saved: prompt file names are erased in the server's disk, whose entries are the sessions as reloaded; `Recovery.LoadIsReload` says when the files give just that.
- Server.Fresh: sessions start without a preset summary; configured metadata could carry one.
- Session.Session.SetMessageContextStrategy: a port that accounts to another session's statistics is taken as one that this session's statistics do not see; what it adds elsewhere is not tracked.
- Persistence.RestartFaithfulIff: asks for a metered strategy port, which every created and every loaded session has; a session switched to an unmetered one comes back metered.
- Persistence.SessionFileAdapter.WriteSessionFiles: each save is all-or-nothing; partial writes, file errors, text encodings other than newline translation, and the output schema's file are not modelled.
- Billing.ModelBilling.Estimate: exact reals instead of floating point.
- Rendering of the summarisation prompt (`%` formatting of the message list): a request is kept as system prompt, prompt template and messages.
- Output schemas: only their presence, which disables streaming; their files and `server/common/json_helpers.py` are not part of this model.
- Elapsed time, logging, HTTP status codes and error frames; the creation time is a number passed in.
- The adapter's keyword arguments (`server/adapter/outbound/llm/llm_adapter.py:12-30`): a call takes its configuration whole; choosing keys would only add easy members.
- The `KeyError` fallback of the decorator, which the present `estimate` cannot reach.
- Adapter caching, list and delete use-case wrappers, configuration and strategy-defaults loading, `client.py`: they would add only easy members.
