# A verified model of the LLM gateway's stateful logic

This project models, in Dafny, the parts of the gateway whose correctness spans many
calls, and proves what they promise. Each module is named after what it models; the
specification functions, the state machines over them, and the imperative methods that
refine them sit together.

- **Streaming translation.** `SseFraming` (LF framing of server-sent events, section 9.2
  of the WHATWG HTML standard), `ChatStream` (the block state machine and a grammar
  reader for its output), `ChatAgreement` (streamed against non-streamed),
  `MessageTranslator` (the object and its loops), `FrameRelay` and `CostAnnotation`
  (rewriting frames in flight).
- **Deferred-accept ledger.** `LedgerProtocol` is a state machine whose steps are the
  locked sections and SQL calls of any number of interleaving requests; `Ledger` holds
  the objects, each of whose calls is proved to be a run of that machine.
- **Authority.** `AliasAuthority` (alias, revision and grant rows, and the two queries
  over them), `Authorization` (the two reuse windows, as an interleaved state machine),
  `ControlStore` (one request, start to end), `TtlCache`.
- **Shadow leases.** `LeaseShadow` (decisions and the refresher), `RateWindow` (the
  sliding request window over whole runs), `LeaseWorker` (maps updated in place).
- **Catalog.** `CatalogRows` (rows and indexes), `CatalogAssembly` (what one build
  computes), `CatalogReference` and `CatalogPlans` (what it is to be, told from the rows
  alone), `CatalogClosed` (its invariants), `CatalogAssembler` (the tables filled in
  place), `Routing` and `CatalogServing` (org-aware resolution over a built catalog),
  `Generations` (swaps with a grace step).
- **Drain and dedupe.** `Broadcast` (claim, ship, release), `Sessions` (turns attributed
  once), `ModelIdentity` and `ModelSlugs` (canonical slugs, and what they are in the id's
  own terms).
- **Shared.** `Prelude` (with `OrderedDict`, a Python dict in insertion order, and
  `Json`), `Sorting`, `Grouping`.

SHA-256 is taken as injective, so digests and the names derived from them appear as the
values they are computed from; uuids and slugs are naturals, compared and ordered only;
fractions are numerator over denominator. JSON text conversion is a parameter. SQL
functions and store calls are atomic steps.

## Where the code does not keep what is promised of it

Each of these is stated as a theorem that says exactly when the promise is kept.

- The advertised bound of the rate window, floor(headroom * rpm) shadow admits a minute,
  fails when that floor is 0: an API key without a window entry is never rate limited,
  so its first admit always passes. `RateWindow.AdvertisedBoundExactly`.
- A name can be listed by `granted_aliases` although every request for it is refused: an
  active org row without a current revision shadows the public row for the live query,
  but not for the listing. `AliasAuthority.ListingAgreesExactly`, with rows in
  `AliasAuthority.ListedButRefused`.
- The reuse window is counted from the moment an answer was stored, not from the moment
  the database gave it. `Authorization.AgeFromTheQuery`.
- The comment at `explabs/gateway/control_store.py:343-346` says org-shadow changes stay
  immediately consistent. A public answer stored before the org row came is served until
  it expires: `Authorization.ShadowWaitsForExpiry`, with a run in
  `Authorization.ShadowedNameIsServed`.
- A bare `:0` behind a name that itself ends in `-v<digits>` strips that version too, so
  two models meet in one slug, unless the version shows in neither because it lies behind
  the 128-character cut. `ModelIdentity.BareVersionOnSlugs` (and `BareVersionExactly` for
  maker and name), with a concrete pair in `ModelIdentity.BareVersionMerges`.
- A `-v1:0` suffix can complete Azure's `fw-` marker (`fw` becomes `fw-v1:0`).
  `ModelIdentity.MarkedVersionOnSlugs` (and `MarkedVersionExactly` for maker and name).
- The placeholder credential of a public bring-your-own-key row is said never to be sent
  (`explabs/gateway/catalog.py:1232-1240`). A route is refused only when all its lanes need
  the caller's key, so behind a funded rung the placeholder lane stays as a fallback.
  `CatalogServing.PlaceholderServedExactly`, with a catalog in
  `CatalogServing.PlaceholderIsServed`.
- Streamed and non-streamed translations differ for text after a tool call, for
  interleaved deltas of several tools, for a tool introduced without an id, for a name
  that comes after its tool's first delta, for tools out of index order, and for a stream
  without any choice. `ChatAgreement.StreamAgreesWithBody`, with one such stream in
  `ChatAgreement.TextAfterToolDisagrees`. The source promises the encoder's order only
  (`explabs/gateway/anthropic_messages.py:535-538`), so these streams lie outside it.
- Lineage derived for a request is not always written with it: a full tracker evicts it,
  and a keyed accept or a finish whose transaction fails had already collected it.
  `LedgerProtocol.RowLineageExactly` and `LedgerProtocol.IdleLineageExactly`, with a run in
  `LedgerProtocol.FailedFinishLosesLineage`.

## Model

| member | source | states |
|---|---|---|
| SseFraming.SplitJoin | explabs/gateway/anthropic_messages.py:639-652 | cutting a byte stream at its blank lines loses nothing, and no frame or tail contains one |
| SseFraming.JoinSplit | explabs/gateway/anthropic_messages.py:639-652 | that framing is the only one with those properties |
| SseFraming.SplitAppend | explabs/gateway/anthropic_messages.py:642-652 | framing a prefix and feeding its tail back in front of the rest is framing the whole |
| SseFraming.StreamRoundTrip | explabs/gateway/anthropic_messages.py:639-652 | payloads without a line feed and without a blank at either end, written as `data:` lines with any blanks around them among any other lines, come back exactly, in order, and an unfinished last frame yields nothing |
| SseFraming.LinesJoin | explabs/gateway/anthropic_messages.py:648 | cutting a frame into lines and joining them with line feeds gives the frame back |
| SseFraming.StripTakesEnds | explabs/gateway/anthropic_messages.py:650 | stripping takes white space off both ends, all of it, and nothing else |
| SseFraming.IterSseData | explabs/gateway/anthropic_messages.py:639-652 | the payloads are those of the concatenated bytes, wherever the chunks are cut, and for a stream written as `data:` lines they are the payloads written |
| SseFraming.DrainFrames | explabs/gateway/anthropic_messages.py:645-652 | one buffer yields the payloads of its complete frames and keeps exactly its unterminated tail |
| FrameRelay.RelayIsWholeRewrite | explabs/gateway/cost_annotation.py:340-359 | however a response is cut into body messages, the client gets the frame-by-frame rewrite of the whole stream plus the tail verbatim |
| FrameRelay.RewriteKeepsFraming | explabs/gateway/cost_annotation.py:340-359 | a reader of the rewritten stream sees as many frames at the same places, and the same tail |
| CostAnnotation.EmptyRegistryIsIdentity | explabs/gateway/cost_annotation.py:249-267 | with an empty registry every byte passes unchanged, for every cut |
| CostAnnotation.AnnotateTouchesOnlyCost | explabs/gateway/cost_annotation.py:125-154 | annotation sets `usage.cost` in the payload that carries the usage and changes no other field at any level |
| CostAnnotation.RewriteFrameBills | explabs/gateway/cost_annotation.py:80-92 | a frame with one data line whose usage-bearing object ends its id in a recorded digest leaves with the billed amount in USD for a host-managed record and 0 for a customer-managed one, that record consumed; every other frame leaves untouched |
| CostAnnotation.ResponseBilledExactly | explabs/gateway/cost_annotation.py:340-359 | however a response is cut, each of its frames arrives billed in turn as its record says, and its tail as it was |
| CostAnnotation.AnnotationKeepsFraming | explabs/gateway/cost_annotation.py:249-267 | the annotated stream has the same frames at the same places |
| CostAnnotation.CostStampedAtMostOnce | explabs/gateway/cost_annotation.py:111-154 | over a run of frames a settled cost is handed out at most once, and only if it was recorded |
| CostAnnotation.CostRegistry.Record | explabs/gateway/cost_annotation.py:111-117 | the newest record is kept and the oldest evicted beyond the capacity |
| CostAnnotation.CostRegistry.Pop | explabs/gateway/cost_annotation.py:119-122 | a cost is returned and forgotten |
| CostAnnotation.ResponseRewriter.RewriteOne | explabs/gateway/cost_annotation.py:249-267 | one frame is billed against the live registry: cost written and record consumed exactly when it offers a recorded payload |
| CostAnnotation.ResponseRewriter.OnSseBody | explabs/gateway/cost_annotation.py:340-359 | one body message forwards its complete frames billed in turn, keeps the partial one, and flushes it verbatim at the end |
| ChatStream.EventsFollowGrammar | explabs/gateway/anthropic_messages.py:525-735 | on any payloads the events are start, at most one ping, bracketed blocks with matching deltas, then either one error or the close of all blocks, message_delta and message_stop |
| ChatStream.AcceptedStreamsNumberBlocks | explabs/gateway/anthropic_messages.py:564-617 | blocks of any accepted stream are numbered 0, 1, 2, ... |
| ChatStream.ContentIsConserved | explabs/gateway/anthropic_messages.py:655-735 | the text and argument deltas that leave are the contents that arrived, none lost, merged or reordered |
| ChatStream.StreamEndsAsGiven | explabs/gateway/anthropic_messages.py:443-467 | a stream that reaches [DONE] ends with the stop reason of its last finish reason and the counters of its last usage; one that meets an error frame ends with that error, and one cut short with the truncation error |
| ChatAgreement.StreamAgreesWithBody | explabs/gateway/anthropic_messages.py:475-515 | for a stream that reaches [DONE], the reassembled message is the translation of the assembled body if and only if some frame carried a choice, text comes first, the deltas of a tool follow each other behind one that carries its id and name, and index order goes unnoticed; so for every encoder-shaped stream, and where no two tools share an id for no other |
| ChatAgreement.CompletionExactly | explabs/gateway/anthropic_messages.py:470-515 | a body's message is its text, if any, then its tool calls in order, each with its id or a minted one and its arguments if they are an object, under the same stop reason and counters as a stream; no choice and a refusal are errors |
| ChatAgreement.IndexOrderShows | explabs/gateway/anthropic_messages.py:535-538 | tools opened in index order go unnoticed, and tools with ids of their own only then |
| ChatAgreement.TextAfterToolDisagrees | explabs/gateway/anthropic_messages.py:475-515 | a stream with text after a tool call reassembles to another message than its body |
| ChatAgreement.StreamBuildsBlocks | explabs/gateway/anthropic_messages.py:655-735 | what a client has reassembled after any prefix is the blocks its atoms open, and ends with the last finish reason and usage |
| MessageTranslator.TranslateChatSse | explabs/gateway/anthropic_messages.py:655-735 | for any chunking, the events are those of the payloads written in the stream, follow the grammar, conserve content and end as the payloads say |
| MessageTranslator.TranslatePayloads | explabs/gateway/anthropic_messages.py:655-735 | the driving loop emits the specified events on every path: error frame, junk, [DONE], truncation |
| MessageTranslator.StreamState.CloseBlock | explabs/gateway/anthropic_messages.py:608-617 | closes exactly the open block |
| MessageTranslator.StreamState.OpenTextBlock | explabs/gateway/anthropic_messages.py:564-581 | closes another block first, then opens a text block under the next index |
| MessageTranslator.StreamState.OpenToolBlock | explabs/gateway/anthropic_messages.py:583-606 | likewise for a tool block, remembering which upstream index it is for |
| MessageTranslator.StreamState.Finale | explabs/gateway/anthropic_messages.py:619-636 | closes the open block, then ends the message with the noted stop reason and usage |
| LedgerProtocol.RunsAreSafe | explabs/gateway/ledger.py:240-304 | in every state any interleaving reaches: bounded pending map, attempts only with durable accepts, the frozen deadline and no lineage but the derived one in the row, captures queued at most once and only when durable |
| LedgerProtocol.StepKeepsInvariant | explabs/gateway/ledger.py:344-398 | every locked section and SQL call keeps the protocol invariant for every request |
| LedgerProtocol.StatusIsMonotone | explabs/gateway/ledger.py:762-837 | a durable request stays durable and a dropped one stays dropped |
| LedgerProtocol.DropCauses | explabs/gateway/ledger.py:281-302 | a pending request is dropped only by another accept at saturation, by its own revoked finish, or by its own refused SQL after such an eviction |
| LedgerProtocol.CalmRunsDropNothing | explabs/gateway/ledger.py:240-304 | on runs that never meet a saturated map nor a revoked finish, no accepted request is ever lost |
| LedgerProtocol.RefusedRungsKeepAccept | explabs/gateway/ledger.py:344-398 | however many rungs are refused and whatever other requests do at unsaturated maps, the accept stays held with its deadline and lineage, and the fold that commits writes exactly these |
| LedgerProtocol.LineageLossCauses | explabs/gateway/lineage.py:131-152 | one step takes an unwritten lineage away if and only if it evicts it at a full tracker, or is the failing write of a keyed accept or finish that had collected it |
| LedgerProtocol.RowLineageExactly | explabs/gateway/ledger.py:305-331 | over every run a row carries what the tracker held when the writing call collected it, and none if and only if such a loss came before |
| LedgerProtocol.IdleLineageExactly | explabs/gateway/ledger.py:344-352 | over every run a waiting unwritten request finds its derived lineage in the tracker unless it was lost before |
| LedgerProtocol.FailedFinishLosesLineage | explabs/gateway/ledger.py:780-822 | a run: a finish fails after it collected the lineage, and the next one writes the row without |
| LedgerProtocol.RowDeadlineExactly | explabs/gateway/ledger.py:250-251 | over every run a row's deadline is the wall clock at one of its request's own accepts plus what was then left of its monotonic budget, nothing when none was |
| LedgerProtocol.CaptureIsHandedOver | explabs/gateway/ledger.py:305-331 | a request's own step takes its capture out of the buffer only into the queue, once, when its row is durable, or to drop it when it left none |
| LedgerProtocol.InsertExactly | explabs/gateway/ledger.py:263-302 | an entry of a full map survives the purge if and only if its deadline is still to come, order kept, and a live entry is lost only if more than the bound remain and it is among the oldest |
| LedgerProtocol.RememberExactly | explabs/gateway/lineage.py:131-137 | a remembered entry is the youngest, and of the others exactly the youngest up to the capacity stay |
| Ledger.AttemptLedger.AcceptRequestSync | explabs/gateway/ledger.py:240-304 | the deadline held or written is the wall clock when no budget is left, else as far after it as the monotonic deadline is after the monotonic clock; an unkeyed accept is held under the bound, a keyed one is written with its lineage if and only if the database takes it; the call is exactly the protocol steps of its kind; a keyed request's capture is queued when it was taken and forgotten otherwise |
| Ledger.AttemptLedger.StartAttemptSync | explabs/gateway/ledger.py:501-579 | it succeeds if and only if the database takes a new attempt of a held or durable request, then writes attempt and row; a refusal leaves every object as it was; folded exactly when an accept is held |
| Ledger.AttemptLedger.StartFolded | explabs/gateway/ledger.py:344-398 | a folded reservation commits row and attempt together, with the held deadline and lineage, if and only if the database takes it |
| Ledger.AttemptLedger.FinishRequestSync | explabs/gateway/ledger.py:762-837 | a still pending request is persisted and finished in one transaction, released when that commits or the key is revoked, and the outcome says which; a persisting finish queues the capture when it commits and forgets it otherwise |
| Ledger.InsertDeferred | explabs/gateway/ledger.py:281-302 | a full map keeps exactly the accepts still to expire, in order; then the insert, and beyond the bound the oldest go |
| Ledger.AttemptLedger.Authorize | explabs/gateway/control_store.py:684-703 | authorization remembers lineage and opted-in content under a fresh request, as one protocol step |
| Ledger.RequestLineageTracker.Remember | explabs/gateway/lineage.py:131-137 | the entry becomes the youngest, and the oldest beyond the capacity go |
| Ledger.PromptCaptureBuffer.Remember | explabs/gateway/capture.py:99-105 | likewise for captures |
| Ledger.PromptCaptureWriter.DrainOne | explabs/gateway/capture.py:147-169 | captures are written once each, in the order queued |
| AliasAuthority.ListingAgreesExactly | explabs/gateway/control_store.py:745-775 | for a well-formed name listing and live path agree if and only if no active org row without a revision shadows a listable public row |
| AliasAuthority.ListedButRefused | explabs/gateway/control_store.py:745-775 | rows for which a name is listed and every request for it refused |
| AliasAuthority.CompleteRowsAgree | explabs/gateway/control_store.py:588-631 | if every active alias has a revision, they agree on every well-formed name |
| AliasAuthority.AcceptedIsListed | explabs/gateway/control_store.py:588-631 | what the live path accepts is listed |
| AliasAuthority.UngrantedRowHides | explabs/gateway/control_store.py:575-587 | an ungranted org row hides the public row of its name: refused always, and listed if and only if that row has no revision and shadows a listable public one |
| AliasAuthority.OrgRowWins | explabs/gateway/control_store.py:588-631 | where an org row exists, what is served is its own granted revision, never public |
| AliasAuthority.AuthorityIsRow | explabs/gateway/control_store.py:834-886 | a key has an authority if and only if its row is there, not revoked, and not expired at the wall reading, and it is that row's organisation, identity and capture choice |
| AliasAuthority.ResolveExactly | explabs/gateway/control_store.py:575-631 | an answer is the revision and target of the active granted row that comes first, the organisation's own before the public one |
| AliasAuthority.WellFormedExactly | explabs/gateway/control_store.py:537 | a name is taken if and only if it is at most 128 letters and digits in words joined by single dots, dashes or underscores, a letter first |
| Authorization.FastAnswersAreFresh | explabs/gateway/control_store.py:541-565 | over every interleaving, an answer from the windows alone carries a resolution the database gave for that org, identity and name, public then, stored less than one TTL before; and an authority loaded less than one TTL before |
| Authorization.WindowKeysWereUsable | explabs/gateway/control_store.py:834-886 | over every run every authority in the window is the row of a key that was known, unrevoked and unexpired when it was loaded, one TTL before its entry's end |
| Authorization.OtherwiseDecidedLive | explabs/gateway/control_store.py:541-565 | a scope with no public answer stored within the last TTL is not answered by the window |
| Authorization.RefusalsAreNotCached | explabs/gateway/control_store.py:612-631 | however a run goes on after a live refusal, until a public store the window serves that scope only from an entry older than the refusal, up to its expiry |
| Authorization.AgeFromTheQuery | explabs/gateway/control_store.py:635-650 | over every run, a reader behind a public store is served exactly within one TTL of the store, so every answer it can get is under a TTL old counted from the query if and only if it was stored when asked |
| Authorization.FastAnswersAge | explabs/gateway/control_store.py:541-565 | over every run an answer from the window is at most one TTL and its own store's delay away from its query |
| Authorization.ShadowWaitsForExpiry | explabs/gateway/control_store.py:343-346 | while an org row shadows a name the live query gives no public answer, yet a reader is served one if and only if the entry has not expired, and it is one the database gave before |
| Authorization.ShadowedNameIsServed | explabs/gateway/control_store.py:343-346 | a run: a name the live query now refuses is served from the window |
| Authorization.StepKeepsSafe | explabs/gateway/control_store.py:505-661 | every locked section and query keeps entries backed by stores, flights backed by reads, and both windows within their bounds |
| Authorization.ReuseCache.Get | explabs/gateway/control_store.py:271-281 | a hit is unexpired, an expired entry of the key is dropped, and no other entry moves |
| Authorization.ReuseCache.Put | explabs/gateway/control_store.py:283-296 | a full cache sheds what expired, or everything, before it stores |
| Authorization.PutStaysBounded | explabs/gateway/control_store.py:383-400 | no store exceeds the bound |
| ControlStore.PostgresGatewayControlStore.AuthorizeRequest | explabs/gateway/control_store.py:505-661 | one call is refused for its deadline, else for its name, else is a run of the protocol: without a remembered authority the key is invalid if and only if it has no row, is revoked or expired; a snapshot carries that row's organisation and identity and what the rows give them for the name |
| ControlStore.GatewayDatabase.SelectAlias | explabs/gateway/control_store.py:588-611 | the query picks the effective row and answers as resolution does |
| TtlCache.CacheIsNewestOfLatest | explabs/caching.py:129-152 | over any run of stores the cache is exactly the newest live entries of what an unbounded map would hold, and that map is in expiry order |
| TtlCache.HeldExactly | explabs/caching.py:143-152 | a key is held if and only if its latest store was live at the last eviction and fewer than the bound were stored after it |
| TtlCache.HitIsFresh | explabs/caching.py:123-128 | a hit is the latest value stored for that key, less than one TTL before the clock was read; size within the bound |
| TtlCache.TTLCache.Get | explabs/caching.py:123-128 | the first locked section answers only live entries |
| TtlCache.TTLCache.FinishLoad | explabs/caching.py:129-141 | a declined value occupies nothing; a stored one becomes the newest, then expired and oldest entries go |
| TtlCache.TTLCache.Evict | explabs/caching.py:143-152 | the loop drops the expired entries, then the oldest until the bound holds |
| LeaseShadow.RunsStayInBudget | explabs/gateway/lease_shadow.py:410-451 | in every reachable state 0 <= consumed <= granted <= min(cap, fraction of what remained), nothing granted when nothing remained, maps bounded, every admit live and at or above the floor, and cost admitted under a key at most its grants times the cap |
| LeaseShadow.GrantedIsSafe | explabs/gateway/lease_shadow.py:548-556 | the grant formula stays within cap and fraction and is 0 when nothing remains |
| LeaseShadow.GrantedIsLargest | explabs/gateway/lease_shadow.py:548-556 | the grant is the largest whole amount within the cap and the fraction of what remains |
| LeaseShadow.DecidesExactly | explabs/gateway/lease_shadow.py:410-451 | a request is admitted if and only if it is priced and its lease is held, live, unexcluded, funded, at or above the floor, within the rate headroom and has room for it; the reason names the first check that failed |
| LeaseShadow.DecisionChanges | explabs/gateway/lease_shadow.py:410-467 | only an admit charges the lease; a held lease is marked used, a missing one asked for under the bound, and the stamps left are those inside the minute, with the admit's own |
| LeaseShadow.InstallsExactly | explabs/gateway/lease_shadow.py:547-575 | a key that was read holds a fresh unspent grant over what was read, its recency kept; other leases stay, and stamps stay exactly for API keys that still hold a lease |
| LeaseShadow.StepKeepsSafe | explabs/gateway/lease_shadow.py:524-575 | a decision and either locked section of a refresh keep the budget invariant |
| RateWindow.AdmitsPerMinute | explabs/gateway/lease_shadow.py:453-467 | with a fixed limit and a lease that stays tracked, no minute holds more than max(1, floor(headroom * rpm)) admits of an API key, across its aliases and providers, on any run |
| RateWindow.AdvertisedBoundExactly | explabs/gateway/lease_shadow.py:453-467 | floor(headroom * rpm) bounds every run if and only if headroom * rpm is at least 1 |
| LeaseWorker.ShadowState.DecideOne | explabs/gateway/lease_shadow.py:410-427 | a decision in place: it admits if and only if every check passes, and otherwise the reason is the first that failed |
| LeaseWorker.ShadowState.IsRateLimited | explabs/gateway/lease_shadow.py:453-467 | stamps that left the window are dropped before the comparison |
| LeaseWorker.ShadowState.ClaimBatch | explabs/gateway/lease_shadow.py:536-546 | the batch holds the pending keys, then the most recently used leases, up to the bound; leases outside it are gone |
| LeaseWorker.ShadowState.InstallStates | explabs/gateway/lease_shadow.py:547-575 | every key read is re-granted, recency kept, and windows of untracked API keys forgotten |
| LeaseWorker.RankByUse | explabs/gateway/lease_shadow.py:539-541 | every lease once, most recently used first |
| CatalogAssembly.BuildForgetsOrder | explabs/gateway/catalog.py:584-695 | permuting the rows of every table leaves connections, deployments, pools, variants, references and plans unchanged |
| CatalogRows.IndexForgetsOrder | explabs/gateway/catalog.py:591-628 | no index depends on the order the rows came in |
| CatalogClosed.BuildIsClosed | explabs/gateway/catalog.py:678-709 | every plan names registered deployments of its own exact model and a target that is there |
| CatalogClosed.PlansAreTheirPools | explabs/gateway/catalog.py:1383-1427 | in the finished build a plan that targets a pool lists exactly the pool's members in order, certified by its whole chain |
| CatalogClosed.DeploymentsResolve | explabs/gateway/catalog.py:1279-1311 | every deployment has a registered connection, whose key has a credential reference |
| CatalogClosed.KeysAreReferenced | explabs/gateway/catalog.py:1155-1275 | every key-bearing connection has a credential reference of that name |
| CatalogClosed.PoolsShareModel | explabs/gateway/catalog.py:1383-1406 | pool members are registered and share the pool's exact model |
| CatalogClosed.VariantsStayHome | explabs/gateway/catalog.py:1094-1132 | a variant stored for an org rides on a connection of that very org and of the canonical's provider, and shares the canonical's provider row, exact model and connection family |
| CatalogClosed.SharedAliasesUseHouseKeys | explabs/gateway/catalog.py:739-806 | a public model's canonical that reads a vault key reads the house organisation's, so no tenant's key serves a shared alias |
| CatalogClosed.DraftKeepsClosed | explabs/gateway/catalog.py:1350-1406 | a chosen pool holds exactly the plan's deployments and is certified by the whole chain |
| CatalogAssembly.HouseOrderIsPreference | explabs/gateway/catalog.py:1313-1324 | the house order is the same deployments by provider rank, and those of each rank in the operator's order |
| CatalogAssembly.TenantOrderStands | explabs/gateway/catalog.py:1326-1348 | a tenant's own chain, or one with a rung the tenant pays for, is served in stored order; no order adds or drops a rung |
| CatalogReference.LanesExactly | explabs/gateway/catalog.py:697-957 | a provider row has its deployment if and only if the rows and the worker's environment let it be served, and then over the connection, configuration, credential, spelling, billing source and binding they say |
| CatalogReference.VariantsExactly | explabs/gateway/catalog.py:1094-1132 | an organisation has a variant of a row if and only if its connection of that provider may carry it, and the variant runs over that connection at the organisation's cost |
| CatalogReference.NothingElse | explabs/gateway/catalog.py:551-578 | every deployment is a row's own or a variant of one, every connection has the one configuration of its name, and every reference names where its key comes from |
| CatalogPlans.PlansFollowRows | explabs/gateway/catalog.py:1350-1427 | each model with a served row has exactly one plan, in alias order: the served rungs of its owner's chain if it has one, else of the platform's, by position unless the house preference applies, in a pool of that organisation certified by the whole chain; a single one alone; with none the oldest served row; and the frozen connection revisions are those its deployments may ride on |
| CatalogAssembler.BuildGatewayCatalog | explabs/gateway/catalog.py:551-578 | the in-place build registers exactly the served rows, and its plans are those its models' rows and chains call for |
| CatalogAssembler.IndexRows | explabs/gateway/catalog.py:591-628 | the loops over rows fill the specified indexes |
| CatalogAssembler.CatalogAssembler.RegisterCanonical | explabs/gateway/catalog.py:697-709 | one row's canonical is registered through the lane its kind selects, or not at all |
| CatalogAssembler.CatalogAssembler.PlatformLane | explabs/gateway/catalog.py:765-957 | a platform-funded row finds its house connection, else its worker key, else no lane |
| CatalogAssembler.CatalogAssembler.Byok | explabs/gateway/catalog.py:1057-1092 | a bring-your-own-key deployment is registered only for a routable provider, a mapped model and a releasable connection |
| CatalogAssembler.CatalogAssembler.RegisterVariants | explabs/gateway/catalog.py:1094-1132 | one variant for each eligible org connection that can carry the row |
| CatalogAssembler.CatalogAssembler.ChooseTarget | explabs/gateway/catalog.py:1350-1427 | over tables that hold what the rows say, the choice follows the rows: the owner's chain or the platform's, its served rungs in the order the funding rules give, pooled and certified when two or more, else the single one or the oldest served row |
| CatalogAssembler.CatalogAssembler.BuildAll | explabs/gateway/catalog.py:630-674 | all models in order, then the plans by alias id |
| Routing.FinishRoute | explabs/gateway/catalog.py:2100-2118 | the lanes stand in order for exactly those deployments whose stand-in (the caller's variant, or themselves) belongs to a family the caller's policy allows and that is known to keep no data and not to train where it asks that; the route is refused if and only if they are none, or all without a key |
| Routing.SubstituteOrgVariants | explabs/gateway/catalog.py:2191-2234 | every deployment with a variant of the caller is swapped, all else stays |
| Routing.RewritesCommute | explabs/gateway/catalog.py:1922-1982 | substitution and policy commute when variants keep their canonical's provider |
| Routing.LanesArePermitted | explabs/gateway/catalog.py:1945-1952 | the filter keeps exactly the permitted deployments |
| CatalogServing.OwnLaneIsTheCallers | explabs/gateway/catalog.py:2191-2234 | on a built catalog a caller's lane keeps exact model and provider and rides on the caller's own connection |
| CatalogServing.BuiltRewritesCommute | explabs/gateway/catalog.py:2143-2149 | on every built catalog the two rewrites commute for every caller |
| CatalogServing.PlaceholderServedExactly | explabs/gateway/catalog.py:1898-1918 | on every built catalog a route is accepted if and only if some permitted deployment is funded for the caller, and holds a placeholder lane if and only if some permitted one is not |
| CatalogServing.PlaceholderIsServed | explabs/gateway/catalog.py:1232-1240 | a built catalog, its plan and a caller without connections: the accepted route keeps a fallback that reads a placeholder credential |
| Routing.OwnAt | explabs/gateway/catalog.py:2206-2214 | substitution works deployment by deployment: each position holds the caller's own, or what was there |
| Generations.OneDomain | explabs/gateway/catalog.py:1850-1891 | however many builds are swapped in, the maps assembled from them share one domain: the current and the previous generation's keys |
| Generations.GraceIsOneSwap | explabs/gateway/catalog.py:1857-1863 | a key resolves unchanged after the next swap, and is gone after two that did not renew it |
| Generations.BuildCatalogState | explabs/gateway/catalog.py:1822-1891 | the loops assemble a state that serves each revision of the build under its digest from the build, keeps what the previous generation's keys were served from where they were not issued again, and knows no other key |
| Broadcast.RunBroadcast | explabs/broadcast.py:493-575 | a tick ends without the clock, in at most one pass more than rows stopped being open; its books balance against what the connections answered and what was refused; content leaves only after a consented claim; it times out only when the budget is spent; otherwise the queue is drained but for failed orgs and withheld consent, unless a whole batch was withdrawn between fetch and claim |
| Broadcast.BalancedBooks | explabs/broadcast.py:525-575 | newly stamped rows number broadcast plus skipped, each accepted by every destination a sweep of the tick found switched on for its org, and broadcast if there was one; failed rows are unstamped, each failed org had one refusal |
| Broadcast.OpenShrinks | explabs/broadcast.py:568-573 | a pass that goes on has strictly shrunk the unstamped rows of orgs that did not fail |
| Broadcast.DrainBatch | explabs/broadcast.py:526-566 | one pass over a batch, org by org, each with a sweep of its own, keeps the books and leaves every row stamped, behind a failed org, or refused for want of consent |
| Broadcast.DrainOrg | explabs/broadcast.py:527-566 | sweep, claim, ship, release on refusal; the sweep, the consent and the refusals decide outcome, count and stamps |
| Broadcast.ShipOrgRows | explabs/broadcast.py:475-490 | it succeeds if and only if nothing was refused, and then every destination accepted every row |
| Broadcast.EnabledDestinations | explabs/broadcast.py:462-472 | one answer asked for each kind in order; exactly the kinds answered as switched on, each once |
| Grouping.GroupedHolds | explabs/agent_sessions/sessions.py:197-201 | setdefault-and-append gives each key exactly its members, in order, once |
| Sessions.RequestsCountTurns | explabs/agent_sessions/sessions.py:185-224 | summed request counts equal the number of distinct dated turns |
| Sessions.KeysAreTurns | explabs/agent_sessions/sessions.py:111-125 | two dated turns are one if and only if source and event id agree and, for Codex, the file does |
| Sessions.FirstCopyCounts | explabs/agent_sessions/sessions.py:128-141 | of the copies of a turn in one session the first dated one in log order counts, and every dated turn has one that does |
| Sessions.SessionsExplained | explabs/agent_sessions/sessions.py:144-182 | every session adds up distinct turns of its own scans, starts and ends at its extreme ones, and names exactly their models |
| Sessions.EveryTurnOnce | explabs/agent_sessions/sessions.py:214-222 | the sessions together own each distinct dated turn exactly once, and nothing else |
| Sessions.OwnerIsLeast | explabs/agent_sessions/sessions.py:204-217 | a turn's owner is least by earliest instant, then dated count, then first appearance, among the groups that contain it |
| Sessions.TotalsConserved | explabs/agent_sessions/sessions.py:144-182 | tokens and cost summed over sessions are their sums over the distinct dated turns |
| Sessions.DatedTurnsGenuine | explabs/agent_sessions/sessions.py:128-141 | every dated turn is one of the session's own, under its own identity and instant |
| Sessions.FoldSpans | explabs/agent_sessions/sessions.py:144-182 | a rollup starts and ends at its extreme turns and names every model used |
| Sessions.BuildSessions | explabs/agent_sessions/sessions.py:185-224 | the loops over groups and claims build sessions whose request counts sum to the number of distinct (source, event id, and for Codex file) triples of dated turns, each explained by turns of its own, one session a key, latest first |
| Sessions.FoldSession | explabs/agent_sessions/sessions.py:144-182 | one pass accumulates the specified rollup |
| Sessions.CollectDatedTurns | explabs/agent_sessions/sessions.py:128-141 | the nested loops keep the first dated turn of each identity |
| Sessions.LatestSessionsFirst | explabs/agent_sessions/sessions.py:223-224 | sessions come most recently active first |
| ModelIdentity.SlugIsWellFormed | explabs/gateway/model_identity.py:136-161 | every slug is letter first, over the slug alphabet, 1 to 128 long, with no trailing separator |
| ModelIdentity.FixedExactlyWhenNormal | explabs/gateway/model_identity.py:164-168 | the normaliser's fixed points are exactly the normal strings, so it is idempotent |
| ModelSlugs.NormalizeReduces | explabs/gateway/model_identity.py:164-168 | a text reduces to its words, lower case, with one dash for every run of other characters and one dot for every run of dots between them, nothing at either end |
| ModelSlugs.SplitExactly | explabs/gateway/model_identity.py:171-214 | an id sheds, in order, white space at its ends, a Fireworks path, the vendor before its last slash or a dotted maker behind a region, Azure's marker on Azure's lane, and a known maker's colon version |
| ModelSlugs.SlugExactly | explabs/gateway/model_identity.py:136-161 | a slug is that base name reduced, else the display name, else the provider; its maker or provider in front of what does not start with a letter; clipped to 128 characters without a separator at the end |
| ModelIdentity.PathIsInvisible | explabs/gateway/model_identity.py:171-177 | a Fireworks path in front of an id changes no slug |
| ModelIdentity.RegionIsInvisible | explabs/gateway/model_identity.py:200-214 | a Bedrock region in front of a known maker changes no slug |
| ModelIdentity.MarkedVersionExactly | explabs/gateway/model_identity.py:188-197 | `-v<major>:<minor>` leaves maker and name alone if and only if it does not meet Azure's bare marker |
| ModelIdentity.BareVersionExactly | explabs/gateway/model_identity.py:188-197 | a bare `:<minor>` leaves them alone if and only if the name does not end in a version and is not that marker |
| ModelIdentity.MarkedVersionOnSlugs | explabs/gateway/model_identity.py:136-161 | `-v<major>:<minor>` changes no slug exactly away from that marker, or where the display name reads `fw` too |
| ModelIdentity.BareVersionOnSlugs | explabs/gateway/model_identity.py:136-161 | a bare `:<minor>` changes no slug exactly when the name ends in no version, or that version lies behind the cut, or a display name stands in with the same version |
| ModelIdentity.VersionIsInvisible | explabs/gateway/model_identity.py:136-161 | the colon version changes no slug, away from that marker |
| ModelIdentity.BareVersionMerges | explabs/gateway/model_identity.py:196-197 | a concrete pair of ids whose slugs meet because of a bare minor |
| ModelIdentity.OneModelOneSlug | explabs/gateway/model_identity.py:136-214 | vendor spelling, the same behind a Fireworks path, and the Bedrock spelling with region and version share one slug on any lanes but Azure's |

## Left out

- LedgerProtocol.RunsAreSafe: an accept evicted while one of its calls is in flight can
  still commit from the copy that call holds; such a request counts as pending meanwhile.
- Authorization.FastAnswersAreFresh: age is counted from the store, because the code does
  so; `AgeFromTheQuery` says when that matters.
- RateWindow.AdmitsPerMinute: needs the key's lease tracked at every install after its
  first admit, because the code forgets the window of an untracked key; decisions are
  taken in the order of their clock readings, which the code reads before its lock.
- ModelIdentity.Lower: lowers ASCII letters only; Unicode case mapping and Unicode digits
  are not modelled.
- ModelIdentity.Slug: display names (`_prettify`) are not part of the model.
- ChatAgreement.StreamAgreesWithBody: the body is put together from the stream's own
  deltas (first id, first name, all fragments, tools in index order); how the `exp`
  runtime encodes one is not part of this model. No two minted ids are ever equal.
- CatalogClosed.PlansAreTheirPools: each model row comes once, as its primary key says.
- ChatStream.Translate: an event's JSON text is not modelled; minted block and message
  ids are written as the empty string; UTF-8 decoding of payload lines is a parameter.
- CostAnnotation.ResponseRewriter.OnSseBody: the registry does not change between the
  locked reads of one body message; headers, JSON-mode buffering and replay are left out.
- ControlStore.PostgresGatewayControlStore.AuthorizeRequest: one call at a time per
  worker object (the interleaved statement is `Authorization.FastAnswersAreFresh`); the
  request digests, lineage and capture handed over at the end, and the last-used
  throttle, are not part of it.
- CatalogAssembly.BuildCatalog: assumes that an endpoint is acceptable where the code
  does not catch its rejection, so a build never aborts; warnings are not recorded; a
  vault secret releases or not, once per build.
- CatalogServing.Served: the normaliser of the `exp` runtime is not part of this model;
  it is taken to keep deployment ids and each connection's provider family.
- Generations.BuildCatalogState: credential resolution and the watermark that triggers a
  refresh are not modelled, and nothing is claimed of the watermark.
- Broadcast.RunBroadcast: one drainer at a time and no arrivals within a tick; an
  exception of the store itself, outside a delivery, is not modelled; payload formats and
  retries at a destination are left out.
- Sessions.AllSessions: project directory, git branch and the plan window of a session
  are not modelled; the price of a turn is a parameter.
- LeaseShadow.Ranked: pending keys are read in any order, since all of them always fit.
- Request translation into Chat Completions (`_translate_message` and its helpers), the
  error mapping of the messages route, first-token registries and route-context writers.
- Lease shadow statistics and reports, latency percentiles, and the disabling latch.
- Catalog persistence and activation (`store_gateway_catalog`), published listing prices,
  and the refresh loop.
- Destination adapters, HTTP and ASGI plumbing, Postgres itself, and the web application.
