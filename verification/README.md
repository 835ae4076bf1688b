# Saveinator, verified

A Dafny model of the logic of Saveinator, a Telegram downloader whose bots take Redis locks and enqueue
jobs that workers run, retry, cancel and release. `dafny verify dfyconfig.toml` checks everything.

**The lock, cancel and queue protocol.** `Protocol` is a state machine of interleaved steps: handlers,
workers, the cancel button, `/clear`, crashes, retries with the old token and the clock, over any number of
bots, users, handlers and workers. Every command to Redis or the queue may be delivered, refused, or carried
out with its reply lost. `Exclusion` proves from the log of lock events that a stale token never removes a
later holder's lock and that two acquisitions are always separated; `Ownership` and `Stranding` say, from the
steps of the run alone, when a live lock has no carrier, one, or two; `Cancellation` what a live cancel flag
stops. `Exceptions` has a concrete run for each ordinary way to lose or double a carrier, and shows what
`/clear` can and cannot delete. `Overlap` says when two workers of one user run at once: never while no lease
ends early, and possibly for each of the five ways in which one can.

`Locks` and `RedisClient` show that the real key and value strings implement the abstract tables, for all bot
prefixes, and when rate-limit keys keep clear of the others; `CancelButton` is the text between the button and the flag. `Service` has one method per step, on
those keys and the queue, each proved to be exactly that protocol step; any interleaving of them is a run of
the protocol (`Service.PerformRun`). `Courses` then writes the handlers and worker runs as the code has them,
with any number of steps by anybody between two of their own: their own steps are their program, and all steps
together are a run of the protocol, so what is proved of every run holds of them. `Interleaving` says whose
step is whose; `Undisturbed` gives the whole effect of a handler or worker when nothing happens meanwhile.

**The rest.** `Limiter` relates the pruned sorted set to the complete request log, `Spam` the per-message loop
over link claims. `Emoji` is the priority replacer of the premium-emoji renderer against a longest-key
reference, with a left inverse. `Article` and `Translate` are the Telegraph trimmer and the chunked, concurrent
translator. `Formats`, `Trim`, `Settings` and `YouTube` are the format picker, the timecode parser and printer,
the runtime settings with their administrator edits, and the chain from those settings to the frame a worker
encodes; `Bitrate` is the re-encode budget. `TestUrls`, `Payments`, `Broadcast` and `Sessions` are the
stateful ledgers. `Text` holds the string functions of Go's standard library they use.

Where the code does less than one would expect, the exact condition is proved: `Stranding.LiveLockOwned`,
`Overlap.OneAtATimeIff`, `Locks.SeparateIff`,
`Limiter.KeptOnEveryRunIff`, `Settings.MinimumKeptIff`, `Settings.ToggleSoundIff`, `Settings.EnumButtonIff`,
`Translate.LayoutKeptIff`, `Trim.RangeRoundTrip`, `Bitrate.KeptIsBestIff`, `Bitrate.MonotoneIff`,
`TestUrls.ExclusiveIff`, `Payments.PaymentInertIff`, `Broadcast.RowsMatchCounters`,
`Broadcast.RerunReplacesIff`, `Broadcast.BlockedIff`, `CancelButton.ButtonDecodesIff`.
Remarks where code and comment differ: `fitHeight` is said to step down from the source resolution, but its
loop leaves at the first rung taller than the source, so sources below 720 never step down; the main bot's
`/clear` names no queue and so looks through "default" (go/internal/queue/clear.go:95-98), while its jobs wait
on "download" and "transcode"; a delivery row is looked up and then updated or inserted, but the table has no
constraint to keep it unique and a failed lookup counts as no row.

## Model

| member | source | states |
|---|---|---|
| `Locks.LockKeyInjective` | go/internal/redisx/client.go:56-61 | two different (bot, user) pairs never share a lock key, whatever the bot prefixes contain |
| `Locks.LockValueInjective` | go/internal/redisx/client.go:72-91 | the stored `scene:token` text determines scene and token when neither contains a colon |
| `Locks.FlagKeyInjective` | go/internal/redisx/client.go:148-151 | two different (bot, user, scene, token) references never share a cancel-flag key |
| `Locks.KindsApart` | go/internal/redisx/client.go:112-157 | lock keys, cancel-flag keys and link keys never collide, across all bot prefixes |
| `Locks.MeterKeyInjective` | go/internal/redisx/client.go:98-100 | two different (bot, scope, identifier) windows never share a rate-limit key, for scopes without a colon |
| `Locks.KeyTexts` | go/internal/redisx/client.go:56-61 | the exact key texts: a name, the printed user and, for flags, scene and token; a bot with a prefix carries it in front of the same text |
| `Locks.SeparateIff` | go/internal/redisx/client.go:98-157 | a rate-limit key meets no lock, cancel-flag or link key of any bot if and only if its scope is not `user_busy`, not `dedup` and not a printed integer |
| `Locks.ScopesSeparate` | go/internal/handler/bot.go:354-382 | the scopes the code uses are such scopes |
| `RedisClient.Client.AcquireUserLock` | go/internal/redisx/client.go:72-84 | SETNX on the real key: succeeds exactly when nobody holds the slot, and then stores this token with its expiry; an error may or may not have stored it |
| `RedisClient.Client.ReleaseUserLock` | go/internal/redisx/client.go:86-91 | the compare-and-delete script removes the lock exactly when it still carries this scene and token |
| `RedisClient.Client.ForceReleaseUserLock` | go/internal/redisx/client.go:93-96 | deletes the slot whoever holds it, and nothing else |
| `RedisClient.Client.GetActiveDownload` | go/internal/redisx/client.go:130-144 | reads back exactly the scene and token that were stored |
| `RedisClient.Client.SetDownloadCancelled` | go/internal/redisx/client.go:148-151 | raises the flag of exactly one reference |
| `RedisClient.Client.IsDownloadCancelled` | go/internal/redisx/client.go:153-157 | answers whether the flag of this reference is up and alive, and no on an error |
| `RedisClient.Client.AllowRateLimit` | go/internal/redisx/client.go:98-110 | the pipeline prunes, counts, adds the printed instant and renews the expiry of the window of one bot, scope and identifier: its answer and the new window are those of the limiter functions; an error is told apart, and the window may or may not have changed |
| `RedisClient.Client.AllowURLDedup` | go/internal/redisx/client.go:112-122 | claims the first twelve characters of the hash for the window; shorter hashes always pass |
| `RedisClient.LockWrite` | go/internal/redisx/client.go:72-84 | writing one lock key changes one slot of the abstract lock table and no flag |
| `RedisClient.LockErase` | go/internal/redisx/client.go:86-96 | deleting one lock key frees one slot and touches no flag |
| `RedisClient.FlagWrite` | go/internal/redisx/client.go:148-151 | writing one flag key raises one flag and touches no lock |
| `RedisClient.MeterWrite` | go/internal/redisx/client.go:98-110 | writing one rate-limit window changes no other bot's, scope's or identifier's window |
| `Limiter.KeptIsRecent` | go/internal/redisx/client.go:98-110 | the pruned, expiring set holds exactly the distinct instants of the complete log that are younger than the window |
| `Limiter.AnswersMatchLog` | go/internal/redisx/client.go:98-110 | every answer equals the answer computed from the complete request log |
| `Limiter.InstantsBounded` | go/internal/redisx/client.go:98-110 | no window-long interval contains allowed requests at more than `limit` distinct instants |
| `Limiter.RequestsBounded` | go/internal/redisx/client.go:98-110 | with distinct instants, or a limit of at most one, no window-long interval contains more than `limit` allowed requests |
| `Limiter.BurstPasses` | go/internal/redisx/client.go:98-110 | any number of requests at one instant pass a limit above one, because equal instants are one member |
| `Limiter.KeptOnEveryRunIff` | go/internal/redisx/client.go:98-110 | the bound holds on every run, equal instants included, if and only if the limit is at most one |
| `Limiter.PassedIff` | go/internal/redisx/client.go:112-122 | in every run a link claim passes exactly when no passed claim of the same link is younger than the window |
| `CancelButton.ButtonDecodesIff` | go/internal/cancel/keyboard.go:20-38 | the button text decodes to exactly the scene, user and token it was made from, if and only if scene and token are free of colons and the token is not empty |
| `CancelButton.ParsedIsClean` | go/internal/cancel/keyboard.go:28-38 | whatever the callback text, a decoded scene and token contain no colon and the token is not empty |
| `CancelButton.QueueButtonDecodes` | go/internal/cancel/keyboard.go:24-47 | the queue button decodes to its user for every 64-bit identifier |
| `CancelButton.ButtonText` | go/internal/cancel/keyboard.go:20-26 | the exact button texts |
| `Exclusion.EveryRunLeases` | go/internal/redisx/client.go:56-96 | in every interleaving of handlers, workers, cancels, retries, clears, crashes and clock ticks, over any bots and users, locks are only taken when free or expired and only released by the token that holds them |
| `Exclusion.StepLogged` | go/internal/redisx/client.go:72-96 | every protocol step keeps the lock table and the log of lock events in agreement |
| `Exclusion.StandsOrEnded` | go/internal/redisx/client.go:72-96 | an acquisition still stands, was ended by its own token or a clear, or had expired when its successor came |
| `Exclusion.AcquisitionsSeparated` | go/internal/redisx/client.go:72-96 | two acquisitions of one user on one bot are separated by a release with the first token, that user's clear, or the expiry of the first, and their tokens differ |
| `Ownership.StepKeeps` | go/internal/handler/bot.go:289-351 | every protocol step keeps the ownership invariant: one carrier per token, and every live lock carried or marked as stranded |
| `Stranding.StepStrands` | go/internal/handler/bot.go:289-351 | which steps leave a token to nobody: a lost acquisition, a refused carousel enqueue, a refused release, a crash or a deletion, each with no other carrier |
| `Stranding.StepBoth` | go/internal/handler/bot.go:330-348 | which step makes a handler and a task share a token (an enqueue with its reply lost), and which end it |
| `Stranding.LiveLockOwned` | go/internal/handler/bot.go:289-351 | in every run, whatever Redis, Telegram and the queue answer: a live lock has no carrier if and only if a step of the run stranded its token, two if and only if its enqueue lost its reply and neither has gone since, and otherwise exactly one handler, waiting task or running task |
| `Stranding.FaultFreeOwned` | go/internal/worker/download.go:74-132 | a lost acquisition, a lost enqueue or refused carousel, a refused release, a crash or a deletion aside, every live lock has exactly one carrier |
| `Exceptions.CarouselStrands` | go/internal/handler/tiktok_carousel.go:34-60 | a refused carousel enqueue leaves a live lock that nobody carries |
| `Exceptions.RefusedUndoStrands` | go/internal/handler/bot.go:308-314 | a failed status message whose release is refused leaves a live lock that nobody carries |
| `Exceptions.RefusedLeaveStrands` | go/internal/worker/download.go:127-132 | a finished job whose deferred release is refused leaves a live lock that nobody carries |
| `Exceptions.LostEnqueueDoubles` | go/internal/handler/bot.go:330-348 | an enqueue with its reply lost leaves a live lock with two carriers |
| `Overlap.StandsUnlessSevered` | go/internal/worker/download.go:74-132 | in every run a waiting or running task still has its slot's lock, expired or not, if and only if no step has ended its lease early: the cancel button, clear, a takeover after expiry, its own release before a retry, or its handler's release after a lost enqueue reply |
| `Overlap.OverlapSevered` | go/internal/worker/download.go:74-132 | two tasks of one user on one bot at once carry different tokens, and the lease of at least one of them was ended early |
| `Overlap.EveryEndOverlaps` | go/internal/worker/download.go:74-132 | for each of the five early ends there is a run in which nothing else ends a lease and two workers of one user are in their bodies at once |
| `Overlap.OneAtATimeIff` | go/internal/handler/bot.go:282-351 | over all runs in which leases end early in a given set of ways only: two workers of one user on one bot never run at once if and only if the set is empty |
| `Exceptions.QueuesApart` | go/internal/queue/clear.go:95-98 | the main bot's clear looks through "default" only and its jobs wait on "download" and "transcode" only; a fleet bot names its own queue |
| `Exceptions.MainClearSpares` | go/internal/queue/clear.go:95-113 | in every run the main bot's clear deletes none of the main bot's jobs; only a fleet bot configured on one of its queues can |
| `Exceptions.FleetClearStrands` | go/internal/botkit/clear.go:27-46 | a fleet bot's clear can delete a job started after its forced release: the new lock then has no carrier although no call failed |
| `Cancellation.FlagLasts` | go/internal/redisx/client.go:148-157 | a flag that was set is still set at the end of every run that ends before its expiry |
| `Cancellation.FlagTwoHours` | go/internal/handler/cancel.go:28-28 | a flag that reached Redis lives exactly the next two hours |
| `Cancellation.FailedReadsLaws` | go/internal/worker/download.go:111-125 | the count in the theorems below is one for each of the task's flag reads that the network failed |
| `Cancellation.TaskFrame` | go/internal/worker/download.go:74-132 | only the steps of its own worker, and the enqueue that creates it, change a task |
| `Cancellation.FlaggedNeverRuns` | go/internal/worker/download.go:111-125 | while the flag lives, no worker of that job that was not already in its download body ever enters it, in any run in which its flag reads succeed |
| `Cancellation.FlaggedFetchStopsIff` | go/internal/worker/download.go:111-125 | a flagged fetch enters its body exactly when the flag read fails |
| `Cancellation.CarouselIgnoresFlag` | go/internal/worker/download.go:102-109 | the carousel worker runs its body whatever the flag says |
| `Cancellation.CommittedRun` | go/internal/worker/music.go:174-211 | while the flag lives, tracks sent plus the one under way never grow, but for failed flag reads |
| `Cancellation.FlaggedMusicStops` | go/internal/worker/music.go:174-211 | after the flag a music worker sends at most one more track plus one per failed flag read, and none when it was between tracks |
| `Undisturbed.SubmitEffect` | go/internal/handler/bot.go:289-351 | every exit of an undisturbed handler: a queued job with its lock, or everything as before except for a refused release, a lost lock reply or a lost enqueue reply |
| `Undisturbed.CarouselEffect` | go/internal/handler/tiktok_carousel.go:34-60 | the carousel handler never releases: the lock stays whether or not the queue took the job |
| `Undisturbed.CancelEffect` | go/internal/handler/cancel.go:15-42 | the cancel button raises exactly one flag and removes the lock exactly when it still carries that token |
| `Undisturbed.ClearEffect` | go/internal/handler/clear.go:27-36 | clear flags whatever is active and frees the slot |
| `Undisturbed.WorkEffect` | go/internal/worker/download.go:74-132 | one undisturbed worker run: the body is skipped exactly when the flag was read as set, the lock is released in every case, and only a retryable error puts the task back with its old token |
| `Undisturbed.TrackRun` | go/internal/worker/music.go:174-211 | the undisturbed track loop sends exactly the tracks before the first successful read of a set flag |
| `Undisturbed.TracksSentIs` | go/internal/worker/music.go:174-211 | the number sent is that of the successful sends before the first look that read a set flag |
| `Undisturbed.MusicEffect` | go/internal/worker/music.go:110-148 | an undisturbed music run releases its lock on every path and never asks for a retry |
| `Service.Bot.TakeLock` | go/internal/handler/bot.go:282-302 | one acquisition on the real key is one protocol step; its answer says failed, busy or taken as the slot was |
| `Service.Bot.PostStatus` | go/internal/handler/bot.go:304-314 | one status message is one step: on, gone, or on to the release |
| `Service.Bot.Push` | go/internal/handler/bot.go:316-348 | one enqueue is one step: the task is there unless refused, and the handler is gone or on to the release |
| `Service.Bot.GiveUp` | go/internal/handler/bot.go:343-347 | one release of a failed handler on the real key is one step |
| `Service.Bot.RaiseFlag` | go/internal/handler/cancel.go:28-28 | one flag on the real key is one step |
| `Service.Bot.FreeLock` | go/internal/handler/cancel.go:29-29 | one release by the button on the real key is one step |
| `Service.Bot.ForceFree` | go/internal/handler/clear.go:32-36 | one forced release on the real key is one step |
| `Service.Worker.CheckCancelled` | go/internal/worker/download.go:111-125 | cancelled exactly when the payload carries a lock and its live flag was read |
| `Service.Worker.ReleaseLock` | go/internal/worker/download.go:127-132 | releases with the payload's token, and does nothing for payloads without a lock |
| `Service.Worker.Look` | go/internal/worker/music.go:175-178 | one look at the flag on the real key is one step: once for a fetch, never for the carousel, before every track for music |
| `Service.Worker.Return` | go/internal/worker/music.go:453-458 | one deferred release on the real key, and the retry or end of the task, is one step |
| `Service.Perform` | go/internal/handler/bot.go:289-351 | every step of anybody, made through the method it belongs to, is that step of the protocol |
| `Service.PerformRun` | go/internal/handler/bot.go:289-351 | every run of the protocol, in any interleaving of any bots and workers, is what those methods do in that order |
| `Interleaving.HandlerUntouched` | go/internal/handler/bot.go:289-351 | no run of other parties' steps moves a handler |
| `Interleaving.TaskUntouched` | go/internal/worker/download.go:74-132 | no run of other parties' steps moves a worker |
| `Courses.Handlers.Deliver` | go/internal/handler/bot.go:304-351 | with any steps of others in between, the handler's own steps after its lock are status, queue and the release on failure |
| `Courses.Handlers.Submit` | go/internal/handler/bot.go:289-351 | the same from the lock on, and all steps together are a run of the protocol |
| `Courses.Handlers.Enqueue` | go/internal/handler/bot.go:289-351 | an ordinary user's single link is busy if and only if the acquire was delivered and the slot held, and an accepted one first logs the lock of its slot with its own token; a batch or the configured administrator (go/internal/handler/deps.go:40-48) takes no lock and leaves locks and log as the others' steps leave them; accepted exactly when lock, status and queue all succeeded, whatever others do meanwhile |
| `Courses.Handlers.HandleMusicLink` | go/internal/handler/music.go:25-126 | busy if and only if the acquire was delivered and the slot held, the administrator excepted, who takes no lock; an accepted link first logs the lock of its slot with its own token; accepted exactly when the lock was free, the release ready and status and queue succeeded; the lock is released on every other exit |
| `Courses.Handlers.OnTikTokCarousel` | go/internal/handler/tiktok_carousel.go:34-60 | busy if and only if the acquire was delivered and the slot held, the administrator excepted, who takes no lock; success exactly when the lock was taken, whatever the queue answers, and then its first lock event is that of its own token; the handler makes no release |
| `Courses.Handlers.OnCancelDownload` | go/internal/handler/cancel.go:15-42 | accepted exactly when the button names the presser; then flag and release of exactly the decoded token, with anything in between |
| `Courses.Handlers.OnClear` | go/internal/handler/clear.go:27-36 | clear up to the queue: the flag of what was active when read, and the unconditional release, with anything in between |
| `Courses.Handlers.ClearUserTasks` | go/internal/queue/clear.go:95-157 | exactly the listed tasks of its user that still wait on the queue it names when their turn comes, and whose deletion the queue carries out, are deleted, each a step of the run |
| `Courses.Tasks.Handle` | go/internal/worker/download.go:74-109 | with anything happening in between, also during the body, a worker's own steps are the look, the body unless stopped, and the release; only a retryable body puts the task back |
| `Courses.Tasks.TrackLoop` | go/internal/worker/music.go:174-211 | the flag is read before every track as it is then: the loop ends at the first stopping look or after the last track, and counts what went out |
| `Courses.SentBeforeIs` | go/internal/worker/music.go:174-211 | the count is the number of successful sends so far |
| `Courses.Tasks.RunMusicDownload` | go/internal/worker/music.go:110-148 | with anything happening in between, a music worker's own steps are its program, ending in the release on every path, and the task is gone |
| `Emoji.UnescapeEscape` | go/internal/tgemoji/render.go:19-24 | unescaping undoes escaping for every text |
| `Emoji.EscapeOne` | go/internal/tgemoji/render.go:19-24 | which five characters are escaped, each to which entity; every other character stays |
| `Emoji.SortKeeps` | go/internal/tgemoji/render.go:53-58 | the sorted keys are the same keys, longest first |
| `Emoji.SortOnce` | go/internal/tgemoji/render.go:53-58 | sorting keys that occur once leaves them occurring once |
| `Emoji.Replacer` | go/internal/tgemoji/render.go:46-74 | whatever order the map is walked in, the table holds every covered key once, longest first, with its first identifier |
| `Emoji.FirstMatchIsLongest` | go/internal/tgemoji/render.go:46-74 | at each position the priority table finds exactly the longest covered key |
| `Emoji.ReplaceIsDecorated` | go/internal/tgemoji/render.go:28-33 | replacing with the table equals the reference that wraps the longest key at each position, for every text |
| `Emoji.RenderIsDecorated` | go/internal/tgemoji/render.go:19-33 | a rendered text is the reference decoration of the escaped text, for every text |
| `Emoji.PathThrough` | go/internal/tgemoji/render.go:28-33 | going over the longest key where one starts and over one character elsewhere leads through every text |
| `Emoji.RenderWraps` | go/internal/tgemoji/render.go:19-33 | at each position of the escaped text that no earlier key covers, the longest key stands in the rendered text inside its tag, with its first identifier, between what came before and after it |
| `Emoji.RenderKeeps` | go/internal/tgemoji/render.go:19-33 | and a character at which no key starts stands there untouched |
| `Emoji.RenderUndone` | go/internal/tgemoji/render.go:19-24 | removing the tags of a rendered text and unescaping gives back exactly the text |
| `Emoji.OnlyOwnTags` | go/internal/tgemoji/render.go:19-33 | every `<` of a rendered text opens a tag the renderer inserted |
| `Article.Trim` | go/internal/telegraph/article.go:54-68 | the trim loop terminates with the best trim of the laid-out thread; its nodes' sizes, commas and brackets added up are within the limit, or no paragraph and no quote is left |
| `Article.SizeLaws` | go/internal/telegraph/article.go:128-134 | what a list weighs: two for the empty one, a node and its brackets, and one comma less than the two lists joined |
| `Article.SizeIsSum` | go/internal/telegraph/article.go:128-134 | the size is the running sum of all node sizes plus commas and brackets |
| `Article.LayoutIs` | go/internal/telegraph/article.go:35-50 | the nodes an article consists of, in order, as far as it is trimmed |
| `Article.CommentNodesAt` | go/internal/telegraph/article.go:97-111 | each comment is a header and a quote, in order |
| `Article.WholeIs` | go/internal/telegraph/article.go:35-50 | the article before trimming: lead lines, rule, paragraphs and, when there is a comment section, its rule, heading and every comment |
| `Article.FittingKept` | go/internal/telegraph/article.go:54-68 | an article that fits is left whole |
| `Article.TrimOnce` | go/internal/telegraph/article.go:54-68 | one round removes the last comment's header and quote together, or with no comment left the last paragraph |
| `Article.LastComment` | go/internal/telegraph/article.go:54-62 | the last quote and the header before it are the last two nodes while a comment is left |
| `Article.LastParagraph` | go/internal/telegraph/article.go:63-66 | with the comments gone, the last paragraph node is the last post paragraph, then the last lead line |
| `Article.CommentsMonotone` | go/internal/telegraph/article.go:128-134 | a shorter prefix of the comments fits whenever a longer one does |
| `Article.ParagraphsMonotone` | go/internal/telegraph/article.go:128-134 | fewer paragraphs fit whenever more do |
| `Article.BestTrimUnique` | go/internal/telegraph/article.go:54-68 | there is exactly one best trim |
| `Article.KeptIffFits` | go/internal/telegraph/article.go:54-68 | a prefix of the comments is kept if and only if it fits with the whole post |
| `Article.PostKeptIff` | go/internal/telegraph/article.go:54-68 | a prefix of the lead lines and paragraphs is kept if and only if it fits without comments |
| `Article.TrimmedFits` | go/internal/telegraph/article.go:54-68 | an article that still does not fit has no paragraph and no quote left |
| `Translate.ChunkRunes` | go/internal/worker/telegraph.go:186-207 | the loop terminates and cuts as the recursive form says |
| `Translate.ChunksCover` | go/internal/worker/telegraph.go:186-207 | the pieces concatenate to the paragraph, each is at most `max` long, all but the last are longer than half of it and end at a space unless full |
| `Translate.ChunksStep` | go/internal/worker/telegraph.go:192-202 | a cut is behind the last space in the second half of the first `max` runes, or at `max` when there is none |
| `Translate.AllChunksConcat` | go/internal/worker/telegraph.go:165-168 | the chunks of all paragraphs, each at most `max` long, concatenate to the paragraphs in order |
| `Translate.RunAll` | go/internal/worker/telegraph.go:169-181 | for every schedule of the goroutines and their slots the results are those of a plain loop |
| `Translate.JoinParagraphs` | go/internal/worker/telegraph.go:209-221 | the parts that are not empty, in order: empty when all are; each of non-empty parts stands at the offset given by the lengths before it and two per gap, with a blank line between neighbours |
| `Translate.JoinedLaws` | go/internal/worker/telegraph.go:209-221 | nothing joined is empty, one part is itself, and two lists join with a blank line between them when both show something |
| `Translate.EmptyPart` | go/internal/worker/telegraph.go:209-221 | an empty part changes nothing, wherever it stands |
| `Translate.TranslateBlock` | go/internal/worker/telegraph.go:161-183 | a block equals its chunks translated one after another and joined |
| `Translate.RunBlocks` | go/internal/worker/telegraph.go:141-151 | for every schedule of the goroutines of all comments and their chunks together, each block with its own slots, the results are those of plain loops |
| `Translate.TranslateThread` | go/internal/worker/telegraph.go:136-152 | title, text and every comment are translated in place, with the chunks of different comments in any order |
| `Translate.LayoutKeptIff` | go/internal/worker/telegraph.go:161-183 | where translation changes nothing, the block comes back unchanged if and only if no paragraph is longer than a chunk |
| `Formats.BetterIsLess` | go/internal/youtube/probe.go:229-242 | the comparison is the lexicographic order progressive, codec rank, known size, smaller size |
| `Formats.VideoCodecs` | go/internal/youtube/probe.go:200-212 | h264 before vp9 before av01 before any other codec, whatever follows the name |
| `Formats.AudioCodecs` | go/internal/youtube/probe.go:214-224 | aac before opus before any other codec |
| `Formats.CaseFree` | go/internal/youtube/probe.go:200-224 | codec names are compared without regard to case |
| `Formats.BetterAudioIs` | go/internal/youtube/probe.go:257-276 | the better soundtrack has the better codec or, of the same, the higher bitrate |
| `Formats.SizeMeans` | go/internal/youtube/probe.go:278-292 | the exact size, else the approximate one, else the bitrate over the duration in whole bytes, else none |
| `Formats.ShortSideMeans` | go/internal/youtube/probe.go:182-195 | the resolution is the shorter side; which formats carry picture and sound |
| `Formats.BestAudio` | go/internal/youtube/probe.go:246-269 | the chosen soundtrack is no worse than any other and the first of the equally good; none exactly when there is no audio-only format |
| `Formats.PickByHeight` | go/internal/youtube/probe.go:144-157 | for every height with a video format the pick is one that no other format beats |
| `Formats.Collect` | go/internal/youtube/probe.go:159-179 | the offers follow the allowed heights in order |
| `Formats.DeliverableIff` | go/internal/youtube/probe.go:159-179 | a pick can be offered exactly when a format of its height carries audio or an audio-only format exists |
| `Formats.Options` | go/internal/youtube/probe.go:139-180 | a height is offered exactly when it is allowed and deliverable, and the heights strictly ascend; an offer is the first pick that no format of its height beats, with its own id and size when it has sound, and otherwise `video+audio` with the best soundtrack and the sum of both sizes |
| `Formats.AllowedHeights` | go/internal/youtube/probe.go:110-129 | the positive numbers named by the entries, ascending and without repetition, or the six defaults when there are none |
| `Formats.NamedIs` | go/internal/youtube/probe.go:113-117 | an entry names a height when it is a positive decimal integer, spaces around it aside |
| `Trim.UnitSeconds` | go/internal/youtube/trim.go:84-92 | the weight is sixty to the number of fields to the right |
| `Trim.DecimalNumerals` | go/internal/youtube/trim.go:66-74 | digits, digits with a point somewhere, and either with a plus are numerals, and a fraction is added |
| `Trim.OnlyNumerals` | go/internal/youtube/trim.go:66-74 | nothing else is one |
| `Trim.WithFractionValue` | go/internal/youtube/trim.go:66-74 | a fraction is all its digits as one number over the power of ten of those behind the point |
| `Trim.WholeFieldMeans` | go/internal/youtube/trim.go:75-78 | a field before the last is a decimal integer that is not negative, spaces aside |
| `Trim.FieldsOf` | go/internal/youtube/trim.go:51-60 | a timecode is its fields between colons; more than three are refused |
| `Trim.FieldsAddUp` | go/internal/youtube/trim.go:60-92 | seconds, sixty for each minute and 3600 for each hour |
| `Trim.BadField` | go/internal/youtube/trim.go:61-82 | a field that is no number, or a negative one, leaves no sum |
| `Trim.ParseTimecode` | go/internal/youtube/trim.go:51-82 | the loop adds up the fields as the timecode means, or fails |
| `Trim.ParseRange` | go/internal/youtube/trim.go:21-49 | the method computes the meaning of the range text |
| `Trim.SeparatorsAlike` | go/internal/youtube/trim.go:21-26 | a hyphen, any of the dashes and two dots split alike |
| `Trim.RangeMeans` | go/internal/youtube/trim.go:21-49 | for two timecodes around any separator: the range, or exactly which fault is told |
| `Trim.AcceptedInside` | go/internal/youtube/trim.go:21-49 | every accepted range satisfies 0 <= start < end <= known duration, starts where typed and ends where typed or at the end of the video |
| `Trim.FractionValue` | go/internal/youtube/trim.go:66-74 | digits behind the point are worth their number divided by that power of ten |
| `Trim.DurationRoundTrip` | go/internal/youtube/card.go:47-58 | parsing a printed duration gives back exactly its seconds, up to 2^53 |
| `Trim.DurationShape` | go/internal/youtube/card.go:47-58 | two digits each but for the first field; never below zero |
| `Trim.RangeShown` | go/internal/youtube/trim.go:95-97 | the start in whole seconds, the end to the nearest one |
| `Trim.RangeRoundTrip` | go/internal/youtube/trim.go:95-97 | for whole seconds inside the video, parsing the printed range returns exactly the range if and only if the end is below 2^52, even, or the end of the video |
| `Settings.SplitParts` | go/internal/runtime/helpers.go:99-109 | the loop keeps the trimmed non-empty pieces in order |
| `Settings.EntriesRoundTrip` | go/internal/runtime/helpers.go:99-109 | joining list entries with commas and splitting again changes nothing |
| `Settings.Validate` | go/internal/runtime/store.go:64-105 | the method gives exactly the verdict of the kind of setting |
| `Settings.BooleanWords` | go/internal/runtime/store.go:66-72 | which words switch on and which off, in any case; no other text passes |
| `Settings.IntegerChecked` | go/internal/runtime/store.go:90-101 | an integer is a decimal numeral within the positive bounds, the minimum looked at first |
| `Settings.ListChecked` | go/internal/runtime/store.go:80-89 | a list is refused for its first entry that is not allowed, or for being blank |
| `Settings.ChoiceChecked` | go/internal/runtime/store.go:73-79 | a choice is one of the allowed values, spaces aside |
| `Settings.AtoiValueElse` | go/internal/runtime/store.go:117-119 | a number beyond 64 bits is read as the nearest one, other texts as 0 |
| `Settings.StoredBoolean` | go/internal/runtime/store.go:160-163 | a stored boolean is on for `1` and for `true` in any case, and off for every other text |
| `Settings.StoredText` | go/internal/runtime/store.go:160-170 | a stored choice or list is read as it stands, a stored numeral as its number |
| `Settings.SettingRoundTrip` | go/internal/runtime/store.go:107-170 | every text that passes validation survives parse, serialise and deserialise unchanged; what is stored is sound and validates again, except a list of nothing but commas |
| `Settings.CommaAccepted` | go/internal/runtime/store.go:80-89 | a lone comma passes the check of every list setting and is stored as the empty text |
| `Settings.MinimumKeptIff` | go/internal/runtime/store.go:95-97 | the stated minimum binds every accepted integer if and only if it is positive or the least 64-bit integer |
| `Settings.EffectiveList` | go/internal/runtime/helpers.go:80-97 | the effective list is never empty and never leaves the allowed values, whatever sound text is stored |
| `Settings.StoredInteger` | go/internal/runtime/store.go:33-46 | a stored integer is within every bound that is checked |
| `Settings.StoredChoice` | go/internal/runtime/store.go:22-31 | a stored choice is one of the allowed ones and is what reading gives |
| `Settings.ToggleNegates` | go/internal/handler/admin.go:351-365 | on a boolean setting the toggle makes the effective value the other one |
| `Settings.ToggleSoundIff` | go/internal/handler/admin.go:351-365 | the boolean toggle keeps the store sound exactly for boolean settings and for texts that allow the word `true` |
| `Settings.EnumButtonIff` | go/internal/handler/admin.go:330-349 | an enum button keeps the value among the allowed ones exactly when its text is trimmed |
| `Settings.Store.CurrentValue` | go/internal/runtime/store.go:22-31 | the stored value, or the default when the key is absent or Redis is down |
| `Settings.Store.CurrentInt` | go/internal/runtime/store.go:33-46 | a stored integer setting reads within its checked bounds; an unknown key reads the fallback |
| `Settings.Store.CurrentStringList` | go/internal/runtime/helpers.go:80-97 | the list read from the store, non-empty and drawn from the allowed values also when Redis is down |
| `Settings.Store.SetValue` | go/internal/runtime/store.go:48-54 | writes the serialised value of a known key and nothing else |
| `Settings.Store.SaveEdit` | go/internal/handler/admin.go:289-310 | an edit is stored exactly when it validates, keeps the store sound, and reads back as parsed |
| `Settings.Store.SetEnum` | go/internal/handler/admin.go:330-349 | an enum button is stored as it came exactly when it validates |
| `Settings.Store.ToggleBool` | go/internal/handler/admin.go:351-365 | the toggle stores the negation of the current value |
| `Settings.Store.Reset` | go/internal/runtime/store.go:56-58 | forgets one key |
| `Settings.Store.ResetAll` | go/internal/runtime/store.go:60-62 | forgets every key |
| `Settings.Store.ResetService` | go/internal/handler/admin.go:400-407 | forgets exactly the listed keys whose deletion was answered |
| `YouTube.Ladder` | go/internal/handler/youtube.go:114-115 | the allowed heights are exactly those the effective list names; under every reachable store they are some of the six, ascending and never none |
| `YouTube.QualitiesInForce` | go/internal/handler/youtube.go:114-115 | the effective list is the stored one, or the six heights when nothing is stored or Redis is down |
| `YouTube.TopAllowedQuality` | go/internal/handler/youtube.go:90-93 | an instant download is capped at the largest height the effective list names, one of the six |
| `YouTube.YouTubeOptions` | go/internal/handler/youtube.go:114-124 | the card offers exactly the allowed heights the video delivers, or, when it delivers none or is unknown, all allowed ones blind; ascending, and of the six |
| `YouTube.RatioSet` | go/internal/youtube/keyboards.go:18-30 | the trimmed non-empty values, or all three ratios when there are none |
| `YouTube.RatiosInForce` | go/internal/handler/youtube.go:309-324 | the effective ratios are the stored ones, or all three |
| `YouTube.YouTubeAspectRatio` | go/internal/handler/youtube.go:309-324 | a ratio is used exactly when the user chose it and the effective list allows it; then it is one of the three |
| `YouTube.OptionFor` | go/internal/youtube/session.go:49-56 | finds an option of the tapped height exactly when the card has one |
| `YouTube.Dimensions` | go/internal/video/processor.go:22-26 | the short side of every frame is the quality, only the portrait ratio is portrait, and both sides are even |
| `YouTube.FrameShapes` | go/internal/video/processor.go:22-26 | the long side: 16:9 to the nearest even number, 21:9 exactly but for the widest frame, 9:16 the landscape frame turned |
| `YouTube.TableComplete` | go/internal/video/processor.go:22-36 | the table has a frame for exactly the three ratios and six heights |
| `YouTube.ReencodesIff` | go/internal/queue/client.go:41-46 | for every payload: the worker re-encodes to a fixed frame exactly when the job was queued for transcoding and transcoding is on |
| `YouTube.WorkMeans` | go/internal/worker/download.go:83-190 | sound alone, a picture in its own frame, another frame, or the general way, for exactly which jobs |
| `YouTube.StartDownload` | go/internal/handler/youtube.go:254-305 | for every reachable store, option and stored ratio: a job with a ratio has a frame in the table and waits on the transcode queue |
| `YouTube.OnQualityChoice` | go/internal/handler/youtube.go:138-160 | a tap starts a job exactly when the card offered the height, with the format the card advertised |
| `YouTube.StartShorts` | go/internal/handler/youtube.go:63-85 | an instant download never waits behind a transcode and keeps its frame |
| `Bitrate.TargetBitrate` | go/internal/video/processor.go:82-96 | for every map order the answer is the bitrate of a nearest rung |
| `Bitrate.NearestIs` | go/internal/video/processor.go:73-96 | exactly which answers are possible for each height |
| `Bitrate.FitHeight` | go/internal/video/processor.go:169-184 | for every map order the loop gives one of the possible answers |
| `Bitrate.NeverUpscales` | go/internal/video/processor.go:165-184 | the answer is never taller than the source, and is the source below 720 |
| `Bitrate.TallestFits` | go/internal/video/processor.go:169-184 | from 720 up the answer is the tallest candidate whose half-ladder bitrate fits, and 240 when none does |
| `Bitrate.KeptIsBestIff` | go/internal/video/processor.go:169-184 | below 720 the kept source is the tallest candidate that fits, or the last resort, if and only if it fits itself or no rung is below it |
| `Bitrate.MonotoneIff` | go/internal/video/processor.go:169-184 | a larger budget never gives a smaller picture, whatever the map orders, if and only if the source is not 900, 1260 or 1800 |
| `Bitrate.PlanBudget` | go/internal/video/processor.go:192-219 | encodes exactly from 120 kbps, 184 with sound; video gets at least 120 and the whole budget is used to within one kilobit |
| `Bitrate.PlanFitsCap` | go/internal/video/processor.go:202-203 | video plus audio over the duration stay within 95% of the byte cap |
| `Bitrate.EffectiveLimit` | go/internal/worker/download.go:543-550 | the limit never exceeds the platform's, nor the upload limit when that is positive |
| `Bitrate.EnsureFits` | go/internal/worker/download.go:219-240 | while the limit stands, a video is offered for upload exactly when it was small enough, or a budget existed, the encoder met the cap and its result took the source's place (or the source was lost) |
| `TestUrls.Checklist.CreateTestURL` | go/internal/db/test_urls.go:66-77 | a new pending row with a fresh identifier, or nothing for a known link |
| `TestUrls.Checklist.DeleteTestURL` | go/internal/db/test_urls.go:80-83 | removes exactly one row |
| `TestUrls.Checklist.ClaimNextTestURL` | go/internal/db/test_urls.go:88-108 | claims the smallest runnable unlocked identifier, none exactly when there is none, and marks only it |
| `TestUrls.Checklist.FinishTestURL` | go/internal/db/test_urls.go:111-126 | stores the outcome of exactly one row |
| `TestUrls.Checklist.RequeueTestURLs` | go/internal/db/test_urls.go:130-147 | exactly the finished rows (or the one named) wait again with their results cleared, and are counted |
| `TestUrls.RunKeeps` | go/internal/db/test_urls.go:88-108 | in every timely run each live claim is the only one of its row, which is marked running since the claim |
| `TestUrls.ExclusiveIff` | go/internal/db/test_urls.go:85-108 | for any number of workers, no row is ever run twice at once in any run that ends its claims within the deadline, if and only if the deadline is at most fifteen minutes |
| `TestUrls.StatusesFollow` | go/internal/db/test_urls.go:88-147 | in timely runs statuses follow pending, running, passed or failed, pending |
| `TestUrls.LateFinishOverwrites` | go/internal/db/test_urls.go:111-126 | with any longer deadline a finished row can be finished again |
| `TestUrls.ClaimableAgain` | go/internal/db/test_urls.go:85-108 | a row whose worker died is offered again after the lease and taken by the next claim unless a smaller one waits |
| `Payments.Shop.RecordPurchase` | go/internal/db/store.go:210-220 | adds the purchase exactly when the charge is new and the insert is carried out, and reports it only when the insert is answered |
| `Payments.Shop.SetNoWatermark` | go/internal/db/store.go:186-196 | sets exactly one toggle |
| `Payments.Shop.OnSuccessfulPayment` | go/internal/handler/payments.go:74-102 | performs the payment event; confirms every payment for the product, recorded or not |
| `Payments.Shop.OnToggle` | go/internal/handler/settings.go:69-75 | toggles only for entitled users |
| `Payments.Shop.OnReset` | go/internal/db/store.go:222-232 | switches the toggle off and leaves the ledger alone |
| `Payments.Shop.NoWatermarkFor` | go/internal/handler/payments.go:37-47 | a job is footer-free only, and when the reads succeed exactly, for an administrator or recorded buyer whose toggle is on |
| `Payments.PaymentInertIff` | go/internal/handler/payments.go:74-102 | a payment changes nothing exactly when it is for something else, could not be recorded, or its charge is recorded already |
| `Payments.LedgerIsHistory` | go/internal/db/store.go:210-220 | the ledger is exactly the set of charges ever recorded |
| `Payments.RedeliveryHarmless` | go/internal/handler/payments.go:82-98 | one more delivery of a recorded payment, anywhere later and with any database answers, changes no later state |
| `Payments.RedeliveriesHarmless` | go/internal/handler/payments.go:82-98 | the same for any number of them |
| `Payments.LostRecordingNeverEnables` | go/internal/handler/payments.go:82-98 | a payment recorded with its answer lost leaves the toggle as it was, and no redelivery ever turns it on |
| `Payments.ToggleEarned` | go/internal/handler/payments.go:24-47 | in every run nobody's toggle is on who is neither an administrator nor a recorded buyer |
| `Broadcast.Deliver` | go/internal/worker/broadcast.go:41-63 | the sends made to a recipient and the status: sent if and only if one of them was delivered, blocked if and only if the first answer is a block |
| `Broadcast.BlockedIff` | go/internal/worker/broadcast.go:46-58 | a recipient who blocked the bot is counted as blocked if and only if the first answer already said so |
| `Broadcast.TallySums` | go/internal/worker/broadcast.go:37-73 | sent, failed and blocked add up to the recipients handled |
| `Broadcast.TallyIs` | go/internal/worker/broadcast.go:41-73 | each counter is the number of recipients that ended with its status |
| `Broadcast.Table.SaveDelivery` | go/internal/db/broadcast.go:217-246 | all rows of the user take the new status when the lookup answers and finds one, otherwise one more row has it; nobody else's rows change |
| `Broadcast.Table.HandleBroadcast` | go/internal/worker/broadcast.go:40-73 | the loop writes the rows, the progress after every batch, and a completion that accounts for every recipient |
| `Broadcast.ProgressAccounts` | go/internal/worker/broadcast.go:65-67 | a progress write accounts for exactly the recipients handled by then, and every full batch has one |
| `Broadcast.OneRowIff` | go/internal/db/broadcast.go:217-246 | a recipient has exactly one row after a run over distinct recipients if and only if there was none, or one and the lookup answered (or, unwritten, one before) |
| `Broadcast.OneRowEachIff` | go/internal/db/broadcast.go:217-246 | for distinct recipients with all rows written: every one has exactly the row of this run if and only if none had two and no lookup failed for one who had a row |
| `Broadcast.RowsMatchCounters` | go/internal/worker/broadcast.go:40-73 | under the same premises the rows of every status are as many as its counter if and only if that condition holds |
| `Broadcast.FirstRunMatches` | go/internal/worker/broadcast.go:40-73 | a first run always satisfies both, whatever the lookups answer |
| `Broadcast.RerunReplacesIff` | go/internal/db/broadcast.go:217-246 | a rerun over recipients of a first run leaves one row each with its own status, and rows that match its counters, if and only if none of its lookups failed |
| `Broadcast.FailedLookupDuplicates` | go/internal/db/broadcast.go:218-246 | a recipient with a row, a failed lookup and a working insert end with two rows |
| `Broadcast.OtherRowsKept` | go/internal/db/broadcast.go:217-246 | nobody else's rows are touched |
| `Sessions.SessionManager.Cleanup` | go/internal/dash/auth.go:88-95 | drops exactly the expired entries |
| `Sessions.SessionManager.Issue` | go/internal/dash/auth.go:47-64 | a fresh token stands for seven days |
| `Sessions.SessionManager.Lookup` | go/internal/dash/auth.go:68-80 | succeeds exactly when the token was issued, not revoked since and not past its expiry; dropping entries changes no answer |
| `Sessions.SessionManager.Revoke` | go/internal/dash/auth.go:82-86 | ends exactly one token |
| `Sessions.StandingMeans` | go/internal/dash/auth.go:47-95 | the standing entry of a token is the one issued and not revoked after |
| `Spam.AllowGroupLinks` | go/internal/handler/spam.go:33-55 | the loop claims link by link and stops at the first that is banned or taken |
| `Spam.AdmitIff` | go/internal/handler/spam.go:33-55 | whatever Redis answers, a message passes exactly when no link of it is banned or has an answered claim that was taken before or by an earlier link; then every claim that reached Redis stands |
| `Spam.ClaimsMade` | go/internal/handler/spam.go:33-55 | which claims a message makes: only of its own links, that were free, each for one window; no other claim changes |
| `Spam.StoppedAt` | go/internal/handler/spam.go:33-55 | a stopped message stops at its first refused link, and what earlier links claimed stands |
| `Spam.ClaimsGrow` | go/internal/handler/spam.go:33-55 | claims made before a message is stopped stay |
| `Text.SpaceIs` | go/internal/runtime/helpers.go:99-109 | the code points that `strings.TrimSpace` removes |
| `Text.LowerMeans` | go/internal/youtube/probe.go:200-225 | `strings.ToLower` on the letters that matter here |
| `Text.JoinSplit` | go/internal/runtime/helpers.go:99-109 | joining what was split gives the text back |
| `Text.AtoiMeans` | go/internal/youtube/trim.go:75-78 | which texts `strconv.Atoi` reads as which 64-bit integers |
| `Text.PrintIntMeans` | go/internal/redisx/client.go:56-61 | a printed number is its digits without a leading zero, behind a minus sign when it is negative |

## Left out

- `RedisClient.Client.AllowRateLimit`: the four pipelined commands are one step, because Redis runs the pipeline of one client without a gap that the limiter could see; a pipeline carried out in part is not modelled.
- `Stranding.LiveLockOwned`: the library's own recovery of a task whose worker still runs is not modelled, because it is asynq's and not this repository's.
- `Courses.Handlers.ClearUserTasks`: the lists come from asynq and are any lists; the flags raised for tasks that are being processed, and the cancelling of their contexts, are ordinary steps of the run and an arbitrary outcome of the body. The list of task types it skips (Instagram, Reddit) is not modelled.
- `Courses.Tasks.RunMusicDownload`: what each track download does is an arbitrary outcome, and a payload without a status message, for which the Spotify and Yandex workers return before releasing, is not modelled, because every handler enqueues with one.
- `Courses.Handlers.HandleMusicLink`: the music card, the album button and the platform switches are one answer, because each only decides whether the handler goes on or releases.
- `Trim.ParseTimecode`: of the texts Go's float parser accepts only decimal numerals without an exponent are read, because the others (`nan`, `inf`, hexadecimal) are not timecodes; fractional seconds are real numbers without rounding.
- `Trim.RangeRoundTrip`: ends above 2^53, where whole seconds themselves are rounded, are not modelled.
- `Settings.ToggleSoundIff`: needs that a setting that is not boolean has no boolean default, as in the registry; the toggle is not one of the validated edits the store's soundness is kept by.
- `Settings.MinimumKeptIff`: concerns the typed minimum only; a missing or zero maximum is not checked by the code either.
- `Bitrate.PlanBudget`: rates are exact rationals, not floating-point numbers.
- `Bitrate.EnsureFits`: the encoder, the probes and the file system are arbitrary answers.
- `TestUrls.Checklist.ClaimNextTestURL`: the single SQL statement is one step, with the rows locked by other transactions as a parameter.
- `Translate.RunBlocks`: the translator is a function of its text, so its cache and its failures are inside that function.
- `Article.Trim`: the length of a node's JSON is an arbitrary weight per node, added up with brackets and commas.
- `Broadcast.RowsMatchCounters`: needs every row to be written; when a write fails the code goes on and the row is missing. The error text and the time of a delivery row are not modelled.
- `Broadcast.Table.HandleBroadcast`: the progress and completion writes succeed; the code drops their errors and goes on.
- `Settings.Store.SetValue`: a write is carried out or not; one carried out with its answer lost is not told apart.
- `Locks.MeterKeyInjective`: the code's scopes are the literals `user`, `chat` and `internal_api_ip`; a scope with a colon is not considered.
- Tokens are assumed fresh, not empty and free of colons (they are UUIDs), and lock lifetimes positive; session tokens are assumed fresh.
- The emoji catalogue is any map with non-empty keys and identifiers without HTML special characters.
- The music release lock appears only as won or not won, because its release is an unconditional delete.
- Subprocesses (yt-dlp, ffmpeg, ffprobe), HTTP clients, SQL statistics, metrics, localisation, keyboards, registration and the dashboard frontend are foreign behaviour or user interface.
- Link extraction by regular expressions, HMAC and SHA-256 are not part of this model.
- The botkit copies of the handlers repeat go/internal/handler, but for the prefix of their keys and the queue they use and clear, which are modelled.
