# Costanza's event substrate, verified

Costanza archives household media webhooks, turns them into canonical events,
correlates them with media rows and request chains, and fans them out into a
notification ledger. Its consistency is repair-based: every store call is its own
transaction, a crash can land between any two of them, and every retry is meant to
restore what was lost without doing anything twice. This project models that state
machine in Dafny and proves what the design promises of it, or the exact condition
under which the promise holds.

`dafny verify dfyconfig.toml` checks everything.

## How it is laid out

Two layers. The first is values and functions: what each table is, what each call does to
it, and the theorems. The second is the program's own form: classes whose methods update
the tables in place, loops included, each proved to do what the first layer says.

| part | modules |
|---|---|
| text the store compares | `Timestamps`, `Like`, `Events` |
| keys of both ingest paths | `Seerr`, `Arr`, `Tautulli` |
| media identity, request chains | `Media`, `Chains`, `Lifecycle` |
| tables, store calls, crash repair | `Correlate`, `CrashRepair`, `Processing`, `Interference` |
| outbox and ledger protocol, rate limit | `WorkQueue`, `Limits` |
| reconcile as a machine of single store accesses | `Reconcile`, `ReconcileTicks`, `ReconcileSafety`, `ReconcileFlood`, `ReconcileRepair`, `ReconcileMarkers`, `ReconcileLost`, `ReconcileCrashed`, `ReconcileQuiet` |
| retention, digest, kill switch | `Retention`, `Digest`, `KillSwitch` |
| the program | `Db` (store), `Engine` (correlator), `Pipeline`, `Worker`, `DigestJob`, `ReconcileJob` |

`ReconcileJob` carries the machine of `Reconcile` along as a ghost and moves it by ticks
only, so a run of the program is a run of the machine (`ReconcileTicks.TicksAreARun`) and the
theorems over all schedules of ticks, crashes and foreign store calls apply to it. `Processing`
is the same for the worker: its ticks make an attempt of `CrashRepair`.

## What the model assumes

- Time is an integer of microseconds. The store keeps text; `Timestamps.TextOrderIsTimeOrder`
  is why comparing the text may be read as comparing instants. An instant in a digest's key is
  its ISO text (`Timestamps.TimeText`; `Timestamps.TimeTextOrder`). In a gap marker's key it is the
  text `Config.text` gives, of which two things are used: different instants have different texts,
  and no text has an `r` first or after a colon. ISO texts, whose colons are followed by digits, are
  like that (`Timestamps.TimeTextPrints`), and the theorems that need it take it as a premise
  (`ReconcileSafety.Clear`).
- Row ids are positions or given fresh. Among rows a query leaves unordered, the oldest comes
  first; among markers of equal receipt time, the least key.
- One outbox worker and one notify worker, as the program starts them. A store call is one step;
  the worker and reconcile, both of which call `apply`, may interleave between any two of them.
  Moving a request chain, a lookup followed by one write, is taken as one step as well. Reconcile
  runs do not overlap, and the clock advances between two runs of one source. Successive send
  passes and prunes read a clock that does not run backwards.
- Request ids are non-empty and source names contain no colon. Lemmas that need more of the
  names say so (`ReconcileSafety.GoodNames`).
- One clock reading stands for the readings of one processing attempt. Due times are left out
  when two stores are compared.
- Hashes are opaque text. API answers, renderer and adapter outcomes and the normalizer's
  result inside the outbox pass are arbitrary inputs.

## Where the code falls short of its promises

The code is modelled as it is. Each of these comes with the condition under which it happens,
proved in both directions except where it says otherwise.

- `apply` is not idempotent as a whole (src/costanza/correlate/engine.py:7-11): a closing event
  whose request has no chain of its own, while its media has an open one, closes that chain, and a
  rerun moves on to another. This is the only case (`Chains.AdvanceTwice`, `CrashRepair.CrashSafeIffSafe`).
- Delivery is at most once only without process deaths; each death between a send and its mark
  adds at most one (`WorkQueue.AtMostOnce`: an exact count).
- A send pass handles a claimed row exactly when neither its renderer nor that of a row claimed
  before it raises (`Pipeline.HandledIff`). While one live row's renderer keeps raising, that row and
  every row due after it are handled by no pass (`Pipeline.OneBadRendererBlocks`); of the rows due
  before the first such row, n passes at one instant leave exactly max(0, front - n * limit) due
  (`Pipeline.FrontDrains`). Whether a renderer raises is an input.
- An id column of the media table stops being unique exactly when a reference is found by another
  column and its id, which another row has, is backfilled (`Media.ColumnStaysUniqueIff`). For the TVDB
  id that happens (`Media.TvdbMayRepeat` has three references); for the TMDB id it cannot.
- The payload of a row that stays unfinished past retention is redacted and later processed as the
  redaction text (`Retention.OwedPayloadIntactIff`). A body that arrives reading as that text keeps
  its headers.
- A digest run that dies between enqueue and cursor can make a later one cover the same time
  again; the unique key does not catch it. Two digest rows cover a time twice exactly when they were
  made at the same cursor, which takes such a death, and, if there was no cursor yet, less than
  seven days apart (`Digest.RowsOverlapIff`, `Digest.NextRowOverlapsIff`, `Digest.RowsAreTheWindowsIff`).
- The gap-marker lookup is a LIKE query, so a source whose name accepts another's as a pattern, by
  an underscore or by letter case, repairs the other's marker. Reconcile floods for some
  configuration and schedule exactly when two names are so related (`ReconcileSafety.MarkerFoundIff`,
  `ReconcileFlood.NeverFloodsIff`).
- A run looks after one marker only. At the end of an unsilenced run of a source with flag-only
  kinds, with or without a cursor, a stored marker that owed rows when the run began has them exactly
  when it is that of the run's own window or, the run having recovered nothing, the newest one
  (`ReconcileLost.RepairedIff`). Any other marker never gets a row again, as the cursor has passed it
  (`ReconcileLost.OtherMarkerIsLost`). That takes runs with different windows, so no cursor
  (`ReconcileLost.WindowsOfRuns`), and it happens (`ReconcileCrashed.AMarkerIsLost`).
- The twin guard takes a key for a twin exactly when it starts as the head and ends as the download
  id, so an id that is the tail of another one hides it (`Arr.PatternAcceptsExactly`).
- Two availability labels let two requests share a key exactly when one of them is the other behind
  a colon (`Seerr.LabelsCollideIff`).
- A fan-out already past its kill-switch check adds its remaining rows after the switch is engaged,
  in the worker as in reconcile, and no others are added (`KillSwitch.EngagedIntervalIsMute`).

## Model

| member | source | states |
|---|---|---|
| Timestamps.TextOrderIsTimeOrder | src/costanza/store/db.py:25-26 | two stored timestamps compare as text exactly as the instants they denote, also when only one carries microseconds |
| Timestamps.IsoRoundTrip | src/costanza/store/db.py:25-26 | a printed timestamp reads back as itself |
| Timestamps.TimeTextOrder | src/costanza/store/db.py:25-26 | comparing the texts of two instants is comparing the instants |
| Timestamps.TimeTextPrints | src/costanza/jobs/reconcile.py:172 | the texts of different instants differ, and none has an r first or after a colon, in whatever case |
| Timestamps.DigestKeyRoundTrip | src/costanza/jobs/digest.py:44-57 | the send worker recovers from a digest's ledger key the window it was enqueued for |
| Like.NoTwinMissed | src/costanza/store/db.py:403-411 | whatever wildcards head and tail contain, the pattern head-%-tail accepts every text of that shape |
| Like.PatternExact | src/costanza/store/db.py:403-411 | when neither part holds a percent sign, head-%-tail accepts exactly the texts whose start the head fits and whose end the tail fits without overlap; an underscore fits any character, a letter fits either case |
| Like.PatternSplits | src/costanza/store/db.py:403-411 | whatever the parts hold, head-%-tail accepts a text if and only if some start of it matches the head and some later end of it the tail |
| Like.AcceptsIff | src/costanza/store/db.py:403-411 | one pattern character other than a percent sign fits any character if it is an underscore, else itself and, for a letter, its other case |
| Like.NameMatchesIff | src/costanza/jobs/reconcile.py:180-184 | a colon-free name followed by a mark, whose first character follows no colon in the rest of the text, is found under exactly the colon-free names it matches as a pattern |
| Seerr.FactKeyInjective | src/costanza/normalize/seerr.py:57-79 | lifecycle keys with colon-free labels determine source, type, request and label |
| Seerr.WebhookCarriesFact | src/costanza/normalize/seerr.py:57-79 | a lifecycle webhook yields one event, with the key of the fact it reports |
| Seerr.ExpectedIsAttested | src/costanza/jobs/reconcile.py:210-263 | every event synthesized from a polled request is a fact the poll attests, under that fact's key |
| Seerr.AttestedIsExpected | src/costanza/jobs/reconcile.py:210-263 | every fact the poll attests is synthesized |
| Seerr.WebhookAndPollCollapse | src/costanza/jobs/reconcile.py:240-263 | webhook and poll share a key if and only if the poll attests what the webhook said, and then agree on type, request and partiality |
| Seerr.WebhookMeetsPoll | src/costanza/normalize/seerr.py:57-79 | a webhook about a request shares its key with an event of the polled request exactly when the request is in the state the webhook names: pending in any, approved at status 2, declined at 3, available at media status 5, partly at 4 |
| Seerr.WebhookSays | src/costanza/normalize/seerr.py:14-98 | which notification becomes which event, and that it carries the payload's media, user and request |
| Seerr.OtherKeysTell | src/costanza/normalize/seerr.py:82-98 | two failure webhooks share a key if and only if they are about one request, two unknown ones if and only if their payloads are the same |
| Seerr.ExpectedSays | src/costanza/jobs/reconcile.py:210-263 | a synthesized event is about the request's media and the user who asked, at the time it was made or, for what came later, last changed |
| Seerr.LabelsCollideIff | src/costanza/normalize/seerr.py:65-69 | two labels can spell one key for two different facts if and only if one of them is the other behind a colon |
| Arr.ThirdSegment | src/costanza/jobs/reconcile.py:336-379 | the third segment the guard cuts from a record's key is its media key, or the word file for deletions |
| Arr.WebhookTwinIsFound | src/costanza/jobs/reconcile.py:375-381 | the pattern built from any history record of a download accepts the Sonarr or Radarr webhook key of that download, however episodes are grouped and whatever the id contains |
| Arr.SingleItemKeysCoincide | src/costanza/normalize/radarr.py:58-90 | a movie or single-episode webhook and its history record have the same key |
| Arr.RecordsOfOneDownloadMatch | src/costanza/jobs/reconcile.py:336-381 | the pattern of one record of a download accepts the key of every other |
| Arr.KindsAgree | src/costanza/jobs/reconcile.py:46-53 | a webhook and a history record of a grab, an import, an upgrade or a deletion become events of one kind |
| Arr.RecordIsTakenIff | src/costanza/jobs/reconcile.py:291-368 | a record is synthesized if and only if it is a grab, an import or a file deletion of something known, and then keeps its date and media |
| Arr.WebhookIsAboutIff | src/costanza/normalize/radarr.py:52-130 | which webhooks are health reports or unknown, and that only those carry no media |
| Arr.EpisodeListsDiffer | src/costanza/normalize/sonarr.py:53-58 | different lists of seasons and episodes below a hundred print differently |
| Arr.WebhookKeysTell | src/costanza/normalize/radarr.py:58-103 | two grabs, imports or deletions of catalogued things share a key if and only if they report one thing: same type, item, episodes and download or file |
| Arr.OtherKeysTell | src/costanza/normalize/radarr.py:110-130 | two health webhooks share a key if and only if both raise, or both clear, one check with one message; two unknown ones if and only if their payloads are the same |
| Arr.RecordKeyEnds | src/costanza/jobs/reconcile.py:336-345 | a record's key ends with the download id or, without one, with the record's own |
| Arr.PatternAcceptsExactly | src/costanza/jobs/reconcile.py:378-381 | exactly which keys the guard takes for twins, for every id and name: a start that matches the head and an end that matches the id; without percent signs, character by character |
| Tautulli.WatchKeysCollapse | src/costanza/normalize/tautulli.py:65-71 | a webhook completes a watch if and only if it is the watched trigger or, that being off, a stop at or past the threshold; it shares its key with a completed history row if and only if user and item agree |
| Tautulli.PlaybackKeysTell | src/costanza/normalize/tautulli.py:84-125 | two playback webhooks share a key if and only if they report the start, or the stop, of one session by one user of one item |
| Tautulli.UnknownKeysTell | src/costanza/normalize/common.py:32-43 | two unknown webhooks share a key if and only if their payloads are the same |
| Tautulli.WebhookSays | src/costanza/normalize/tautulli.py:84-158 | which webhook becomes which events; all but an unknown one carry the payload's media and user |
| Tautulli.HistorySays | src/costanza/jobs/reconcile.py:399-450 | only a completed row becomes an event, at the time it was stopped and with the row's media and user |
| Media.FindOrCreateKeeps | src/costanza/store/db.py:246-300 | resolving a reference changes no column that was set, loses no row and keeps TMDB ids unique per kind |
| Media.FoundRow | src/costanza/store/db.py:246-284 | the row found is the first of its kind that has the TMDB id, else the TVDB id, else the IMDb id, else, for a reference without ids, title and year; a row is added if and only if none has |
| Media.FoundRowIsFilled | src/costanza/store/db.py:285-300 | the row is of the kind the reference asks for, and what it did not know it has from the reference |
| Media.TmdbStaysUnique | src/costanza/store/db.py:246-300 | the same over any sequence of references |
| Media.TmdbResolvesForever | src/costanza/store/db.py:246-300 | a reference whose TMDB id sits on a row resolves to that row after any further references |
| Media.ColumnStaysUniqueIff | src/costanza/store/db.py:285-299 | a call keeps an id column unique per kind if and only if it does not backfill the id onto the row it hit while another row has it; for the TMDB id it never does |
| Media.SecondCallIsNoOp | src/costanza/store/db.py:246-300 | a second identical call returns the same id and changes nothing if and only if the reference has an id or a title |
| Chains.ByRequest | src/costanza/store/db.py:472-477 | finds a chain of the request if there is one |
| Chains.OpenFor | src/costanza/store/db.py:479-485 | finds the open chain of the media opened last, if there is one |
| Chains.AdvanceIsForward | src/costanza/correlate/engine.py:84-134 | one lifecycle event moves no rank back, changes no closed chain, reassigns no request, and keeps closed exactly the chains that are available or declined |
| Chains.ChainsStaySound | src/costanza/correlate/engine.py:84-134 | the same over all runs of un-interleaved applies, media fallback across requests included |
| Chains.AdvanceTwice | src/costanza/correlate/engine.py:94-134 | processing a lifecycle event twice equals once if and only if it is not a closing event that fell back to another request's chain |
| Chains.FallbackCloseMovesOn | src/costanza/correlate/engine.py:94-110 | in the excluded case the second processing always changes the chains again |
| Chains.LifecycleConverges | src/costanza/correlate/engine.py:39-45 | any sequence of one request's events, repeated and reordered, ends in one chain with the highest-ranked state seen; the first closing event applied decides the state and gives the closing time |
| Chains.OrderDoesNotMatter | src/costanza/correlate/engine.py:35-45 | permutations with one closing kind at most end in the same state |
| Lifecycle.LifecycleEnds | src/costanza/correlate/engine.py:84-134 | from a store without a chain of the request, its events in any order and repetition add one chain: requested after creations only, approved if approved and neither available nor declined, partially available if that and neither fully nor declined, else closed by the first decline or full availability at its time; media and requester are those of the first event, or known as soon as an event in order tells them |
| Correlate.ChannelsFor | src/costanza/notify/router.py:14-23 | the routed channels, without duplicates: those of the rules matching type and source, no others |
| Correlate.ApplyInSteps | src/costanza/correlate/engine.py:52-80 | running the store calls of apply in order is resolve media, resolve user, insert, advance chain |
| Correlate.AppliedTells | src/costanza/store/db.py:364-386 | the row stored for a new key has the event's source, kind, request and time, else the receipt time; its media is a row the reference names, whenever that has an id or title; its user is the active member behind the identity, and it is marked unmapped exactly when there is an identity and no such member |
| Correlate.NotifyWritesLedger | src/costanza/notify/pipeline.py:37-62 | fanning out changes nothing but the ledger |
| CrashRepair.CallStays | src/costanza/correlate/engine.py:7-11 | from any state between untouched and fully processed, each store call of the payload stays between and achieves its purpose |
| CrashRepair.ProgramStays | src/costanza/worker.py:40-55 | the same for any prefix of an attempt's calls, with the media id it holds |
| CrashRepair.CleanCompletes | src/costanza/worker.py:48-55 | a completed attempt with the switch off leaves nothing of the payload undone |
| CrashRepair.RetriesRepairExactly | src/costanza/worker.py:40-55 | any number of attempts, each cut off after any store call, then a complete one, leave the events, media, identities, chains and ledger of one uninterrupted attempt |
| CrashRepair.UnsafeRetryDiffers | src/costanza/correlate/engine.py:94-134 | in the fallback-close case dying before the outbox mark is enough to end elsewhere |
| CrashRepair.CrashSafeIffSafe | src/costanza/correlate/engine.py:7-11 | a lifecycle webhook is repaired by every sequence of attempts if and only if it is not that case |
| CrashRepair.NormalizedIsWellFormed | src/costanza/normalize/__init__.py:17-42 | what the Seerr, Tautulli, Sonarr and Radarr normalizers emit meets the premises: one media and user, distinct keys, at most one lifecycle event |
| CrashRepair.OnlySeerrCanBeUnsafe | src/costanza/correlate/engine.py:26-32 | Tautulli, Sonarr and Radarr payloads never fall under the excluded case, whatever the store |
| Processing.WorkerMakesAttempt | src/costanza/worker.py:40-55 | however many store calls and decisions the worker has made, whatever the switch read at each, the tables are those of an attempt cut off after some call |
| Interference.TurnsKeep | src/costanza/correlate/engine.py:7-11 | whatever the worker, other calls and send passes do, stored events, set media columns and the members behind identities never change, ledger rows never go, chains only move forward |
| Interference.TurnsExplained | src/costanza/worker.py:40-55 | and every new event and ledger row is asked for by the payload or made elsewhere |
| Interference.RetriesDeliver | src/costanza/worker.py:40-55 | with arbitrary foreign calls between any two store calls, once one attempt ends by itself with the switch off, every event of the payload is stored and its row says what `Correlate.AppliedTells` asks, its identity is known, its rows are on every routed channel, and the chain of its request, or one of a media row it names that was not closed when the attempt began, has come as far as it says or is closed, for good |
| WorkQueue.RowsAreExplained | src/costanza/outbox.py:28-69 | over any run a row's status and attempts are determined by its failures, completions and missing sources |
| WorkQueue.AtMostOnce | src/costanza/notify/pipeline.py:126-158 | over any run of enqueues and passes a row's handler finishes once if the row is sent, plus once per death before the mark |
| WorkQueue.AttemptBudget | src/costanza/notify/pipeline.py:138-153 | over any run at most max(1, max_attempts) calls plus deaths; a handled row is dead if and only if its source was missing or it failed that often |
| WorkQueue.FinalRowsStay | src/costanza/store/db.py:574-616 | sent, done and dead rows never change again |
| WorkQueue.PassEffect | src/costanza/outbox.py:38-69 | a pass settles each row it got to once and touches no other |
| WorkQueue.PassRemovesHandled | src/costanza/outbox.py:38-69 | whatever the outcomes, exactly the rows a pass got to leave the due set |
| WorkQueue.PassIsRun | src/costanza/outbox.py:28-69 | a pass is a run of the protocol |
| WorkQueue.BackoffLaw | src/costanza/outbox.py:24-25 | the first wait is the base, each next one twice the last, and none is longer than an hour |
| WorkQueue.WholePassDrains | src/costanza/store/db.py:169-175 | a whole pass leaves limit fewer rows due, or none, and loses no row |
| WorkQueue.PassesDrain | src/costanza/outbox.py:28-69 | n passes leave exactly max(0, due - n * limit) rows due: the queue is empty after ceil(due / limit) passes whatever fails |
| Limits.QueueDecides | src/costanza/notify/limits.py:46-54 | once its head has not expired, the queue is shorter than the limit if and only if fewer than limit sends of the whole log lie in the last minute |
| Limits.WindowBound | src/costanza/notify/limits.py:38-54 | no closed minute, wherever it lies, holds more sends of a channel than the limit |
| Limits.WithinCounts | src/costanza/notify/limits.py:46-54 | the limiter's count is the number of logged sends in the closed interval |
| Limits.Expire | src/costanza/notify/limits.py:46-51 | popping expired heads keeps the queue the unexpired end of the log |
| Limits.RateLimiter.constructor | src/costanza/notify/limits.py:41-44 | starts empty, with a limit of at least one |
| Limits.RateLimiter.Allow | src/costanza/notify/limits.py:46-54 | for clocks that do not run backwards the deque decides as the full log of allowed sends would, and the log grows by this send only if allowed |
| Reconcile.ExecGrows | src/costanza/store/db.py:364-386 | no store call changes or removes a stored event or removes a ledger row |
| Reconcile.NewestMarker | src/costanza/jobs/reconcile.py:180-184 | the marker the lookup returns is one of the matching ones and none is newer |
| ReconcileSafety.MarkerFoundIff | src/costanza/jobs/reconcile.py:180-184 | the gap lookup of one source finds the marker of another, whatever window text follows, ISO texts included, if and only if the one name, read as a LIKE pattern, accepts the other |
| ReconcileSafety.MarkersAreOwn | src/costanza/jobs/reconcile.py:175-186 | so where no configured name accepts another, it finds the source's own markers only |
| ReconcileSafety.StepIsSafe | src/costanza/jobs/reconcile.py:81-105 | every step of runs, crashes, ingest and flips keeps the cursor, receipt-time and eligibility invariant |
| ReconcileSafety.StepsAreSafe | src/costanza/jobs/reconcile.py:108-160 | the invariant holds over all schedules |
| ReconcileSafety.NeverFloods | src/costanza/jobs/reconcile.py:87-105 | over all schedules every ledger row reconcile creates is for its own event, of the running source, received after every run of that source that had completed |
| ReconcileFlood.ConfusedNamesFlood | src/costanza/jobs/reconcile.py:175-186 | for any two names one of which accepts the other there is a schedule in which a run of the one announces a marker that a completed, suppressed run of the other stored |
| ReconcileFlood.NeverFloodsIff | src/costanza/jobs/reconcile.py:87-105 | for any colon-free names, and any way to print instants that tells them apart: no schedule of any configuration floods if and only if no name accepts another |
| ReconcileMarkers.MarkerIsAnnounced | src/costanza/jobs/reconcile.py:163-204 | at the end of every unsuppressed transient run from a stored cursor, a stored marker of its window has a row on every routed channel, whatever earlier runs died |
| ReconcileLost.RepairedIff | src/costanza/jobs/reconcile.py:172-204 | at the end of every unsilenced transient run, cursor or not, a marker of the source that owed rows when it began has them if and only if it is that of the run's window or, with nothing recovered, the newest |
| ReconcileLost.OtherMarkerIsLost | src/costanza/jobs/reconcile.py:172-204 | a marker the run did not choose gets no new row from reconcile during the run or ever after |
| ReconcileLost.WindowsOfRuns | src/costanza/jobs/reconcile.py:130 | a crashed run and the next one give their marker the same key if and only if there was a cursor |
| ReconcileCrashed.AMarkerIsLost | src/costanza/jobs/reconcile.py:163-204 | for every source, channel and two times within the lookback, a schedule after which the marker of a crashed first run is stored and routed, has no row and never gets one |
| ReconcileMarkers.BehindTheCursorIsFinal | src/costanza/jobs/reconcile.py:87-105 | over all schedules a stored marker received no later than its source's cursor gets no new row |
| ReconcileRepair.StepProgress | src/costanza/jobs/reconcile.py:266-286 | every step keeps: what the run has passed is stored and, unless silenced, fanned out |
| ReconcileRepair.CompletedRunIsComplete | src/costanza/jobs/reconcile.py:129-157 | a run about to advance its cursor has stored every expected event or found its twin, and every one that reconcile stored after the window start has a row on every routed channel, whatever earlier runs died |
| ReconcileQuiet.StepsAreQuiet | src/costanza/jobs/reconcile.py:266-286 | while a source gets one answer, repeated runs on it, crashed or not, with other sources' runs, ingest and flips in between, keep recovering nothing |
| ReconcileQuiet.SameAnswerIsSilent | src/costanza/jobs/reconcile.py:108-160 | after a completed run of any source every later run of it on the same answer recovers 0 and makes no ledger row, whatever other sources do in between |
| ReconcileQuiet.GuardSeesDownload | src/costanza/jobs/reconcile.py:375-381 | if the guard passes, no record of the download is stored |
| ReconcileQuiet.OneEventPerDownload | src/costanza/jobs/reconcile.py:371-392 | over all runs at most one record per source, type, media and download id is stored |
| Retention.PruneIsExact | src/costanza/store/db.py:215-242 | newer raw rows are untouched, an older one survives, body redacted and headers cleared, if and only if a row that is not done refers to it, and exactly the done rows of older raw rows leave the outbox |
| Retention.PruneKeepsLinks | src/costanza/store/db.py:226-242 | a prune keeps every outbox row's raw row |
| Retention.PrunesCompose | src/costanza/store/db.py:215-242 | two prunes in either order equal the one at the later cutoff; a second prune does nothing |
| Retention.OwedWorkIsKept | src/costanza/outbox.py:39-44 | beside ingest and worker no unfinished row is lost, every row has its raw row, and the missing-row branch is never taken |
| Retention.OwedPayloadIntactIff | src/costanza/store/db.py:218-224 | the payload of an unfinished row is intact if and only if no prune has passed its receipt time or it arrived reading as redacted |
| Retention.ArchivedIsThereIff | src/costanza/ingest/routes.py:66-79 | a webhook archived and not yet enqueued is still there if and only if no prune has passed it |
| Digest.DigestKeyInjective | src/costanza/jobs/digest.py:44-46 | different windows have different ledger keys |
| Digest.WindowsTile | src/costanza/jobs/digest.py:37-41 | whatever clock, switch and deaths do, recorded windows are contiguous, at least an hour long, and the cursor is the last |
| Digest.TilesAreDisjoint | src/costanza/jobs/digest.py:37-41 | an earlier window ends before a later one starts |
| Digest.RowsAreTheWindowsIff | src/costanza/jobs/digest.py:99-112 | the rows enqueued are those of the recorded unsuppressed windows if and only if no run died between enqueue and cursor |
| Digest.DueDigestIsCreated | src/costanza/jobs/digest.py:106-112 | without deaths the deduplicated branch is unreachable: a run neither skipped nor suppressed makes its row |
| Digest.DigestKeyReadsBack | src/costanza/jobs/digest.py:44-57 | the key of a window reads back as the instants it starts and ends at |
| Digest.NextRowOverlapsIff | src/costanza/jobs/digest.py:106-111 | whatever the clock, two digests made in a row cover a time twice if and only if the first run died before the cursor and, without a cursor, they are less than the first period apart |
| Digest.RowsOverlapIff | src/costanza/jobs/digest.py:99-112 | over any runs under a clock that does not go back, any two digest rows cover a time twice if and only if they were made at the same cursor and, if there was none, less than the first period apart; the same cursor takes the death of the first |
| Digest.RowsAreTwo | src/costanza/jobs/digest.py:106-111 | such rows have different keys and both stay in the ledger |
| Digest.CountsAreConserved | src/costanza/stats/__init__.py:34-51 | opened, available, declined, gap and unknown counts of a fixed store, summed over the windows of any run, equal those of the whole span |
| Digest.OpenedCount | src/costanza/stats/__init__.py:34-51 | the opened count is the number of chains opened in the window |
| Digest.ClosedCount | src/costanza/stats/__init__.py:34-51 | the available and declined counts are the numbers of chains closed in that state in the window |
| Digest.EventCount | src/costanza/stats/__init__.py:98-106 | the gap and unknown counts are the numbers of those events that happened in the window |
| Digest.ClosedChainsAreCountedOnce | src/costanza/stats/__init__.py:40-50 | each closed chain is reported once, as available or as declined; partially available never occurs there |
| KillSwitch.AttemptIsSilent | src/costanza/worker.py:48-55 | an attempt with the switch engaged, cut anywhere, leaves the ledger alone and the rest as some attempt with it off |
| KillSwitch.OffToEngaged | src/costanza/notify/pipeline.py:48-55 | every schedule of reconcile and ingest with the switch off has one with it engaged that ends in the same events, media, identities, chains and cursors |
| KillSwitch.EngagedToOff | src/costanza/notify/pipeline.py:48-55 | and the other way round |
| KillSwitch.EngagedIntervalIsMute | src/costanza/notify/pipeline.py:37-62 | while engaged, any interleaving of the worker's calls and decisions, reconcile, deaths, digests and new send passes never calls the notifier, leaves every status and attempt count, and adds no row but those of fan-outs under way in worker or reconcile; without deaths each of those is there at the end or still under way |
| Db.ClaimDue | src/costanza/store/db.py:169-175 | the claim is the limit rows due first, in due order, and all of them when fewer are due |
| Db.Store.FindOrCreateMedia | src/costanza/store/db.py:246-300 | the loop over the id columns and the backfill give the row and table of `Media.FindOrCreate` |
| Db.Store.ObserveIdentity | src/costanza/store/db.py:339-347 | records an unknown identity once and changes no known one |
| Db.Store.InsertEvent | src/costanza/store/db.py:364-386 | true exactly for a new key, and never overwrites |
| Db.Store.NewestMarker | src/costanza/jobs/reconcile.py:180-184 | the query's answer is the machine's newest marker |
| Db.Store.UpdateChain | src/costanza/store/db.py:514-538 | sets the given columns of one chain and nothing else |
| Db.Store.EnqueueNotification | src/costanza/store/db.py:561-572 | creates a pending row, untried and due at once, unless the event and channel have one; never touches an existing row |
| Db.Store.ClaimNotificationsDue | src/costanza/store/db.py:574-582 | the rows that are pending or failed and due, first due first; one is passed over only if there is no room |
| Db.Store.NotificationSent | src/costanza/store/db.py:584-590 | settles one row as sent |
| Db.Store.NotificationRetry | src/costanza/store/db.py:592-600 | settles one row as failed and due later |
| Db.Store.NotificationDefer | src/costanza/store/db.py:602-608 | moves only the due time |
| Db.Store.NotificationDead | src/costanza/store/db.py:610-616 | settles one row as dead |
| Db.Store.EnqueueOutbox | src/costanza/store/db.py:146-167 | adds a pending or dead row, refused for a raw id that is not there |
| Db.Store.ClaimOutboxDue | src/costanza/store/db.py:169-175 | the due rows, first due first; one is passed over only if there is no room |
| Db.Store.OutboxDone | src/costanza/store/db.py:177-181 | settles one row as done, attempts unchanged |
| Db.Store.OutboxRetry | src/costanza/store/db.py:183-189 | one attempt more, due later, still pending |
| Db.Store.OutboxDead | src/costanza/store/db.py:191-197 | settles one row as dead |
| Db.Store.Prune | src/costanza/store/db.py:215-242 | the three statements leave what `Retention.Prune` says, and the returned counts account for every row gone |
| Engine.Correlator.Apply | src/costanza/correlate/engine.py:52-80 | true exactly for an event not stored before, whose row then says what `Correlate.AppliedTells` asks; the identity is known afterwards; store and media id end as `Correlate.Applied` says, chain advanced for duplicates too |
| Engine.Correlator.FindMedia | src/costanza/correlate/engine.py:59-64 | looks a row up once per payload, and only for a reference with an id or title |
| Engine.Correlator.ResolveUser | src/costanza/correlate/identity.py:16-31 | the event carries the active member its identity maps to, and an unmapped identity is recorded |
| Engine.Correlator.Insert | src/costanza/correlate/engine.py:68-74 | stores the row of the resolved event unless its key is there; the row says what the event says |
| Engine.Correlator.AdvanceChain | src/costanza/correlate/engine.py:84-92 | state, time, media and user of the event make the move |
| Engine.Correlator.Advance | src/costanza/correlate/engine.py:94-134 | own chain, else open chain of the media, else a new one; closed and higher-ranked chains untouched |
| Pipeline.KillSwitch.Engaged | src/costanza/notify/limits.py:23-26 | environment override, latest audit row, or the empty-audit default |
| Pipeline.KillSwitch.Set | src/costanza/notify/limits.py:33-35 | takes effect unless the environment overrides |
| Pipeline.EnqueueForEvent | src/costanza/notify/pipeline.py:37-62 | unless engaged each routed channel has a row, pending, untried and due at once if it is new, and existing rows are untouched; returns the number of new rows |
| Pipeline.WholeIff | src/costanza/notify/pipeline.py:125-131 | a pass gets through its claim if and only if the renderer of no claimed row raises |
| Pipeline.HandledIff | src/costanza/notify/pipeline.py:125-131 | a pass handles a claimed row if and only if neither its renderer nor that of a row claimed before it raises |
| Pipeline.PassSkips | src/costanza/notify/pipeline.py:125-131 | a pass over a claim leaves a live row whose renderer raises, and every row due after it, as they are |
| Pipeline.OneBadRendererBlocks | src/costanza/notify/pipeline.py:125-131 | over any passes, whenever they run, and any arrivals, such a row and every row due after it are never handled |
| Pipeline.FrontDrains | src/costanza/notify/pipeline.py:114-131 | of the rows due before the first raising one, n passes at one instant leave exactly max(0, front - n * limit) due, and the raising row as it was |
| Pipeline.EveryCallIsLogged | src/costanza/notify/pipeline.py:132-158 | a pass calls the adapter for a channel exactly as often as that channel's limiter log grows |
| Pipeline.Attempt | src/costanza/notify/pipeline.py:126-138 | without a message: missing; with as many sends of the channel in the last minute as the limit: deferred; otherwise sent or refused as the adapter says |
| Pipeline.Record | src/costanza/notify/pipeline.py:138-157 | the ledger row ends as the protocol settles that outcome |
| Pipeline.SendClaimed | src/costanza/notify/pipeline.py:125-158 | the loop settles every claimed row up to the first raising renderer; returns the number sent |
| Pipeline.SendDueOnce | src/costanza/notify/pipeline.py:101-158 | engaged: every claimed row waits a minute; otherwise, up to the first raising renderer, a row without a message is dead, one over the rate waits a minute untried, one sent is finished, one refused is dead at the budget or failed and due after the backoff, and the limiter logs exactly the sends; limit fewer rows are due, or none, unless a renderer raises |
| Pipeline.DeferAll | src/costanza/notify/pipeline.py:119-123 | every claimed row is pushed back, none burns an attempt |
| Worker.Process | src/costanza/worker.py:40-55 | the loop is one uninterrupted attempt: each event applied, then fanned out, new or not |
| Worker.Perform | src/costanza/correlate/engine.py:52-80 | each store call, made with the object in hand, is the call of the functional model |
| Worker.ProcessUntil | src/costanza/outbox.py:45-47 | an exception after any store call leaves the tables of the attempt cut off there |
| Worker.ProcessRepairs | src/costanza/worker.py:50-55 | after any cut-off attempts `Process` leaves what it would have left at first |
| Worker.ReceiveWebhook | src/costanza/ingest/routes.py:66-79 | the body is archived and one outbox row refers to it, dead if it does not parse |
| Worker.ProcessRow | src/costanza/outbox.py:38-68 | a row whose payload goes through is finished; one that raises before, between or after its store calls has an attempt more and is dead at the budget or due after the backoff; one without its raw row is dead; what was written stays |
| Worker.ProcessClaimed | src/costanza/outbox.py:38-69 | every claimed row is handled, wherever any of them raises |
| Worker.ProcessOutboxOnce | src/costanza/outbox.py:28-69 | the same for every claimed row, and no other is touched; every event of a payload that went through is stored and, with the switch off, on every routed channel; limit fewer rows are due, or none |
| DigestJob.RunDigest | src/costanza/jobs/digest.py:83-112 | without a channel or within an hour of the last digest nothing happens; engaged, only the cursor moves; otherwise the row of the period, seven days at first, is made and the cursor moves, unless the row is there |
| ReconcileJob.RepairRow | src/costanza/jobs/reconcile.py:87-105 | re-enqueues as the machine's repair does: reconcile's own rows received after the window start |
| ReconcileJob.ApplyEvent | src/costanza/jobs/reconcile.py:81-85 | stores and, if new, fans out, in the machine's steps |
| ReconcileJob.IsTwin | src/costanza/jobs/reconcile.py:375-389 | true exactly when a stored key fits the pattern of the record's download, or a deletion has one of the same media near it |
| ReconcileJob.ReconcileItem | src/costanza/jobs/reconcile.py:275-286 | repaired if stored, skipped if a twin is, else stored and counted |
| ReconcileJob.ReconcileItems | src/costanza/jobs/reconcile.py:266-286 | the loop over the answer is a burst of machine ticks and returns the machine's recovered count |
| ReconcileJob.MarkGap | src/costanza/jobs/reconcile.py:163-204 | the marker branch is machine ticks; true if and only if something was recovered and the window had no marker, which it then has |
| ReconcileJob.RunSource | src/costanza/jobs/reconcile.py:125-157 | a run of one source ends where the machine ends, with the cursor at now; afterwards every event the answer asks for is stored or was taken for a twin, and every new row but a marker is one of those that was neither before; the recovered count is the number of new rows that are no markers; a marker is made if and only if the source is Radarr, Sonarr or Tautulli, something was recovered, and the window, a day at first, has none |
| ReconcileTicks.TicksAreARun | src/costanza/jobs/reconcile.py:108-160 | so it extends any schedule of the machine by a begin and ticks |
| ReconcileJob.AnswersAreLegal | src/costanza/jobs/reconcile.py:210-263 | every answer of a configured source meets the premises of the machine's theorems |
| ReconcileJob.IngestIsLegal | src/costanza/normalize/__init__.py:17-42 | so does every event a webhook of a configured source gives: named after its source, never reconcile's, never a marker |

## Left out

- HTTP routes, authentication, scheduler, command line, API clients and paging, Discord adapter, renderers, embed text, metrics and logging: input, output and presentation.
- Configuration loading and validation: rules and active members are parameters.
- SHA-256, UUIDv7, JSON and pydantic: digests are opaque text, ids are fresh, attributes that nothing in the model reads are dropped.
- `fromisoformat` on shapes that `isoformat` does not print, and the digest renderer's fallback for keys that do not parse.
- ReconcileJob.IsTwin: the delete guard, a query for a deletion of the same media within 24 hours, is an arbitrary answer that comes with the record, and so is the same where a run is given the same answer again; what the query itself returns, and the media row looked up, created or backfilled for it, are not modelled.
- Reconcile without a kill switch: the program always passes one.
- A source whose API call raises leaves its cursor alone, which is the machine's crash; the loop over sources is not modelled.
- Top lists, per-user counts, stale chains and arrivals of the statistics module.
- The kill-switch override is read once per event, as the program does; other threads flipping it in the middle of one processed payload appear in `CrashRepair`, not in `Worker.Process`.
- Worker.Process: one completed attempt. One that raises is `Worker.ProcessUntil`, which makes the same store calls from a list up to where the exception came; what raises, and where, is an input.
- The identity sync job: another writer of unmapped identities, which the worker records as well.
- The council layer of the design documents: there is no source for it.
