# A verified model of the AlertBridge notification gateway

AlertBridge accepts signed events over HTTP, decides per incident whether they notify anybody, fans a queued event out to
channel deliveries and event subscriptions, and works the deliveries off with leases, retries and backoff. It also issues
OAuth grants, lets grant holders subscribe callbacks to new alerts, and answers paged queries. All its state lives in SQLite
tables behind a single connection, so each transaction is one atomic step here, and the tables are sequences and maps.

`dafny verify dfyconfig.toml` checks everything.

## How the project is laid out

Every component is described twice: by *specification functions* on table values, about which the properties are proved, and
by *imperative members* in the source's own form, whose contracts equate their result and new state with those functions.

| component | specification and properties | imperative form |
|---|---|---|
| intake and incidents | `Intake`, `Episodes`, `Projection`, `Noise` | `Store.Store.AcceptEvent` and its parts |
| delivery queue | `Queue`, `Leases` (any number of workers, crashes), `WorkerRuns`, `Progress` (one crash-free worker) | `Store.Store`, `Worker.Worker` |
| all tables together | `Database`, `Conservation`, `Refinement` | `Store.Store`, `Server.Server` |
| OAuth grants | `OAuth`, `Families`, `Credentials` | `Store.Store` |
| event subscriptions | `Routes`, `Subscriptions`, `SubscriptionRuns`, `Generations`, `Revivals`, `Challenges`, `Rotation`, `Quotas` | `Events.Events`, `Store.Store` |
| paged queries | `Keyset`, `Query` | `Query.QueryAlerts`, `Query.QueryIncidents` |
| request admission | `Windows`, `Replay`, `RateBound`, `Admission` | `Store.Store.RecordRequest`, `Server.Server.Receive` |

`Refinement` ties the layers together: every run of the whole database is, seen through the event and incident tables, a run of
the incident machine (`BookIsARun`), and, when its clock does not run backwards, of the notification machine of `Noise`
(`TrailIsARun`); seen through the delivery table it is a run of the lease machine (`QueueIsARun`). So what is proved of the
small machines holds of the large one. What subscription runs demand of the grants is a property of every run of the grant
table (`GrantTablesEvolve`). `Worker.Worker.Run`
shows that the loop's effect is a worker run, so what is proved of those runs holds of the loop.

## Conventions

- Times are integer milliseconds, the grain in which the tables store them. Clock readings are arguments.
- Record and delivery ids, tokens and grant ids come from a supply that does not repeat. Digests are injective, so a token
  stands for its digest, and a subscription id is the tuple of values it is computed from.
- Senders and callbacks are arbitrary oracles: every property quantifies over all their answers.
- The order of claims with equal (`next_attempt_at`, `created_at`) is left open.
- A run is a history: the steps taken together with the states before and after each of them.

## Where the code does less than one might expect

The model follows the code. Each of these has a concrete history that shows the effect, and a statement of when the property
does hold.

- **Removal or expiry during a challenge.** `docs/mcp.md` lines 148 and 149 say that delivery stops at the end of a subscription
  and that creating it again never revives its old jobs. The mutex of the endpoint does not cover the removal a callback's 410
  answer causes, nor the hourly clean-up, and a save looks at the time its request began. If the row disappears or ends while a
  refresh of it is being challenged, the refresh saves the old generation again and old jobs become deliverable
  (`Revivals.RemovalDuringChallengeRevives`, `Revivals.ExpiryDuringChallengeRevives`). A step revives a generation if and only
  if it is such a save (`Generations.OnlyDisturbedSavesRevive`). The subscription of a posted job was live at every instant
  since the job was queued if and only if no such save of that subscription and generation lies in between
  (`Generations.NoRevivedJobsExactly`). A save that directly follows its read is one if and only if the row it read has ended
  by then (`Generations.AtomicSavesAreDisturbedByExpiry`).
- **Ties between episodes.** `docs/api.md` line 202 lets a firing through when it is more severe than what its own incident
  has queued. The query counts rows with `created_at >= first_fired_at`, so a notification of the previous episode in the same
  millisecond counts too, and can swallow the first notification of the new episode (`Noise.TiedEpisodeMuffles`). A current
  firing inside the window is dropped if and only if a stored notification of its own episode, or one of an earlier episode
  received in the opening millisecond, is at least as severe (`Noise.CountedExactly`); it is dropped without cause in its own
  episode if and only if only a tied one is (`Noise.MuffledExactly`).
- **Fencing across a manual retry.** A manual retry resets `attempts` to 0, so numbers identify claims only between manual
  retries. Across one, a late failure report can end somebody else's claim (`Leases.FenceOpensAcrossManualRetry`). In any
  history a report takes effect if and only if the row is processing and has been claimed since its last manual retry exactly
  as often as it had been when the reporter claimed it (`Leases.FailureReportsExactly`); between manual retries this means that
  the reporter is the latest claimant (`Leases.FailureReportsAreFenced`).
- **Timestamps in the far future.** A duration saturates, and the negation of the smallest 64-bit number is that number, so a
  timestamp passes the tolerance check as long as it lies more than some 292 years ahead (`Windows.ToleranceExactly`), and its
  request is accepted again once its nonce has been collected. It takes the client's own key to sign one.
- **Two clock readings per request.** The signature check and the nonce check read the clock separately. For a timestamp that
  is not far ahead, replays are excluded if and only if the nonce retention is at least twice the tolerance plus the time
  between the two readings (`Replay.ReplayExclusionExactly`). The shipped values, 10 and 5 minutes, leave no slack
  (`Replay.ShippedConfiguration`).

Together: from a given moment on, a request with a given timestamp can pass both checks twice if and only if the timestamp is
far ahead of that moment or its nonce is collected while it is still timely (`Replay.ReplayableExactly`).

## Model

| member | source | states |
|---|---|---|
| Intake.PrunedHistoryNeverSwallows | internal/store/store.go:277-322 | for fixed incidents, an event that is queued over a history is queued over every sub-history retention could leave |
| Intake.Latest | internal/store/store.go:279-284 | the greatest producer time among counted rows of the key, none exactly when no row counts |
| Intake.Loudest | internal/store/store.go:285-292 | the greatest severity rank queued since the given time, 0 exactly when nothing was |
| Intake.Without | internal/store/store.go:437-439 | deleting events keeps exactly the rows whose ids are not deleted |
| Intake.QueuedExactly | internal/store/store.go:265-322 | an event is queued iff it is not silenced, no counted event of its key is later, a resolution finds a firing incident, and a firing within the window of the last notification is more severe than every notification since the incident began |
| Intake.ReasonsExactly | internal/store/store.go:295-322 | each suppression reason stands for exactly one failed condition, and a closing carries the opening time |
| Intake.RowExactly | internal/store/store.go:297-315 | the incident row after any event: opened, seen, notified or closed at the receipt time, whether silenced or not |
| Episodes.LastWriterWins | internal/store/store.go:265-338 | in every run without retention an incident row exists iff a firing was stored for its key, and its state is the status of the counted event that is greatest by producer time and then by arrival |
| Episodes.LastWriterIsUnique | internal/store/store.go:276-296 | at most one stored event is the last writer of a key |
| Episodes.EpisodesAlternate | internal/store/store.go:297-335 | openings and closings of a key strictly alternate, each closing carries the receipt time of the firing that opened its episode, and the row is firing iff the last mark is an opening |
| Episodes.VerdictMovesRow | internal/store/store.go:295-319 | the decision changes the row exactly when the stored record becomes the last writer, and then to that record's status |
| Projection.RunsProject | internal/store/store.go:251-318 | if a client offers an event id, however often, on one key only, the records, outcomes and row of a key in any interleaved run, with redeliveries and retention, are those of its own subsequence run alone |
| Projection.DifferentKeysCommute | internal/store/store.go:267-318 | two neighbouring events on different keys can be swapped without any key seeing a difference |
| Projection.Provenance | internal/store/store.go:336-338 | every stored record holds the client and the event of an offer of the run |
| Noise.CloseFiringsEscalate | internal/store/store.go:285-308 | two queued firings of one episode less than a window apart have strictly increasing severity, under any retention at least as long as the window |
| Noise.AtMostThreePerWindow | internal/store/store.go:285-308 | at most three firings of one episode are queued in any span shorter than the window |
| Noise.DedupedExactlyWhenHeard | internal/store/store.go:285-305 | a firing is dropped as a repeat iff it is current, its incident is firing and notified within the window, and some firing at least as severe was queued since first_fired_at |
| Noise.CountedExactly | internal/store/store.go:285-308 | in every run a current firing inside the window is dropped iff a stored notification at least as severe is of its own episode, or of an earlier one and received in the opening millisecond |
| Noise.MuffledExactly | internal/store/store.go:287 | a firing is dropped although no stored notification of its own episode is as severe iff it is current, inside the window, and a tied earlier notification is as severe |
| Noise.WitnessIsOwnOrTied | internal/store/store.go:287 | whatever the severity query counts is of the running episode or was received in its opening millisecond |
| Noise.TiedEpisodeMuffles | internal/store/store.go:287 | a history in which a firing is dropped although its own episode never notified |
| Queue.NextExists | internal/store/store.go:372-375 | the claim statement returns a row iff some delivery is due |
| Queue.Clip | internal/store/store.go:424-426 | an error text is cut to its first 500 bytes and otherwise unchanged |
| Leases.LeaseExclusion | internal/store/store.go:374-387 | with any number of workers and crashes, two claims of a delivery with no completion between them are at least one lease apart |
| Leases.AttemptsAreClaims | internal/store/store.go:387 | in every history the attempts number of a row is the number of its claims since the last manual retry |
| Leases.FailureReportsExactly | internal/store/store.go:419-428 | in every history a failure report takes effect iff the row is processing and was claimed since its last manual retry as often as when the reporter claimed it |
| Leases.FailureReportsAreFenced | internal/store/store.go:419-428 | between manual retries a failure report takes effect iff the row is processing and was not claimed again since the reporter's claim |
| Leases.FenceOpensAcrossManualRetry | internal/store/admin_store.go:548-549 | a legal history in which the report of a claimant from before a manual retry ends the claim made after it |
| Leases.AttemptBound | internal/store/store.go:387-428 | with c claims that took over an unreported claim since the last reset, a delivery has had at most MaxAttempts + c attempts |
| Leases.AttemptsCountClaims | internal/store/store.go:387-398 | between manual retries the attempts number of a row equals that of a claim iff the row has not been claimed again |
| Leases.ClaimableAgainExactly | internal/store/store.go:374-387 | in every history a delivery whose claimant never reports can be claimed again exactly from the end of its lease on |
| Leases.ReportedIsDueExactly | internal/store/store.go:414-429 | a reported failure can be claimed again exactly from the reported time on, a dead or sent delivery never |
| Leases.FreshIsDueExactly | internal/store/store.go:349 | an enqueued or manually retried delivery can be claimed exactly from that moment on |
| WorkerRuns.DelayAfter | internal/worker/worker.go:139-143 | the delay index is in range and the last delay repeats |
| WorkerRuns.HandledRow | internal/worker/worker.go:96-150 | a handled delivery gains one attempt and is sent, dead or retrying exactly as the answer and its attempts demand, all other rows being untouched |
| WorkerRuns.StaysAtRest | internal/worker/worker.go:96-150 | in every crash-free run nothing is left processing between deliveries, and no retrying row has used up its attempts |
| Progress.BoundedOvertaking | internal/worker/worker.go:96-150 | once a delivery is due, every other delivery is claimed at most once before it, whatever the sender answers |
| Progress.DueDeliveryIsReached | internal/store/store.go:372-375 | a due delivery has been claimed after as many claims as there are deliveries |
| Progress.DrainStep | internal/worker/worker.go:96-150 | without intake, each handled delivery strictly lowers the attempts all unfinished deliveries may still make |
| Progress.DrainTerminates | internal/worker/worker.go:62-94 | without intake the worker handles at most as many deliveries as attempts were left |
| Progress.DrainEndsSettled | internal/worker/worker.go:85-93 | nothing is left to claim when all are ready iff every delivery is sent or dead, and iff no attempts remain |
| Progress.DeathTakesTheWholeSchedule | internal/worker/worker.go:136-146 | a delivery that dies of retryable failures alone does so at its last attempt, no earlier than its first claim plus the whole backoff schedule |
| Progress.DefaultScheduleTotal | internal/worker/worker.go:41-46 | the default schedule takes 756 seconds |
| Database.Distinct | internal/store/store.go:460-470 | the same values, each once |
| Database.UniqueStrings | internal/store/store.go:460-470 | the loop over a growing set of seen values keeps each value at its first place |
| Conservation.DeliveriesAreConserved | internal/store/store.go:342-359 | in every run each retained queued event has a delivery for exactly its distinct targets and, with its generation row, for exactly the subscriptions matched at acceptance; other events have none |
| Conservation.NoStrayDeliveries | internal/store/store.go:111-124 | in every state each delivery belongs to a retained queued event and no two are for one event and channel |
| Conservation.UnfinishedIsNeverRemoved | internal/store/store.go:437-439 | no step of any kind removes an unfinished delivery |
| Conservation.SentIsFinal | internal/store/store.go:414-429 | a sent delivery never changes; it goes only with its event and does not come back |
| Conservation.ReacceptanceReportsTheOriginal | internal/store/store.go:251-260 | accepting a retained event again changes nothing and reports the record and channel count of the first acceptance |
| Conservation.AcceptedOnce | internal/store/store.go:324-338 | a record is stored by one step of a run only |
| Conservation.EventsStayUnique | internal/store/store.go:107 | no run stores two records with one (client, event id) |
| Conservation.FanOutPays | internal/store/mcp_events.go:75-86 | the fan-out creates exactly the owed deliveries and the generation rows of the subscriptions as they were |
| Conservation.PruneSparesUnfinished | internal/store/store.go:437-439 | retention leaves every unfinished delivery as it is |
| Conservation.PruneKeepsExactly | internal/store/store.go:437-444 | retention keeps exactly the events that are young or have an unfinished delivery, exactly their deliveries and generation rows, and everything else |
| Conservation.DuplicateExactly | internal/store/store.go:251-260 | an event is a duplicate iff its client has a retained event with its id, and then nothing changes |
| Conservation.ReplyTellsTheState | internal/store/store.go:324-363 | the reply to a new event names the stored record, its outcome and opening time, and how many channel deliveries it has |
| Conservation.NewDeliveriesAreDueAtOnce | internal/store/store.go:342-359 | every delivery an event adds is pending, without attempts, and due from the receipt of the event on |
| Refinement.BookIsARun | internal/store/store.go:245-364 | seen through events and incidents, a run of the whole database is a run of the incident machine on the same offers and retention passes |
| Refinement.QueueIsARun | internal/store/store.go:366-444 | seen through the delivery table, a run of the whole database is a run of the lease machine |
| Refinement.TrailIsARun | internal/store/store.go:245-364 | a run of the whole database whose clock does not run backwards is, in its event and incident tables, a legal run of the notification machine |
| Refinement.GrantTablesEvolve | internal/store/oauth.go:42-98 | in every run of the grant table live grants keep policy and end, and the id of a deleted one is not used again, as subscription runs demand |
| OAuth.RefreshableIsUnique | internal/store/oauth.go:87-97 | the uniqueness constraints leave no choice which grant a refresh token rotates |
| Families.UsedRowsAreTheRetiredTokens | internal/store/oauth.go:70-98 | in every run a grant's used_refresh rows are exactly the refresh tokens it has retired, and its current one is not among them |
| Families.ReuseDeletesTheGrant | internal/store/oauth.go:76-86 | presenting any retired refresh token of a live grant deletes the grant |
| Families.DeadGrantsStayDead | internal/store/oauth.go:42-98 | a grant that was issued and is gone never comes back and is issued nothing more |
| Families.DeadFamiliesAreRefused | internal/store/oauth.go:65-98 | once a grant is gone, no access or refresh token ever issued for it is accepted again, for any policy at any time |
| Families.OnlyNewestTokensWork | internal/store/oauth.go:65-90 | an accepted access token and a rotatable refresh token belong to the newest pair of a live grant |
| Families.GrantsEndOnTime | internal/store/oauth.go:59-97 | however often it is rotated, a grant ends 30 days after its code was redeemed |
| Families.TokensAreDistinct | internal/store/oauth.go:14-19 | no token is issued twice, within a family or across families |
| Families.CodesAreSpentOnce | internal/store/oauth.go:42-64 | a redeemed authorization code is refused ever after, without effect |
| Credentials.RedeemedExactly | internal/store/oauth.go:42-64 | in every run a code is redeemed iff a saved, unused authorization of it named the same challenge, redirect, resource and policy less than five minutes before; otherwise it is refused without effect |
| Credentials.AccessExactly | internal/store/oauth.go:65-69 | in every run an access token is accepted iff it is the newest of a live grant, for the policy of its redemption, within an hour of its issue and thirty days of the redemption |
| Credentials.RefreshedExactly | internal/store/oauth.go:70-98 | in every run a refresh succeeds iff it presents the newest refresh token of a live grant for its policy within thirty days; otherwise nothing changes unless the token is retired |
| Routes.TextSearchIsMembership | internal/store/mcp_events.go:78 | for comma-free names the search in the comma-wrapped text is membership in the list, for lists of any length |
| Routes.SearchFindsPieces | internal/store/mcp_events.go:78 | for any stored text the search finds exactly the comma-free names between its commas |
| Routes.SplitRestoresTheList | internal/mcpapi/events.go:69-76 | splitting the joined text gives back the list of comma-free names |
| Routes.SearchAgreesExactly | internal/store/mcp_events.go:78 | for arbitrary names the search agrees with membership on all comma-free routes iff every piece between the names' commas is itself listed |
| Subscriptions.SavedRoutesSelectExactly | internal/mcpapi/events.go:344-347 | a saved subscription selects exactly its own route, or exactly the configured ones |
| Subscriptions.DeliverableExactly | internal/mcpapi/events.go:127-144 | a job may be posted iff its generation is stored, unexpired, and owned by the configured static owner or a valid grant under the configured policy |
| Subscriptions.MatchedExactly | internal/store/mcp_events.go:76-79 | an event is queued for exactly the unexpired subscriptions that list its route, whose source, severity and status filters it meets, and whose grant, if any, is valid |
| Subscriptions.SavedExactly | internal/store/mcp_events.go:37-65 | a save is refused, without effect, iff 1000 other unexpired subscriptions exist or 100 of the same owner; otherwise it leaves the unexpired ones and its own |
| Subscriptions.DraftExactly | internal/mcpapi/events.go:275-348 | the saved row keeps the standing generation, ends after the asked time or a day, and keeps the replaced or not yet retired secret |
| Subscriptions.ChallengedExactly | internal/mcpapi/events.go:314-323 | a callback is challenged iff neither its row nor the cache has a proof of this secret from the last five minutes |
| Subscriptions.CachedExactly | internal/mcpapi/events.go:309-330 | the cache keeps the entries that are not over and gains the answered challenge while it has room |
| Subscriptions.SameRowExactly | internal/mcpapi/events.go:145-150 | two requests address one row iff owner, callback and filters are the same |
| Quotas.QuotasHold | internal/store/mcp_events.go:47-59 | in every state of every run there are at most 1000 subscriptions and at most 100 of one owner |
| Generations.NoRevivedJobsExactly | internal/mcpapi/events.go:386-414 | if a callback is posted for a job of generation g, the subscription was stored with g, unexpired and authorized, at every instant from enqueueing to posting iff no save in between restored g after its row had gone or ended |
| Generations.NoRevivedJobs | internal/store/mcp_events.go:60-86 | without such a save of this subscription and generation, every state between enqueueing and posting has it live with g until the step that ends the state |
| Generations.OnlyDisturbedSavesRevive | internal/mcpapi/events.go:289-350 | a step makes a stored generation deliverable at an instant at which it was not iff it is a save that keeps it although its row has gone or ended by the time of the save |
| Generations.AtomicSavesAreDisturbedByExpiry | internal/mcpapi/events.go:289-350 | a save of a kept generation that directly follows its read restores it after its end iff the row it read ends before the save |
| Revivals.RemovalDuringChallengeRevives | internal/mcpapi/events.go:318-350 | a legal history in which a callback answers the first of two jobs with 410 during a challenge, the removal is undone by the refresh, and the second job is posted |
| Revivals.ExpiryDuringChallengeRevives | internal/mcpapi/events.go:276-350 | a legal history in which a subscription ends while its refresh is being challenged, is restored by the save, and its old job is posted |
| Generations.StepMovesRows | internal/store/mcp_events.go:37-93 | in any step a stored row is unchanged, gone, or the authorized draft of the request that finished |
| Generations.RunIsTraceable | internal/mcpapi/events.go:298-305 | every stored generation was the random token of an earlier request, and one that a request did not keep was never stored before |
| Challenges.SavedProofsAreRecent | internal/mcpapi/events.go:306-331 | what is saved rests on a successful challenge of the same owner, URL and secret less than five minutes before the request, however many refreshes and cache hits lie between |
| Challenges.StoredProofsAreReal | internal/mcpapi/events.go:306-348 | every stored verified time is that of a successful challenge for its owner, URL and secret, and the cache never exceeds 1000 entries |
| Rotation.OldSecretsEndOnTime | internal/mcpapi/events.go:332-338 | a stored old secret differs from the current one, was replaced by a request exactly five minutes before its end, and no subscription lasts more than a day unrefreshed |
| Rotation.ReplacedSecretIsKept | internal/mcpapi/events.go:332-334 | whatever happens between the read and the save of a refresh that replaces the secret, a save that goes through keeps the old one for five minutes |
| Keyset.NeverReturnedTwice | internal/store/query.go:104-131 | following the cursor returns strictly later positions, whatever is inserted or deleted between pages |
| Keyset.PresentThroughoutIsReturnedOnce | internal/store/query.go:104-131 | a walk that ends has returned every row present throughout exactly once |
| Keyset.PagesConcatenateToTheSortedList | internal/store/query.go:104-131 | on an unchanging table the concatenated pages are the sorted rows past the start, for every page size |
| Keyset.FetchIsFaithful | internal/store/query.go:107-131 | one page is in order, holds only rows past the cursor, and all of them up to its own cursor |
| Query.QueryAlerts | internal/store/query.go:61-143 | every error case and every page, next cursor and checkpoint of the query, for both directions |
| Query.AlertsNeverRepeat | internal/store/query.go:69-131 | with arbitrary inserts and retention between pages, alerts are read in order and none twice |
| Query.AlertsPresentThroughoutAreRead | internal/store/query.go:69-131 | when next_cursor runs out, every matching alert present throughout has been read exactly once |
| Query.StaticPagesAreTheSortedList | internal/store/query.go:69-131 | on a static table the pages concatenate to the sorted filtered list for every limit from 1 to 100 and both directions |
| Query.AnswerIsFetch | internal/store/query.go:126-131 | the answer is the fetched page, and its tagged cursor restores the position of its last row |
| Query.FailsExactly | internal/store/query.go:63-103 | which queries are refused, and with which error |
| Query.PageShowsOnly | internal/store/query.go:80-106 | a page shows only stored alerts of the permitted routes that meet every given filter and lie past the cursor |
| Query.PageIsFull | internal/store/query.go:107-131 | a page holds as many alerts as asked for, 20 by default, or every such alert, and then no cursor |
| Query.CheckpointsResume | internal/store/query.go:126-141 | a cursor is the place of the page's last alert; only ascending pages carry a checkpoint, that place or the cursor asked with |
| Query.QueryIncidents | internal/store/query.go:198-238 | every error case and every page of the incident list |
| Query.IncidentsShownAreFiring | internal/store/query.go:213-236 | a page of incidents shows only firing ones of the permitted routes past the cursor, at most as many as asked for |
| Query.IncidentsFailExactly | internal/store/query.go:200-212 | which incident queries are refused, and with which error |
| Query.IncidentsNeverRepeat | internal/store/query.go:215-236 | while incidents open and close between pages, no incident is listed twice |
| Query.FiringThroughoutIsListed | internal/store/query.go:215-236 | an incident that is firing at every page is listed |
| Windows.ParsesExactly | internal/auth/hmac.go:58 | the parser gives a number exactly for the texts that write it, with sign and leading zeros, and rejects what does not fit 64 bits |
| Windows.ToleranceExactly | internal/auth/hmac.go:66-73 | the time check passes iff the reading is within the tolerance of the timestamp, or the difference saturates |
| Windows.SignedRequestIsTrusted | internal/auth/hmac.go:45-91 | a request signed with an enabled client's secret is trusted as that client while its timestamp is within the tolerance or far ahead, and stale otherwise; no request with the same signature over another timestamp, nonce or body is trusted |
| Replay.ReplayableExactly | internal/store/store.go:170-187 | some run from a given moment on lets a request with a given timestamp pass both checks twice iff the timestamp is far ahead of that moment or its nonce is collected while it is timely |
| Replay.OnlyFarAheadIsReplayable | internal/auth/hmac.go:67-73 | with retention at least twice the tolerance plus the reading gap, exactly the timestamps far ahead of the run's start can be replayed |
| Replay.AcceptedAtMostOnce | internal/store/store.go:170-187 | with that retention a (client, timestamp, nonce) not far ahead of the run's start passes both checks at most once in a run of any length |
| Replay.ReplayExclusionExactly | internal/httpapi/server.go:233-268 | no timestamp can be replayed in a run that starts when it is not far ahead iff the retention has that length |
| Replay.ShippedConfiguration | internal/config/config.go:72 | the shipped values exclude those replays iff both checks read the same millisecond |
| Replay.NoRetentionExcludesAll | internal/auth/hmac.go:58-73 | as long as any 64-bit timestamp is far ahead, some timestamp can be replayed whatever the retention |
| RateBound.BucketIsTheMinute | internal/store/store.go:221 | a bucket is a calendar minute |
| RateBound.LimitPerBucket | internal/store/store.go:220-243 | at most limit requests of a key pass per minute bucket, although old buckets are deleted at every call |
| RateBound.TwiceTheLimitPerMinute | internal/store/store.go:220-243 | at most twice the limit pass in any sixty seconds |
| RateBound.TurnedAwayOnlyWhenFull | internal/store/store.go:220-243 | a request passes iff fewer than limit passed in its minute before |
| Admission.ClientsKeepTheirLimit | internal/store/store.go:170-199 | however requests and replays of all clients are mixed, a client has at most its limit of requests admitted per minute bucket |
| Admission.TurnedAwayByOwnRequestsOnly | internal/store/store.go:185-197 | a request is admitted iff its nonce is new and fewer than its limit of the same client's requests were admitted in this minute |
| Store.Store.RecordRequest | internal/store/store.go:170-199 | a replay leaves no trace, a rate-limited request leaves its nonce, an admitted one leaves both entries |
| Store.Store.RecordRateLimit | internal/store/store.go:201-218 | counts a request against its key's current minute |
| Store.Store.RecordRateWindow | internal/store/store.go:220-243 | drops old buckets, and tells and records whether the limit is reached |
| Store.Store.UpdateIncident | internal/store/store.go:265-319 | takes the lifecycle decision and writes exactly its incident row |
| Store.MatchesAreQueued | internal/store/mcp_events.go:75-86 | after the two insert statements every matching subscription has a pending delivery of the event and its own generation recorded for it |
| Store.Store.EnqueueTargets | internal/store/store.go:342-354 | one pending delivery per target, each under a new id |
| Store.Store.AcceptEvent | internal/store/store.go:245-364 | the whole new database and the reply, for duplicates, suppressed and queued events |
| Store.Store.ClaimDelivery | internal/store/store.go:366-412 | leases a due delivery that is first in order iff one is due, and returns its generation |
| Store.Store.CompleteSuccess | internal/store/store.go:414-417 | marks a processing delivery sent, and reports whether there was one |
| Store.Store.CompleteFailure | internal/store/store.go:419-429 | marks a processing delivery with this attempts number dead or retrying, and reports whether there was one |
| Store.Store.RetryDeadDelivery | internal/store/admin_store.go:548-569 | resets a dead delivery; tells missing from other states |
| Store.Store.Prune | internal/store/store.go:437-444 | deletes old events without unfinished deliveries, with their deliveries and generation rows, and counts them |
| Store.Store.SaveEventSubscription | internal/store/mcp_events.go:37-65 | drops expired rows, enforces both quotas by rolling back, keeps the routes of an existing row |
| Subscriptions.RemovalStopsItsJobs | internal/store/mcp_events.go:66-69 | after a removal no job of the subscription, of any generation, can be posted, and all others as before |
| Subscriptions.PruningGoesUnnoticed | internal/store/mcp_events.go:89-93 | the clean-up changes neither which jobs can be posted, nor which subscriptions an event matches, nor what a refresh finds, at any later time |
| Store.Store.SaveOAuthCode | internal/store/oauth.go:24-41 | drops expired codes and grants and adds the code, or rolls back |
| Store.Store.ExchangeOAuthCode | internal/store/oauth.go:42-64 | spends a matching unexpired code for a grant, or changes nothing |
| Store.Store.OAuthAccess | internal/store/oauth.go:65-69 | finds a grant iff one accepts the token |
| Store.Store.RotateOAuthRefresh | internal/store/oauth.go:70-98 | deletes the grant of a retired token, rotates a current one, refuses any other |
| Families.GrantsAreStable | internal/store/oauth.go:59-97 | a grant keeps its policy and its end while it lives, and its id was never live before it was issued |
| Families.RevocationEndsTheFamily | internal/store/oauth.go:99-102 | in every run revoking a token ends a grant iff the grant was ever issued it for refreshing or holds it for access now, and leaves the other grants as they are |
| Store.Store.RevokeAllOAuth | internal/store/oauth.go:103-116 | leaves no code, grant or retired token |
| Worker.Worker.constructor | internal/worker/worker.go:34-58 | unusable settings are replaced by defaults, namely the lease, the delays, the attempts, the retention and the poll interval |
| Worker.Worker.ProcessOne | internal/worker/worker.go:96-151 | does nothing iff nothing is due, and otherwise handles the first due delivery by the answer of its sender |
| Worker.Worker.Run | internal/worker/worker.go:62-94 | from any table, at each clock reading the loop cleans up if it is the first or an hour after the last clean-up, and then delivers the first due delivery if there is one; its effect on the deliveries is a connected worker run, and a legal one unless it starts with a delivery left in processing |
| Events.Events.SweepCache | internal/mcpapi/events.go:309-313 | keeps exactly the proofs that are not over |
| Events.Events.ProveCallback | internal/mcpapi/events.go:314-331 | the verification time and the cache after it, or a failed challenge |
| Events.Events.DraftRow | internal/mcpapi/events.go:303-348 | the row a proved request saves |
| Events.Events.PrepareRow | internal/mcpapi/events.go:284-348 | the half of a subscribe request up to the challenge: the cache and the row to save, or none |
| Events.Events.SaveRow | internal/mcpapi/events.go:349-353 | the half after it, from whatever rows and grants it then finds |
| Events.Events.Subscribe | internal/mcpapi/events.go:255-354 | the reply, cache and rows of a subscribe request, whatever others do to the tables during the challenge, with authorization read again after it |
| Events.Events.Unsubscribe | internal/mcpapi/events.go:262-270 | removes exactly the subscription these values identify |
| Events.Events.Resolve | internal/mcpapi/events.go:386-397 | returns a row iff its generation is the job's and its owner is authorized now |
| Events.Events.Send | internal/mcpapi/events.go:407-434 | posts iff the job is deliverable at all three readings; 2xx delivers, exactly an unreachable callback, 408, 425, 429 and 500 upwards may be retried; removes the row on 410 |
| Server.Server.Receive | internal/httpapi/server.go:215-282 | a request is stored iff an enabled client signed it, it is timely, valid, for a route the client may use and that has targets, its nonce is new and the client is below its limit; each refusal stands for the first condition that fails, and before the nonce check nothing is recorded |
| Server.Server.PersistEvent | internal/httpapi/server.go:284-297 | accepts the event with the silence decision as suppress reason |

## Left out

- SQL text, the driver, pragmas, JSON, base64 and the encryption of secrets: tables are maps and sequences, cursors are values.
- Cryptography: signatures, digests and random tokens are injective or fresh values; PKCE challenges are compared as values.
- The senders, callback HTTP, DNS and address filtering: an answer is all that remains of them.
- I/O errors, context cancellation and process crashes inside a transaction, which rolls back. Crashes of workers between
  transactions are part of `Leases`.
- The admin console, OIDC login, templates, home page, the MCP and OAuth HTTP validation: no state of the machines above.
- Field validation of an event: `Server.Server.Receive` takes its outcome as a flag, and the route resolution and silences of
  the configuration as arguments. The clients are fixed while the server runs.
- Titles, messages, labels, URLs and raw payloads of events, which no decision reads.
- The rowid column of incidents in `Store.Store`: `Query.QueryIncidents` takes the rows with their rowids.
- Target names that begin with `@mcp-event:`, which would be taken for subscriptions: the two kinds of channel are kept apart.
- The moment between the last authorization check of a callback and the write to the network.
- Cursors a caller forges: ids in a cursor are numbers, as all cursors the service hands out are; the source compares any text.
- Keyword prefixes, escaping and configuration CRUD: easy members.
- `SubscriptionRuns` keeps events, deliveries and subscriptions apart from `Database`: an accepted event matters there only through the
  generations it copies, and `Database` lets subscriptions and grants change arbitrarily between events.
- Replay.AcceptedAtMostOnce: takes timestamps that are not far ahead when the run starts, because those are accepted again.
- Challenges.SavedProofsAreRecent: five minutes before the clock reading of the request, which is also the one the save uses; the
  challenge itself may take longer.
- Query.StaticPagesAreTheSortedList: takes receipt times from 1970 on, because a cursor with an earlier time is rejected.
- Worker.Worker.Run: the poll interval only spaces the clock readings the loop is given. Nothing arrives during the loop; `Progress` allows arrivals at any time. A run that starts with deliveries
  a crashed worker left in processing is covered by `Leases`, not by the crash-free results of `Progress`.
