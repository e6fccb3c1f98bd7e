# Verified model of the podcast bot's stateful core

This project models, in Dafny, the parts of the bot that keep money, hours, queues and jobs in tables, and
proves what they keep over whole runs. Every transaction of the system is one atomic method of a class whose
fields are the tables; a pure function beside it says which tables it leaves, and the theorems are about any
sequence of those steps under a clock that is passed in.

- **Billing** (`Billing`, `BillingStore`, `BillingAnswers`, `BillingTick`, `BillingRefund`, `BillingRuns`, `BillingReplay`,
  `BillingGrants`, `Arithmetic`): payments, Patreon months, Stars refunds, the hourly tick, and plans granted
  without money. Money and hours are conserved over every run, the tick has a closed form, its notices say what
  it does, refunds round by less than an hour's price or a cent's hours, replays change nothing, and grants never
  touch paid hours.
- **Outbox** (`Outbox`, `OutboxWorker`): what a payment sets off, once, with leases and growing retries.
- **Voice and AI queue** (`VoiceQueue`, `VoiceStore`, `VoiceAnswers`, `VoiceRuns`, `VoiceLaunch`, `VoiceTaps`, `VoiceCollections`,
  `VoiceUploads`): collections frozen by revision, a whole batch charged in one transaction, second taps and later
  formats, the 30-day quota at every instant, and a final request that runs after its recordings.
- **Feed repair** (`FeedRecovery`, `FeedAnswers`, `FeedRuns`, `FeedNotices`, `FeedSender`, `FeedListeners`): leases with fencing
  tokens, compare-and-swap of the feed URL, the cooldown, and pause notices in order, once, a week apart, sent to
  the end whatever else happens.
- **Broadcast** (`Broadcast`, `BroadcastRuns`, `BroadcastWhole`): a worker with a persisted cursor that may be
  paused, resumed or killed between any two of its operations.
- **Usage window and outage reporter** (`UsageWindow`, `LinkWatch`).

`dafny verify dfyconfig.toml` checks everything.

Each transaction is a method whose contract equates the tables it leaves, and its result, with a function of the
tables it found. What that function answers, writes and leaves alone is stated beside it, without its own terms, in
`BillingAnswers`, `VoiceAnswers`, `FeedAnswers`, `OutboxWorker`, `Broadcast` and `UsageWindow`; the table below names
only those with a loop or several branches. The others are, by class:

- `BillingStore.Database` (db/sqliteAdapter.py, db/plan_grants.py, db/patreon.py): `ReplaceGrant`, `WriteRow`,
  `RecordPayment`, `End`, `CreditPatreonMonth`, `ProlongUsers`, `DecreaseAllTimeLeft`, `HoldGrant`, `StartGrant`,
  `MarkGrantMissing`, `SubscribeUser`.
- `OutboxWorker.EffectTable` (db/payment_effects.py): `ClaimNext`, `FinishClaim`.
- `VoiceStore.Store` (db/voice.py, db/ai.py): `OpenFor`, `StageRecording`, `DiscardItem`, `SelectOutput`,
  `CancelBatch`, `SetMessage`, `Quoted`, `InsertRequests`, `WriteLaunch`, `ReleaseRequest`, `FailUpload`,
  `ClaimRequest`, `FinishRequest`, `RetryRequest`, `EnqueueRequest`.
- `FeedRecovery.Store` (db/feed_recovery.py): `EnqueueRepair`, `ClaimRepair`, `FinishRepair`, `NoteFetched`,
  `TakeNotice`, `CompleteNotice`.
- `Broadcast.MailJobs` (app/admin_web/mail_jobs.py): `WriteStop`, `Resume`.
- `LinkWatch.Watch` (app/core/telegram_link.py): `ChildExited`, `ProbeFailed`, `ProbeAnswered`, `Delivered`.

## What the model assumes

- One tariff row per user (the table is a map), and one payment row per user, service and invoice, as the primary
  key of `payment_history` says. Where a theorem needs them it also states: tariff ids start at 1 and plan prices
  are above 0; the period has at least two hours where "has hours left" is claimed; amounts are not negative where
  a debt is bounded by refunds.
- Times are integers and are passed in; money is integer cents. Tokens (uuid, `secrets`) are counters, so they are
  fresh. Row ids are indexes, except those of staged recordings, which are the largest present plus one, as SQLite
  gives them out for this table (db/ai.py:62).
- The queue's callers (app/service/ai/voice.py, app/jobs/ai_watcher.py) are contracts of `VoiceRuns.Allowed`: one
  worker that finishes or retries what it claimed before claiming again, downloads release recordings only, a
  charge is raised only by what the chat's hours still allow at that moment, and a new request outside a launch is
  charged only after the same question. For those two the code keeps less than the contract: the summary page
  (app/controller/builders/summaryModule.py:108-119) and the downloads (app/service/ai/voice.py:394-404) ask in one
  transaction and write in the next, so two at once may both be allowed. A launch asks and charges in one.
- `VoiceTaps.Charging` adds, for the recordings of a launch, that a charge is taken back only when a request that is
  done has paid for the recording, and that done means transcribed (app/service/ai/voice_worker.py:7-8,
  app/jobs/ai_watcher.py:44-82).
- A payment says the period it turns on; a Stars subscription charge says 24 hours more than the tick's period
  (app/service/payment/starsPaymentModule.py:577-580). The ledger books what each charge gave.
- The ledgers of one user leave out writes of that user's whole row by the page that changes a plan
  (`BillingRuns.Booked`); every other theorem about billing runs includes them.
- Broadcast recipients are numeric; a non-numeric one raises in the original, which `BroadcastRuns` has as an
  exception.

## Where the code and its description differ

- db/plan_grants.py:15-18 promises that a grant whose checks stop runs out and is held again by the next check. If
  a top-up turns the plan on in between, the grant is still open beside the paid period
  (`BillingGrants.PlanTurnsOnBesideGrant` says exactly when), and ending it takes that period
  (`BillingGrants.EndTakesPaidPeriod`, reached in `BillingGrants.CornerIsReached`).
- db/sqliteAdapter.py:2041-2044 asks that the tick and its notices have the same condition. They do except for a
  row without a user, which is charged and not announced (`BillingTick.RenewalNoticesMatch`,
  `BillingTick.OrphanIsChargedSilently`).
- A pause notice goes to a subscription, and who subscribes again gets a new one. A listener who leaves a feed and
  comes back hears of the same pause twice within a week (`FeedListeners.ListenerHearsTwice`,
  `FeedListeners.ComingBackHearsAgain`); while no listener comes back under another id, never
  (`FeedListeners.ListenersHearWeekly`).
- The caps of a collection hold when a recording is staged, but a recording that was discarded while its upload
  went on can lend its id to a new one, and its length with it (`VoiceUploads.UploadLandsInAnotherChat`);
  `VoiceCollections.StageIsSafeIff` says exactly when a recording can be staged without that. The run keeps the
  receiver's bounds (app/service/ai/voice.py:22-23, 357) and charges what was measured (394-404).
- A stop of a broadcast is read and written in two steps (app/admin_web/mail_jobs.py:271-293). One read as queued
  and written after the claim marks the job paused and stops nothing (`BroadcastWhole.StopIsHeardIff`,
  `BroadcastWhole.LostStopSendsToAll`); one read as running and written after the end hides that the job is done
  (`BroadcastWhole.LateStopHidesDone`). An exception in the loop leaves its job running with nobody at it until the
  next restart (app/admin_web/mailer.py:47-51), an event of `BroadcastRuns`.

## Model

| member | source | states |
|---|---|---|
| BillingStore.Database.ApplyPayment | db/sqliteAdapter.py:1741-1918 | One transaction per payment leaves exactly the tables `Billing.Pay` describes by cases: a known invoice changes nothing, a plan is turned on, a running plan is topped up, a grant gives way, the row is recorded and its effects queued |
| BillingAnswers.PlanTurnsOnForItsPrice | db/sqliteAdapter.py:1785-1869 | A new payment turns the invoice's plan on exactly when the money reaches the lower of today's price and the one it was sold for and no other plan but a grant runs; then it takes exactly that, for a full period |
| BillingAnswers.OwnPlanTurnsOn | db/sqliteAdapter.py:1844-1886 | Any other new payment tops up a running plan, turns the row's own plan on again at today's price when the money reaches it, or stays on the balance |
| BillingAnswers.PaymentTouchesItsOwn | db/sqliteAdapter.py:1785-1905 | A payment writes its record and its payer's row, ends the payer's grant exactly when the invoice's plan is paid for, and touches nothing else |
| BillingAnswers.PaymentIsQueuedForItsPayer | db/sqliteAdapter.py:1903-1905 | What it queues is pending, due now, for the payer, and only when it is paid |
| BillingAnswers.MonthIsCredited | db/patreon.py:36-60 | A month not credited yet adds its credit and its record, paid exactly when money came; one credited before writes nothing |
| BillingStore.Database.ApplyRefund | db/stars_refund.py:38-71 | The paid row turns refunded and the debt is paid in hours as `Billing.Refund` says |
| BillingAnswers.RefundTakesBack | db/stars_refund.py:39-69 | A charge paid and not taken back is marked and its amount leaves the balance; hours go exactly for a debt, from a bought plan that runs, and no other row changes |
| BillingStore.Database.RunTariffTick | app/jobs/tariff_tick.py:23-35 | Both notice lists are those of the state before the tick, which then renews and only after that burns an hour |
| Outbox.QueueEffects | db/payment_effects.py:55-60 | The loop over the effects inserts one pending row for each that is missing |
| BillingTick.TickTakesOneHour | db/sqliteAdapter.py:2040-2073 | Renew-then-burn takes exactly one of the hours left plus those the balance buys, and keeps what the balance is modulo the price |
| BillingTick.RowClosedForm | db/sqliteAdapter.py:2040-2073 | n ticks in closed form for one row |
| BillingTick.PlanRunsExactly | db/sqliteAdapter.py:1973-1984 | With t hours, balance b, price p and period P a live user without a grant has hours after n ticks exactly when n < t + (b div p)P, and ends with b mod p |
| BillingTick.DeletedRowIsFrozen | db/sqliteAdapter.py:1974-1983 | A user marked deleted keeps the whole row for any number of ticks |
| BillingTick.HolderIsNeverCharged | db/sqliteAdapter.py:2066-2068 | A tick takes at most an hour from a holder of a grant and no money |
| BillingTick.ChargedAreTheRenewed | db/sqliteAdapter.py:2048-2072 | A tick takes money from exactly the rows that meet its condition |
| BillingTick.RenewalNoticesMatch | db/sqliteAdapter.py:1986-2001 | The renewal list is within the rows charged, and equals them if and only if every row that meets the tick's condition has a user |
| BillingTick.EndNoticesMatch | db/sqliteAdapter.py:2003-2019 | The end list is exactly the owned, live, ungranted plan rows whose hours go from 1 to 0 on that tick |
| BillingTick.OrphanIsChargedSilently | db/sqliteAdapter.py:2062-2065 | A row without a user is charged and announced to nobody: the counterexample |
| BillingRefund.RefundIsFair | db/stars_refund.py:58-68 | Either no debt with the fewest hours or a debt with no hours; the worth period * balance + price * hours drops by the refund and a rounding loss in [0, price) or [0, period) |
| BillingRuns.MoneyIsConserved | db/sqliteAdapter.py:1820-1886 | Over every run that does not write the user's row whole, grants included: balance = credited - charged - refunded + paid in hours; debt <= refunds <= credits |
| BillingRuns.HoursAreConserved | db/sqliteAdapter.py:1973-1984 | Over every such run without a grant for the user, each payment turning on the period it says: hours = periods given - burned - taken, never negative |
| BillingRuns.HoursPerCharge | app/service/payment/starsPaymentModule.py:577-580 | The hours given are between a period and a period with the longest grace for each charge; without subscription charges, exactly period * charges |
| BillingRuns.StepKeepsMoney | db/stars_refund.py:58-69 | Every step keeps the ledger, and no charge takes a balance below zero |
| BillingRuns.GrantStepsMoveNoMoney | db/plan_grants.py:112-181 | No grant step changes anyone's balance |
| BillingReplay.PaidOnceIsSettled | db/sqliteAdapter.py:1746-1757 | Once a payment or a Patreon month was delivered, delivering it again after any run, its refund included, changes no table, whatever amount, plan, price or period it carries then |
| BillingReplay.EachKeyOnce | db/stars_refund.py:39-49 | In any run each payment is credited once and each row taken back once |
| BillingReplay.ReplaysChangeNothing | db/patreon.py:36-46 | Any repeated, interleaved run equals the run of its effective deliveries only, whose keys are distinct |
| BillingReplay.PaymentsAreQueuedOnce | db/sqliteAdapter.py:1903-1905 | After any run a paid payment has exactly one outbox row per effect, an unpaid or merely credited one none |
| BillingGrants.OneGrantPerUser | db/plan_grants.py:37 | In every run, writes of whole rows included, a user holds at most one open grant |
| BillingAnswers.EndStopsItsPlan | db/plan_grants.py:83-95 | Ending a grant closes it and stops its plan, with the one before when restored; a row that moved on to another plan stays |
| BillingAnswers.HoldKeepsThePlan | db/plan_grants.py:144-160 | A check leaves at least 168 hours and never fewer than before, gives deliveries again once a period has passed, and ends a grant whose plan left the row |
| BillingAnswers.StartGivesThePlan | db/plan_grants.py:118-139 | Exactly when a start is unknown, held, busy or started, and the grant and the row a started one leaves |
| BillingAnswers.FirstMissIsKept | db/plan_grants.py:168-181 | The first time a holder is found missing is kept and told |
| BillingGrants.PaymentClosesGrantIffPlanTurnsOn | db/sqliteAdapter.py:1787-1804 | A payment closes a running grant if and only if the invoice's plan turns on in it (or was sold for nothing); else only the balance grows |
| BillingGrants.FreeInvoiceEndsGrant | db/sqliteAdapter.py:1792-1796 | Any invoice that sold a plan for 0, to a holder without a debt, ends the grant and starts nothing: why the exception above is there |
| BillingGrants.PlanTurnsOnBesideGrant | db/sqliteAdapter.py:1857-1869 | Exactly when a payment turns a plan on and leaves a grant open: no hours on the row, no plan offered, the row's own price covered |
| BillingGrants.EndTakesPaidPeriod | db/plan_grants.py:92-94 | After any payment of that corner, whatever ends the grant leaves no hours and no refund of the price when the row is on the grant's tariff, and the paid row when it is not |
| BillingGrants.CornerIsReached | db/plan_grants.py:15-18 | A run reaches it: a new user's grant is not checked for a week of ticks, the user tops up, and ending the grant takes the whole period and the price |
| BillingGrants.SubscribeEndsGrantIff | db/sqliteAdapter.py:1958-1963 | Writing the row ends a grant if and only if the plan or the hours change |
| BillingGrants.GrantsNeverTouchPaidHours | db/plan_grants.py:20-21 | While a paid plan and the balance behind it last, no interleaving of grant steps changes the row: only the ticks do |
| BillingGrants.GrantLeavesNoTrace | db/plan_grants.py:83-139 | A grant given, checked and ticked any number of times and ended with restore leaves the tariff and balance from before, no hours and no open grant |
| OutboxWorker.EffectTable.RunDue | app/jobs/payment_effects.py:56-79 | One pass runs every due row exactly once, in id order, and leaves nothing due |
| OutboxWorker.PassDecides | db/payment_effects.py:111-121 | In a pass a due row is done when its handler does not raise, failed for good when it raises with no attempt left, else waiting again; no other row changes |
| OutboxWorker.EndingsTell | db/payment_effects.py:111-121 | Over every run of workers inside their leases, a row is done exactly when a finish without a failure made it so, and failed exactly when its last attempt did |
| OutboxWorker.LeasesAndAttemptsAreBounded | db/payment_effects.py:87-127 | In every run of workers that finish inside their lease a row has at most one holder, at most MAX_ATTEMPTS claims, and then is done or failed |
| OutboxWorker.RetryWaits | db/payment_effects.py:118-119 | Until its due time no event touches a pending row |
| OutboxWorker.FailureBacksOff | db/payment_effects.py:116-119 | Failed attempt n < MAX_ATTEMPTS makes the row due n * RETRY_SECONDS later and frees it |
| OutboxWorker.EveryEffectEnds | app/jobs/payment_effects.py:28-79 | Whatever fails, for passes at any times at most `gap` apart, an effect is done or failed for good once a pass comes at or after its deadline: its first pass when due, and for each further attempt left 5 * 600 seconds and a gap |
| OutboxWorker.FivePassesAreNotEnough | app/jobs/payment_effects.py:95-108 | Five failing passes 30 seconds apart leave an effect waiting: why the deadline counts pauses and not passes |
| VoiceStore.Store.Needed | db/voice.py:108-118 | The loop with its seen set charges a row exactly when its recording is new to the batch and not yet transcribed and paid |
| VoiceStore.Store.LaunchBatch | db/voice.py:133-182 | A stale preview changes nothing, a running batch names its run, else all of a launch in one transaction |
| VoiceAnswers.LaunchIsAcceptedIff | db/voice.py:143-160 | A launch is accepted exactly when it is of what was shown, nothing of the batch runs, all of it is ready, and the charge is within the quote and the limit |
| VoiceAnswers.LaunchFreezes | db/voice.py:161-163 | An accepted one freezes its batch, for a week from its first launch, and writes nothing else but its requests and its run |
| VoiceAnswers.RowCosts | db/voice.py:108-118 | A row costs its seconds exactly when its recording is the first of its kind in the batch and not transcribed and paid for |
| VoiceAnswers.UsedIsTheSum | db/ai.py:269-274 | The used seconds are the sum over the chat's requests since then that have not failed |
| VoiceStore.Store.SettleRequests | db/voice.py:236-259 | Stale uploads fail, then each waiting final goes on or fails with its recordings; the list of what was settled, in order |
| VoiceAnswers.RunIsSettledByItsRecordings | db/voice.py:247-256 | A waiting final waits on while a recording of its run uploads; then it fails exactly when one failed, and else may be claimed |
| VoiceAnswers.SettledAreTold | db/voice.py:257-259 | The caller is told exactly the finals that wait no longer, each once and in order, with whether it failed |
| VoiceAnswers.ArrivalAnswers | db/voice.py:210-227 | Audio lets exactly a waiting request be claimed, at the charge told, and gives exactly its recording the measured length |
| VoiceAnswers.StagingAnswers | db/voice.py:57-67 | A recording is refused exactly when it is not there and would break a cap, told when it is there, and else joins as it came |
| VoiceAnswers.DiscardTakesOne | db/voice.py:87-92 | A discard takes that row and no other and raises its batch's revision |
| VoiceAnswers.FinishAnswers | db/ai.py:330-340 | Status, charge and lease of a finished request; a failed one waits again exactly while it has attempts left |
| VoiceAnswers.AskingAnswers | db/ai.py:234-266 | What is on its way is found again and wanted now when tapped; only else is a new request queued |
| VoiceAnswers.ClaimTakesTapsFirst | db/ai.py:300-327 | The oldest request a tap asked for, or the oldest of the others when no tap waits, is leased and its attempt counted; none only when none can be claimed |
| VoiceRuns.FinalRunsLast | db/voice.py:240-256 | Whenever the one worker claims a final request, every recording of its run is done or failed, retries included |
| VoiceRuns.QuotaHoldsAlways | db/ai.py:269-274 | At every instant of every run a chat's seconds in flight and done of the last 30 days are within its limit |
| VoiceLaunch.EachRecordingIsChargedOnce | db/voice.py:108-118 | The charge is the sum over distinct recordings not already paid of the first row's seconds |
| VoiceLaunch.LaunchInsertsTheBatch | db/voice.py:161-182 | An accepted launch adds one request per recording in message order, of the kind and language ordered, and one final that makes exactly the result ordered, for nothing, within quote and limit, and changes no older request |
| VoiceTaps.SecondTapChangesNothing | db/voice.py:149-152 | In every reachable state with a run of the batch on its way, any order on it leaves the tables and is answered with that run, or as stale |
| VoiceTaps.PaidStaysPaid | app/service/ai/voice_worker.py:7-8 | Over any run, a recording a request paid for stays paid for unless that request fails |
| VoiceTaps.AnotherFormatIsFree | db/voice.py:112-115 | After any launch and any run that follows: once its recordings are done and nobody who had paid for one failed, the next launch of the batch costs 0 |
| VoiceCollections.CollectionsStayBounded | db/voice.py:48-63 | In every reachable state a chat has at most one collecting batch; it is within both caps while no recording was staged under the id of a row still uploading |
| VoiceCollections.StageIsSafeIff | db/voice.py:64-65 | After staging, no upload of up to an hour can break a cap if and only if the new row's id is not that of a row still uploading, or the collection has room for an hour in its place |
| VoiceUploads.SparedUploadsKeepCaps | db/voice.py:87-92 | Which holds over every run that discards no row of a run still uploading it |
| VoiceUploads.UploadLandsInAnotherChat | db/voice.py:221-223 | The failing run, with every caller keeping its contract, no recording over an hour and each upload charged what was measured: a discarded upload is measured into another chat's open collection, over its cap |
| VoiceCollections.RunIsVersioned | db/voice.py:87-92 | Over any run a revision never goes back, and an equal one means equal members |
| VoiceCollections.LaunchCoversThePreview | db/voice.py:145-163 | A launch accepted at a revision is of exactly the recordings previewed at it, in order |
| FeedAnswers.TroubleJoinsTheJob | db/feed_recovery.py:50-72 | Later trouble joins the feed's one job: when its next check is due, never before the cooldown, and whether one is due now |
| FeedAnswers.PauseIsAnnouncedAnewIff | db/feed_recovery.py:73-85 | A pause that begins is announced from the first listener again exactly when the feed's last notice is a week old |
| FeedAnswers.ClaimLeasesTheOldest | db/feed_recovery.py:107-126 | A claim leases the check that is due the longest, under a token never used, and none only when none is due |
| FeedAnswers.FinishRepairsIff | db/feed_recovery.py:138-177 | A finish repairs exactly in its lease, with a candidate, for a channel that is still the same; then the channel has the candidate's URL and the feed is healthy and not paused |
| FeedAnswers.UnrepairedIsCheckedTomorrow | db/feed_recovery.py:155-188 | Any other finish in its lease ends the job of a channel that is gone and else puts the next check off by a day, saying why |
| FeedAnswers.NoticeGoesToTheNext | db/feed_recovery.py:218-250 | The feed that waited the longest gives the next notice, to its first eligible listener past the cursor; with nobody left its announcement is done |
| FeedAnswers.NoticeIsRecordedIff | db/feed_recovery.py:255-269 | A notice counts as sent exactly when it is still out and its pause goes on; a flood puts it off |
| FeedRuns.ChecksAreSpaced | db/feed_recovery.py:65-72 | No claim begins within 5 minutes of the feed's last completed check, over every run |
| FeedRuns.ClaimsAreFenced | db/feed_recovery.py:149-154 | In every run from the start, after its own finish, another claim, a successful fetch or LEASE_SECONDS, a claim's finish has no effect, in any interleaving |
| FeedRuns.FinishesAtMostOnce | db/feed_recovery.py:149-154 | Each claim's finish takes effect at most once |
| FeedRuns.UrlIsComparedAndSwapped | db/feed_recovery.py:155-177 | Only an effective finish whose snapshot still matches replaces a URL; a concurrent edit is never overwritten |
| FeedAnswers.RepairReplacesTheUrl | db/feed_recovery.py:168-177 | And every such finish does: of all events but an edit, exactly an effective one with a candidate for an unchanged channel changes it, to that candidate |
| FeedRuns.NoticesAreAWeekApart | db/feed_recovery.py:73-85 | Two recorded notices to one subscription are a week apart, over every run |
| FeedListeners.ListenersHearWeekly | db/feed_recovery.py:73-85 | Two recorded notices to one listener of one feed are a week apart in every run whose subscriptions, first and later, keep one id per channel and listener |
| FeedListeners.HeardAgainIsNewer | db/feed_recovery.py:233-241 | Over every run, a listener told of a feed twice within a week was told under two subscriptions, the later one newer |
| FeedListeners.ComingBackHearsAgain | db/sqliteAdapter.py:843-850 | Whenever a listener told within the week comes back first in line past the cursor of an announcement under way, whoever else is subscribed, the next notice is a second one |
| FeedListeners.ListenerHearsTwice | db/sqliteAdapter.py:897-917 | The failing run, with another listener who stays and so keeps the channel: told, gone, back, told again 3 seconds later |
| FeedNotices.AnnouncementBegins | db/feed_recovery.py:50-85 | A pause of a new feed, or one announced anew, starts with nobody told and nobody passed over |
| FeedNotices.CursorOnlyRises | db/feed_recovery.py:255-269 | Within one announced pause, whoever subscribes, leaves or runs out of plan meanwhile: the cursor and the subscriptions recorded strictly rise, so each has at most one notice |
| FeedNotices.WhoStaysIsTold | db/feed_recovery.py:233-245 | Whoever stays subscribed with a running plan throughout has been told exactly once when the announcement is done, whatever the others do |
| FeedNotices.EachListenerOnceInOrder | db/feed_recovery.py:233-264 | While a feed's subscriptions stay, exactly the eligible listeners up to the cursor have heard, once and in subscription order; done means all of them |
| FeedSender.PauseMoves | db/feed_recovery.py:155-201 | A pause ends exactly with a successful fetch, a repair or the end of its channel, and begins only with an enqueue, or seeded with nobody to tell |
| FeedSender.HoldProtectsNotice | db/feed_recovery.py:246-249 | During its hold, while its own feed's pause goes on, a notice stays the one out whatever else happens, finishes of other feeds included |
| FeedSender.TurnsAreBounded | db/feed_recovery.py:224-245 | Whatever else happens, pauses of any feed beginning and ending and floods included: the turns that find a feed, and those still left, are never more than one per eligible listener, one per feed and what the run adds |
| FeedSender.AnnouncementsEnd | app/jobs/feed_recovery.py:86-119 | A sender that makes that many turns while nothing waits for a hold or a flood comes to a moment when every pause, of however many feeds, has been announced |
| FeedSender.AnnouncedUntilAPause | db/feed_recovery.py:225-227 | From then on nothing is left to announce until another pause begins |
| FeedSender.EveryTurnIsInTime | db/feed_recovery.py:246-269 | For a sender that meets no flood and whose own pause does not end under it, every turn is such a one, whatever the other feeds do |
| FeedSender.AllAreTold | db/feed_recovery.py:224-245 | By then exactly the eligible listeners of a feed whose subscriptions stayed and whose own pause went on have heard, each once and in order, whatever the other feeds did |
| FeedSender.WhoStaysHearsOnce | db/feed_recovery.py:224-245 | And whoever stayed with a running plan has heard exactly once, whatever the other listeners and the other feeds did |
| Broadcast.ChannelIsByText | app/admin_web/mailer.py:25-29 | The numeric test for channels agrees with the decimal text starting with -100 |
| Broadcast.MailJobs.Claim | app/admin_web/mail_jobs.py:224-242 | The oldest queued job is running, no earlier one was queued |
| Broadcast.MailJobs.RecoverInterrupted | app/admin_web/mail_jobs.py:253-266 | Running jobs are queued again, jobs asked to stop are paused |
| Broadcast.StopAndResumeAnswer | app/admin_web/mail_jobs.py:271-316 | What a stop writes by the status it saw, and exactly which stopped jobs a resume queues |
| BroadcastWhole.StopIsHeardIff | app/admin_web/mail_jobs.py:271-293 | A stop written to a running job wherever its worker is in the loop, with a recipient left: however the sends go, it pauses at the next check if and only if it was read as running, and else ends done |
| BroadcastWhole.LostStopSendsToAll | app/admin_web/mail_jobs.py:276-282 | Read as queued and written anywhere in the loop, it marks the job paused, and the run sends to every recipient but the channels and ends done |
| BroadcastWhole.LateStopHidesDone | app/admin_web/mail_jobs.py:283-288 | Read as running and written after the end, it turns a done job into one waiting to be cancelled, which a restart pauses and nobody can resume |
| Broadcast.Worker.ProcessJob | app/admin_web/mailer.py:54-117 | From the cursor to the end, or to the first check that finds a stop: the row and the attempts are exactly those of the indexes in between, and the row is sound wherever it ends |
| Broadcast.ProgressAddsUp | app/admin_web/mailer.py:87-112 | Every index is counted once, as sent, refused or skipped |
| BroadcastRuns.BroadcastsSurviveCrashes | app/admin_web/mailer.py:32-117 | Over every run with pauses, stale stops, resumes, exceptions and crashes anywhere: cursor = sent + failed + skipped, all below it handled, attempts <= crashes between a send and its save + 1, channels never, done only at the end |
| BroadcastRuns.CrashFreeIsExactlyOnce | app/admin_web/mailer.py:87-117 | Without a crash each recipient is attempted exactly once, channels never |
| BroadcastRuns.ListIsFrozen | app/admin_web/mailer.py:128-140 | The list is frozen by the first run and the cursor never goes back |
| BroadcastRuns.PausedResumesIffUnfinished | app/admin_web/mail_jobs.py:406-427 | A paused job can be resumed exactly when it never started or has recipients left |
| BroadcastWhole.LeftAloneItFinishes | app/admin_web/mailer.py:76-117 | Left alone, and whatever its status unless it is asked to stop, the step-by-step worker ends with the row of ProcessJob and one more attempt for each addressed index |
| BroadcastWhole.RestartFinishesTheOldest | app/admin_web/mailer.py:32-44 | Wherever the worker is when its process dies, after a restart the oldest job that waited or ran goes on from its cursor with the list it had, and left alone it is done, with everyone but the channels attempted |
| BroadcastWhole.RaisedJobWaitsForARestart | app/admin_web/mailer.py:47-51 | A job whose run raised stays running with nobody at it: through every run without a restart or a stop of it, its row and its attempts stay as they are |
| UsageWindow.LastDelivery | db/usage.py:148-150 | The grouped maximum is the episode's last delivery in the window |
| UsageWindow.WindowChangesAtFirstToLeave | db/usage.py:132-153 | With nothing new the distinct episodes stay the same exactly up to first_to_leave + window, and are strictly fewer after |
| UsageWindow.PruneKeepsWindows | db/usage.py:171-176 | Pruning changes no window up to KEEP_DAYS |
| UsageWindow.PruneDropsTheOld | db/usage.py:171-176 | And drops exactly what is older |
| LinkWatch.EveryOutageIsToldOnce | app/core/telegram_link.py:98-128 | Delivered lines and waiting ones are exactly the history's outages in order, each once, with its times and exits |
| LinkWatch.EveryExitIsCountedOnce | app/core/telegram_link.py:92-94 | Every exit seen while down is in exactly one line, or in the outage that lasts |

## Left out

- SQL text, migrations, indexes, connection pragmas, locks and rollback on exceptions: a transaction is one atomic step.
- Telegram, iTunes, RSS and HTTP calls: a send or a validation is a success or a failure given from outside.
- The result dictionaries of a payment beyond their mode, and the text of refund and tick messages.
- Broken invariants the primary keys exclude: two tariff rows of one user, two payments of one user, service and invoice.
- ai_episodes, summaries, transcripts' text and their expiry; cleanup and prune of requests, batches and transcripts.
- voice.ready and progress: not used by the launch, or read-only.
- statuses and seed_legacy as a transaction of its own: seeding is a step of the runs, statuses only reads.
- Attachments, the messages to the creator and the pauses between batches of a broadcast.
- The wording and rounding of an outage's line, the heartbeat ping, and the supervisor's threads.
- record_* of the usage ledger and per-user sums: inserts and aggregation without rules of their own.
- charge_notify_count and the delivery counters of a plan between renewals.
- BillingStore.Database.ApplyPayment: does not write users.flags, nor the invoice hash, the date and the charged cents of a payment: columns none of these transactions reads.
- BillingStore.Database.CreditPatreonMonth: last_replenishment, read by a date rule outside the transaction, is not moved.
- BillingStore.Database.SubscribeUser: does not model the None delivery count that a first subscription looks up in the tariffs; the caller gives the number.
- BillingStore.Database.HoldGrant: a tariff that is missing from the tariffs table would write NULL deliveries; the model writes 0.
- BillingRuns.MoneyIsConserved: leaves out the runs in which the plan page writes the user's whole row; the page computes the new balance itself.
- OutboxWorker.EffectTable.RunDue: one time for a whole pass, as when `now` is given; the watcher reads the clock at each claim.
- VoiceStore.Store.LaunchBatch: the rows of ai_episodes (title, expiry) are not written; they decide how long audio is kept, not what is charged.
- VoiceStore.Store.ReleaseRequest: the episode's seconds are not written.
- VoiceStore.Store.EnqueueRequest: the status line's message id is not kept.
- VoiceTaps.AnotherFormatIsFree: transcripts are not deleted in the runs; when a private recording expires, its text goes and a later format needs it again.
- FeedRecovery.Store.FinishRepair: the guards in bot_runtime_kv (failure counts, refetch) that go with a URL change are not modelled.
- FeedSender.AnnouncementsEnd: one sender, as the jobs role runs it; a turn made while an announcement waits for a hold or a flood is not counted on.
- Broadcast.Worker.ProcessJob: the recorded events, last_error and the messages to the creator are not in the loop; BroadcastRuns has the events.
- Broadcast.MailJobs.Resume: its read and its guarded write are one step.
- BroadcastRuns.BroadcastsSurviveCrashes: jobs of one worker process; two jobs processes at once are not modelled.
