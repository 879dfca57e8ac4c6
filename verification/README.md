# Subscription billing: a model of the renewal protocol and its neighbours

The service bills subscriptions for many tenants. A lifecycle runner lists the subscriptions that are due,
charges each one through a payment provider, records a payment under the key
`renewal:{subscription key}:{period end date}` and then moves the billing period. Charge, `INSERT ... ON
CONFLICT DO NOTHING` and `UPDATE` are separate writes with no transaction around them. The project models this
protocol as a step relation in which crashes, lost replies, stale snapshots, late and repeated deliveries to the
provider, several runners and concurrent API calls fall between any two writes, and proves what holds in every
reachable state. Around it stand the billing calendar, the jobs without interleaving, plans, and four smaller
parts of the service.

## How the files hang together

- `Calendar.dfy`: Go's `AddDate` over the proleptic Gregorian calendar and the two period functions.
- `RenewalKeys.dfy`: the renewal key as text, and that it identifies subscription and date.
- `Domain.dfy`, `DueLists.dfy`: rows, requests, charges, the effect of each SQL statement, the three due lists.
- `Protocol.dfy`, `ProtocolInvariant.dfy`, `Ledger.dfy`: the step relation, its inductive invariant (one lemma
  per step), and the theorems about every run.
- `Lifecycle.dfy`, `StatusHistory.dfy`, `CatchUp.dfy`: job passes that nothing interleaves, statuses over whole
  runs, and progress. `Refinement.dfy` shows that such a renewal pass is one of the protocol's runs.
- `Reopening.dfy`: terminal statuses under every interleaving.
- `Scenarios.dfy`: runs that lead to the awkward states: a charge without a row, a period moved past a failed
  payment or moved back, a canceled subscription reopened.
- `Runner.dfy`: repositories, services and the runner as classes whose methods are proved against the functions
  of `Lifecycle.dfy`.
- `Plans.dfy`, `RateLimit.dfy`, `MercadoPago.dfy`, `Webhook.dfy`, `Credentials.dfy`, `Password.dfy`: the
  remaining components.

## What the model assumes

- Times are UTC. An instant is a day number and the nanoseconds since midnight, both unbounded.
- A provider remembers idempotency keys forever. Each tenant has its own account at each provider, so the
  provider tells charges apart by tenant, provider and key.
- API callers of CreatePayment do not use keys that begin with `renewal:`.
- UUIDs are their 36-character canonical text, and the generated ones are new.
- Every stored subscription has a provider name that is not NULL: creation stores the empty string when none is
  given. So the renewal query's `provider_name IS NOT NULL` selects no fewer rows.
- The renewal ledger needs only that interval counts are not zero, which both creation paths guarantee.
- What the outside decides is a parameter: the answer of the provider, the outcome and loss of each database
  write (`Lifecycle.Weather`), clock readings, random sources, rounding, cryptography and JSON decoding.

## Where the code and its comments differ

- A renewal "succeeds" when CreatePayment returns without error, and that includes a payment recorded with
  status `failed` (`internal/payment/service.go:74-110`), as for a card that Mercado Pago rejects
  (`internal/provider/mercadopago/mapper.go:18-19`). So the period moves past an unpaid charge
  (`Scenarios.FailedPaymentAdvances`). It does exactly when the row that CreatePayment returned is a failed one,
  which is settled before the period is written and for good (`Ledger.AdvancesPastFailedIff`,
  `Lifecycle.RenewalCompletesUnpaidIff`). The other theorems speak of recorded payments.
- A payment recorded as pending stays pending: the webhook handler only acknowledges an event
  (`internal/webhook/handler.go:100-109`) and no statement updates a payment (`Scenarios.PendingRowStaysPending`).
- `UpdateStatus` writes without looking at the current status (`internal/subscription/repository.go:563-580`).
  So a stale runner can mark a canceled subscription past_due (`Scenarios.StaleMarkReopensCanceled`). Under all
  interleavings canceled and expired are left exactly by such writes (`Reopening.TerminalLeftIff`). A PATCH checks
  the transition on the row it read and so can do the same (`Scenarios.StalePatchReopensCanceled`). A reopening is
  other than the allowed one, a PATCH from expired to past_due, exactly when the writer's reading of the status is
  out of date (`Reopening.ReopenerHadReadItOpen`). The sharper theorems of `StatusHistory.dfy` are about passes that no
  API call interleaves. Those about charges, payments and periods are about all runs.
- `AdvancePeriod` writes the end after its snapshot's period, whatever is stored, so a stale runner moves the
  period back (`Scenarios.RewindHappens`), exactly when the row is two or more periods past the snapshot
  (`Ledger.AdvanceRewindsIff`). The ledger theorem holds all the same.
- A plan may carry a negative interval count (`Plans.NegativePlanCountAccepted`), and a subscription created active
  from it is due at once (`Plans.DueAtOnceIff`). Repeated renewals catch up exactly when every due subscription has
  a positive count (`CatchUp.CatchesUpIff`).
- The guide says that `at_period_end` cancels at the end of the current period (`docs/GETTING_STARTED.md:430`). The
  flag does keep the subscription from being renewed, but no job ever cancels it: it is canceled later exactly if
  another API call does so (`StatusHistory.CancelStopsRenewals`).
- The trial job is said to set `trial_ends_at` (`internal/subscription/lifecycle.go:188`); no statement writes that
  column after creation.
- The due lists call a column `interval_type` that the Go code selects as `interval`
  (`migrations/009_lifecycle_indexes.up.sql:28`, `internal/subscription/repository.go:459`). The model takes the
  columns by position, as intended.
- The two period functions have different defaults for an unknown interval
  (`Calendar.PeriodFunctionsAgree` says exactly when they agree).
- A configuration without a webhook secret is stored with the empty secret and not with NULL, so the unique index
  admits only one such row in the whole table (`Credentials.SecretlessSetAcceptedIff`). The service does not get
  that far today: the one provider it registers (`cmd/payd/main.go:110`) refuses a configuration without
  `webhook_secret` or `access_token` (`internal/provider/mercadopago/provider.go:49-63`).
- A plaintext configuration that uses the encryption marker, which that check lets through, can be read back as another
  (`Credentials.MarkedPlaintextMisleads`). `Credentials.LookupsAgreeIff` says exactly which tables answer lookups
  correctly, and `Credentials.LookupAgreesWithGet` which calls lead only to such tables.
- A token bucket that is asked more than once a millisecond drops the fraction each time and never refills
  (`RateLimit.SubMillisecondStarvation`). Its clock loses nothing exactly when all gaps are whole milliseconds
  (`RateLimit.ClockKeepsUpIff`).

## Model

| member | source | states |
|---|---|---|
| Ledger.RenewalLedger | internal/subscription/lifecycle.go:104-183 | in every reachable state a subscription's renewal payments are exactly one row for each of its first m period ends, the charged periods are those and at most the next one, and the stored period end is one of the first m + 1 |
| Ledger.OrphanChargeIsTheOneRecorded | internal/payment/service.go:74-99 | whatever happens after a charge was made, a row that its period ever gets names that same charge |
| Ledger.AdvancingRecordsOrphan | internal/subscription/lifecycle.go:143-171 | under every interleaving, a renewal of a charged period that gets as far as its advance has recorded exactly that charge |
| Ledger.RenewalRequestsAsCreated | internal/subscription/lifecycle.go:149-159 | in every reachable state each renewal request ever sent carries the tenant, provider and currency of its subscription as created, and its amount unless the provider is pay-per-use |
| Ledger.RenewalRowsAsCreated | internal/payment/service.go:79-93 | so does each renewal payment |
| Ledger.RowsCopiedFromRequests | internal/payment/service.go:79-93 | in every reachable state each payment row has the tenant, subscription, key, provider, amount and currency of some request that was sent |
| Ledger.InsertRecords | internal/payment/service.go:79-96 | an insert that finds no row records and returns the columns of its request and the id of the charge it was answered; the row is succeeded, failed or pending if and only if that charge is succeeded, failed, or pending or unknown |
| Refinement.NextPassRecordsOrphan | internal/subscription/lifecycle.go:104-183 | a charge without a row is recorded by the next pass that nothing interleaves, that lists its subscription at that period and completes that renewal; no second charge is made and the period moves on |
| Ledger.RenewalKeysInjective | internal/subscription/lifecycle.go:143 | over all subscriptions of a run and all their periods no two renewal keys are equal |
| Ledger.CreatePaymentIdempotent | internal/payment/repository.go:37-79 | over any run, API calls with any key included, a payment row never changes, every CreatePayment that returns without error returns the row of its key, and only the first of them may report it created |
| Ledger.ChargesAreBacked | internal/subscription/lifecycle.go:104-183 | every renewal charge goes back to a listing at which the row was active, unflagged and due |
| Ledger.BillingTermsFixed | internal/subscription/repository.go:197-267 | in every reachable state a row's tenant, key, provider, currency, interval, count and end of trial are those of creation, and so is its amount unless the provider is pay-per-use |
| Ledger.AdvanceRewindsIff | internal/subscription/repository.go:585-602 | an advance moves the stored period end back, to an earlier date for a positive count and a later one for a negative count, if and only if the row is two or more periods past the writer's snapshot, and leaves it where it is if and only if it is one past |
| Ledger.AdvancesPastFailedIff | internal/subscription/lifecycle.go:167-171 | under every interleaving an advance moves the period on, whatever the recorded payment's status, and the payment is a failed one in every later state if and only if it is when CreatePayment has returned it |
| Reopening.TerminalLeftIff | internal/subscription/repository.go:563-580 | in every reachable state a step takes a subscription out of canceled or expired if and only if it writes a non-terminal status to the row |
| Reopening.ReopenerHadReadItOpen | internal/subscription/service.go:186-225 | such a writer had read the row active (a renewal), trialing (the trial job) or not terminal (a PATCH), unless it is a PATCH to past_due that had read it expired; it reopens a row other than by the allowed transition from expired to past_due if and only if the status it had read is not the stored one |
| Reopening.TerminalLeftOnlyByWriters | internal/subscription/service.go:321-347 | over any run, every interleaving included, a subscription that is no longer canceled or expired was reopened in between by the allowed PATCH or else by a writer whose reading was out of date |
| Reopening.StatusWriteHadReason | internal/subscription/lifecycle.go:189-255 | under every interleaving the trial job activates only a subscription whose trial as created has ended by the clock, and the grace job expires only one it had read past_due with its grace period over |
| Ledger.ChargedIsPayable | internal/subscription/lifecycle.go:143-171 | a charged period is the first one or follows a period that has its row |
| Ledger.RowOfPeriod | internal/payment/service.go:79-99 | the row of a period belongs to its subscription and names the charge made under its key |
| ProtocolInvariant.Preserved | internal/subscription/lifecycle.go:104-183 | every step of every process keeps the protocol's invariant |
| ProtocolInvariant.RunsKeepInvariant | internal/subscription/lifecycle.go:60-97 | so does every run, and payments, charges, requests and listings only grow |
| ProtocolInvariant.StepGrows | internal/payment/repository.go:37-79 | no step changes or removes a payment row, a charge id or a creation record |
| ProtocolInvariant.AdvanceKeeps | internal/subscription/repository.go:585-602 | an advance from any snapshot, stale ones included, leaves the period end at a period whose predecessor has its row |
| ProtocolInvariant.InsertRowKeeps | internal/payment/repository.go:37-79 | an insert, whether it wins, runs into a row or loses its reply, keeps the invariant |
| ProtocolInvariant.PayKeeps | internal/subscription/lifecycle.go:143-159 | a renewal request sent from any snapshot is for a period whose predecessor has its row |
| ProtocolInvariant.ListDueKeeps | migrations/009_lifecycle_indexes.up.sql:33-43 | rows listed for renewal are backed by a listing that selected them |
| ProtocolInvariant.PeriodKeyInjective | internal/subscription/lifecycle.go:143 | no two periods of one subscription or of two share a payment key |
| Refinement.PassIsARun | internal/subscription/lifecycle.go:104-183 | every uninterleaved renewal pass, however its calls turn out, ends in the tables of a reachable state |
| Refinement.RenewOneRefines | internal/subscription/lifecycle.go:130-183 | one renewal has the effect of a run of single statements and messages |
| Scenarios.OrphanHappens | internal/payment/service.go:74-99 | for every renewable subscription some run leaves its charge at the provider without a row |
| Scenarios.RewindHappens | internal/subscription/lifecycle.go:168-171 | for every subscription two periods behind some run moves its stored period from the second back to the first |
| Scenarios.FailedPaymentAdvances | internal/subscription/lifecycle.go:145-171 | for every renewable subscription some run records a failed payment and then moves the period past it |
| Scenarios.PendingRowStaysPending | internal/webhook/handler.go:100-109 | for every renewable subscription some run records a pending payment whose charge settles later, and the row stays pending in every later state |
| Scenarios.TimePasses | internal/subscription/lifecycle.go:105 | time passes in every reachable state |
| Scenarios.StalePatchReopensCanceled | internal/subscription/service.go:186-225 | from every reachable state with an expired row a PATCH overtaken by a cancellation turns canceled into past_due, which the transition check forbids |
| Scenarios.StaleMarkReopensCanceled | internal/subscription/repository.go:563-580 | for every renewable subscription some run turns it from canceled to past_due |
| Calendar.CivilDateRoundTrip | internal/subscription/lifecycle.go:259-273 | civil dates and day numbers convert into each other without loss |
| Calendar.MonthsFromMarch | internal/subscription/lifecycle.go:265-268 | the months start where the rule of 153 days in five months from March puts them |
| Calendar.GregorianYears | internal/subscription/lifecycle.go:267-268 | the leap rule of the Gregorian calendar, and 146097 days in 400 years |
| Calendar.DayAndWeekSteps | internal/subscription/lifecycle.go:261-264 | n days are n days later and n weeks 7n days later, for every n, in creation as in renewal |
| Calendar.DayAndWeekChains | internal/subscription/lifecycle.go:168-169 | the k-th period end of a daily or weekly subscription is k times that many days after its anchor |
| Calendar.StepMovesDate | internal/subscription/lifecycle.go:259-273 | for every interval and positive count the next period end falls on a strictly later date, at the same time of day; for a negative count on an earlier one |
| Calendar.MonthStepSpan | internal/subscription/lifecycle.go:259-273 | n months span exactly the lengths of the n months from the start date's month on, 28n to 31n days |
| Calendar.YearStepSpan | internal/subscription/lifecycle.go:259-273 | n years are 12n months and span 365n to 366n days |
| Calendar.MonthStepLands | internal/subscription/lifecycle.go:259-273 | a month or year step keeps the day of the month if the target month has it, and otherwise lands on day 1, 2 or 3 of the month after |
| Calendar.DayOfMonthChangesOnce | internal/subscription/lifecycle.go:168-169 | along any chain of month or year renewals the day of the month changes at most once, to 1, 2 or 3 |
| Calendar.RenewalsAreOneJumpIff | internal/subscription/lifecycle.go:168-169 | k month or year renewals are one step of k times the count if and only if no step before the k-th overflows or the k-th aims at a month as long as the one first overflowed |
| Calendar.RenewalsAreOneJump | internal/subscription/lifecycle.go:168-169 | from day 28 or earlier k renewals are one step of k times the count |
| Calendar.PeriodsMonotone | internal/subscription/lifecycle.go:168-169 | period ends fall on strictly increasing dates for a positive count and on strictly decreasing ones for a negative count |
| Calendar.PeriodDatesInjective | internal/subscription/lifecycle.go:143 | no two period ends of a subscription with a count other than zero fall on the same date |
| Calendar.PeriodFunctionsAgree | internal/subscription/service.go:281-294 | creation and renewal use the same period function if and only if the interval is one of the four known ones or the count is 1 |
| RenewalKeys.FormatDateReads | internal/subscription/lifecycle.go:143 | the text of a date is four digits of the year, two of the month and two of the day, with dashes between |
| RenewalKeys.RenewalKeyReads | internal/subscription/lifecycle.go:143 | the key is the prefix, the subscription key, a colon and the date of the period end |
| RenewalKeys.FormatDateInjective | internal/subscription/lifecycle.go:143 | equal date texts come from equal dates |
| RenewalKeys.RenewalKeyIdentifies | internal/subscription/lifecycle.go:143 | equal renewal keys come from the same subscription key and the same date |
| RenewalKeys.PeriodKeysInjective | internal/subscription/lifecycle.go:143 | two chains of periods share a key only for one subscription key, and one chain only for one period |
| Domain.PageExists | migrations/009_lifecycle_indexes.up.sql:33-43 | on every table each due list has an answer: at most 100 distinct selected rows in order, none left out that comes earlier |
| DueLists.RenewalPage | migrations/009_lifecycle_indexes.up.sql:33-43 | the page holds active, unflagged, due rows by their period end, at most 100; one that is missing comes after all of a full page |
| DueLists.TrialPage | migrations/009_lifecycle_indexes.up.sql:57-65 | likewise the trialing rows whose trial has ended, by the end of the trial |
| DueLists.GracePage | migrations/009_lifecycle_indexes.up.sql:79-87 | likewise the past_due rows whose period ended before the grace period, by their period end |
| Domain.SupportedCurrencies | internal/validation/validators.go:105-116 | a currency is supported if and only if its capitals are one of the ten listed codes |
| Lifecycle.CreatePaymentRecords | internal/payment/service.go:79-110 | a call that created its row returned and recorded the columns of its request, the id of the charge under its key, and the charge's status, an unknown one as pending |
| Lifecycle.CreatePaymentChargesIff | internal/payment/service.go:34-74 | the provider is charged if and only if tenant, key, provider, amount, currency and configuration pass the checks |
| Lifecycle.CreatePaymentEffect | internal/payment/service.go:32-111 | CreatePayment adds at most one charge and one row under its own key, changes no other, and what it returns is the stored row, created exactly if it was not there |
| Lifecycle.RenewOneEffect | internal/subscription/lifecycle.go:130-183 | a renewal touches its own row, key and charge only, and moves the period only past a recorded one |
| Lifecycle.RenewalCompletesUnpaidIff | internal/subscription/lifecycle.go:130-183 | a renewal in which nothing goes wrong leaves a payment row and moves the period once; the payment is a failed one if and only if the row already there was, or else the provider answered a failed charge |
| Lifecycle.RowReachedAsListed | internal/subscription/lifecycle.go:118-124 | when an uninterleaved pass comes to a row, the row is stored as listed |
| Lifecycle.RenewAllEffect | internal/subscription/lifecycle.go:104-125 | a pass renews each listed row at most once and leaves all others and their ledgers alone |
| Lifecycle.PassOnlyTouchesDueRows | migrations/009_lifecycle_indexes.up.sql:33-43 | an uninterleaved pass charges, advances or marks only active, unflagged, due subscriptions |
| Lifecycle.WriteAllEffect | internal/subscription/lifecycle.go:204-218 | the trial and grace jobs rewrite the status of listed rows and nothing else |
| StatusHistory.TrialJobActivates | internal/subscription/lifecycle.go:189-219 | if its writes land and at most 100 rows wait, the trial job activates exactly the trialing subscriptions whose trial has ended by its clock reading, and none remains |
| StatusHistory.GraceJobExpires | internal/subscription/lifecycle.go:226-255 | likewise the grace job expires exactly the past_due subscriptions whose grace period is over |
| StatusHistory.StatusPassesChangeOnlyDue | internal/subscription/lifecycle.go:189-255 | whatever becomes of its writes, each of the two jobs changes only such subscriptions, and only their status |
| StatusHistory.TransitionAllowedIff | internal/subscription/service.go:321-347 | a transition is let through if and only if it keeps a terminal row terminal or leads from expired to past_due |
| StatusHistory.PatchWrites | internal/subscription/service.go:186-225 | a PATCH that passes its gates writes the fields present and nothing else; any other writes nothing |
| StatusHistory.CancelStopsRenewals | internal/subscription/repository.go:371-422 | after a cancellation, over any run without another API call on it, a subscription keeps its period; canceled at once it stays canceled, canceled at the period end it stays flagged and is never made canceled |
| StatusHistory.JobsMoveStatuses | internal/subscription/lifecycle.go:78-255 | a job moves a status only trialing to active, active to past_due or past_due to expired; the period end moves only in a renewal pass and never with the status |
| StatusHistory.JobsOnlyMoveForward | internal/subscription/lifecycle.go:78-255 | over any run of jobs a status never goes back and canceled is neither reached nor left |
| StatusHistory.TerminalLeftOnlyByReopening | internal/subscription/service.go:321-347 | over any run of jobs, cancels, patches and creations, canceled and expired are left only by a PATCH from expired to past_due |
| StatusHistory.ExpiryRespectsGrace | internal/subscription/lifecycle.go:78-97 | the three jobs in sequence expire a subscription only if its period ended graceDays before the pass began, even one that turned past_due in that pass |
| CatchUp.PassLowers | internal/subscription/lifecycle.go:104-125 | if writes succeed, a pass lowers the outstanding period ends by at least 100 or the number of due subscriptions |
| CatchUp.DueRowsAdvance | internal/subscription/lifecycle.go:104-183 | a pass over at most 100 due subscriptions in which nothing goes wrong advances exactly the due ones by one period each and leaves a payment for it |
| CatchUp.OutstandingCounts | internal/subscription/lifecycle.go:168-169 | the outstanding total counts the period ends up to the clock reading |
| CatchUp.RenewalsCatchUp | internal/subscription/lifecycle.go:104-183 | at one clock reading, if every due subscription has a positive count, as many passes as there are outstanding period ends leave nothing due |
| CatchUp.NegativeCountNeverCatchesUp | internal/plan/service.go:42-45 | a due subscription whose count is not positive stays due through every pass in which its own renewal goes well |
| CatchUp.CatchesUpIff | internal/subscription/lifecycle.go:104-183 | if writes land and renewals of rows without a positive count go well, enough passes leave nothing due if and only if every subscription due at the start has a positive count |
| Plans.PlanTermsFixed | internal/plan/repository.go:36-142 | over any run of upserts, updates and deletes no plan disappears, and amount, currency, interval, count, trial days and slug never change |
| Plans.CreatedIsInsertable | internal/subscription/service.go:42-160 | whatever was written to the plans before, a created subscription starts the protocol correctly, on a period function that renewal shares and the plan's original terms |
| Plans.SubscriptionCreatedAsPlanned | internal/subscription/service.go:42-160 | when a creation is refused, and all columns of one that is not, with a trial of as many days as the plan says |
| Plans.PlanStoredAsGiven | internal/plan/service.go:25-57 | a new plan has what its input says, ARS and a count of one where it says nothing, and is active |
| Plans.PlanInputValidIff | internal/plan/service.go:132-204 | which plan inputs pass validation |
| Plans.PlanWrites | internal/plan/repository.go:99-142 | an update writes the fields present and a deletion the active flag |
| Plans.DeletedPlanStartsNothing | internal/subscription/service.go:66-68 | a deleted plan that no update makes active again starts no subscription |
| Plans.SlugWrittenOtherwise | internal/plan/service.go:46-47 | a slug in the allowed form, written with capitals and with white space around it, is stored in small letters and without |
| Plans.DueAtOnceIff | internal/subscription/service.go:60-85 | a subscription created active from a plan is due at its creation if and only if the plan's count is not positive |
| Plans.NegativePlanCountAccepted | internal/plan/service.go:132-170 | whether a new plan is stored does not depend on its interval count, and a negative one is stored as it is |
| Plans.PlanRepository.Upsert | internal/plan/repository.go:36-54 | inserts a plan or returns the one with the slug unchanged, and says which |
| Plans.PlanService.CreateOrGet | internal/plan/service.go:25-57 | refuses an input that does not pass validation, and otherwise upserts it with its slug in normal form and the default currency and count |
| Plans.PlanRepository.Update | internal/plan/repository.go:99-142 | writes exactly the fields present |
| Plans.PlanRepository.Delete | internal/plan/repository.go:243-254 | deactivates a plan; a missing one is no error |
| Runner.SubscriptionRepository.Create | internal/subscription/repository.go:76-132 | inserts the row, or returns the one created under the same idempotency key, or changes nothing |
| Runner.SubscriptionRepository.UpdateStatus | internal/subscription/repository.go:563-582 | writes the status without a guard; success means written, heard of and present |
| Runner.SubscriptionRepository.AdvancePeriod | internal/subscription/repository.go:585-602 | writes both period columns whatever is stored |
| Runner.SubscriptionRepository.Update | internal/subscription/repository.go:197-267 | writes exactly the columns present in the patch |
| Runner.SubscriptionRepository.Cancel | internal/subscription/repository.go:371-422 | flags the row, or cancels it and clears the flag |
| Runner.SubscriptionRepository.List | internal/subscription/repository.go:455-560 | returns a page that answers the query |
| Runner.SubscriptionService.Update | internal/subscription/service.go:186-225 | a PATCH is written if and only if the row it read exists and passes the pay-per-use and transition gates, over whatever other statements wrote in between |
| Runner.PaymentRepository.Create | internal/payment/repository.go:37-79 | inserts or fetches: the returned row is the stored one, created exactly if it was not there, and a stored row is never overwritten |
| Runner.PaymentProvider.CreateCharge | internal/payment/service.go:74-77 | the first request with a key makes the charge, later ones get the same one |
| Runner.PaymentService.CreatePayment | internal/payment/service.go:32-111 | has exactly the effect and the result of the CreatePayment specification |
| Runner.LifecycleRunner.RenewSubscription | internal/subscription/lifecycle.go:130-183 | has exactly the effect of one specified renewal, and success means recorded and advanced |
| Runner.LifecycleRunner.RunRenewals | internal/subscription/lifecycle.go:104-125 | lists a page and has exactly the effect of renewing its rows in order; nothing if the listing fails |
| Runner.LifecycleRunner.RunStatusJob | internal/subscription/lifecycle.go:189-255 | lists a page and writes the status for its rows in order; nothing if the listing fails |
| Runner.LifecycleRunner.RunAllJobs | internal/subscription/lifecycle.go:78-97 | runs the three jobs in order, each on the tables the one before left, and expires only what ended graceDays before the start |
| RateLimit.LevelIsLeastSlack | internal/middleware/rate_limit.go:33-51 | the bucket's level is the least slack over all windows of its history |
| RateLimit.LevelDecides | internal/middleware/rate_limit.go:40-50 | the constant-time comparison decides as the specification over all windows |
| RateLimit.WindowBound | internal/middleware/rate_limit.go:33-51 | any window grants at most the capacity plus the rate times its length in whole milliseconds |
| RateLimit.RealWindowBound | internal/middleware/rate_limit.go:33-51 | the same for the window's length in real time |
| RateLimit.MinuteBound | internal/middleware/rate_limit.go:22-51 | in any minute at most twice the requests per minute are granted |
| RateLimit.FullAfterAMinute | internal/middleware/rate_limit.go:22-46 | after a minute without a call the bucket is full |
| RateLimit.SubMillisecondStarvation | internal/middleware/rate_limit.go:37-41 | calls less than a millisecond apart are granted at most the capacity in all, however long they go on |
| RateLimit.ClockKeepsUpIff | internal/middleware/rate_limit.go:37-41 | the bucket's clock loses nothing if and only if every gap between refills is a whole number of milliseconds |
| RateLimit.TokenBucket.Take | internal/middleware/rate_limit.go:33-51 | grants if and only if every earlier window allows one more |
| RateLimit.BurstGrants | internal/middleware/rate_limit.go:54-58 | of k calls at one clock reading as many are granted as there are whole tokens |
| RateLimit.TokenBucket.GetRemaining | internal/middleware/rate_limit.go:54-58 | returns how many further calls would be granted before another refill, none if it is negative; it is not negative if capacity and rate are not |
| RateLimit.RateLimiter.Allow | internal/middleware/rate_limit.go:76-86 | decides by one tenant's history alone and leaves all other tenants' histories as they were |
| RateLimit.RateLimiter.GetRemaining | internal/middleware/rate_limit.go:89-99 | returns how many further calls of the tenant would be granted before another refill; an unknown tenant has the full limit left |
| MercadoPago.DoWithRetry | internal/provider/mercadopago/client.go:164-215 | with n retries at most n + 1 attempts, all with the same request; retries exactly on transport errors and 429; never returns a 429; a done context or a request that cannot be rebuilt ends it; waits the doubling delays and their jitter, less than 1.5 * (2^n - 1) base delays |
| MercadoPago.WaitsBounded | internal/provider/mercadopago/client.go:173-175 | the waits before n retries take from 2^n - 1 to less than one and a half times 2^n - 1 base delays |
| MercadoPago.EveryJitterComesUp | internal/provider/mercadopago/client.go:175 | every jitter below half the delay can come up |
| MercadoPago.CentavosRoundTrip | internal/provider/mercadopago/client.go:259-267 | below 2^51 centavos the trip through floating point changes nothing, for every rounding to nearest |
| MercadoPago.RoundTripBoundIsSharp | internal/provider/mercadopago/client.go:259-267 | relative error alone does not give the round trip at 2^51 |
| Webhook.SplitOfJoin | internal/provider/mercadopago/provider.go:151 | splitting undoes joining if and only if no part contains the separator |
| Webhook.JoinOfSplit | internal/provider/mercadopago/provider.go:151 | splitting loses nothing: the pieces join back to the string |
| Webhook.EnvelopeSplits | internal/webhook/handler.go:80-90 | the envelope has three parts if and only if none of its values contains the separator, and then they are the values |
| Webhook.ParseSignature | internal/provider/mercadopago/webhook.go:49-60 | reads the last ts and the last v1 of the header |
| Webhook.ValueOfIff | internal/provider/mercadopago/webhook.go:52-53 | a part gives a value for a key if and only if it is the key, one equals sign and the value |
| Webhook.LastValueAt | internal/provider/mercadopago/webhook.go:49-60 | the value read for a key is that of the last part that has one |
| Webhook.SignedMessageBinds | internal/provider/mercadopago/webhook.go:77-78 | among texts without a semicolon the signed message determines payment id, request id and timestamp |
| Webhook.SemicolonsBlurTheMessage | internal/provider/mercadopago/webhook.go:77-78 | with semicolons two different payments and requests can share a message |
| Webhook.PaymentIdMeans | internal/provider/mercadopago/webhook.go:95-122 | the payment is the data id, or else the notification's own id in decimal, and only payment events name one |
| Webhook.SignatureReadsBack | internal/provider/mercadopago/webhook.go:49-60 | a well-formed header reads back to the values it was made from |
| Webhook.AcceptedIffSigned | internal/provider/mercadopago/provider.go:149-175 | an event is accepted if and only if the envelope is unambiguous and the signature is the keyed hash of the message; the charge of an accepted payment event is the one in the signed message |
| Webhook.ProperlySignedIsAccepted | internal/provider/mercadopago/webhook.go:47-92 | a notification signed in the documented format is accepted |
| Credentials.LookupAgreesWithGet | internal/providercredentials/repository.go:256-296 | after any run of Set, Delete and the move to a key, a lookup by secret answers a pair and a configuration if and only if Get of the pair answers it and it holds the secret, and so for one pair at most |
| Credentials.GetAfterRun | internal/providercredentials/repository.go:58-163 | after any run Get answers the configuration of the last accepted Set of the pair unless an accepted Delete of it follows, and otherwise that there is none |
| Credentials.RowIffLives | internal/providercredentials/repository.go:225-251 | the table has a row for a pair if and only if an accepted Set of it was not undone by an accepted Delete |
| Credentials.SetRefusedIff | internal/providercredentials/repository.go:58-112 | what Set refuses, and for which reason |
| Credentials.DeleteRefusedIff | internal/providercredentials/repository.go:225-251 | Delete succeeds if and only if a Set of the pair is in force, and says why otherwise |
| Credentials.LookupsAgreeIff | internal/providercredentials/repository.go:256-296 | on a table with unique secrets every lookup agrees with Get if and only if each readable row reads as a configuration with the secret of its column |
| Credentials.RunsStayConsistent | internal/providercredentials/repository.go:58-114 | after any run no two rows share a secret, and every row is readable and holds the secret of its column |
| Credentials.MarkedPlaintextMisleads | internal/providercredentials/repository.go:139-152 | without the condition on the marker a lookup can answer a configuration with another secret, even when the service's own check of the configuration is passed |
| Credentials.StoredShape | internal/providercredentials/repository.go:78-92 | with a key nothing but one ciphertext is stored, without one the configuration |
| Credentials.StoredReadsBack | internal/providercredentials/repository.go:78-92 | a stored configuration is read back if and only if it was encrypted or is free of the marker |
| Credentials.SecretlessSetAcceptedIff | migrations/008_webhook_secret_lookup.up.sql:16-18 | an otherwise valid Set without a webhook secret is accepted if and only if no other pair goes without one, and refused for that reason otherwise |
| Credentials.CredentialsRepository.Set | internal/providercredentials/repository.go:58-114 | inserts or overwrites the pair's row with its secret, or refuses for the specified reason and changes nothing |
| Credentials.CredentialsRepository.Get | internal/providercredentials/repository.go:118-163 | reads the pair's configuration, decrypting a marked one |
| Credentials.CredentialsRepository.Delete | internal/providercredentials/repository.go:225-251 | removes the pair's row or reports that there is none |
| Credentials.CredentialsRepository.GetTenantByWebhookSecret | internal/providercredentials/repository.go:256-296 | answers the owner of the row with the secret |
| Password.ShuffleKeepsContents | internal/backoffice/service.go:322-330 | any number of exchanges keeps the characters |
| Password.EveryExchangeComesUp | internal/backoffice/service.go:322-330 | for any two positions some random source makes the shuffle exchange just them |
| Password.EveryCharacterDrawn | internal/backoffice/service.go:336-343 | for every character of a class some random byte draws it |
| Password.ValidPasswordIff | internal/backoffice/service.go:243-272 | a password is valid if and only if it has 8 to 128 characters with an uppercase letter, a lowercase letter, a digit and a special character |
| Password.Shuffle | internal/backoffice/service.go:322-330 | exchanges every position with a random one, in place |
| Password.Fill | internal/backoffice/service.go:307-320 | draws twelve characters, the first four one of each class |
| Password.FilledHasClasses | internal/backoffice/service.go:309-320 | twelve characters so drawn contain all four classes |
| Password.GenerateTemporaryPassword | internal/backoffice/service.go:301-333 | for every random source the password is valid: the drawn characters in shuffled order |

## Left out

- Runner.SubscriptionRepository.List: the three list methods are one method over the query, provider names are never NULL, and which rows tie on the sort column is left open, as SQL leaves it.
- Runner.LifecycleRunner.RunAllJobs: no API call interleaves; interleavings are the subject of the protocol and its ledger.
- StatusHistory.TerminalLeftOnlyByReopening: jobs and API calls follow one another whole, a PATCH included; Reopening has the statement for all interleavings.
- RateLimit.TokenBucket.Take: exact arithmetic in place of floating point, and a clock that does not go back.
- RateLimit.RateLimiter.Allow: the lock is not modelled, so calls come one after another; first is the reading taken when a bucket is opened.
- MercadoPago.DoWithRetry: the text of the final error is not modelled.
- MercadoPago.CentavosRoundTrip: infinities and the subnormal range of binary64, where relative error has no bound, play no part for whole centavos.
- Webhook.AcceptedIffSigned: hashing and JSON decoding are functions given from outside, and the handler's refusal of missing headers is not modelled.
- Credentials.LookupAgreesWithGet: encryption is any pair of functions that undo each other; moving between two different keys is not considered.
- Password.GenerateTemporaryPassword: the slice `shuffled`, which the code fills and never reads, is left out.
- Validation of plan updates and length limits other than a plan name's and a slug's.
- Tags, metadata, customer ids, plan slugs' normal form, canceled_at, timestamps of rows: columns that no property here depends on.
- Equality of the amount at the provider and on the row: a PATCH between a crash and its retry can make them differ.
- PostgreSQL's truncation of times to microseconds, the widths of int64 and interval columns, and years beyond Go's range.
- Cursor pagination of the list endpoints, whose cursor does not round-trip as written.
- Listing all credentials of a tenant: it reads each row as Get does.
- Payment status changes after recording, refunds, error-code tables and provider capabilities other than pay-per-use and plans.
- Row-level security, connection pooling, HTTP routing, configuration, metrics, migrations as such and the user interface.
