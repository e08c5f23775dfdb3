# CalvoProxy routing core in Dafny

CalvoProxy decides which upstream model serves a request, reserves quota for it and recovers when the
model fails. This project models that routing core and proves what it promises, for all inputs, all
outcomes and all interleavings.

- **Quota ledger.** `QuotaSpec` is the ledger as a value, one function per critical section; `QuotaInvariant` and
  `QuotaRun` prove what every run keeps; `QuotaEffects` says what each operation records, reserves, gives back and
  commits, on the buckets alone, and that an unreported limit runs out exactly as it is used; `QuotaLedger` is the
  ledger with bucket objects, tickets and loops, refining the value. A ticket points at the bucket object it reserved
  on, so the bookkeeping stays exact after the bucket has expired and been recreated.
- **Planner.** `QuotaRouting`, `QuotaPlanner`, `QuotaLimits` and `QuotaAgreement`: published limits, the fit test,
  pressure, cooldowns and the wait, and when the planner's answer is the ledger's.
- **Attempts and fallback.** `QuotaDesk` is one request at the shared ledger, with every step other callers may
  take in between given by an arbitrary script. `ChainSpec` judges a chain by the record of what ran and reads off it
  what was ruled out. `Fallback` is the attempt lifecycle with all its exits and the executor loop, tied to the
  replies: who is blamed for them and where the chain may go after them.
- **Circuit breakers.** `Scoring`, `Breaker` and `BreakerRace`: reliability scores, circuits over whole
  histories, and the double-checked probe claim under every interleaving of callers. `Fallback` proves what
  each attempt asks of and reports to both circuits; `BreakerRace.FinishedAttemptsNeverBlock` takes such attempts as
  its callers.
- **Scheduling.** `Ranking` is the round robin over providers, `Scheduling` ranks and reserves the primary on the
  shared ledger, `Balance` is provider balance, `Admission` the admission gate and the hold loop.
- **Exact small pieces.** `TraceText`, `TraceHeader`, `TraceReader` and `TraceValues` for the route-trace header, its
  reader and the numbers and names that come back; `Affinity` for the session memory.

Conventions: instants and durations are integers in nanoseconds and 0 is the unset instant; quota amounts are
64-bit and wrap as in Go; scores, pressure and shares are reals; upstream replies, clocks, callbacks of vendored
libraries and other callers are inputs.

Claims that look natural but are false of the code, and what holds instead:

- "The fit test is the ledger's answer" fails for a minute bucket without a reset (`QuotaRouting.DisagreementExists`);
  `QuotaAgreement.AnswersDifferIff` gives the exact condition over every run. Reports and published limits always carry
  a reset, and so does a score file saved from such a ledger; `QuotaAgreement.FitMeansGranted` assumes that a restored
  file does too, which a file written by other means need not.
- "No ticket outlives the executor" fails when no attempt executor is configured, because the cleanup is installed
  after that check; `Fallback.Chain.Execute` states it as an if-and-only-if.
- "Every settlement is accepted" fails when input and output together overflow 64 bits (`Fallback.OverflowIsRefused`);
  `QuotaDesk.SettlementAcceptedIff` and `Fallback.PayableUnlessOverflow` give the condition. The executor's cleanup
  still releases such a ticket.
- "A circuit is open exactly at the threshold" needs a positive threshold (`Breaker.OpensExactlyAtThreshold`);
  the service raises smaller ones.
- "A settlement or release that is refused changes nothing" is true of holds only; it may purge expired buckets
  (`QuotaRun.RefusedReleaseMayPurge`), and `QuotaRun.RefusedCleanupChangesNothingIff` says exactly when.

`dafny verify dfyconfig.toml` checks the whole project.

## Model

| member | source | states |
|---|---|---|
| `QuotaRun.ReservedIsExact` | internal/router/router_quota.go:149-166 | In every state any run reaches, each bucket object, live or dropped by expiry, has `reserved` equal to the sum of the holds that outstanding tickets own on that very object. |
| `QuotaRun.TicketConsumedOnce` | internal/router/router_quota.go:409-416 | Over any run a ticket is released or reconciled at most once. |
| `QuotaRun.RefusedCleanupChangesNoHold` | internal/router/router_quota.go:324-372 | A duplicate, unknown or malformed release or settlement changes no bucket and no ticket; it can only purge expired buckets. |
| `QuotaRun.RefusedCleanupChangesNothingIff` | internal/router/router_quota.go:324-372 | A refused release or settlement leaves the whole ledger as it was exactly if it is malformed or no live bucket has expired; otherwise it purges and does nothing else. |
| `QuotaRun.RefusedReleaseMayPurge` | internal/router/router_quota.go:328-334 | A run in which releasing a ticket never issued drops an expired bucket. |
| `QuotaRun.RefusalReservesNothing` | internal/router/router_quota.go:270-302 | A refused reservation leaves every bucket and ticket as it was. |
| `QuotaRun.GrantReservesAll` | internal/router/router_quota.go:270-314 | A granted reservation charges every requested key with exactly its total, under one new ticket, without overflowing 64 bits, and a bucket ends over budget exactly when the bootstrap exception was used on it. |
| `QuotaRun.OneProbePerBucket` | internal/router/router_quota.go:281-302 | Over any run a bucket object has at most one over-budget hold outstanding, and once such a hold has been reconciled it never gets another. |
| `QuotaRun.StepTickets` | internal/router/router_quota.go:426-436 | A step adds at most the next ticket id, removes only the ticket it consumes, and leaves every other ticket's holds alone. |
| `QuotaInvariant.HoldWithinReserved` | internal/router/router_quota.go:418-424 | A ticket's hold never exceeds what its bucket has reserved, so the clamp on giving back never bites. |
| `QuotaInvariant.PurgeKeeps` | internal/router/router_quota.go:438-444 | Purging expired buckets keeps the exact bookkeeping on every bucket object. |
| `QuotaInvariant.ObserveKeeps` | internal/router/router_quota.go:201-229 | Observing a bucket keeps the exact bookkeeping on every bucket object. |
| `QuotaInvariant.SnapshotKeeps` | internal/router/router_quota.go:233-263 | Taking a snapshot keeps the exact bookkeeping on every bucket object. |
| `QuotaInvariant.ReserveKeeps` | internal/router/router_quota.go:270-314 | Reserving keeps the exact bookkeeping on every bucket object. |
| `QuotaInvariant.ReleaseKeeps` | internal/router/router_quota.go:324-337 | Releasing a ticket keeps the exact bookkeeping on every bucket object. |
| `QuotaInvariant.ReconcileKeeps` | internal/router/router_quota.go:343-405 | Reconciling a ticket keeps the exact bookkeeping on every bucket object. |
| `QuotaInvariant.SettleKeysKeeps` | internal/router/router_quota.go:374-405 | The settlement loop keeps the bookkeeping exact after each key, in whatever order the keys are visited. |
| `QuotaObjects.AggregateReservations` | internal/router/router_quota.go:446-461 | Accepts a list exactly when every key is valid, no cost is negative and no key's total exceeds 64 bits, and then returns the exact totals. |
| `QuotaObjects.TabulateSettlements` | internal/router/router_quota.go:347-360 | Accepts a settlement list exactly when each entry is well formed and no key is repeated, and indexes it by key. |
| `QuotaObjects.QuotaLedger.constructor` | internal/router/router_quota.go:178-183 | A new ledger is the empty one. |
| `QuotaObjects.QuotaLedger.PurgeExpired` | internal/router/router_quota.go:438-444 | The loop over the bucket table drops exactly the expired buckets and touches no bucket object. |
| `QuotaObjects.QuotaLedger.Observe` | internal/router/router_quota.go:201-229 | The object ledger after an observation is the specified ledger; the answer says whether the observation was usable. |
| `QuotaObjects.QuotaLedger.Snapshot` | internal/router/router_quota.go:233-263 | Returns the specified view, dropping a minute bucket without a reset once its minute is over. |
| `QuotaObjects.QuotaLedger.AllAdmit` | internal/router/router_quota.go:281-302 | True exactly when every requested key is in budget or on its one probe. |
| `QuotaObjects.QuotaLedger.ReserveAll` | internal/router/router_quota.go:270-314 | All or nothing: either the specified ledger with every hold taken and a new ticket, or only the purge. |
| `QuotaObjects.QuotaLedger.ReleaseHolds` | internal/router/router_quota.go:418-424 | Giving the holds back object by object equals freeing them all at once. |
| `QuotaObjects.QuotaLedger.Release` | internal/router/router_quota.go:324-337 | Consumes an outstanding ticket of this ledger and frees its holds; any other handle is refused. |
| `QuotaObjects.QuotaLedger.SettleHolds` | internal/router/router_quota.go:374-405 | The loop over the ticket's holds in map order computes the specified settlement, whose effect on each key is `QuotaEffects.SettleKeysEffect`. |
| `QuotaObjects.QuotaLedger.Reconcile` | internal/router/router_quota.go:343-405 | Settles exactly the well-formed settlements on held keys of an outstanding ticket, as specified and with the effects below; anything else is refused without effect on holds. |
| `QuotaObjects.QuotaLedger.Reservations` | internal/router/router_quota.go:131-147 | Lists the holds of an outstanding ticket, each key once with its cost. |
| `QuotaEffects.ObserveEffect` | internal/router/router_quota.go:201-229 | An observation is taken exactly if it is well formed and its reset is still to come; then the live bucket holds it, clamped to its limit, with reservations and probe as they were or a new object without any; one whose reset has come removes the bucket. |
| `QuotaEffects.ObserveElsewhere` | internal/router/router_quota.go:201-229 | No other key, object or ticket is touched by an observation, but for expiry. |
| `QuotaEffects.SnapshotEffect` | internal/router/router_quota.go:233-263 | A look shows a bucket exactly if it is live, unexpired and no undated minute bucket of an earlier minute; available is remaining less reserved, at least zero; what is not shown is dropped and nothing else changes. |
| `QuotaEffects.TotalAdds` | internal/router/router_quota.go:446-461 | What a request asks of a key adds up over its parts. |
| `QuotaEffects.ReserveGrants` | internal/router/router_quota.go:270-302 | Granted exactly if the request is in order and each bucket asked of covers its total or is an unconfirmed, unreserved, unsettled estimate. |
| `QuotaEffects.ReserveHolds` | internal/router/router_quota.go:303-314 | The new ticket holds exactly the keys asked for, each with its total and on the object that was live; no other ticket changes. |
| `QuotaEffects.ReserveCharges` | internal/router/router_quota.go:303-309 | On the buckets exactly those totals are added; no observation, no probe and no other bucket changes. |
| `QuotaEffects.ReleaseEffect` | internal/router/router_quota.go:324-337 | Taken exactly if the ticket is outstanding; each hold is given back on its own object, and no observation and no probe changes. |
| `QuotaEffects.SettleKeysEffect` | internal/router/router_quota.go:374-405 | In any order of the loop, each key it visits is settled on its own objects and every other key is left alone. |
| `QuotaEffects.ReconcileAccepts` | internal/router/router_quota.go:343-372 | Taken exactly if the ticket is outstanding, every entry is in order and on a held key, and no key is named twice. |
| `QuotaEffects.ReconcileCommits` | internal/router/router_quota.go:374-405 | The hold is given back and the probe spent on the held object, live or not; without a report its remaining drops by the usage named, or else by the held cost, down to zero, and nothing else of its observation changes. |
| `QuotaEffects.ReconcileReports` | internal/router/router_quota.go:383-397 | With a report the live bucket holds it, clamped, on the object that was live or a new one; a report whose reset has come removes the bucket; a held object no longer live keeps its observation. |
| `QuotaEffects.ReconcileElsewhere` | internal/router/router_quota.go:374-405 | Keys the ticket does not hold are left alone, but for expiry. |
| `QuotaEffects.UsageAddsUp` | internal/router/router_quota.go:400-404 | Over any stretch of any run without a report on its key, a bucket object's remaining drops by exactly the usage settled on it, down to zero. |
| `QuotaRouting.PlannerAndLedgerDisagreeIff` | internal/router/router_quota_routing.go:271-298 | The planner promises what the ledger then refuses exactly when some requested bucket is blocked and every blocked one is a minute bucket without a reset whose minute is over; the ledger never grants what the planner denies. |
| `QuotaRouting.DisagreementExists` | internal/router/router_quota_routing.go:271-298 | After one observation of an exhausted minute bucket without a reset, a minute later the two answers differ. |
| `QuotaRouting.PlannerAgreesWithLedger` | internal/router/router_quota_routing.go:218-298 | When minute buckets carry a reset the planner's answer is the ledger's answer, bootstrap exception included. |
| `QuotaRouting.AnswerAfterLooking` | internal/router/router_quota_routing.go:271-298 | Once the planner has looked at every bucket, its answer is the ledger's answer in any case. |
| `QuotaRouting.GrantIff` | internal/router/router_quota.go:270-302 | On distinct keys with positive costs the ledger grants exactly when no requested bucket is blocked. |
| `QuotaAgreement.FitMeansGranted` | internal/router/router_quota_routing.go:487-528 | Over every run in which whatever is observed or reported about a minute bucket carries a reset, in every reachable state and at any time, the fit test and the reservation give the same answer. |
| `QuotaAgreement.AnswersDifferIff` | internal/router/router_quota_routing.go:271-298 | Over every run at all: in a reachable state the two answers differ exactly if something is blocked and all that is blocked are minute buckets without a reset whose minute is over. |
| `QuotaAgreement.SavedRestoresDated` | internal/router/router_scoring_store.go:145-160 | Quota saved from a ledger whose minute buckets all have resets restores with them. |
| `QuotaAgreement.SavedComesBack` | internal/router/router_scoring_store.go:145-196 | A bucket saved and restored before its reset, for a supported provider, shows the same observation again. |
| `QuotaAgreement.StepDated` | internal/router/router_quota_routing.go:490-502 | Every ledger step keeps minute buckets dated, through installation, settlement and expiry. |
| `QuotaAgreement.ReportedIsDated` | internal/router/router_quota_routing.go:496-498 | What a reply reports about a minute bucket always carries a reset. |
| `QuotaAgreement.DefaultsAreDated` | internal/router/router_quota_routing.go:176-215 | The bootstrap limits for minutes carry a reset in the future. |
| `QuotaPlanner.WaitIsSound` | internal/router/router_quota_routing.go:553-573 | After the computed wait, and only looking, listing and installing defaults in between, the cooldown is over, the fit test holds and the ledger grants the reservation. |
| `QuotaPlanner.RetryAfterIsSound` | internal/router/router_quota_routing.go:553-573 | The returned wait is attained by some attempt, and each that attains it with known resets is cooled down, fits and is granted after exactly that wait. |
| `QuotaLimits.ReadyMeans` | internal/router/router_quota_routing.go:555-567 | An attempt's wait is zero, or the end of its cooldown, or the reset of a bucket that is short, and comes before none of these. |
| `QuotaLimits.WaitIsTight` | internal/router/router_quota_routing.go:555-567 | Before the wait is over the attempt is still cooling down or one of its buckets is still short, if nothing else happens. |
| `QuotaLimits.RetryAfterIsTight` | internal/router/router_quota_routing.go:553-573 | Before the returned wait is over no attempt that has to wait is ready. |
| `QuotaLimits.BootstrapEffect` | internal/router/router_quota_routing.go:176-215 | Each of the published limits is in force afterwards where nothing was known, and every other bucket shows what it showed. |
| `QuotaLimits.DefaultsConstrain` | internal/router/router_quota_routing.go:191-214 | Every published limit of a route is on a bucket of its own that constrains the route. |
| `QuotaLimits.DefaultsCover` | internal/router/router_quota_routing.go:191-214 | There is one for each dimension and window the provider publishes, and no other. |
| `QuotaLimits.DaysAndMinutes` | internal/router/router_quota_routing.go:166-171 | The next reset is the first full minute, or the first full UTC day, after now. |
| `QuotaLimits.PublishedLimitsCount` | internal/router/router_quota_routing.go:218-245 | Whatever the ledger knew before, an attempt's list contains every bucket its provider publishes a positive limit for, unless it costs nothing there. |
| `QuotaLimits.BucketsAreApart` | internal/router/router_quota_routing.go:221-235 | Two attempts share a bucket only with the same provider and credential, and the same model unless both use the free pool. |
| `QuotaRouting.FreeIff` | internal/router/router_quota_routing.go:223-223 | A model is free exactly if its name ends in `:free`, in any case of letters. |
| `QuotaLimits.CooldownsAreApart` | internal/router/router_quota_routing.go:300-302 | Cooldowns are kept apart by provider and model. |
| `QuotaLimits.ShareMeans` | internal/router/router_quota_routing.go:252-266 | A bucket's share is everything if it does not cover the cost, else the part of the limit in use once the cost is taken. |
| `QuotaLimits.TightestIsLargest` | internal/router/router_quota_routing.go:252-268 | The pressure is the largest share of a listed bucket, zero if there is none. |
| `QuotaPlanner.Planner.SetCooldown` | internal/router/router_quota_routing.go:311-325 | A cooldown is only ever extended, by two seconds when no duration is given; other routes keep theirs. |
| `QuotaPlanner.Planner.EnsureBootstrap` | internal/router/router_quota_routing.go:176-215 | Installs each published limit exactly where nothing is known. |
| `QuotaPlanner.Planner.QuotaReservations` | internal/router/router_quota_routing.go:218-245 | Lists one reservation, with the estimated cost, for each live bucket that constrains the attempt, and no other. |
| `QuotaPlanner.ListBuckets` | internal/router/router_quota_routing.go:226-245 | The listing loop finds every constraining bucket with a positive cost once. |
| `QuotaPlanner.Planner.QuotaCanFit` | internal/router/router_quota_routing.go:271-298 | True exactly when every listed bucket covers its cost or is an unprobed estimate. |
| `QuotaPlanner.Planner.QuotaPressure` | internal/router/router_quota_routing.go:247-269 | The share of the tightest listed bucket that would be in use, always in [0, 1]. |
| `QuotaPlanner.Planner.AttemptReadyIn` | internal/router/router_quota_routing.go:555-567 | The longest of the cooldown and the known resets of the short buckets. |
| `QuotaPlanner.Planner.RetryAfter` | internal/router/router_quota_routing.go:553-573 | The least positive wait among the attempts, zero when none waits for anything known. |
| `QuotaDesk.SettlementAcceptedIff` | internal/router/router_quota_routing.go:505-526 | A settlement built from a ticket's holds is accepted exactly when no usage to commit is negative. |
| `QuotaDesk.SettlingCosts` | internal/router/router_quota_routing.go:505-528 | A settled request gives its hold back and, where the reply reports nothing, costs the held object one request, or the tokens the reply counts, or the estimate if it counts none. |
| `QuotaDesk.SettlingReports` | internal/router/router_quota_routing.go:488-528 | The last report of the reply on a held key is what the key's live bucket holds from then on. |
| `QuotaDesk.ReportsAre` | internal/router/router_quota_routing.go:488-501 | A key counts as reported exactly if the reply reports on it, and then with its last report. |
| `QuotaDesk.ReportedMeans` | internal/router/router_quota_routing.go:490-502 | A report counts as confirmed and observed now; a minute bucket without a reset ends with the first full minute after now. |
| `QuotaDesk.Desk.Now` | internal/router/router_quota.go:149-166 | Whatever other callers do to the shared ledger meanwhile, this request's tickets stay outstanding or consumed with the same holds. |
| `QuotaDesk.Desk.Reserve` | internal/router/router_quota_routing.go:477-482 | Refused while the model cools down, otherwise the ledger's all-or-nothing answer on the listed buckets; a granted ticket is new and holds exactly the estimate. |
| `QuotaDesk.Desk.Take` | internal/router/router_quota_routing.go:440-453 | With other callers at work between listing and claiming, the ledger grants all the listed buckets or nothing; a granted ticket is new, outstanding and holds exactly the estimate. |
| `QuotaDesk.Desk.Fits` | internal/router/router_quota_routing.go:271-298 | With other callers at work between the looks, the answer is yes exactly if each listed bucket fitted when it was looked at, and it stops at the first that did not; undisturbed, it is the fit test on one store. |
| `QuotaDesk.Desk.InstallDefaults` | internal/router/router_quota_routing.go:176-215 | Each published limit is a look and an observation of its own, with others at work in between; undisturbed, the ledger is the planned one. |
| `QuotaDesk.Desk.List` | internal/router/router_quota_routing.go:218-245 | Lists exactly the constraining buckets of the ledger as it is at that moment, and touches no ticket. |
| `QuotaDesk.Desk.ObserveFacts` | internal/router/router_quota_routing.go:488-501 | Records each reported bucket in its own section; undisturbed, the ledger is the fold of the reports. |
| `QuotaDesk.Desk.Settle` | internal/router/router_quota_routing.go:487-528 | Reconciles the ticket with the usage and reports of the reply, exactly when it is outstanding and nothing to commit is negative; no other ticket of the request is touched. |
| `QuotaDesk.Desk.Release` | internal/router/router_quota.go:324-337 | The ticket is gone afterwards and every other ticket of the request is as before. |
| `Fallback.PricedIsPayable` | internal/router/router_upstream.go:30-51 | A ticket reserved inside an attempt is always payable from that attempt's own estimate. |
| `Fallback.PayableUnlessOverflow` | internal/router/router_upstream.go:31-37 | A settlement is payable unless it commits tokens nobody reported, the planned estimate is unusable, and input and output together exceed 64 bits. |
| `Fallback.NegativeIffOverflows` | internal/router/router_quota_routing.go:85-123 | The estimated token count is negative exactly when input and output overflow. |
| `Fallback.OverflowIsRefused` | internal/router/router_quota_routing.go:505-526 | A first request admitted on a published token limit near 64 bits, and a body one token longer, whose settlement the ledger turns down. |
| `Fallback.Chain.Execute` | internal/router/router_fallback.go:100-241 | For every outcome of every attempt and every interference by other callers: no ticket of the request is outstanding afterwards if and only if an attempt executor is configured or none was to begin with; the record of attempts is orderly, each entry says what its reply says, and the verdict fits it. |
| `Fallback.Chain.RunAll` | internal/router/router_fallback.go:124-232 | The loop's variables are at every point what the record of executed attempts teaches, and its verdict is the one the record calls for. |
| `Fallback.Chain.RunOne` | internal/router/router_fallback.go:124-178 | Running one candidate extends the record by one right attempt. |
| `Fallback.Chain.Conclude` | internal/router/router_fallback.go:179-222 | The exclusions after a failure, which `ChainSpec.LearnedMeans` reads off the record, and whether the chain goes on. |
| `Fallback.Chain.ReleaseAll` | internal/router/router_fallback.go:117-123 | After the deferred cleanup no ticket of the request is outstanding. |
| `Fallback.Chain.NextExecutable` | internal/router/router_fallback.go:247-262 | The first later candidate that nothing has ruled out, or none. |
| `Fallback.Chain.ReserveNext` | internal/router/router_fallback.go:264-288 | The first later candidate that can run once those whose reservation failed are ruled out; it has a ticket, and nothing else changes. |
| `Fallback.Chain.ReserveFor` | internal/router/router_fallback.go:405-417 | A ticket for a configured candidate; without one the request's tickets are as before. |
| `ChainSpec.InOrderAndOnce` | internal/router/router_fallback.go:124-178 | Attempts run in order, each at most once, none after a success, and one flagged last is the last. |
| `ChainSpec.VerdictMeans` | internal/router/router_fallback.go:226-240 | Exhausted means every candidate ran or was ruled out by an earlier failure; terminal means one could still have run. |
| `ChainSpec.PassedOver` | internal/router/router_fallback.go:126-134 | Every candidate the chain has passed over had been ruled out at the moment it was passed over. |
| `ChainSpec.HandoverIsNext` | internal/router/router_fallback.go:264-288 | The attempt after an abandoned one is the candidate whose quota was reserved. |
| `ChainSpec.HandoverIsTaken` | internal/router/router_fallback.go:209-211 | An abandoned attempt with a reserved successor never ends the chain. |
| `ChainSpec.FreePoolBars` | internal/router/router_fallback.go:290-300 | An exhausted free pool bars exactly that provider's free models. |
| `ChainSpec.LearnedMeans` | internal/router/router_fallback.go:179-200 | The chain has ruled out exactly the providers on which an attempt failed as a whole, the pools an attempt found empty, and the candidates whose reservation was refused. |
| `ChainSpec.NeverAfterRuledOut` | internal/router/router_fallback.go:126-200 | In every record no attempt comes after one that ruled it out, by provider, by free pool or by its reservation. |
| `ChainSpec.PassedOverForAReason` | internal/router/router_fallback.go:126-200 | In every record a candidate that was passed over had been ruled out by some executed attempt, for one of those reasons. |
| `ChainSpec.GoesOnIff` | internal/router/router_fallback.go:179-219 | The chain goes on after a failure exactly if it concerns a provider, a pool or the model, the upstream does not know the model, or the retry policy says so. |
| `ChainSpec.StopsEarlyOnly` | internal/router/router_fallback.go:201-240 | With candidates left the chain stops only on a success or on a failure none of this covers and the retry policy calls final. |
| `Text.ContainsIff` | internal/router/router_fallback.go:81-84 | A text contains another if and only if that one stands somewhere in it. |
| `Text.LowerMeans` | internal/router/router_fallback.go:80-80 | Lower case turns each capital into the small letter of the same place and keeps everything else. |
| `Fallback.RefusalsRuleOut` | internal/router/router_upstream.go:140-245 | From replies to attempts: after a schema mismatch, or an account refusal by a provider that does not relay, no later attempt goes to that provider; after a quota refusal that empties the free pool, none to its free models. |
| `Fallback.RefusalsNeverEndIt` | internal/router/router_upstream.go:140-245 | A refusal for one provider's limits, account or schema, a relayed one or a bad request never ends the chain while candidates are left. |
| `Fallback.SuccessorRunsWithItsTicket` | internal/router/router_upstream.go:299-322 | After an abandoned stream the very next attempt is the reserved candidate, and it runs with the reserved ticket. |
| `Fallback.Chain.ExecuteAttempt` | internal/router/router_upstream.go:17-398 | Every exit: both probe claims cleared once both circuits let the attempt in; a ticket whose request never left is released, one whose request left is settled with the reply's usage and reports, and so is one reserved inside the attempt; a late stream is served only if no later candidate can run; a quota refusal, and only that, has the model cool down; each circuit is told exactly what the reply calls for, one question first and reports only after it. |
| `Fallback.ModelIsBlamedIff` | internal/router/router_upstream.go:98-383 | The model's circuit hears of a loss exactly if the model is to blame, and of a failure exactly if the fault is moreover eligible; being slow to start never is. |
| `Fallback.ModelIsTold` | internal/router/router_upstream.go:98-387 | It hears of a success exactly if something was delivered whole; failures carry the attempt's cooldown and the upstream's wait, losses the status. |
| `Fallback.ProviderIsBlamedIff` | internal/router/router_upstream.go:167-261 | The provider's circuit hears of a failure exactly if its own account refused, and opens at once; of a success exactly if something was delivered whole. |
| `Fallback.EstimateMeans` | internal/router/router_quota_routing.go:85-123 | The planned estimate if usable, otherwise one request, the body's input and the output it names or its provider's default, never negative. |
| `Fallback.TurnedAwayGoesOn` | internal/router/router_upstream.go:26-89 | Being turned away by a circuit, for want of configuration or of quota, rules nothing out and the chain goes on. |
| `Fallback.Chain.Prepare` | internal/router/router_upstream.go:26-89 | Either the attempt is turned away, with its ticket released and reliability evidence untouched, or it holds a ticket to send with. |
| `Fallback.Chain.Admission` | internal/router/router_upstream.go:26-64 | Not configured: nothing changes, not even the ticket. Turned away by a circuit: the ticket is released. |
| `Fallback.Chain.Enter` | internal/router/router_upstream.go:52-64 | A model probed by someone else keeps that claim; the provider's claim is given back. |
| `Fallback.Chain.Ticket` | internal/router/router_upstream.go:81-89 | The candidate's own ticket, or a new one priced by the attempt itself. |
| `Fallback.Chain.ReleaseUnused` | internal/router/router_upstream.go:39-46 | The deferred release of a ticket whose request never left. |
| `Fallback.Chain.SettleUsed` | internal/router/router_upstream.go:39-51 | The ticket is settled exactly if its usage is payable, with the given usage and reports. |
| `Fallback.Chain.AfterSending` | internal/router/router_upstream.go:98-398 | Each reply has its exit and its error, settles the ticket, clears both claims and tells each circuit what it calls for. |
| `Fallback.Chain.OnNoReply` | internal/router/router_upstream.go:98-136 | A cancelled request leaves the model's reliability evidence alone; any other transport error costs it score and, when eligible, a failure. |
| `Fallback.Chain.OnRefusal` | internal/router/router_upstream.go:140-262 | What the chain is told and who pays: quota and account refusals never touch the model's evidence, an account failure opens the provider's circuit at once, anything else is charged to the model; a refusal that concerns one provider never ends the chain. |
| `Fallback.Chain.Describe` | internal/router/router_upstream.go:140-245 | Builds the failure field by field; one that concerns one provider's limits, account or schema never ends the chain, whatever the retry policy says. |
| `Fallback.Chain.Charge` | internal/router/router_upstream.go:246-261 | The circuits after a refusal, by who refused. |
| `Fallback.Chain.CoolDown` | internal/router/router_upstream.go:189-196 | After a quota refusal no attempt on the route is let through before the upstream's wait, or two seconds, is over; no other route changes, and no other refusal sets a cooldown. |
| `Fallback.Chain.TakeOver` | internal/router/router_upstream.go:286-300 | A late stream is abandoned only for a candidate that can run, with its quota reserved; otherwise no later candidate can run. |
| `Fallback.Chain.OnStream` | internal/router/router_upstream.go:268-360 | Abandoned or served, both claims are cleared and the model is scored by how the stream ended. |
| `Fallback.Chain.OnBadBody` | internal/router/router_upstream.go:367-383 | A body that broke off or is too large costs the model score and a failure. |
| `Fallback.Chain.OnAnswer` | internal/router/router_upstream.go:384-387 | A full answer closes both circuits and counts one success. |
| `Fallback.Chain.Blame` | internal/router/router_upstream.go:128-133 | Score and failure count of the model after a fault, and its claim cleared. |
| `Fallback.Chain.Withdraw` | internal/router/router_upstream.go:118-127 | Giving up both claims closes the model's circuit and leaves its evidence as it was. |
| `Fallback.Chain.Equip` | internal/router/router_upstream.go:75-89 | An attempt whose request cannot be built or that gets no quota gives up both claims, keeps the model's evidence and releases its ticket. |
| `Fallback.Chain.AfterFault` | internal/router/router_upstream.go:98-136 | Without a usable reply the estimate is committed on the way out. |
| `Fallback.Chain.AfterRefusal` | internal/router/router_upstream.go:140-262 | A refusal settles the ticket with its reports before anyone is blamed. |
| `Fallback.Chain.AfterBody` | internal/router/router_upstream.go:384-387 | A full answer settles the ticket with the tokens it reports. |
| `Fallback.Chain.AfterStream` | internal/router/router_upstream.go:268-360 | A stream settles its ticket before it may be abandoned for a reserved candidate. |
| `Breaker.OpensExactlyAtThreshold` | internal/router/router_breaker.go:101-190 | Every history of a model's circuit has a window exactly when it counts a threshold of failures, if and only if the threshold is positive. |
| `Breaker.RunOpensAtThreshold` | internal/router/router_provider_breaker.go:72-110 | With immediate openings too: enough failures leave a window, and a window has a failure behind it. |
| `Breaker.StartIff` | internal/router/router_breaker.go:60-95 | Everyone is let in while the circuit is closed, nobody while its window lasts, then only one who finds no unexpired claim and leaves one of its own. |
| `Breaker.WindowStands` | internal/router/router_breaker.go:134-143 | While a window lasts, no failure, penalty or refused start shortens or lifts it. |
| `Breaker.RetryAfterIsHonoured` | internal/router/router_breaker.go:101-144 | A failure that completes the threshold opens a window at least as long as the cooldown and as Retry-After (section 10.2.3 of RFC 9110): whatever failures follow, nobody is let in before. Failures from before a window that has passed do not count. |
| `Breaker.FailureCounts` | internal/router/router_breaker.go:111-118 | A failure adds one to what counts; after a window has passed it is the first again and opens nothing if more than one is needed. |
| `Breaker.FailureOpens` | internal/router/router_breaker.go:122-143 | Exactly at the threshold, or at once, the window is the longest of the cooldown, the wait and what is left, by the attempt's own positive settings; below it only what is left. |
| `Breaker.TakesAFullThreshold` | internal/router/router_breaker.go:101-144 | From a clean slate or after a window has passed, in every history without an answer, fewer failures than the threshold leave no window and the one that completes it does. |
| `Breaker.SuccessesAreCounted` | internal/router/router_breaker.go:170-190 | In every history the successes are exactly the answers. |
| `Breaker.WindowWasAskedFor` | internal/router/router_breaker.go:134-143 | In every history a window ends when some failure asked it to, and nothing has closed it since. |
| `Breaker.Circuits.constructor` | internal/router/router.go:27-35 | A threshold below one is raised to one. |
| `Breaker.Circuits.TryStartAttempt` | internal/router/router_breaker.go:60-95 | The read and write sections together answer and claim as specified, on this circuit only. |
| `Breaker.Circuits.TryStartProvider` | internal/router/router_provider_breaker.go:12-42 | The same protocol on the provider's circuit. |
| `Breaker.Circuits.RecordFailure` | internal/router/router_breaker.go:101-144 | The circuit after a failure, with the attempt's own policy and Retry-After applied, as `Breaker.FailureCounts` and `Breaker.FailureOpens` describe it. |
| `Breaker.Circuits.RecordProviderFailure` | internal/router/router_provider_breaker.go:72-110 | The provider's circuit after a failure, opened at once when asked, as the same two describe it. |
| `Breaker.Circuits.ResolveProbe` | internal/router/router_breaker.go:153-168 | Closes the circuit and clears the claim, evidence untouched. |
| `Breaker.Circuits.ResolveProviderSuccess` | internal/router/router_provider_breaker.go:44-62 | Closes the provider's circuit and counts a success. |
| `Breaker.Circuits.ResolveProviderProbe` | internal/router/router_provider_breaker.go:64-70 | Clears the claim of a known provider and nothing else. |
| `Breaker.Circuits.RecordSuccess` | internal/router/router_breaker.go:170-190 | Counts the success before rewarding it, closes the circuit and advances the evidence clock. |
| `Breaker.Circuits.PenalizeScore` | internal/router/router_scoring.go:194-212 | Clears the claim, lowers the score and advances the evidence clock. |
| `BreakerRace.ProbesAreApart` | internal/router/router_breaker.go:60-95 | Under every interleaving, two callers let through a half-open circuit with no outcome in between are a full probe lifetime apart. |
| `BreakerRace.TwoSectionsActAsOne` | internal/router/router_breaker.go:55-95 | Every run of the two-section protocol is a run of the one-lock protocol with the same answers in order and the same final circuit. |
| `BreakerRace.DepartedNeverBlock` | internal/router/router_provider_breaker.go:12-70 | In every reachable state, once everyone admitted has reported, no claim is left and the next caller after the cooldown is let in. |
| `BreakerRace.FinishedAttemptsNeverBlock` | internal/router/router_upstream.go:17-398 | If every caller on a circuit is an attempt that has finished, as `Fallback.Chain.ExecuteAttempt` leaves its calls, then under every interleaving no claim is left and the next caller after the cooldown is let in. |
| `BreakerRace.RunningIsSilent` | internal/router/router_breaker.go:55-190 | In every reachable state a caller that has not left has reported nothing, and one that is running was let in. |
| `BreakerRace.OutcomeClearsProbe` | internal/router/router_breaker.go:101-190 | Every outcome clears the claim. |
| `Scoring.NewEnv` | internal/router/router_scoring.go:80-94 | The decay window is always positive, and is the configured one where that is positive. |
| `Scoring.HistoryBounds` | internal/router/router_scoring.go:158-187 | For every history from a fresh record, every reading lies in (0, 1], and with failures but no success never above the neutral baseline. |
| `Scoring.DriftTowardBaseline` | internal/router/router_scoring.go:135-164 | Later readings lie between earlier ones and the baseline; the score stands still exactly while a clock does, and arrives exactly when both windows have passed. |
| `Scoring.OutcomeMoves` | internal/router/router_scoring.go:168-187 | A failure lowers the reading, by the hard or the soft step; a success closes a fifth of the gap to one. |
| `Scoring.DecayBounds` | internal/router/router_scoring.go:135-153 | Decay is a fraction, zero exactly if a clock has not moved and one exactly if both windows have passed. |
| `Scoring.DecayIsTheSlower` | internal/router/router_scoring.go:135-153 | In between it is as far along as the slower of the two clocks is in its window. |
| `Balance.ReservationLevels` | internal/router/router_scoring.go:302-344 | From any prior balances, one reservation leaves all providers in play within one of each other. |
| `Balance.FairShare` | internal/router/router_scoring.go:302-319 | k reservations from equal balances give each of n providers the floor or the ceiling of k/n. |
| `Balance.Rank` | internal/router/router_scoring.go:246-286 | A permutation of the candidates, one provider after the other, less used ones first and each one's candidates best first, so its head belongs to a provider used least. |
| `Balance.Weigh` | internal/router/router_scoring.go:260-271 | Members best score first; effective use within one call below the calls counted. |
| `StableOrder.SortKeepsTies` | internal/router/router_scoring.go:260-284 | Candidates that tie keep their order. |
| `Balance.Balancer.Rebase` | internal/router/router_scoring.go:325-344 | Lifts exactly the providers in play that are below the floor. |
| `Balance.Balancer.RankAndReserve` | internal/router/router_scoring.go:302-319 | Rebases, ranks by use, counts the head's provider, and leaves the balances level. |
| `Scheduling.RankAndReserve` | internal/router/router_quota_routing.go:340-454 | On the shared ledger: the list is a tail of the round robin over the candidates that fitted, in any group order; each dropped candidate was refused by the ledger; the head, and only the head, holds a new outstanding ticket priced by its estimate; no list means no ticket. |
| `Scheduling.TestAll` | internal/router/router_quota_routing.go:380-389 | Keeps exactly the candidates whose model is not cooling down and whose listed buckets all fitted when looked at. |
| `Scheduling.TakeFirst` | internal/router/router_quota_routing.go:440-454 | Drops candidates from the front exactly while the ledger refuses them, and stops at the first grant. |
| `Ranking.RoundRobin` | internal/router/router_quota_routing.go:378-438 | The list is the round robin over the provider groups of the fitting candidates, in any group order, and a permutation of them. |
| `Ranking.Interleave` | internal/router/router_quota_routing.go:425-438 | The nested loops compute the round robin. |
| `Ranking.GroupByProvider` | internal/router/router_quota_routing.go:378-402 | The groups hold exactly the candidates, each provider's in their order. |
| `Ranking.PrefixIsFair` | internal/router/router_quota_routing.go:425-453 | In every prefix of the returned list, two providers with candidates left differ by at most one. |
| `Ranking.StretchIsFair` | internal/router/router_quota_routing.go:425-438 | The same for every stretch of the round robin. |
| `Ranking.ListIsSound` | internal/router/router_quota_routing.go:378-453 | The list introduces and repeats nothing, and each provider's part of it is a tail of that provider's order. |
| `Ranking.IsPermutation` | internal/router/router_quota_routing.go:425-438 | The round robin loses and duplicates nothing. |
| `Ranking.KeepsEachOrder` | internal/router/router_quota_routing.go:425-438 | The round robin keeps each provider's own order. |
| `Admission.SlotsAreExact` | internal/router/router_admission.go:36-114 | Under every interleaving the slots in use are exactly those of requests that have one, never above the cap, and finished requests have none. |
| `Admission.AllDoneFreesAll` | internal/router/router_admission.go:93-100 | When every request is done, every slot is free. |
| `Admission.StepKeeps` | internal/router/router_admission.go:79-114 | Acquiring, releasing for a hold, reacquiring and the deferred release keep flag and slot in step. |
| `Admission.Hold.Acquire` | internal/router/router_admission.go:79-88 | Held exactly if admitted. |
| `Admission.Hold.Release` | internal/router/router_admission.go:93-100 | Gives the slot back if held and is harmless otherwise. |
| `Admission.Hold.Reacquire` | internal/router/router_admission.go:106-114 | No second slot is taken while one is held. |
| `Admission.Hold.PassGate` | internal/router/router.go:362-427 | Holds exactly while quota is all that is missing and its wait fits what is left of the budget; each exit for its own reason; ends for every stream of rounds; the time parked is what was slept, at most the budget plus one settle interval plus whatever timers fire late. |
| `Admission.Hold.TryRound` | internal/router/router.go:363-427 | One pass: the four endings with their conditions, and the slot given up exactly if the round was worth holding. |
| `TraceReader.RoundTrip` | cmd/chat.go:272-288 | Reading a rendered header returns each field it kept under its own name with its sanitised value, and no other. |
| `TraceReader.MarkerMeansDropped` | internal/router/router_trace.go:325-361 | The truncation marker is read exactly when something was dropped; without it nothing is missing. |
| `TraceReader.PrevRoundTrip` | cmd/chat.go:344-356 | The failed attempts come back in order, each as its model and code. |
| `TraceReader.PrevReadBack` | cmd/chat.go:332-356 | The list read from a rendered header is present exactly if attempts are still listed, and splits into exactly their entries. |
| `TraceReader.HeaderWritten` | internal/router/router_trace.go:329-361 | Whatever was trimmed, the header is the plain join of its remaining fields. |
| `TraceReader.ReadFields` | cmd/chat.go:277-288 | The reading loop computes the table of named parts. |
| `TraceReader.FieldsMean` | cmd/chat.go:277-288 | For any header text: a name is in the table exactly if some part has it, with what the last such part says. |
| `Text.TrimMeans` | cmd/chat.go:279-279 | Trimming takes away exactly the space around a text. |
| `TraceReader.ReadPrev` | cmd/chat.go:344-356 | One phrase per entry. |
| `TraceHeader.Render` | internal/router/router_trace.go:329-361 | Unmarked if it fits; otherwise marked, keeping the longest list of failed attempts that fits, or the protected fields only; at most 512 whenever those and the marker fit. |
| `TraceHeader.Header` | internal/router/router_trace.go:263-322 | The header of a trace is the rendering of its own fields, which the rows of `TraceValues` read back. |
| `TraceHeader.Sanitize` | internal/router/router_trace.go:415-426 | Each harmless character stays, each other one becomes an underscore, and only harmless ones are left. |
| `TraceHeader.ShortModel` | internal/router/router_trace.go:393-399 | A model name without separators of the header. |
| `TraceHeader.Code` | internal/router/router_trace.go:366-374 | A code without separators of the header; `TraceValues.CodeReads` says which. |
| `TraceText.SplitJoin` | cmd/chat.go:278-278 | Splitting undoes joining when no part contains the separator. |
| `TraceText.CutFirst` | cmd/chat.go:283-283 | Cutting at the first separator recovers name and value. |
| `TraceText.DecimalReads` | internal/router/router_trace.go:366-368 | A number reads back as itself and has no leading zero. |
| `TraceValues.CodeReads` | internal/router/router_trace.go:366-374 | A positive status is written as that number; without one stands the kind of failure, or a fixed word. |
| `TraceValues.ScoreReads` | internal/router/router_trace.go:282-284 | The score reads back in hundredths. |
| `TraceValues.CompressionReads` | internal/router/router_compress.go:49-61 | Bytes saved read back exactly below a kibibyte and in tenths of one above. |
| `TraceValues.TenthsAreNearest` | internal/router/router_compress.go:56-61 | Those tenths are the nearest, the even one of two. |
| `TraceValues.ShortModelIs` | internal/router/router_trace.go:393-399 | A model is listed by the last part of its name without the mark of a free tier. |
| `TraceValues.KeptShows` | internal/router/router_trace.go:269-303 | From any rendered header the client reads profile and compression, and exactly when the trace has them the outcome, the score, the number of the serving attempt, the capabilities and the rule, each with its value. |
| `TraceValues.ShapeShows` | internal/router/router_trace.go:306-316 | Unless it was dropped the chain shape reads back as the trace's own numbers, and so do the breaker's and the quota's exclusions, present exactly if positive. |
| `TraceValues.AttemptsShow` | internal/router/router_trace.go:317-361 | Each failed attempt still listed reads back as its model and code, a status as its number; the marker shows exactly if something was dropped. |
| `AffinityStore.Store.Preferred` | internal/router/router_affinity.go:94-115 | The store refines the recency sequence: found and young enough it moves to the front, too old it goes. |
| `AffinityStore.Store.Pin` | internal/router/router_affinity.go:117-139 | The store refines the recency sequence on a pin, eviction included. |
| `AffinityStore.Store.Forget` | internal/router/router_affinity.go:141-156 | Forgets the session only if it still points at that route. |
| `AffinityStore.Store.constructor` | internal/router/router_affinity.go:58-69 | Non-positive settings fall back to a day and 8192 entries. |
| `AffinityStore.Store.SameKeys` | internal/router/router_affinity.go:94-156 | Table and list hold the same keys, as many, and never more than the capacity. |
| `AffinitySpec.RunKeeps` | internal/router/router_affinity.go:94-156 | Over every history under a nondecreasing clock: no session twice, never over capacity, most recently used first. |
| `AffinitySpec.EvictsTheOldest` | internal/router/router_affinity.go:129-138 | An insert over capacity evicts exactly one other session, a least recently used one. |
| `AffinitySpec.RecentSessionSurvives` | internal/router/router_affinity.go:94-156 | A session just used is remembered unchanged as long as fewer other sessions than the capacity come up. |
| `AffinitySpec.LastRouteIsAnswered` | internal/router/router_affinity.go:94-156 | A session that comes back in time, with fewer other sessions than the capacity in between, is given the route that last served it; too late, none. |
| `AffinitySpec.PinRemembers` | internal/router/router_affinity.go:117-139 | Serving a session puts that route first in place of any older one and keeps the others as they were, all of them if there is room. |
| `AffinitySpec.AskAnswers` | internal/router/router_affinity.go:94-115 | Asking answers the remembered route while it is young enough and forgets it otherwise. |
| `AffinitySpec.ForgetForgets` | internal/router/router_affinity.go:141-156 | A failure forgets a session exactly if it is remembered for the route that failed. |
| `AffinitySpec.PromotionIsPermutation` | internal/router/router_affinity.go:170-188 | Promotion permutes the attempts and keeps the order of the others. |
| `AffinityStore.Promote` | internal/router/router_affinity.go:170-188 | The first attempt on the remembered route goes to the front; without one nothing changes. |
| `AffinityStore.Shift` | internal/router/router_affinity.go:181-183 | The in-place shift of the copy computes the promotion. |

## Left out

- HTTP serving, streaming I/O, telemetry, logging and metrics: only the outcome an attempt branches on is modelled.
- The vendored retry, rules, policy and compression libraries: their verdicts are inputs.
- Parsing of provider headers and bodies: replies report non-negative numbers and optional resets.
- QuotaRun.StepTickets: ticket ids are unbounded, so the search for an unused id after a 64-bit wrap-around is not modelled.
- QuotaObjects.QuotaLedger.Reservations: the order in which the holds are listed is left open; no caller depends on it.
- Floating point: scores, pressure and shares are exact reals; a served score is given in hundredths.
- Backoff between attempts, per-attempt deadlines, callbacks on success and failure, and the list of provider failures in the final message.
- The count of provider attempts taken when a request is sent, and the first-event and first-token latencies.
- Fallback.Chain.ExecuteAttempt: other callers act on the shared ledger between any two of its sections; what it says of a circuit's contents assumes that no other caller moves that circuit meanwhile. Which calls it makes does not, and `BreakerRace` takes those under every interleaving.
- QuotaAgreement.FitMeansGranted: assumes that a restored score file dates its minute buckets; `QuotaAgreement.AnswersDifferIff` needs no such assumption.
- The planner and the attempt use the ledger's value; that the object ledger refines the value is proved in `QuotaLedger`.
- The group sort of the quota ranking is not transitive and is treated as an arbitrary arrangement; the library's stable sort is an insertion sort here.
- Session keys, their keyed hash and the header they come from: keys are arbitrary strings.
- Host-level breaker, load balancer, persistence of scores and balances, capability and context filters, decision buffer, vault, login and update code.
- Fallback.Chain.OnStream: messages that name the model or provider are replaced by fixed texts; only refusals of status 400 are judged by their text.
- Scheduling.RankAndReserve: the candidates come ranked by score and affinity, cooldowns stay as they are meanwhile, and the looks that only order the provider groups are among the steps other callers may take.
