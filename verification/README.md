# Bürgerwecker: a Dafny model

Bürgerwecker polls the booking pages of German public offices and tells subscribers,
by mail or by push, when an appointment is free. This project models the parts of it
whose correctness is hardest to see from one function: who is let in and what is then
polled, how one cycle's digests share a scarce mail quota, how a phone proves that it
owns its push token, and when a phone that answers "dead" may be given up. The code's
own loops and tables are classes and methods; each is proved equal to a function, and
the properties are lemmas about that function or invariants of a state machine over it.
What a function achieves is said once more without it, of rows, logs and calls (the
`*Outcomes` files, `SubscriptionLife`, `DeviceCredentials`, and the last part of most others).

`dafny verify dfyconfig.toml` checks everything.

| file | models |
|---|---|
| `Common`, `Text` | small helpers; strings compared as Python and SQLite compare them |
| `Planning`, `PlanCap` | polling plans and their keys; the plan cap's rule |
| `Admission`, `SubscriptionLife`, `SubscriptionTable`, `StaleReads` | sign-ups, confirmations, edits, renewals and expiries, by mail and by app |
| `MailDelivery`, `MailBatch`, `MailLaws`, `MailVerdicts`, `MailOutcomes`, `Outbox` | one provider call with its bisection; a whole batch over the provider chain |
| `MailPool`, `PoolPremises` | how far the pool's room predicts what a batch sends; what that rests on |
| `ClaimProtocol` | idempotency claims between concurrent senders |
| `SeenLedger`, `Horizon`, `Cadence`, `DigestCap` | what a subscriber is told, how far ahead, how soon again, how often a day |
| `DigestQueue`, `DigestFlush`, `FlushOutcomes`, `DigestWalls` | one queue of mail and push digests behind the quota walls |
| `Confirmations`, `ConfirmationOutcomes`, `StuckConfirmations` | confirmation mails; what a crash between mail and stamp does to their queue |
| `Devices`, `DeviceProtocol`, `DeviceCredentials`, `VerifyBudget` | push devices, their credentials and verification codes |
| `PushBatch`, `PushLaws`, `PushOutcomes`, `PushDesk`, `Retirement`, `BatchRuns`, `DeviceRuns` | one push batch; retiring dead tokens over whole runs; how a batch, and what devices do, is such a run |
| `RateLimiter`, `Konsentas` | the sliding-window limiter; the konsentas booking session |

## How the system is represented

- A database table is a map or a sequence; a transaction or a single statement is one
  step. Concurrency is an interleaving of those steps (`ClaimProtocol`, `Admission`,
  `DeviceProtocol`, `Retirement`).
- Providers, push relays and booking sites are arbitrary functions of the number of the
  request and its contents. Nothing is assumed of them unless a lemma says so.
- Time is an integer of seconds (`now`), which never goes back. SQLite's
  `CURRENT_TIMESTAMP` comparisons keep their own strictness.
- Addresses, ids and idempotency keys are numbers compared for equality only. Random
  secrets and codes stand for themselves instead of their SHA-256; two different ones
  have different hashes. Hashed payloads of slots are modelled as the strings hashed.
- Subscriptions carry exactly one service (app/signup.py:102-103); city caps are fixed.
- Rows are looked at within their retention (14 days for claims, 7 for seen slots and
  deliveries): no run here outlives it, except where a step prunes explicitly.

## Where the code keeps less than it says

Each of these is proved, with the exact condition where there is one.

- A comment in `send_batch` says an address is condemned only once every provider has
  refused it. Condemned is what the last turn of the chain refused. Any other provider
  refused it too exactly when its turn did not leave it waiting, for want of room or
  because a call failed (`MailVerdicts.OnlyTheLastProviderCondemns`,
  `CondemnedWereRejectedUnlessLeft`, `CondemnedWithoutEveryProvider`). The comment is
  right of every provider that has room for all that was claimed and answers every call
  with a verdict (`EveryProviderRefusedTheCondemned`).
- `pool_room` says that mail past it is deferred. That much room is filled, but a batch
  whose calls take time fills also what becomes free meanwhile, and no more than that
  (`MailPool.AcceptedBatchFillsThePool`, `PoolPremises.ASlowBatchDeliversMore`). The
  prediction is exact when the slowest call, once for each mail, lets no send that counts
  leave its window (`MailPool.ThePoolIsFilledExactly`).
- It also rests on distinct names: EMAIL_PROVIDER_ORDER may list a provider twice
  (app/config.py:213-217), and its room is then counted twice in the prediction and once
  in the sending. For providers that accept and are quick next to their windows the
  prediction holds in every state exactly when no name is repeated
  (`PoolPremises.ThePredictionNeedsDistinctNames`). With a repeated name the headroom for
  confirmations is lost as well (`PoolPremises.TheHeadroomIsLostToo`); the lemmas about
  pool, headroom and confirmation line require distinct names.
- The polling bound of cap + cap / 2 holds while confirming and renewing judge the
  service their row still carries. Both read it before their transaction begins; when an
  edit comes in between, one confirmation or renewal, by mail or by app, takes the city
  one service past the bound, for every two services
  (`StaleReads.AStaleReadLeavesTheBound`). It also rests on one service per subscription:
  a request for more can be granted and leave the bound when it keeps a service only its
  own subscription holds and adds a new one, and not otherwise
  (`PlanCap.MixedRequestsCanLeaveTheBound`, `PlanCap.AdmittedWithinBound`).
- Plan keys tell polls apart as long as no id contains one of their separators
  (`Planning.KeyInjective`, `Planning.SeparatorsCollide`); where two share a key, the later
  subscription is not polled for (`Planning.ACollisionLosesAWish`). No id of the catalogs that ship
  with the repository contains one; nothing but that keeps them out.
- Releasing a claim deletes the row whoever holds it, and a claim goes stale after
  fifteen minutes whatever its holder does. No key is delivered twice as long as no
  sender sends on a stale claim, releases a row that was taken over, or is lost or
  overdue between an acceptance and its stamp (`ClaimProtocol.DeliveredAtMostOnce`); and
  each of these can deliver a key twice, from every state such a run reaches
  (`ClaimProtocol.EveryBreachCanDeliverTwice`).
- A push digest does overtake a waiting mail. The places for mail are the pool's room, or
  what the daily windows have outside the headroom if that is less. A push digest
  overtakes exactly when more live mails stand ahead of it than there are places, and
  either the daily windows bind or no more stand there than the pool's room
  (`DigestQueue.WhoOvertakes`, `DigestQueue.WhenNobodyOvertakes`,
  `DigestWalls.HeadroomLetsPushOvertake`). Only where the daily windows bind, nothing is
  kept for confirmations and slow calls let sends leave their windows meanwhile may such
  a push overtake nobody (`PoolPremises.ASlowFlushLeavesNobodyBehind`).
- The gap between digests is what the last one earned, unless the filter was edited since:
  an edit forgets both signals, and from then on it is the base exactly
  (`Cadence.EveryDigestWaitsOutItsGap`, `AnEditedFilterWaitsOutTheBase`,
  `AnEditBringsTheNextForward`).
- A confirmation that was delivered but not stamped, because the process died in
  between, is never sent again and never leaves the queue while its row lives. With
  providers that accept and have room a pass sends nothing exactly when every sign-up it
  reaches is so taken (`StuckConfirmations.APassSendsNothingExactlyWhenAllAreTaken`); one
  crash on the reserve leads there, and everyone behind waits until those grow too old
  (`StuckConfirmations.ACrashBlocksTheQueue`).
- The konsentas session steps forward only from the *tracked* service step. That is the
  real one as long as an error reply means that the step was not taken, where the poll
  keeps the session: a token refused at a poll's first attempt drops it, and may be taken
  or not. Otherwise the next poll in the session's time goes on from wherever the sign-up
  is (`Konsentas.ForwardOnlyFromServices`, `Konsentas.AStepTakenInSpiteOfARefusalGoesOn`).
- The doc comment of the registration route says that a never-verified device's secret is
  rotated. It is not: a registration of a known token only ever leaves a pending secret
  (`DeviceProtocol.OnlyACodeMovesTheMainSecret`).

## Model

| member | source | states |
|---|---|---|
| PlanCap.OneServiceRule | app/planning.py:65-119 | the cap's rule over service sets, for the one service a subscription asks about, is a rule about two counts: services mail holds and services only the app holds |
| PlanCap.WhoIsGranted | app/planning.py:111-119 | the rule in numbers, both ways: mail is granted what needs nothing new, and new services while mail holds at most the cap and everything polled at most cap + cap / 2 with them; the app is granted while it holds at most half the cap on its own and everything polled stays within the cap |
| PlanCap.WhoIsGrantedOne | app/planning.py:111-119 | the same for one service |
| PlanCap.AdmittedWithinBound | app/planning.py:100-110 | admitting a request that does not both keep a service only its own subscription holds and add a new one, as no request for one service does, never takes a city past cap + cap / 2, whoever is admitted and whatever the subscription gives up for it |
| PlanCap.MixedRequestsCanLeaveTheBound | app/signup.py:102-103 | whatever services an edit both keeps and adds, it is granted and leaves the bound in every city whose counts stand at the edge |
| PlanCap.AppGrantIsWebGrant | app/planning.py:85-91 | whatever the app is granted, the website would be granted in the same state |
| PlanCap.ShareNeverTurnsMailAway | app/planning.py:79-84 | app-held services within the share turn no mail answer into a refusal |
| PlanCap.GrantKeepsTheShare | app/planning.py:88-92 | an app grant keeps app-held services within the share, or no more than they were |
| PlanCap.NoAppPlaceOverTheShare | app/planning.py:107-110 | past the share nobody is let onto an app-held service through the app |
| Admission.PollsStayBounded | app/planning.py:94-110 | over any run of sign-ups, confirmations, edits, renewals, expiries, deletions and purges from an empty table, a city is polled for at most cap + cap / 2 services (none for a negative cap), the cap being the tenant's own unless it names none or zero, if confirmations and renewals judge the service their row still carries |
| Admission.PlansStayBounded | app/planning.py:33-57 | so the plans built for any of the live subscriptions are at most that many in the city |
| Admission.OnlyMailLeavingGrowsAppHeld | app/planning.py:94-110 | a step after which mail still holds all it held leaves app-held services within the share or no more than they were |
| Admission.AppHeldRenewalsAreRefused | app/api.py:1097-1119 | past the share a renewal on an app-held service changes nothing |
| Admission.AppSignUpsAreWebSignUps | app/api.py:1007-1043 | a sign-up the app is granted, the website would grant too |
| SubscriptionLife.WhatIsPolled | app/repo.py:565-593 | a city is polled for exactly the services that some confirmed or app subscription watches, not deleted and within its term; app-held are those no mail subscription watches |
| SubscriptionLife.WhoMaySignUpByMail | app/web.py:926-989 | a sign-up on the website is taken, unconfirmed, exactly if the service is polled already or mail then holds at most the cap and everything polled is at most cap + cap / 2 |
| SubscriptionLife.WhoMaySignUpByApp | app/api.py:1007-1043 | a sign-up in the app is taken, live at once, exactly if mail holds the service, or the app then holds at most half the cap on its own and everything polled stays within the cap |
| SubscriptionLife.WhatAnEditDoes | app/repo.py:675-693 | an edit is granted by the same numbers over the others' services, what the row has polled itself not being new; it sets the filter and brings the end of the term forward only |
| SubscriptionLife.WhatARenewalDoes | app/repo.py:648-659 | a renewal is granted by the same numbers and sets the end of a term that is not deleted |
| SubscriptionLife.WhatConfirmingDoes | app/web.py:1020-1068 | confirming is granted by the same numbers and changes nothing else |
| SubscriptionLife.WhatEndsASubscription | app/repo.py:702-706 | what deleting, bringing the end of the term forward and purging do to the row |
| SubscriptionLife.ADeletionIsFinal | app/repo.py:648-706 | over any run nothing is polled for a deleted subscription again, whatever is confirmed, edited or renewed |
| SubscriptionLife.OnlyARenewalProlongs | app/repo.py:648-693 | over any run without a renewal of it a subscription's term ends no later |
| SubscriptionLife.AConfirmedSignUpIsPolledForItsTerm | app/web.py:926-1068 | a sign-up that finds room is polled for from its confirmation to the end of its term, and without anyone else watching no longer |
| StaleReads.TheBoundIsReached | app/planning.py:94-110 | the bound is tight: in every city with a plan some run reaches it |
| StaleReads.AStaleReadLeavesTheBound | app/web.py:1188-1214 | for every two services, one confirmation or one renewal, through the website or the app, judged on the one its row has given up leaves the bound |
| SubscriptionTable.Table.WatchedServices | app/repo.py:569-593 | the services live subscriptions of one kind watch, computed row by row |
| SubscriptionTable.Table.CityServices | app/repo.py:580-593 | what mail and app subscriptions watch in a city, leaving one out |
| SubscriptionTable.Table.RefusedByPlanCap | app/planning.py:122-131 | the rule against the table is the step machine's question |
| SubscriptionTable.Table.Subscribe | app/web.py:926-989 | a mail sign-up takes exactly its step |
| SubscriptionTable.Table.CreateAppSubscription | app/api.py:1007-1043 | an app sign-up takes exactly its step |
| SubscriptionTable.Table.ConfirmSubscription | app/web.py:1020-1068 | a confirmation takes exactly its step, on the service read before |
| SubscriptionTable.Table.UpdateFilter | app/repo.py:675-693 | an edit takes exactly its step and can only pull the expiry in |
| SubscriptionTable.Table.RenewSubscription | app/repo.py:648-659 | a renewal takes exactly its step |
| SubscriptionTable.Table.SoftDelete | app/repo.py:702-706 | a deletion takes exactly its step |
| Planning.KeyInjective | app/models.py:157-162 | with clean ids two plans share a key if and only if they agree in city, service and set of offices, in whatever order those are listed |
| Planning.SeparatorsCollide | app/models.py:157-162 | in every city and for every service an office id that joins two others with a comma, or is `all`, and a bar that ends the city in one plan and stands in the service of another, make different plans share a key |
| Planning.ACollisionLosesAWish | app/planning.py:37-40 | of a subscription to an office whose id joins two others' and one to those two, only the first is polled for |
| Planning.EveryWishIsPolled | app/planning.py:33-57 | for every subscription and service it wants some plan of that city and service covers its offices |
| Planning.NothingUnwantedIsPolled | app/planning.py:33-57 | no plan serves a service nobody wants |
| Planning.PlanKeysAreDistinct | app/planning.py:33-57 | the plans' keys are distinct |
| Planning.PlansPerCity | app/planning.py:33-57 | a city gets at most max(cap, distinct services) plans |
| Planning.WhatACityIsPolledFor | app/planning.py:41-57 | a city whose subscriptions ask for no more polls than its cap gets exactly as many plans, each for offices some subscription named for that service; past the cap every plan is for all offices and there is one per wanted service |
| Planning.AddPlans | app/planning.py:37-40 | `setdefault` per plan keeps the first of each key, in order |
| Planning.GatherPlans | app/planning.py:36-40 | the first loop gathers every subscription's plans |
| Planning.GroupByCity | app/planning.py:41-44 | the second loop groups them by city, in order of first appearance |
| Planning.CollapseCity | app/planning.py:50-56 | a city over its cap becomes one plan per service for all offices |
| Planning.BuildPlans | app/planning.py:33-57 | the three loops together compute `Planned` |
| MailDelivery.DeliverGradesAPrefix | app/mail.py:427-467 | whatever the provider answers, what is sent and what is refused are the good and the bad items of a prefix of the chunk, in order |
| MailDelivery.DeliverPartitionsTheChunk | app/mail.py:427-467 | sent, refused and untouched items make up the chunk; nothing is untouched unless the provider failed |
| MailDelivery.DeliverNeverReoffers | app/mail.py:427-467 | an item a call accepted is offered to no later call, and the accepted ones are those reported sent |
| MailDelivery.BisectionIsolates | app/mail.py:434-443 | against an all-or-nothing provider exactly the good items are sent, in order, exactly the bad ones refused, in at most 1 + 2k * ceil(log2 n) calls |
| MailDelivery.CeilLog2IsTheCeiling | app/mail.py:434-443 | the logarithm in that bound is the ceiling of the binary one |
| MailLaws.BatchConserves | app/mail.py:510-608 | every claimed item ends in exactly one of sent, refused and deferred |
| MailLaws.BatchKeepsExactlyDeliveredClaims | app/mail.py:583-606 | of the claimed keys exactly the delivered ones keep a row, stamped during the batch; no other row changes |
| MailLaws.BatchNeverReoffers | app/mail.py:538-575 | in all provider calls of a batch an accepted item is offered to no later call |
| MailLaws.UsageStaysWithinLimits | app/mail.py:503-508 | whatever the providers do, each one's usage in every window ends at most at max(usage before, limit) |
| MailPool.AcceptedBatchFillsThePool | app/mail.py:731-737 | when every provider accepts, however long its calls take, a batch refuses nothing, delivers a head of the items it claims, in order, and defers the rest; the head is at least `pool_room` before the batch and at most what the same rows leave free when it ends |
| MailPool.ThePoolIsFilledExactly | app/mail.py:731-737 | it is exactly min(`pool_room`, items) when the slowest call, once for each mail, lets no send that counts leave its window |
| PoolPremises.ASlowBatchDeliversMore | app/mail.py:731-737 | two accepting providers with room for one mail that deliver two, because the first one's call takes until the second is free again |
| PoolPremises.ASlowFlushLeavesNobodyBehind | app/digest.py:332-337 | two slow accepting providers and a queue in which a push digest past the places for mail overtakes nobody |
| PoolPremises.ARepeatedNameCountsTwice | app/mail.py:731-737 | starting with nothing sent, a batch that ends within its windows sends no more than `pool_room`, and less if a name is repeated, whatever the providers do |
| PoolPremises.ThePredictionNeedsDistinctNames | app/mail.py:731-737 | for accepting providers with positive limits that are quick next to their windows, `pool_room` mails are sent in every state and for every list if and only if no name is repeated |
| PoolPremises.TheHeadroomIsLostToo | app/digest.py:368-395 | a provider of any number of mails a day listed twice: a flush with that many live mails leaves the daily pool nothing, whatever the headroom |
| MailLaws.BatchPoolLoss | app/mail.py:731-752 | a batch takes at most one place of the pool for each mail it delivers |
| MailLaws.ClaimAllIsSound | app/mail.py:526-535 | claiming takes distinct claimable keys, marks exactly them pending now, and touches nothing else |
| MailOutcomes.WhichMailIsClaimed | app/mail.py:484-535 | claimed is, in list order and for every key that is free or has been pending for more than fifteen minutes, the first mail to an address that is neither suppressed nor has failed `max_send_failures_per_address` times; only such mail is ever offered in a call; mail to the others is reported undeliverable, together with what was refused |
| MailOutcomes.WhatABatchRecords | app/mail.py:547-606 | every delivered mail is stamped with the provider that accepted it, at a time its calls had come to; over a batch a delivery clears an address's failures, every final refusal counts one, mail left waiting is counted as deferred, and the suppressed stay |
| MailOutcomes.RoomIsTheTightestWindow | app/mail.py:503-508 | a provider's room is the smallest over its windows of the limit less the mails stamped with its name within the window, at least 0; none without any window |
| MailOutcomes.AProviderWithRoomIsAsked | app/mail.py:545-549 | a provider is called in its turn exactly if it has room and mail is left, and first offered the head of that, as much as batch size and room allow |
| MailOutcomes.TurnOfAChain | app/mail.py:546-569 | a turn ends with a failed call, its last, or with nothing left, or with its room spent to the last mail; only delivered mail spends room, and no call offers more than the batch size |
| MailOutcomes.WhyAMailWaits | app/mail.py:538-608 | a mail is left waiting only if every provider of the chain rejected it in its turn, ended the turn with a failed call, or delivered all it had room for; a rejection by the last one counts for nothing only in three or more with nothing delivered |
| MailOutcomes.WhichProvidersFailed | app/mail.py:538-584 | by the end of the chain exactly the providers with a turn that came to nothing are noted as unusable: its last call failed, or it rejected three mails or more and none was ever delivered under its name |
| MailVerdicts.OnlyTheLastProviderCondemns | app/mail.py:538-581 | a batch condemns exactly what calls of the last provider's turn rejected, or nothing if nothing was left by then or that turn was a rejection streak with nothing delivered |
| MailVerdicts.CondemnedWereRejectedUnlessLeft | app/mail.py:538-581 | a condemned item was rejected in a call of any other provider's turn if and only if that turn did not leave it waiting |
| MailVerdicts.EveryProviderRefusedTheCondemned | app/mail.py:541-544 | a provider with room for everything claimed that answers each call with a verdict has rejected every condemned item in a call |
| MailVerdicts.CondemnedWithoutEveryProvider | app/mail.py:541-544 | without that room: an address condemned although the first provider was never asked |
| MailVerdicts.SystemicRejectionStrikesNobody | app/mail.py:570-581 | three or more refusals from a chain that delivered nothing cost no address a strike |
| Outbox.Outbox.Claim | app/mail.py:181-199 | a key is claimed exactly when it is free or its pending claim is stale |
| Outbox.Outbox.Headroom | app/mail.py:503-508 | the loop computes the tightest window's room |
| Outbox.Outbox.ClaimItems | app/mail.py:526-535 | the claim loop, dead addresses skipped |
| Outbox.Outbox.Record | app/mail.py:549-558 | stamping what was sent and clearing those addresses' failures |
| Outbox.Outbox.Call | app/mail.py:547-568 | one provider call, recorded, and its chunk taken off what remains |
| Outbox.Outbox.OfferChunk | app/mail.py:546-569 | one pass of the inner loop leaves the same turn to finish |
| Outbox.Outbox.OfferChunks | app/mail.py:546-569 | the inner loop computes the provider's turn |
| Outbox.Outbox.RunProvider | app/mail.py:540-581 | a provider's turn with the systemic-rejection guard |
| Outbox.Outbox.RunChain | app/mail.py:538-581 | the outer loop computes the chain |
| Outbox.Outbox.StrikeAll | app/mail.py:469-476 | one strike per refused item |
| Outbox.Outbox.Release | app/mail.py:583-607 | refused and leftover claims are released, and nothing else |
| Outbox.Outbox.SendBatch | app/mail.py:510-608 | the whole method computes `Batch` and reports what became of every item |
| ClaimProtocol.ClaimsOfOneKeyAreApart | app/mail.py:172-199 | under any interleaving two claims of one key are separated by a release or by more than fifteen minutes |
| ClaimProtocol.WhoCanClaim | app/mail.py:181-199 | a stamped key is never claimed again; a crashed sender's claim becomes claimable after fifteen minutes |
| ClaimProtocol.ARecordedKeyIsTaken | app/mail.py:553-562 | recording a delivery stamps the row, and however long anybody waits after it nobody claims the key |
| ClaimProtocol.DeliveredAtMostOnce | app/mail.py:227-256 | in any interleaving a key is delivered at most once if no sender sends on a stale claim, releases a row taken over from it, or is lost or overdue between acceptance and stamp |
| ClaimProtocol.EveryBreachCanDeliverTwice | app/mail.py:227-256 | that condition is exact: from every state such a run reaches, each of those steps has a continuation in which a key is delivered twice |
| ClaimProtocol.OvertakenWorkerDeliversTwice | app/mail.py:527-535 | an overtaken sender delivers a key twice |
| ClaimProtocol.LateReleaseDeliversTwice | app/mail.py:248-250 | so does one that releases a row another has taken over |
| ClaimProtocol.LostWorkerDeliversTwice | app/mail.py:211-216 | so does one that dies between acceptance and stamp |
| SeenLedger.KeysNameTheirSlots | app/models.py:65-83 | slot and day keys cannot alias, and each names exactly its slot or its day, office and service |
| SeenLedger.ADigestIsToldOnce | app/catalog.py:124-134 | after a digest is recorded no slot of it is news, at either granularity |
| SeenLedger.SeenStays | app/repo.py:792-811 | recording more never makes news of what was seen |
| SeenLedger.ADayHoldsItsEarliestTime | app/repo.py:792-811 | a row that starts with a time holds the earliest of all times told, whatever the order |
| SeenLedger.AnUnknownTimeStays | app/repo.py:798-801 | a row without a time never changes |
| SeenLedger.OnlyEarlierIsNewsAgain | app/repo.py:813-833 | over any run two digests share a key only for a day, the later one with a strictly earlier time; a slot is never told twice |
| SeenLedger.AnUnknownTimeIsNeverNews | app/repo.py:819-833 | a day whose row has no time is never told again |
| SeenLedger.DuplicatesAddNothing | app/digest.py:503-509 | writing each distinct key once leaves the rows that writing every slot's would |
| SeenLedger.RecordWritesNews | app/repo.py:792-811 | recording writes a row exactly if the key was news |
| SeenLedger.WhatIsOldNews | app/repo.py:813-833 | over any run of digests a slot is old news exactly if one of them told the subscriber of it: of the slot itself or, where days count, of one that day at the same office for the same service, no later |
| SeenLedger.SeenSlots.RecordSlot | app/repo.py:792-811 | the upsert moves a row only to a strictly earlier known time |
| SeenLedger.SeenSlots.HasSeen | app/repo.py:813-833 | the lookup answers `Seen` |
| SeenLedger.SeenSlots.RecordDigest | app/digest.py:500-509 | after the recording loop every key of the digest is seen |
| Horizon.StableSortIsUnique | app/cycle.py:367-370 | only one list is in order and keeps every moment's finds in their order |
| Horizon.MergedPollsAreSortedAtOnce | app/cycle.py:409-412 | merging the sorted polls is stably sorting all of them at once |
| Horizon.Next | app/cycle.py:412 | the merge yields its next find from the first source with the soonest head |
| Horizon.Collect | app/cycle.py:402-436 | the loop with its early break keeps the unseen ones of the first 50 distinct matches of the merge |
| Horizon.Candidates | app/cycle.py:402-436 | candidates are the unseen slots among the first 50 distinct matching slots of the sorted polls; the match count is min(50, distinct matches) |
| Horizon.OnlyLaterSlotsAreLeftOut | app/cycle.py:67-89 | a matching slot is left out only when the horizon is full, and then it is no sooner than any slot inside |
| Horizon.WhatTheHorizonHolds | app/cycle.py:402-436 | the horizon holds matching slots of the polls, each once, soonest first, and as many as there are, up to fifty |
| Horizon.TheFirstFindIsTold | app/cycle.py:412-421 | of several matching finds of a slot the first one of the polls is told |
| Horizon.WhatWasToldIsNotNews | app/cycle.py:424-434 | once the candidates are recorded, the same polls hold no news |
| Cadence.GapIsAFloorThatClimbs | app/cycle.py:103-123 | the base is a floor, eight times it a ceiling, more matches or a longer run never shorten the gap, a maximum of one switches the ladders off |
| Cadence.EveryDigestWaitsOutItsGap | app/cycle.py:380-397 | over any run of cycles and filter edits two digests in a row lie at least the base apart, and at least the gap the first earned if the filter was not edited in between, whether its run was ended or not |
| Cadence.AnEditedFilterWaitsOutTheBase | app/repo.py:675-688 | after an edit a digest is due exactly when the base has passed, whatever the last one earned |
| Cadence.AnEditBringsTheNextForward | app/repo.py:675-688 | whatever a first digest matched and earned, after an edit the second can go out the base later |
| Cadence.WhatACycleDoes | app/cycle.py:380-397 | a silence of twice the gap its last digest earned ends a run and nothing shorter does; a digest may go out exactly when there was none before or the gap is over, the gap being the base times 1, 2, 4 or 8 by what was matched or the length of the run; it is remembered with its time and matches, as one more of the run |
| DigestCap.PressureOnlyTightens | app/cycle.py:193-220 | the pressure cap never lifts the ordinary one, never turns it off, and makes none where none is set |
| DigestCap.Stage | app/cycle.py:439-461 | the loop stages exactly the digests within their subscriber's cap, in order, and counts the others as held |
| DigestCap.QueueIsWithinCap | app/cycle.py:439-461 | the flush's queue holds exactly the digests within the cap of their own channel, each subscriber once |
| DigestCap.NoDayHoldsMoreThanTheCap | app/cycle.py:439-447 | over any run of cycles, whatever there is to tell and whatever is delivered, no 24 hours hold more than the ordinary cap of a subscriber's recorded digests |
| DigestCap.HeldForTheCap | app/cycle.py:439-447 | a subscriber at the cap of its own channel, for mail the pressure cap, is staged nothing and keeps every record as it was; any other digest is in the queue |
| DigestCap.WhoIsStaged | app/cycle.py:193-220 | a digest is staged exactly if there is no ordinary cap or the log holds fewer of the subscriber's last 24 hours than its cap: the pressure cap for mail exactly while all three settings are on, it is the lower one and the pool is used to the percentage, else the ordinary one |
| DigestCap.WhenMailIsThinned | app/cycle.py:193-213 | a cycle counts as thinned out exactly if the pressure cap is on and lower than the ordinary one and the pool has any places and is used to the percentage |
| DigestCap.NoDayHoldsMore | app/cycle.py:439-447 | the daily cap over any run of cycles, counted in the log of deliveries |
| DigestQueue.ClaimedByFlush | app/digest.py:488-494 | a flush's mail batch claims exactly the live mails not held back, in order |
| DigestQueue.DeliveredInOrder | app/digest.py:314-365 | when every provider accepts, however long its calls take, a live mail is delivered exactly when fewer live mails stand ahead of it than the flush delivers |
| DigestQueue.DeliversFillsThePool | app/digest.py:314-365 | the flush then delivers at least the pool's room, or all it may send, and at most the room the same rows leave when it ends |
| DigestQueue.ThePredictedWallIsWhereMailStops | app/digest.py:314-365 | at the hourly wall a mail that waits stands at or past the predicted wall; when the slowest call, once for each mail, lets no send that counts leave its window, exactly those at or past it wait |
| DigestQueue.NobodyOvertakesAtTheHourlyWall | app/digest.py:318-330 | at the hourly wall a push digest goes out only when no mail ahead of it waits; when the slowest call, once for each mail, lets no send that counts leave its window, exactly then |
| DigestQueue.WhoOvertakes | app/digest.py:332-337 | a push digest goes out ahead of a waiting mail only when more live mails stand ahead than min(pool room, daily room outside the headroom) and, unless the daily windows bind, no more than the pool room; exactly then if some headroom is kept, or an hourly wall binds, or no send leaves its window meanwhile |
| DigestQueue.WhenNobodyOvertakes | app/digest.py:318-337 | nobody overtakes if, and under the same condition only if, no push digest of the queue stands there |
| DigestQueue.DigestsLeaveTheHeadroom | app/digest.py:368-395 | whatever the providers do, digests leave the daily pool min(room before, headroom) |
| DigestWalls.HeadroomLetsPushOvertake | app/digest.py:368-395 | a concrete queue in which the confirmation headroom lets a push overtake a mail |
| DigestFlush.QueueIsSorted | app/digest.py:487 | the queue is a permutation of the staged digests, longest-waiting first |
| DigestFlush.TheServedHaveWaitedLongest | app/digest.py:318-330 | at the hourly wall, when every provider accepts, however long its calls take, everyone served has waited at least as long as anyone passed over, on either channel |
| DigestFlush.AHeldDigestChangesNothing | app/digest.py:498-500 | whoever had nothing delivered keeps seen rows, stamp, count, run and deliveries |
| DigestFlush.ADeliveredDigestIsRecorded | app/digest.py:501-511 | a delivered digest's keys are all seen, the subscriber stamped, exactly one delivery counted |
| FlushOutcomes.WhoGoesOut | app/digest.py:314-395 | a push digest goes out exactly if the daily windows bind or no more mails to living addresses stand ahead of it than the pool takes; a mail is kept back exactly if its address lives and as many such mails stand ahead as the daily windows have outside the headroom |
| FlushOutcomes.WhenTheDayIsUnknown | app/mail.py:740-752 | the room of the day is unknown exactly if some provider has no window of a day or more |
| FlushOutcomes.TheRoomOfTheDay | app/mail.py:740-752 | for one provider it is that of its tightest window of a day or more |
| FlushOutcomes.TheDaysRoomAdds | app/mail.py:740-752 | for two chains it is the sum |
| FlushOutcomes.PoolRoomAdds | app/mail.py:731-737 | so is the pool's room, and for one provider it is that provider's |
| FlushOutcomes.WhatADeliveryLeaves | app/digest.py:501-511 | a delivery stamps the subscriber, counts one more of the run, keeps what was matched if that was measured, and enters the log |
| FlushOutcomes.WhatAFlushDefers | app/digest.py:455-494 | what a flush counts as deferred is what it kept back and what its batch left waiting; a batch that raises reports nothing delivered |
| DigestFlush.Desk.PoolRoomNow | app/mail.py:731-737 | the sum of every provider's headroom |
| DigestFlush.Desk.DailyRoomNow | app/mail.py:740-752 | the same within daily windows; none when a provider has no daily window |
| DigestFlush.Desk.BehindTheMailWall | app/digest.py:346-361 | the loop holds exactly the push digests with more live mails ahead than the pool takes |
| DigestFlush.Desk.PastTheHeadroom | app/digest.py:376-390 | the loop holds exactly the live mails with as many live mails ahead as the daily pool has outside the headroom |
| DigestFlush.Desk.RecordAllDelivered | app/digest.py:497-511 | the loop records exactly the delivered digests |
| DigestFlush.Desk.PlanFlush | app/digest.py:487-494 | the walls are those of the state before anything is sent |
| DigestFlush.Desk.SendMails | app/digest.py:455-464 | the mail batch of a flush; an exception in it is caught and nothing is reported delivered |
| DigestFlush.Desk.Flush | app/digest.py:467-514 | sorts, plans, sends and records, and changes nothing else; when the mail batch raised, what was pushed is recorded first |
| Confirmations.APassEndsWithinLineOrReserve | app/confirmations.py:72-98 | a pass that sends anything ends with pool usage at or below the pressure line or the day's confirmations at or below the reserve, whatever the providers do |
| ConfirmationOutcomes.HowManyMayGoOut | app/confirmations.py:72-98 | the m-th confirmation of a pass may go out exactly if the providers take m today and the pool's usage with them stays within the percentage of its quota or the day's confirmations with them within the reserve; without a line or a daily cap there is no bound |
| ConfirmationOutcomes.PoolUsedIs | app/mail.py:755-761 | the usage is the number of mails of the last 24 hours stamped with a provider of the chain that has a daily cap |
| ConfirmationOutcomes.PoolQuotaAdds | app/mail.py:755-761 | the quota is the sum of the providers' daily caps |
| ConfirmationOutcomes.WhatAPassDoes | app/confirmations.py:101-134 | a pass mails, as one batch, the first so many in table order of the sign-ups neither confirmed nor deleted nor sent, young enough and at an address that may be mailed, and stamps exactly those delivered |
| StuckConfirmations.APassSendsNothingExactlyWhenAllAreTaken | app/confirmations.py:118-134 | when the providers accept and have room, a pass sends nothing if and only if no sign-up it reaches has a claimable key |
| StuckConfirmations.ACrashBlocksTheQueue | app/confirmations.py:118-134 | after a pass that lives on the reserve of one accepting provider and dies before its stamps, the next pass, however much later, reaches the same sign-ups, sends nothing and changes nothing, with others waiting behind |
| Confirmations.ConfirmationDesk.Queue | app/confirmations.py:101-107 | the sign-ups a send can reach, oldest first |
| Confirmations.ConfirmationDesk.SetSent | app/repo.py:708-712 | stamps exactly the delivered ones |
| Confirmations.ConfirmationDesk.SendPendingConfirmations | app/confirmations.py:118-134 | a pass sends no further than the room and stamps what was delivered |
| Devices.DeviceTable.RegisterDevice | app/repo.py:47-92 | a new token makes a row; a known one only gets a pending secret and a fresh request |
| Devices.DeviceTable.RequestVerification | app/repo.py:322-366 | a request restarts the row's verification, joining an owner's that still waits |
| Devices.WhatARequestAchieves | app/repo.py:322-366 | after a request exactly when the device may be sent a code at once, when a new code may be stored, and that a code kept still works as before |
| Devices.DeviceTable.SetVerifyCode | app/repo.py:294-307 | a code is stored exactly when nothing was delivered and the stored one is a minute old |
| Devices.DeviceTable.MarkVerificationSent | app/repo.py:310-319 | a delivery is stamped only while the row holds that code |
| Devices.DeviceTable.VerifyDevice | app/repo.py:378-418 | exactly the stored fresh code is accepted, and promotes exactly the caller's pending secret |
| Devices.DeviceTable.UpdateDevice | app/repo.py:484-528 | a new token un-verifies the row and voids what was sent to the old one; one holder per token |
| Devices.DeviceTable.RetireDevice | app/repo.py:446-465 | only while the row holds the token that answered dead |
| Devices.DeviceTable.DeleteDevice | app/repo.py:531-538 | only for the main secret's holder |
| DeviceProtocol.AnAcceptedCodeReachedOnlyThisPhone | app/push.py:270-309 | in any interleaving an accepted code was pushed only to the token the row holds at that moment |
| DeviceProtocol.OnlyACodeMovesTheMainSecret | app/repo.py:378-418 | in any interleaving the main secret changes only by an accepted code, to the pending secret its poster authenticated with |
| DeviceProtocol.OnlyACodeVerifies | app/api.py:787-811 | in any interleaving a device becomes verified only by an accepted code |
| DeviceProtocol.ANewTokenStartsOver | app/repo.py:484-528 | in any interleaving a token changes only for the main secret's holder, and takes verification, code and pending secret with it |
| DeviceProtocol.OneCodeAMinute | app/repo.py:294-307 | of any number of senders one at most a minute stores a code for a device that keeps its token |
| DeviceRuns.EveryRunIsReckonedWith | app/repo.py:183-528 | whatever apps and senders do in any interleaving is a run of the machine the laws of retirement are proved of: the same devices with the same rows at the same time |
| DeviceCredentials.WhatAPostedCodeDoes | app/repo.py:378-418 | in any interleaving a posted code counts exactly if it is the row's, younger than a day, and posted with the main secret or the one still pending; then the device is verified and code and pending secret are gone: the pending secret becomes the main one, verified now, and for the main one secret and an earlier verification stay; nothing else changes |
| DeviceCredentials.AnOvertakenOwnerVerifiesTheNext | app/repo.py:405-417 | a run in which the verified device's secret is not the one its poster came with: an owner let in before a newcomer took the phone over posts the next code |
| DeviceCredentials.ATokenHasOneHolder | app/repo.py:484-528 | in any interleaving a token of a platform is held by one row at most |
| DeviceCredentials.WhatARegistrationDoes | app/repo.py:47-92 | in any interleaving a registration touches the one row that holds the token, where its secret only waits, or makes one under a new id that is neither verified nor has a code |
| DeviceCredentials.APhoneProvesItself | app/push.py:201-309 | from any state a phone that registers, is sent a code and posts it is verified under its own secret, whoever held its token before, unless the last code is younger than a minute or it joins an owner's request that is used up or backing off |
| DeviceCredentials.WhoIsLetIn | app/api.py:519-540 | a request is let in exactly with the main secret, or the pending one for a day, of a device not retired |
| DeviceCredentials.WhatOwnersDo | app/repo.py:484-538 | its owner deletes a device, or moves it to a token no other holds, after which nothing sent to the old one counts |
| DeviceCredentials.OnlyOwnersDo | app/repo.py:484-538 | nobody else does either |
| DeviceCredentials.WhatAskingAgainDoes | app/repo.py:322-366 | asking again restarts the request and drops a code that is a minute old; with a pending secret it joins an owner's waiting request without a fresh start |
| DeviceCredentials.ARefusedDeviceWaits | app/repo.py:205-268 | after a refusal a sender picks the device again exactly once 60 seconds, doubled with every refusal up to an hour, have passed, within a day of the request and with fewer than three confirmed refusals |
| DeviceCredentials.WhatStoringDoes | app/repo.py:294-307 | storing a code takes effect exactly if the push is undelivered and the last code a minute old; otherwise the sender gives up |
| DeviceCredentials.WhatLookingAgainDoes | app/push.py:270-309 | a sender goes on only while the device holds the token it was picked with |
| DeviceCredentials.WhatSendingDoes | app/repo.py:310-319 | a delivery is stamped, and the refusals cleared, only on the row that still holds its code |
| DeviceCredentials.WhatHousekeepingDoes | app/repo.py:446-465 | a retirement marks only the row that still holds the dead token; a purge takes away one row |
| VerifyBudget.TheWaitIsToTheFirstMoment | app/repo.py:127-163 | the wait is at most d exactly if at now + d the last answered attempt is a minute old, fewer than 5 rows of the last day are credited and of the kind, and fewer than 20 are credited or made under the current settings |
| VerifyBudget.TheWaitRunsDown | app/repo.py:127-163 | with no new attempt the wait at t + d is max(0, wait at t - d) |
| VerifyBudget.OtherSettingsCostAMinute | app/repo.py:138-143 | a refusal without evidence under other settings changes the wait by its own minute only |
| VerifyBudget.NoDayHoldsMore | app/repo.py:195-203 | over any log of attempts made when the wait was over no day holds more than 5 credited rows of a kind or 20 rows in all |
| VerifyBudget.NoDayExceedsTheBudget | app/repo.py:195-203 | no day holds more than 5 credited attempts of a kind or 20 answered ones per token, any two a minute apart, when check and record are one step under fixed settings |
| PushLaws.EveryPushIsAccountedFor | app/push.py:595-792 | every item was unreachable, already claimed, delivered, dropped, retired or released, exactly one of these |
| PushLaws.NoClaimIsLeftPending | app/push.py:757-791 | of the batch's claims exactly the delivered ones remain, stamped; no other row changes |
| PushLaws.AttemptsStayInBudget | app/push.py:667-672 | at most `max_items` attempts, none started after `max_seconds` |
| PushLaws.NothingFollowsAnOutage | app/push.py:664-666 | nothing is tried on a platform after it deferred |
| PushLaws.PushesReachOnlyVerifiedTokens | app/push.py:633-652 | a push goes out only to the token its unretired device held when the batch read it, verified unless it is the verification itself |
| PushLaws.RetirementNeedsEvidenceInABatch | app/push.py:743-756 | a batch retires a device only with a delivery in the same batch or since the remembered first dead answer |
| PushLaws.FailuresNeedEvidence | app/push.py:712-745 | what a batch reports as failed was refused, and for a reason about the item itself: unsendable, refused by a platform that delivered in the batch, or a dead token with evidence |
| PushOutcomes.EveryClaimedItemHasItsTurn | app/push.py:662-672 | a claimed item is tried in its turn unless an earlier attempt on its own platform found that down, out of quota or refusing our credentials twice, or the budget was spent by then; attempts are made in list order, once per item |
| PushOutcomes.TheLogIsTheRelays | app/push.py:673-674 | the log is what the relays answered, one request per attempt and a second one after refused credentials, at the times they took |
| PushOutcomes.WhatBecomesOfAnItem | app/push.py:674-711 | delivered is exactly what was accepted, dropped what was refused or could not be sent, retired a dead token on a platform that delivered in the batch or since the remembered dead answer; everything else claimed is released |
| PushOutcomes.WhatABatchDoesToADevice | app/push.py:743-777 | a batch retires a device and ends its subscriptions exactly if it answered dead with that evidence; without it the first moment is remembered, and an accepted push forgets it; nothing else of the row changes |
| PushOutcomes.WhatIsReported | app/push.py:712-760 | refused is every key answered with a dead token, a throttle or a refusal or not sent at all; failed are those whose answer says something about the item |
| PushOutcomes.WhatIsUndeliverable | app/push.py:640-760 | undeliverable are the keys of items that could not be reached, that were refused for their payload or could not be sent, and that met a dead token on a platform known to work |
| PushOutcomes.DeliveredAreStamped | app/push.py:675-681 | a delivered key is stamped with its platform at the time of the answer |
| PushOutcomes.WhichItemsAreClaimed | app/push.py:632-652 | claimed is, in list order, for every key nobody sent or is sending, the first item whose device is there, not retired, on a platform with credentials, holds the item's token and is verified unless it is the verification itself; unreachable are exactly the items that fail this |
| PushDesk.Desk.Claim | app/push.py:635-652 | the claim loop |
| PushDesk.Desk.Attempt | app/push.py:795-803 | one attempt with a single retry on refused credentials |
| PushDesk.Desk.TryOne | app/push.py:662-711 | one pass of the loop |
| PushDesk.Desk.Judge | app/push.py:743-756 | dead answers sorted by evidence, before anything is written |
| PushDesk.Desk.Report | app/push.py:712-719 | the refusals reported, and those that count as failures |
| PushDesk.Desk.Retire | app/repo.py:446-465 | retires each device that still holds its token, with its subscriptions |
| PushDesk.Desk.Hold | app/push.py:772-777 | remembers the first dead answer |
| PushDesk.Desk.Settle | app/push.py:720-792 | retires, holds and releases what the loop left |
| PushDesk.Desk.SendPushBatch | app/push.py:595-792 | the whole method computes `Batch` and reports what was delivered, refused and failed |
| Retirement.RetirementNeedsEvidence | app/push.py:720-756 | in any interleaved run a device is retired only if its platform accepted a push in the same batch or since the first dead answer for its token, or if it is unverified and holds no subscription |
| Retirement.ASilentPlatformEndsNoSubscription | app/push.py:720-745 | a platform that never accepts anything never ends a subscription; only its owner does |
| Retirement.AFreshSubscriptionHolds | app/push.py:720-745 | a subscription newly made on a device is there, and holds in the same silence |
| Retirement.WhoEndsASubscription | app/repo.py:446-465 | a subscription ends exactly by its owner's unsubscribing, by its device's deletion, or by a batch that decided to retire the device while that still holds the token and is not retired; the others stay where they are |
| Retirement.AnEndedBatchHearsNoMore | app/push.py:681-686 | a batch that has ended is credited with no later answer, so "in the same batch" means that batch |
| Retirement.ADeliveryRetiresTheDead | app/push.py:743-756 | a phone that answered dead is retired with its subscriptions in the very batch in which its platform accepts a push to another phone, before or after |
| Retirement.TheFirstDeadAnswerIsRemembered | app/push.py:772-777 | without evidence the first dead answer is remembered, and nothing else changes |
| Retirement.ALaterDeliveryRetiresTheDead | app/push.py:746-756 | once its platform has accepted a push since then, in whatever batch, its next dead answer retires it |
| Retirement.WhoGoesUnconfirmed | app/repo.py:271-291 | a device goes without evidence exactly if it is unverified, holds the refused token, was refused three times and holds no subscription |
| BatchRuns.ABatchIsARun | app/push.py:595-792 | a push batch is a run of the interleaved machine by its own steps only (time passing, its keys forgotten, and deliveries, dead answers, judgements and retirements under its number): it leads from the tables the batch starts with to those it leaves, and the machine hears exactly the deliveries and dead answers the batch logged, in order |
| BatchRuns.ASilentBatchEndsNoSubscription | app/push.py:720-745 | after any history a batch in which a platform accepts nothing, as before, ends no subscription on that platform |
| BatchRuns.ABatchRetiresOnEvidence | app/push.py:720-756 | after any history a batch retires a device only if its platform accepted a push in that batch or, on the machine's record, since the device's token first answered dead |
| RateLimiter.IPRateLimiter.Sweep | app/ratelimit.py:53-58 | sweeping removes nothing a later answer needs |
| RateLimiter.IPRateLimiter.Prune | app/ratelimit.py:40-44 | a pruned queue holds exactly the window's accepted hits |
| RateLimiter.IPRateLimiter.HitAll | app/ratelimit.py:28-51 | all-or-nothing hits get the answer a full log of accepted hits gives |
| RateLimiter.IPRateLimiter.HitOne | app/ratelimit.py:25-26 | the same for one key |
| RateLimiter.NoWindowExceedsTheLimit | app/ratelimit.py:28-51 | no window of a key's length holds more accepted hits than its limit |
| RateLimiter.WhoIsLetThrough | app/ratelimit.py:28-51 | a request is let through exactly if every key has fewer accepted hits in the window than its limit, and then counts one for each; otherwise it is refused for the first key without room and counts nothing |
| RateLimiter.NoWindowHoldsMore | app/ratelimit.py:28-51 | the limit, counted in the log of accepted hits |
| Konsentas.OpeningsAreSpaced | app/scrapers/konsentas.py:147-152 | whatever the server answers, sign-ups of one form are opened at least 30 minutes apart |
| Konsentas.ForwardOnlyWhenTrackedAtServices | app/scrapers/konsentas.py:133-142 | a forward step goes out only when the tracked step is the service step |
| Konsentas.ForwardOnlyFromServices | app/scrapers/konsentas.py:108-121 | if an error reply whose session the poll keeps means that the step was not taken, every forward step starts at the sign-up's real service step |
| Konsentas.AStepTakenInSpiteOfARefusalGoesOn | app/scrapers/konsentas.py:200-207 | when a poll ends with a step taken in spite of an error reply and keeps the session, whatever the reply said, the next poll in the session's time steps forward from wherever the sign-up is |
| Konsentas.WhatAPollAsksFirst | app/scrapers/konsentas.py:129-163 | a poll sends a sign-up younger than seven hours forward from the services or back from the slots; with any other, or none, it opens another, unless one was opened within half an hour: then it asks nothing |
| Konsentas.AFreshSignupGoesForwardAgain | app/scrapers/konsentas.py:133-142 | a fresh sign-up at the slots, walked back by an answering server, goes forward again and reads the slots in the same poll |
| Konsentas.ANewSignupReadsTheSlots | app/scrapers/konsentas.py:146-184 | so does one that is opened because there was none |
| Konsentas.WhereAStepForwardLeads | app/scrapers/konsentas.py:166-184 | an answered step forward that leads to the slots has them read; one that stays at the services ends the poll; one that leads elsewhere has the sign-up walked back and ends the poll |
| Konsentas.WhatALaterRefusalCosts | app/scrapers/konsentas.py:166-203 | a token refused at the slots or walking back is dropped at once, and another sign-up opened in the same poll if half an hour has passed since the last |
| Konsentas.WhereOpeningLeads | app/scrapers/konsentas.py:146-163 | a new sign-up that does not stand at the services, or was not answered, ends the poll, is not kept, and counts as opened for half an hour |
| Konsentas.WhatAFailedWalkBackCosts | app/scrapers/konsentas.py:133-145 | a lost walk back ends the poll and the tracking; a refused one, or one that leads elsewhere, has another sign-up opened if it may be |
| Konsentas.WhatARefusalCosts | app/scrapers/konsentas.py:200-207 | an error reply to the step forward ends the poll and keeps the sign-up; only a refused token is dropped, and another one opened in the same poll if it may be |
| Konsentas.Poller.Send | app/scrapers/konsentas.py:108-115 | one request |
| Konsentas.Poller.Step | app/scrapers/konsentas.py:108-121 | the session follows an answer, stays on an error reply, loses track when nothing came back |
| Konsentas.Poller.OpenSignup | app/scrapers/konsentas.py:146-163 | a sign-up is dropped and another opened unless the last one is too recent |
| Konsentas.Poller.SignupAtTheServices | app/scrapers/konsentas.py:129-163 | the cached sign-up walked back, or a fresh one |
| Konsentas.Poller.ReadSlots | app/scrapers/konsentas.py:172-184 | after a forward step: the slots, or back again |
| Konsentas.Poller.FetchOnce | app/scrapers/konsentas.py:166-184 | one fetch |
| Konsentas.Poller.PollForm | app/scrapers/konsentas.py:200-207 | a poll, once more with a fresh sign-up if the token was dropped |

## Left out

- Provider, relay and booking-site protocols, HTML and JSON parsing: they are oracles here (`app/scrapers/smartcjm.py`, `app/scrapers/tevis.py`, `_call_*`, `_send_one`); how a relay's status maps to an answer (`_apns_verdict`, `_fcm_verdict`) is a table without an invariant.
- Rendering, translation, templates, statistics, analytics, snapshots, canary, backup and summary mails: no state that another part relies on.
- `app/filters.py`: `matches` is an arbitrary predicate on finds.
- Poll intervals per city and the order in which plans are polled: they decide when finds arrive, which is arbitrary here.
- `send` for single mails outside the batch: it shares `_claim`, modelled in `ClaimProtocol`; its own chain ignores quotas.
- `_deferral_wall` and the alert mails: reporting only.
- `db_rate_hit`, `db_rate_hit_all`, `rate_wait`, `unverified_devices`: counts over one table inside one transaction; the sliding-window argument is the one proved for `RateLimiter`.
- Refusals of a request for reasons other than the plan cap (rate limits, per-device and per-city ceilings of app subscriptions): such a request reaches no transaction, so it is no event of `Admission`.
- Admission.Step: rows are edited or confirmed even when they were deleted or expired since the route read them, as the statements allow; runs include that.
- PushBatch.Batch: dead answers of both platforms are judged together, which is the same because no row belongs to two platforms.
- BatchRuns.ABatchIsARun: answers are matched by device, token, platform and outcome; a batch's log keeps when a try started, the machine when it was answered.
- DeviceProtocol.Step: a sender's daily budget, backoff and platform credentials only delay or drop its steps; the steps here may come at any time. The budget itself is `VerifyBudget`.
- DeviceProtocol.OneCodeAMinute: a token change in between may bring the next code forward, as the code intends.
- VerifyBudget.NoDayExceedsTheBudget: with concurrent senders the check and the record are two steps and the budget is approximate; the one-a-minute claim bounds it.
- DigestFlush.Desk.Flush: the push batch runs beside the mail batch in the code; here it is whatever set of keys the relay delivered. The in-memory database, where an exception of the mail batch skips the pushes, is not modelled.
- Confirmations.Pass: the queue is kept in order of sign-up; ties of the same second keep table order.
- RateLimiter.IPRateLimiter.HitAll: one window per key, as every caller uses it, and a clock that does not go back.
- Konsentas.ForwardOnlyFromServices: an answer is taken to tell the truth about the step it reports.
- SHA-256, HMAC tokens, Play Integrity, CORS, threads, WAL and SQL engine details.
