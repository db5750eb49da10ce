# Commonweal: contribution, scheduling, sealed streams, replay and the roster

This project models the coordinator of a Commonweal federation and the two protocols around it, and
proves what they keep over whole runs. Everything a deployment does is a sequence of steps, each of
them what one task does between two awaits; a run is any interleaving of steps.

* `Peers.dfy`, `Ledger.dfy` - roster entries, the split of a peer's residency, the two ledger tables
  and the balances computed from them.
* `Registry.dfy` - heartbeats, attestations, liveness and slots, as functions on one value.
  `Crediting.dfy` proves when the two crediting paths pay for the same time, `Coverage.dfy` when they
  leave time out, `FirstWord.dfy` has two runs in which a member's first word does that, `Standing.dfy`
  bounds what anyone can be credited, `Payment.dfy` states what is paid, `Routing.dfy` shows that
  attestations cannot route, `RegistryObject.dfy` is the registry as an object.
* `WaitHeap.dfy` - the binary heap of waiters, with `heapq`'s own sifting. `Scheduler.dfy` - leases,
  the queue and the dispatch loop. `Slots.dfy` proves what every operation keeps, `Fairness.dfy` who
  is served and when nobody waits beside a free slot, `SchedulerObject.dfy` is the scheduler as an object.
* `Coordinator.dfy` - the handlers as one machine. `CoordinatorLaws.dfy` and `RelayLaws.dfy` prove
  slot conservation, billing linearity, bounded relays and work conservation over every run;
  `Overrun.dfy` is a run in which a peer streams more than it declares, `Overtaking.dfy` one in which a
  newcomer is served first; `Projection.dfy` shows that a
  run of the coordinator is a run of the registry, so that the crediting results hold of it;
  `CoordinatorObject.dfy` is the coordinator as an object.
* `Words.dfy`, `Earnings.dfy`, `Queueing.dfy`, `Billing.dfy` - what runs of the coordinator come to, read
  off the requests: whether a peer is live, what its members have been credited, who is served
  first, who is let through and what is billed. `Rerouting.dfy` is a run in which credit decides whether
  a peer stays live.
* `Sealing.dfy`, `Frames.dfy` - chunk nonces, the ideal cipher, and the lines of a response stream.
  `PeerStream.dfy` and `ClientStream.dfy` are its two ends, `StreamLaws.dfy` what the client can rely on.
* `Replay.dfy`, `ReplayLaws.dfy` - the freshness window and the bounded seen-set. `Auth.dfy` is the
  set as an object and the order of checks on a signed request.
* `TextOrder.dfy`, `Roster.dfy`, `RosterLaws.dfy`, `RosterOrder.dfy`, `RosterLoad.dfy` - reading,
  writing, signing and loading the roster.
* `Readiness.dfy`, `ReadinessObject.dfy` - the peer's single-flight readiness probe.

Functions on values say what an operation does; each class has a ghost function `View` and methods
whose postconditions equate the new view with that function of the old one.

## Where the code and its comments part

* The two crediting paths do not always partition time (`coordinator/registry.py:139-143`): an owner
  who beats late pays a contributor back over time its own attestation was already paid for.
  `Crediting.PaidOnceExactly` gives the exact condition and `Crediting.PartitionCanFail` a run.
* Nor do they always cover it ("the same GB-hours either way, once", `coordinator/registry.py:159-160`).
  A contributor that attests and then falls silent is left to its own word by one beat and paid from
  that beat on by the next, and the time between is no one's: `Coverage.GapCanOpen` is a run with beats
  a minute apart. And a contributor's first own word while its group serves starts its clock, or settles
  for nothing what its own attestation did not yet hold, although the owner's next beat would have paid
  for that time: `FirstWord.FirstWordCosts` and `FirstWord.LateFirstWordCosts`.
  `Coverage.CoversExactly` gives the exact condition.
* Crediting a member on its owner's word leaves it "not attesting" (`coordinator/registry.py:174-176`),
  by an attestation heard at zero. The registry's clock is a monotonic one, and until it has run for one
  timeout that attestation passes for a recent one, so beats skip the member and nobody pays it:
  `Earnings.EarnsExactly` has the condition and `Earnings.EarlyClockCosts` a run.
* A contributor's word must not change routing (`coordinator/registry.py:189-192`). It changes no peer's
  state (`Words.OnlyOwnersRoute`), and a peer is live exactly by its owner's word and the relays that
  failed since (`Words.LiveExactly`); but what it is credited decides who is served next, and so whose
  relay runs and can fail: `Words.DeletionMovesExactly`, with `Rerouting.CreditCanReroute` for a run.
* Expiry also reclaims leases that were redeemed and are still streaming
  (`coordinator/scheduler.py:213-219`). `RelayLaws.RunsHoldExactly` says exactly when a running relay
  loses its lease, and `Overrun.ExpiryCanOverrun` is a run with two relays on a one-slot peer.
* An owner's beat that revives a peer does not serve the queue, so a newcomer can be served before
  someone who is waiting, until the next request that gives a lease back. `RelayLaws.ConservesExactly`
  says exactly when a run leaves anyone waiting beside a free slot, `RelayLaws.WorkConservation` that it
  lasts no longer than that, and `Overtaking.NewcomerOvertakes` is a run in which a newcomer takes it.
* A cancelled readiness probe leaves no verdict behind, so the next caller probes at once
  (`peer/app.py:122-131`): `Readiness.ProbesApartExactly`, and `Readiness.CancelledProbeIsNotCounted`
  for a run.
* A peer whose engine reports a negative token count ends a whole answer with a receipt the client
  refuses: `StreamLaws.HonestRoundTrip` makes the counts part of its condition, and
  `StreamLaws.NegativeCountIsRefused` is such an answer.

## Model

| member | source | states |
|---|---|---|
| Crediting.PartitionExactly | src/commonweal/coordinator/registry.py:98-151 | over any run with a forward clock, for each member of each peer, no interval paid to it starts before an earlier one of its own that was paid (or, the other reading, that was settled for any time at all) has ended, if and only if no beat of that peer's owner that pays finds the member not attesting any more, its own word having been paid (settled) past where the beat starts |
| Crediting.PaidOnceExactly | src/commonweal/coordinator/registry.py:139-143 | over any run, some instant is paid twice to a member of a peer if and only if that guard fires for that member and paid time |
| Crediting.HeardIsSpoken | src/commonweal/coordinator/registry.py:186-229 | the own word the guard speaks of is an event of the run: an attestation, or a contributing owner's beat, that settled or paid time past that point |
| Crediting.PartitionsUnderTimelyBeats | src/commonweal/coordinator/registry.py:139-143 | if a peer's owner lets no more than the heartbeat timeout pass between beats, no interval paid or settled for one of its members is ever paid for again, whatever other peers do |
| Crediting.NoInstantPaidTwice | src/commonweal/coordinator/registry.py:128-133 | under the partition no instant is inside two paid intervals of one member |
| Crediting.PartitionCanFail | src/commonweal/coordinator/registry.py:121-143 | a concrete run, with the default timeout and beats 200 seconds apart, in which two intervals paid to a contributor both contain the same instant |
| Crediting.RunKeeps | src/commonweal/coordinator/registry.py:171-229 | in every run no attestation is credited past the later of its own last word and its owner's last beat, and the log of settled intervals ends where the clocks stand |
| Crediting.AttestKeeps | src/commonweal/coordinator/registry.py:186-229 | an attestation keeps that invariant and changes no peer's state |
| Crediting.AttestPartitions | src/commonweal/coordinator/registry.py:186-229 | an attestation never pays for time again |
| Crediting.BeatPartitions | src/commonweal/coordinator/registry.py:121-149 | a beat keeps either reading of the partition exactly when its guard does not fire |
| Crediting.HealthyMeansBeaten | src/commonweal/coordinator/registry.py:144-150 | a healthy peer is credited exactly up to its owner's last beat |
| Standing.LedgerIsTheLog | src/commonweal/ledger.py:84-96 | in every run the contribution table is the paid entries of the log, in order, each row the length of its interval |
| Standing.StandingBound | src/commonweal/coordinator/registry.py:85-96 | unless the guard of `Crediting.PaidOnceExactly` fires for this contributor at this peer, its total GB-seconds there is at most the larger of its declared share and its part of the declared capacity, times the time elapsed |
| Standing.StandingBoundAnyway | src/commonweal/coordinator/registry.py:186-229 | with no condition on the beats, at most twice that |
| Standing.PathsBound | src/commonweal/coordinator/registry.py:121-143 | each path alone stays within its own rate, whatever the beats do |
| Standing.SoleOwnerBound | src/commonweal/roster.py:152-153 | the owner of a peer with no contributors earns at most the capacity times the time elapsed, unconditionally |
| Standing.GroupBound | src/commonweal/roster.py:141-157 | unless that guard fires for one of its contributors, a group earns at most the larger of its capacity and the sum of its shares, times the time elapsed |
| Standing.GroupBoundAnyway | src/commonweal/roster.py:141-157 | with no condition on the beats, at most twice that |
| Standing.ChainBound | src/commonweal/coordinator/registry.py:139-143 | intervals that do not overlap, paid within a rate, cannot pay more than the rate times the time they span |
| Coverage.CoversExactly | src/commonweal/coordinator/registry.py:125-229 | over any run, each time a member is settled it is from where it was last settled or, the first time while its group serves, from its owner's last beat, forfeiting only what is older than five minutes, and for nothing only if the group is out or it said itself that it held nothing; this if and only if no owner's beat meets the guard of the next row and no first own word of a member comes, while the group serves, later than its last settlement or else its owner's last beat |
| Coverage.JoinsExactly | src/commonweal/coordinator/registry.py:125-163 | the part about an owner's beats: over any run, each settled interval of a key but its first takes up where an earlier one ended, forfeiting only what is older than five minutes, if and only if no owner's beat finds a contributor settled before the owner's previous beat and not attesting any more |
| Coverage.CoveredLeavesNothingOut | src/commonweal/coordinator/registry.py:139-143 | where that holds, every instant since a key was first settled is inside one of its intervals, unless it was forfeit |
| FirstWord.FirstWordCosts | src/commonweal/coordinator/registry.py:206-214 | a concrete run, beats sixty seconds apart and the group serving, in which a contributor's first word leaves a minute of hers in no interval; the same run without her word pays her for it |
| FirstWord.LateFirstWordCosts | src/commonweal/coordinator/registry.py:171-229 | a concrete run in which the time between an owner's beat that paid a contributor and her first word is settled for nothing |
| Coverage.GapCanOpen | src/commonweal/coordinator/registry.py:153-163 | a concrete run, beats sixty seconds apart, in which a minute of one contributor is settled by no interval and her clock has passed it, while the other is paid for it |
| Payment.BeatPaysResidency | src/commonweal/coordinator/registry.py:121-143 | an owner's beat pays its group exactly what was resident times the time since the last beat, at most five minutes, when nobody attests: the split loses nothing |
| Payment.AttestationPays | src/commonweal/coordinator/registry.py:216-229 | an attestation pays exactly what the member held times the time since it was last credited, at most five minutes, while the group can serve |
| Payment.SilenceIsNotPaid | src/commonweal/coordinator/registry.py:121 | in every run no settled interval is longer than five minutes |
| Earnings.EarnsExactly | src/commonweal/coordinator/registry.py:98-151 | over any run of the coordinator, a peer with no contributors has been credited in all exactly what its owner reported (nothing if negative, the capacity if above it) times the time to the owner's next beat, at most five minutes each, for each time it was well and had not lost two relays, unless an attestation made by crediting was mistaken for a recent one |
| Earnings.NeverMistaken | src/commonweal/coordinator/registry.py:167-169 | no attestation is mistaken once the clock has run for one timeout |
| Earnings.WordEarnsExactly | src/commonweal/coordinator/registry.py:204-229 | in any run, a contributor's word adds exactly what it said the time before, cut to its share, times the time since it was last settled, at most five minutes, if the peer is well; nothing the first time |
| Earnings.PartEarnsExactly | src/commonweal/coordinator/registry.py:121-143 | in any run, an owner's beat adds to each other contributor exactly its part, in proportion to the roster's shares, of what the owner reported the time before, for the time since, unless the contributor has spoken for itself within the timeout |
| Earnings.EarlyClockCosts | src/commonweal/coordinator/registry.py:166-182 | a concrete run, beats at 10, 30 and 50 seconds of a clock that has just started, in which the last twenty seconds are paid to nobody |
| Words.WordIsKept | src/commonweal/coordinator/registry.py:98-151 | in every reachable state a peer is last seen, credited, resident and well as its owner last said in the requests, its residency cut to the capacity and its health ended by two failed relays since |
| Words.LiveExactly | src/commonweal/coordinator/registry.py:251-265 | after any run a peer is live if and only if its owner's last heartbeat, at most the timeout ago, said it was well, and at most one relay to it has failed since |
| Words.OwnersBeatSets | src/commonweal/coordinator/app.py:185-195 | the owner's heartbeat sets what is known of its peer from the request, and nothing of another peer or of slots |
| Words.OnlyOwnersRoute | src/commonweal/coordinator/app.py:181-206 | a heartbeat from anyone else changes no peer's state, no lease and no wait; one from a signer who holds no share either changes nothing |
| Words.SaidIsKept | src/commonweal/coordinator/registry.py:186-229 | in every reachable state an attestation was heard when its member last spoke and holds what it then claimed, cut to its share; one that only crediting made was never heard and holds nothing |
| Words.StrangersChangeNothing | src/commonweal/coordinator/app.py:203-206 | deleting the heartbeats of strangers from a run leaves the coordinator exactly as it was |
| Words.OthersDoNotRoute | src/commonweal/coordinator/registry.py:189-192 | deleting every heartbeat but the owners' from a run leaves what owners' beats set as it was, and every liveness answer while at most one relay has broken since the owner's beat |
| Words.DeletionMovesExactly | src/commonweal/coordinator/registry.py:189-192 | exactly when deleting them does change a liveness answer: the owner's word still counts, and too many relays have failed since in one of the two runs alone |
| Rerouting.CreditCanReroute | src/commonweal/coordinator/scheduler.py:113-120 | a concrete run in which it does: paid for her memory, a contributor is served before another, and her relay is the second to fail |
| Words.ReadingSeesAll | src/commonweal/coordinator/registry.py:275-280 | reading the statistics creates an unhealthy state for every peer of the roster without one and changes no other |
| Routing.TwoStrikes | src/commonweal/coordinator/registry.py:251-265 | one failed relay leaves liveness alone, a second with no healthy beat between ends it |
| Routing.AttestationsDoNotRoute | src/commonweal/coordinator/registry.py:186-196 | deleting every contributor attestation from a run leaves each peer's state and every liveness answer unchanged after every prefix |
| Peers.SplitConserves | src/commonweal/roster.py:141-157 | the shares of a split sum to the residency that was split |
| Peers.SplitMembers | src/commonweal/roster.py:152-157 | each contributor gets one share, positive whenever the residency is |
| Ledgers.BalancesSumToTotals | src/commonweal/ledger.py:136-178 | balances summed over every name in the tables equal the totals |
| Ledgers.ScorePositive | src/commonweal/ledger.py:153-155 | every score is positive, newcomers' included |
| Projection.ScoresStayPositive | src/commonweal/coordinator/scheduler.py:113-119 | in every reachable state of the coordinator the books are sound, so every score the queue sorts by is positive |
| Ledgers.ContributionRaisesOnlyItsOwner | src/commonweal/ledger.py:84-96 | one more contribution never lowers its owner's score and leaves every other balance alone |
| Ledgers.ConsumptionLowersOnlyItsMember | src/commonweal/ledger.py:98-132 | one more consumption never raises its member's score and leaves the others alone; a second row for its request id changes nothing |
| Ledgers.ScoreIs | src/commonweal/ledger.py:136-164 | the score times the thousands of tokens consumed plus one is the GB-hours contributed plus one; a newcomer's is one |
| Ledgers.NewRowCharges | src/commonweal/ledger.py:98-132 | the first row of a request adds its counts to its member and to the total and strictly lowers the member's score if it counts anything |
| Ledgers.NewRowCredits | src/commonweal/ledger.py:84-96 | a contribution for some time and nothing negative adds what was held times that time, and strictly raises its owner's score if anything was held; any other changes nothing |
| Billing.BilledExactly | src/commonweal/coordinator/app.py:268-278 | after any run the consumption table holds a row if and only if it is the first receipt that came through the running relay of its request id, with the relay's sender and peer and that receipt's counts |
| Billing.ReceiptChargesExactly | src/commonweal/ledger.py:98-155 | in any run the first receipt of a running relay adds exactly its counts to its member's tokens and to the total, and strictly lowers the member's score if it counts anything; a later one changes nothing |
| Ledgers.WritesKeepSoundBooks | src/commonweal/ledger.py:88-132 | no write makes a negative row or a second bill for a request id |
| Ledgers.Ledger.Contribute | src/commonweal/ledger.py:84-96 | the new table is the old one with the row appended, or unchanged for no time or negative residency |
| Ledgers.Ledger.Consume | src/commonweal/ledger.py:98-132 | the new table is the old one with the row appended unless its request id is there already |
| RegistryObject.Registry.Heartbeat | src/commonweal/coordinator/registry.py:98-151 | the beat's whole effect on states, attestations, ledger and log, and its refusal of unknown peers |
| RegistryObject.Registry.Attest | src/commonweal/coordinator/registry.py:186-229 | the attestation's whole effect, and its two refusals, which change nothing |
| RegistryObject.Registry.SettleShares | src/commonweal/coordinator/registry.py:125-143 | the loop over the split skips members attesting for themselves and marks the rest |
| RegistryObject.Registry.MarkFailure | src/commonweal/coordinator/registry.py:251-259 | two failures with no healthy beat between take a peer out of the pool |
| RegistryObject.Registry.State | src/commonweal/coordinator/registry.py:275-280 | a read creates an unhealthy state where there is none and changes nothing else |
| RegistryObject.Registry.AcquireSlot | src/commonweal/coordinator/registry.py:285-286 | one more slot in use on that peer |
| RegistryObject.Registry.ReleaseSlot | src/commonweal/coordinator/registry.py:288-290 | one slot fewer, never below zero |
| WaitHeap.PopBest | src/commonweal/coordinator/scheduler.py:183 | popping a heap takes the first waiter in (negated score, ticket) order and leaves the others in order |
| WaitHeap.PushNew | src/commonweal/coordinator/scheduler.py:113-120 | pushing inserts a waiter at its place in that order |
| WaitHeap.PushAll | src/commonweal/coordinator/scheduler.py:193-194 | pushing the deferred waiters back restores their order |
| WaitHeap.Remove | src/commonweal/coordinator/scheduler.py:196-201 | removing a ticket and rebuilding the heap leaves the order of the rest, and a missing ticket changes nothing |
| WaitHeap.SortIs | src/commonweal/coordinator/scheduler.py:67-73 | a heap of distinct tickets stands for one strictly ordered queue of the same waiters |
| Fairness.PickIsLeast | src/commonweal/coordinator/scheduler.py:161-166 | the peer picked is a live one with a free slot, least loaded, ties to the smaller id, in whatever order peers are listed |
| Fairness.ExactDispatch | src/commonweal/coordinator/scheduler.py:179-194 | one dispatch serves, for each model, precisely the pending waiters that come first, as many as there are free slots for it; the rest stay queued in order and finished ones vanish |
| Fairness.DispatchUses | src/commonweal/coordinator/scheduler.py:179-194 | the free slots of a model fall by exactly the smaller of their number and its pending waiters |
| Fairness.DispatchConserves | src/commonweal/coordinator/scheduler.py:179-194 | after a dispatch no pending waiter has a live peer of its model with a free slot |
| Fairness.NoOvertaking | src/commonweal/coordinator/scheduler.py:100-107 | a newcomer is granted a slot on the spot only if no pending waiter could have used it |
| Fairness.RegistryConservesExactly | src/commonweal/coordinator/registry.py:144-151 | beats, attestations, failures and reads leave someone waiting beside a free slot exactly when an owner's beat revives a peer with a free slot for a pending waiter |
| Fairness.ExpiryRecovers | src/commonweal/coordinator/scheduler.py:213-219 | expiry releases every lease past its term and only those, counts them, and with a positive term leaves none expired |
| Queueing.AcquireExactly | src/commonweal/coordinator/scheduler.py:100-112 | a request is turned away exactly when no live peer runs its model, granted a lease of full term on the least loaded one with a free slot if there is any, refused if the queue is full, and queued otherwise |
| Queueing.QueueOrder | src/commonweal/coordinator/scheduler.py:113-120 | after any run those who wait are in order of the score each had when it asked, highest first, and equal scores in the order of asking |
| Queueing.HigherScoreFirst | src/commonweal/coordinator/scheduler.py:179-194 | no request of any run gives a member a lease while another still waits for the same model who had a higher score on joining, or the same and joined before |
| Queueing.ServedAsAsked | src/commonweal/coordinator/scheduler.py:179-194 | in any run, whoever waited and was served holds a lease of its own on a peer of the model it asked for |
| Queueing.LeavingIsFinal | src/commonweal/coordinator/scheduler.py:121-128 | a wait that ends while pending is given no lease by anything that happens afterwards |
| Queueing.CleanedUpIsGone | src/commonweal/coordinator/scheduler.py:196-201 | a wait that has ended and been cleaned up after is out of the queue for good, and nobody else with it |
| Queueing.ServedIsFinal | src/commonweal/coordinator/scheduler.py:121-128 | one that was served keeps its lease whatever happens to the wait |
| Slots.GiveBackKeeps | src/commonweal/coordinator/registry.py:288-290 | a slot given back was in use, so the floor at zero never bites |
| Slots.SlotsAreLeases | src/commonweal/coordinator/registry.py:282-290 | each peer's slots in use are its leases, within its limit, and sum to the active leases |
| Slots.DispatchKeeps | src/commonweal/coordinator/scheduler.py:179-194 | a dispatch keeps slots, leases and queue sound |
| Slots.ReleaseKeeps | src/commonweal/coordinator/scheduler.py:130-136 | so does a release |
| Slots.RedeemKeeps | src/commonweal/coordinator/scheduler.py:138-157 | so does a redemption, granted or refused |
| Slots.AcquireKeeps | src/commonweal/coordinator/scheduler.py:100-120 | so does an acquisition, whichever way it ends |
| Slots.AbandonKeeps | src/commonweal/coordinator/scheduler.py:121-128 | so does a wait that ends early, even one whose future already holds a lease |
| SchedulerObject.Scheduler.Acquire | src/commonweal/coordinator/scheduler.py:100-122 | the answer and the whole new state, up to the wait |
| SchedulerObject.Scheduler.Release | src/commonweal/coordinator/scheduler.py:130-136 | the lease is gone, its slot is back and the queue is served |
| SchedulerObject.Scheduler.Redeem | src/commonweal/coordinator/scheduler.py:138-157 | which of the four refusals applies, or the lease, and the whole new state |
| SchedulerObject.Scheduler.Pick | src/commonweal/coordinator/scheduler.py:161-166 | the loop over peers finds the one the order defines |
| SchedulerObject.Scheduler.Dispatch | src/commonweal/coordinator/scheduler.py:179-194 | popping a real heap until it is empty and pushing back the deferred does what the ordered queue defines |
| SchedulerObject.Scheduler.Drop | src/commonweal/coordinator/scheduler.py:196-201 | a waiter still queued is removed, one already dispatched is not there to remove |
| SchedulerObject.Scheduler.ExpireStale | src/commonweal/coordinator/scheduler.py:213-219 | the count and the whole new state after the stale leases are released one by one |
| CoordinatorLaws.SlotConservation | src/commonweal/coordinator/registry.py:275-290 | in every reachable state, under any interleaving of requests, timeouts, redemptions, relays and heartbeats, slots in use are leases, within limits |
| CoordinatorLaws.BillingLinearity | src/commonweal/coordinator/app.py:261-300 | each request id is redeemed at most once, by the member it was issued to; each bill has a request id of its own, redeemed by the member billed, on the peer its lease named, however many receipts arrive |
| CoordinatorLaws.GrantKeepsBilling | src/commonweal/coordinator/scheduler.py:138-157 | a redemption that is granted is the first for its id |
| CoordinatorLaws.RunKeeps | src/commonweal/coordinator/app.py:164-308 | every request keeps the scheduler and the bills sound |
| Billing.RedeemedExactly | src/commonweal/coordinator/scheduler.py:138-157 | a request is let through if and only if its sender holds a lease under its id, in time and not yet redeemed, and then to that lease's peer; otherwise nothing is redeemed or accepted |
| Billing.RefusalChangesNothing | src/commonweal/coordinator/scheduler.py:146-155 | a request refused for any other reason than coming too late changes nothing: nobody can spend or release another's lease |
| Billing.TooLateGivesBack | src/commonweal/coordinator/scheduler.py:151-153 | a member that comes too late loses its lease; its peer's slots in use fall by one and rise by one for each lease the queue is then given there |
| Billing.RedeemedInTime | src/commonweal/coordinator/scheduler.py:138-157 | in any run a redeemed id was let through no later than the term of its lease |
| RelayLaws.RunsHoldExactly | src/commonweal/coordinator/scheduler.py:130-157 | over any run, running relays always hold their leases if and only if no expiry strikes a running relay's lease and no relay starts after its lease is gone |
| RelayLaws.StepHoldsExactly | src/commonweal/coordinator/scheduler.py:213-219 | the guard, request by request |
| RelayLaws.RelayHoldsExactly | src/commonweal/coordinator/scheduler.py:138-157 | relay by relay, over any run: a running relay holds its lease if and only if no expiry, nor a redemption that came too late, has struck that lease |
| RelayLaws.RunningBounded | src/commonweal/coordinator/app.py:282-300 | in every run a peer runs no more relays than it declares plus those still running whose own lease was struck; with no overrun, no more than it declares |
| RelayLaws.WorkConservation | src/commonweal/coordinator/scheduler.py:100-136 | at every moment of a run nobody pending has a live peer of its model with a free slot, except between an owner's beat that revives a peer someone waits for and the next request that gives a lease back |
| RelayLaws.ConservesExactly | src/commonweal/coordinator/registry.py:144-151 | over any run, nobody pending is ever left beside a free slot, each request judged as it takes effect, if and only if no owner's beat revives a peer with a free slot for someone who waits |
| Overtaking.NewcomerOvertakes | src/commonweal/coordinator/scheduler.py:100-107 | a concrete run in which a newcomer is granted a slot on the spot while someone waiting for the same model stays pending |
| RelayLaws.NewcomersDoNotOvertake | src/commonweal/coordinator/app.py:226-238 | a lease is granted on the spot only when nobody is waiting for that model, if the request finds a stale lease to reclaim, or else unless a revived peer's queue is still to be served |
| Overrun.ExpiryCanOverrun | src/commonweal/coordinator/scheduler.py:213-219 | a concrete run that ends with two relays running on a peer that declares one slot |
| Projection.RunProjects | src/commonweal/coordinator/app.py:185-201 | every run of the coordinator is, seen from the registry, a run of the registry with exactly the heartbeats the coordinator acted on, and with a forward clock if the coordinator's is |
| Projection.CoordinatorCreditPartitions | src/commonweal/coordinator/registry.py:139-143 | if an owner's heartbeats reach the coordinator within the timeout, no time is paid for again at its peer, whatever else the coordinator does |
| Projection.CoordinatorCreditBound | src/commonweal/coordinator/registry.py:85-96 | and credit at that peer stays within its rate from the start to the last heartbeat |
| CoordinatorObject.Coordinator.Heartbeat | src/commonweal/coordinator/app.py:178-206 | the owner beats, a declared contributor attests, anyone else is refused, and nothing else changes |
| CoordinatorObject.Coordinator.Lease | src/commonweal/coordinator/app.py:222-238 | stale leases are reclaimed before the newcomer is considered |
| CoordinatorObject.Coordinator.Infer | src/commonweal/coordinator/app.py:261-280 | redemption comes first; a refusal leaves no relay behind |
| CoordinatorObject.Coordinator.OnReceipt | src/commonweal/coordinator/app.py:268-278 | a receipt is billed to the relay it came through |
| CoordinatorObject.Coordinator.RelayEnds | src/commonweal/coordinator/app.py:298-300 | however a relay ends, its lease is given back |
| Sealing.NoncesDiffer | src/commonweal/crypto.py:51-59 | the twelve-byte counter nonce is injective on the sequence numbers it accepts |
| Sealing.OpensInPlaceOnly | src/commonweal/crypto.py:115-125 | a sealed chunk opens under its own master secret and sequence number and no other |
| Sealing.RequestIsNoChunk | src/commonweal/crypto.py:81-83 | the sealed request, which the relay also carries, opens as no chunk of any response |
| Frames.ReceiptRoundTrip | src/commonweal/proto/envelope.py:158-185 | a receipt survives its line exactly when its counts are counts and its request has a name |
| PeerStream.Answer | src/commonweal/peer/app.py:254-335 | the loop's lines are the non-empty items sealed in order, then the end marker and receipt, an error line, or nothing, as the engine ends |
| ClientStream.Events | src/commonweal/client/client.py:255-306 | the loop's events and its failure, line by line |
| ClientStream.Complete | src/commonweal/client/client.py:184-205 | the joined text, the peer and the last receipt of a stream that ended cleanly, or its failure |
| StreamLaws.ProducedIsGenuine | src/commonweal/peer/app.py:258-309 | the ciphertexts put out are exactly the plaintexts sealed at their own places |
| StreamLaws.NoncesUsedOnce | src/commonweal/peer/app.py:275-309 | one answer never uses a sequence number twice, its end marker included |
| StreamLaws.OpensToPlaintext | src/commonweal/crypto.py:120-125 | a relayed chunk opens only at the place, and to the text, the peer sealed it for |
| StreamLaws.ReadsExactly | src/commonweal/client/client.py:258-300 | for any relay, a stream is read without an error so far exactly when its chunks are the peer's in order and only the true end is marked final |
| StreamLaws.FinishesExactly | src/commonweal/client/client.py:278-306 | for any relay, reading ends without an error exactly when the peer sealed a whole answer and all of it arrived in order, rightly marked |
| StreamLaws.WhyAChunkStops | src/commonweal/client/client.py:268-296 | a chunk out of place, not genuine at its place, or falsely marked final is told to the caller as just that |
| StreamLaws.CutShortExactly | src/commonweal/client/client.py:303-306 | the client says the answer was cut short exactly when all it got was in order and it was not the whole of it |
| StreamLaws.StreamIntegrity | src/commonweal/client/client.py:255-306 | for any relay, the text given to the caller is a prefix of what the engine produced, and the whole of it if reading succeeds |
| StreamLaws.HonestRoundTrip | src/commonweal/peer/app.py:254-335 | read untouched, an answer gives exactly the engine's non-empty texts; it succeeds exactly when it was whole and its counts are counts, and then ends with the peer's receipt; a declared engine failure is what the client is told |
| StreamLaws.NegativeCountIsRefused | src/commonweal/proto/envelope.py:167-171 | an answer with text and one negative count tells all its text and ends in an error |
| StreamLaws.TextIsNeverFree | src/commonweal/peer/app.py:311-334 | the engine's non-zero counts win, and an answer with text is never billed as nothing |
| StreamLaws.BilledAsCounted | src/commonweal/peer/app.py:311-334 | prompt and completion are each billed as the engine's last word has it, or as the estimate if that is zero |
| StreamLaws.BilledAsEstimated | src/commonweal/peer/app.py:311-334 | both are billed as the estimate if the engine says nothing |
| PeerStream.EstimateTokens | src/commonweal/peer/app.py:166-174 | a quarter of the characters, rounded down, but at least one token for any text |
| StreamLaws.SealsOnlyToRoster | src/commonweal/client/client.py:107-148 | a request is sealed exactly when the assigned id is on the roster, serves the asked model, and the lease names the roster's own key for it |
| Replay.AddTracks | src/commonweal/replay.py:67-85 | a lookup keeps the set at the recent end of everything accepted, evicting first in, first out |
| ReplayLaws.CacheRefinesIdeal | src/commonweal/replay.py:54-88 | in every run the set never outgrows its cap, and its unexpired entries are the most recent unexpired values ever accepted, up to the cap, all different |
| ReplayLaws.RefusedExactly | src/commonweal/replay.py:67-85 | a fresh message is refused exactly when its value was accepted less than a lifetime ago and among the last `max_entries` accepted |
| ReplayLaws.SpentAtMostOnce | src/commonweal/replay.py:30-85 | with less than lifetime minus window minus grace between check and lookup, a message is accepted again only after at least `max_entries` other, different values |
| ReplayLaws.AnswersAsIdeal | src/commonweal/replay.py:46-52 | while nothing is evicted too soon, a fresh message is admitted exactly when its value was never accepted before |
| ReplayLaws.MarginIsTight | src/commonweal/replay.py:15-18 | with exactly that delay the same message is accepted twice running, whatever the settings |
| ReplayLaws.NothingFitsInNothing | src/commonweal/replay.py:77-79 | a set of capacity below one accepts nothing and fails on every lookup |
| Auth.NonceCache.CheckAndAdd | src/commonweal/replay.py:67-85 | the verdict and the whole new set |
| Auth.NonceCache.Prune | src/commonweal/replay.py:82-85 | exactly the unexpired entries are kept, in order |
| Auth.PrecheckExactly | src/commonweal/coordinator/auth.py:68-95 | what reaches the seen-set is exactly a recent request that a member signed, every field of it |
| Auth.VerifySignedRequest | src/commonweal/coordinator/auth.py:59-103 | a request that is not authentic leaves the seen-set as it was; one that is gets the set's verdict |
| RosterLaws.ParsePeerWellFormed | src/commonweal/roster.py:159-208 | an accepted peer has a positive limit, distinct contributors with positive shares, and a capacity that agrees with them |
| RosterLaws.ParsePeerExactly | src/commonweal/roster.py:159-208 | an entry is accepted as a given peer if and only if it has its texts, a whole number of slots (one if it does not say), contributors and capacity that read as its, and something to list as shards; what else is left out is unknown or null |
| RosterLaws.ContributorsExactly | src/commonweal/roster.py:166-172 | contributors are accepted if and only if each names a member and a positive number, no member twice |
| RosterLaws.CapacityExactly | src/commonweal/roster.py:174-193 | a capacity that is absent, null or zero is what the shares sum to; any other must be a number within a hundredth of that |
| RosterLaws.ParseMemberExactly | src/commonweal/roster.py:57-66 | a member is accepted as a given one if and only if it has its three texts; its role is to be a member unless it says otherwise |
| RosterLaws.PeerRoundTrip | src/commonweal/roster.py:262-291 | writing and reading an entry returns it exactly when the parser could have produced it |
| RosterLaws.ParseIsSound | src/commonweal/roster.py:299-350 | in an accepted roster every owner, contributor and administrator is a member and every entry is keyed by its own id |
| RosterLaws.RoundTrip | src/commonweal/roster.py:245-295 | written and read back, a roster is itself with its administrators sorted, exactly when it is one the parser can produce |
| RosterLaws.ParsedRoundTrip | src/commonweal/roster.py:294-350 | so for every document the parser accepts |
| RosterLaws.BodyDetermines | src/commonweal/roster.py:241-292 | equal signed bodies mean equal rosters, up to signatures and the order of administrators |
| RosterOrder.ShufflingKeepsRoster | src/commonweal/roster.py:313-349 | a document with its members, peers or administrators reordered is accepted too and comes to the same roster |
| RosterOrder.BodyIgnoresOrder | src/commonweal/roster.py:245-292 | and to the same signed body |
| TextOrder.BeforeExactly | src/commonweal/coordinator/scheduler.py:161-166 | names are compared as in a dictionary, character by character |
| TextOrder.SortedIsUnique | src/commonweal/roster.py:251-290 | a list of names can be put in order in only one way |
| RosterLoad.LoadsExactly | src/commonweal/roster.py:352-396 | a document loads exactly when it parses, is newer, and the first pinned key to have signed it belongs to an administrator it lists, no signature that is not text being met on the way |
| RosterLoad.ParsedConfigIsWellFormed | src/commonweal/roster.py:341-350 | the registry's requirements on its settings are met by every accepted roster |
| Readiness.SingleFlight | src/commonweal/peer/app.py:113-131 | for any interleaving of callers at most one probe runs, and one starts within the interval of an earlier one only if that one was cancelled |
| Readiness.ProbesApartExactly | src/commonweal/peer/app.py:108-131 | over any run, all probes start at least the interval apart if and only if no caller takes the free lock, with nothing fresh, while the last probe was cancelled less than the interval ago |
| Readiness.CallsExactly | src/commonweal/peer/app.py:113-120 | after any run a caller is told the engine serves if output was noted within the window, else the verdict of a recent probe if there is one, and otherwise queues |
| Readiness.EntersExactly | src/commonweal/peer/app.py:122-129 | a caller that gets the lock is told the verdict of a recent probe if there is one by then, and otherwise probes |
| Readiness.VerdictIsGiven | src/commonweal/peer/app.py:129-131 | a probe's verdict answers its own caller and frees the lock |
| Readiness.GivingUpIsFinal | src/commonweal/peer/app.py:122-126 | a caller that gives up waiting gets nothing from the lock unless it calls again |
| Readiness.AnswersAreBacked | src/commonweal/peer/app.py:108-131 | every answer comes from recent progress, from a finished probe that began within the interval of the caller's last look at the clock, or from the caller's own probe |
| Readiness.CancelledProbeIsNotCounted | src/commonweal/peer/app.py:122-131 | after a cancelled probe two probes do start within the interval |
| ReadinessObject.ReadinessGate.NoteProgress | src/commonweal/peer/app.py:95-103 | output for a real request is dated, and nothing else changes |
| ReadinessObject.ReadinessGate.Ready | src/commonweal/peer/app.py:113-120 | the first look: an answer, or a place in the queue for the lock |
| ReadinessObject.ReadinessGate.Locked | src/commonweal/peer/app.py:122-129 | the second look, with the lock |
| ReadinessObject.ReadinessGate.ProbeEnds | src/commonweal/peer/app.py:129-131 | the verdict is kept, dated from before the probe |

## Left out

- HTTP, TLS, timeouts of the transport, command lines, key files and the engine adapters: input and output.
- Cryptographic primitives, base64 and canonical JSON bytes: signing and sealing are ideal, encodings are taken as injective, and JSON documents are trees.
- Floating point: GB, seconds and scores are reals; numbers that are not finite are modelled only for timestamps, and integers too large for a float are not.
- SQLite: tables are lists of rows; the engine, version and hardware columns and the times of recording are not kept.
- Token counts of bills are natural numbers, as receipt parsing guarantees.
- Clocks: every reading is an argument. A scheduler operation uses one reading for all its steps, and an owner's heartbeat two; reading the clock again inside one operation is not modelled.
- Request ids: the position of the lease among all ever issued stands for a fresh random token.
- Peer states and attestations are values in a dictionary, so two names for one state object are not modelled.
- Cleaning of detail and error texts: texts pass through as they are.
- The wait for a lease is cut at its await: the queue timeout and cancellation are steps of their own, and what the waiting caller returns is the lease its future holds.
- Concurrency measurements: only that taking one reads every peer's state.
- `contributors`, `snapshot` and the statistics endpoints: read-only views.
- Peer admission of an envelope (`peer/app.py:210-252`): the same checks as for control requests, signature first; what its replay defence guarantees is what `ReplayLaws` proves.
- Plaintext chunks are texts: a lone surrogate, which cannot be encoded, and other bytes than encoded text are not modelled.
- Iterating an object where a list is expected (`shards`, `admins`, `signatures`): keys are taken in name order, not in document order.
- Auth.NonceCache.Prune: one pass that keeps the unexpired entries stands for collecting the expired ones and deleting them.
- ReplayLaws.CacheRefinesIdeal: one lifetime for all entries and a clock that never goes backwards; a process restart empties the set and is not modelled.
- Words.OthersDoNotRoute: a peer's slots in use, and its liveness after two broken relays, can differ when contributors' heartbeats are deleted, as `Rerouting.CreditCanReroute` shows.
- RelayLaws.WorkConservation: says nothing of the time between a reviving beat and the next dispatch; `RelayLaws.ConservesExactly` is the exact condition for a run without such times.
- Coverage.CoversExactly: a member first settled while its owner's last word is that the group is out, or before its owner has beaten at all, is taken to be due nothing for the time before.
- Standing.StandingBound: for peers that declare a capacity; without one the reported residency is not capped and there is no bound.
- Verification of each signature in `RosterLoad` is a parameter.
