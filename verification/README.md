# A model of the PBXSense notification path

PBXSense watches a telephone exchange. An **Agent** on site turns samples of the exchange into
signals, keeps a durable outbox of push events and answers the app's reads; a cloud **Relay**
claims each event once, sends it to the registered devices and remembers who has it. This project
models that path in Dafny, from a flapping phone to a delivered push message, and proves what the
program promises about whole runs of it. `dafny verify dfyconfig.toml` checks everything.

The project has five groups of modules.

1. **Durable delivery.** `EventLease` (the Relay's claim and write-back transactions),
   `NotificationDelivery` (recipient selection and settlement), `RelayTransport` and `Outbox` (the
   Agent's bounded outbox, with a record of the fate of every item ever queued) are the parts.
   `DeliveryProtocol` puts any number of Agents and concurrent publishes into one transition system
   with crashes, lost answers and clock steps, and proves its inductive invariant; `DeliverySafety`
   draws the conclusions for all runs, and `DeliveryOnce` says from any reachable state who may still
   accept an event. `EventWindow` is the Relay's limit in front of all that.
2. **Relay identity.** `Identity` (device registration, token ownership, removal and activation
   claims as transactions over documents) and `IdentitySafety` (all interleavings, with the split
   write between registering a device and assigning its token, and processes that die in between).
3. **Availability and incidents.** `Hysteresis` says over the whole history of a phone or trunk what a
   standing outage is. `Availability`, `Occurrences` and `Activity` are the trackers, proved against it.
   `IncidentPolicy` is the notification policy; `IncidentHistory` and `SignalQuiet` prove the
   grammar, timing and quiet of what it emits over every run, and `IncidentRuns` says by the signals
   and the clock alone since when a phone is out, when an incident begins, and which signals are announced.
4. **Publication and the daily ledger.** `SnapshotRuntime` is the three-lock cache as a transition
   system over any number of threads, and `SnapshotRefresh` says how its calls end. `CallLedger`, `QueueDay` and `CallDay` say over the whole history
   what a day's evidence amounts to; `DailyRestart` says what a restart can lose of that history, and
   what a claim is worth then. `DailySummary`, `DailySteps` and `DailyTracker` are the tracker with its
   database, restarts and failing transactions; `DailyFacts` says what an observation is in terms of
   its snapshot; `DailyMoments` is what is claimed about a finished day,
   and `DailyRuns` shows two runs in which a restart misleads.
5. **Two exact algorithms.** `AmiFraming` (packets by peeking) and `LiveDiff` with `LiveReplay`
   (the live feed and its replay).

Objects that the program updates in place are classes whose methods are proved against functions or
history predicates; protocols and lock disciplines are transition systems whose steps are atomic; the
theorems quantify over every run.

## Reading the model

- Times are microseconds as integers; the incident policy, which compares fractions of seconds, uses
  reals. Clocks are inputs. Where a theorem needs a clock that never goes back, or a positive one
  (the policy uses 0.0 for "not set"), it says so.
- Digests are injective and random identifiers fresh: a fingerprint is the content, a recipient digest
  the token, a call key the record's fields, an episode the observation that began it.
- A Firestore or SQLite transaction is atomic and serializable. The messaging service answers
  anything. A socket peek shows any non-empty prefix of what is left, and a read of no more than
  that delivers it.
- Families of raw device-state words are booleans of an endpoint; error codes are in lower case.
- Fields marked as history, and the tickets of the outbox, record what happened and influence nothing.
- Days are 24 hours long: the daily ledger does not model a change of the clock's offset. Its clock starts
  a minute after the origin, so that the first observation of a process is always due to be saved.
- In the daily ledger `looks` are the observations that led to the state in memory; `past.all` are all
  there ever were, which no method forgets, and `past.kept` the places of the former in the latter. A
  write that fails leaves a tear (`past.torn`) until the next save; `past.forgot` says that a restart
  ever followed a tear.

## Findings

- Delivery is not exactly once, and `DeliveryOnce.AcceptsAgainIff` says when: from a reachable state a
  token can accept an event again exactly if the row is unfinished and its checkpoint lacks the token, or
  a publish in flight that has not sent yet read a checkpoint without it. A crash between send and
  checkpoint leaves the first (`DeliverySafety.CrashBeforeCheckpointRepeats`), as
  `push_relay/README.md:347-348` admits. Schedules
  within `DeliverySafety.Timely` never repeat (`DeliverySafety.NoTokenAcceptsTwice`).
- The check time is part of a phone signal's fingerprint (`pbxsense_agent/pulse.py:1078`), so a
  standing outage is announced again with every new collection: a signal that is otherwise what was
  delivered is announced again exactly when it was checked at another time
  (`SignalQuiet.RestampedIsAnnouncedAgain`). The Relay recognises the repetition only by the event id, which
  it reads after the request has been counted (`push_relay/app.py:1007-1014`): one standing outage,
  repeated at the Agent's pace of five seconds (`pbxsense_agent/main.py:127`), uses up the default of sixty
  requests an hour in five minutes and keeps every other event out for the rest of it
  (`EventWindow.StandingOutageBlocksTheHour`).
- A look at the queues whose write fails is forgotten by a restart that comes before the next save: what
  it took from the day is given back, and a claim about the day can be false
  (`DailyRuns.LoseLook`, and for every setting of the gaps the run `DailyRuns.MisleadingMoment`). The claim is true of all the looks there ever were
  exactly when every lost one is harmless (`DailyRestart.TrueIffHarmless`). If no restart ever followed a
  failed write, lost looks matter only at the edges of the day (`DailyRestart.TrueIffEdgesAgree`): one
  before the day's first kept look that saw other queues, or a last one that saw callers waiting. No look
  that read calls is ever lost, and coverage of a day's calls by the kept looks is coverage by all exactly
  when no lost look, nor the first kept one, casts doubt on the day (`DailyRestart.CoveredIffNoneDoubts`).
- Across a restart a flag rises exactly when the looks that are lost took it down
  (`DailyTracker.DailySummaryTracker.Restart`). After a clean stop no queue flag rises and no flag of the
  present day; the call flag of an earlier day can rise even then, whatever the gaps, since only a change
  of today's flags is saved at once (`DailyRuns.CallFlagRises`, `CallDay.StillCoveredIff`).
- Registering through the Agent writes the new token before the ownership transfer reads the old one
  (`push_relay/app.py:532-557`). The old token therefore keeps pointing at the device; assigning it later
  to another device deletes the first one, whatever token that holds by then
  (`IdentitySafety.OldTokenAfterMove`, `IdentitySafety.AssignmentDeletesIff`). And a process that dies
  between the two writes leaves two live devices with one token, with nothing in flight
  (`IdentitySafety.TornRegistrationSharesToken`), exactly if the token was held by another device when
  the registration began (`IdentitySafety.TornRegistrationSharesIff`). That a token has one owner fails
  in no other way: `IdentitySafety.OneOwnerPerToken` says for every run and device exactly when it holds,
  and without such deaths it does (`IdentitySafety.OneOwnerWithoutDeaths`). Registering by the app itself
  has neither effect.
- The device cap can be passed only by an app whose device was deleted between its authentication and
  its own write (`IdentitySafety.CapExceededIff`); `IdentitySafety.PastTheCap` is such a run.
- `README.md:1036-1038` says that one or two phones are worded individually. The code starts an incident
  for two phones that became unavailable apart, once the correlation window is over
  (`pbxsense_agent/relay_notification_policy.py:160-163`). Whether "individually" excludes that, the
  document leaves open; the model follows the code.
- A recovery event that claims all phones is withdrawn in the very observation that records it when
  some phone is unavailable but not yet confirmed so (`pbxsense_agent/pulse.py:114-118`). That is the only
  way a new event is withdrawn at once (`Activity.ActivityTracker.ObserveReachable`), and
  `Activity.WithdrawnAtOnce` is such a run.
- The grace at the start of a day compares whole seconds (`pbxsense_agent/daily_summary.py:90-91`):
  a first look up to just under 61 seconds after midnight counts.
- Whether an answered call counts as answered depends on its context, which is not in its key
  (`pbxsense_agent/daily_summary.py:169-173`); `calls` and `missed` are functions of the keys,
  `answered` depends on the order of the batches: it is what each one showed beyond the ledger so far, of
  keys that it says somebody answered (`CallLedger.Reached`).
- The live feed misses a change when one collection carries a key twice and its last item is the old
  one (`LiveReplay.RepeatedKeyMisleads`); `LiveReplay.ReplayIsExact` gives the exact condition.
- The error for a missing publication behind the payload lock cannot occur
  (`SnapshotRuntime.ReadersAlwaysFindAPublication`).

## Model

| member | source | states |
|---|---|---|
| `DeliverySafety.AcknowledgedIsCompleted` | pbxsense_agent/relay.py:547-587 | In every run of Agents, publishes, crashes and clock steps, an event the Agent removed as acknowledged has a completed row, and no continuation changes that row |
| `DeliverySafety.RowsOnlyAdvance` | push_relay/app.py:1057-1100 | Over any continuation of any run no row disappears, no checkpointed recipient is forgotten, and a completed row is frozen |
| `DeliverySafety.SupersededOwnerNeverWrites` | push_relay/app.py:1091-1100 | Once a row was taken over from a publish in flight, then after any continuation it does not own the row, and its checkpoint changes nothing and answers 503 |
| `DeliverySafety.LostForGood` | push_relay/app.py:1057-1100 | A publish whose claim was tried and that does not own a row never comes to own it, over any continuation |
| `DeliverySafety.ClaimReadsCheckpoint` | push_relay/app.py:1022-1042 | A granted claim starts from exactly the recipients the row holds at that moment |
| `DeliverySafety.ClaimIsRemembered` | push_relay/notification_delivery.py:30-46 | What a sender read at its claim is what it still uses after any interleaving with other steps |
| `DeliverySafety.SendSkipsCheckpointed` | push_relay/notification_delivery.py:36-44 | No send made under a claim, however much later, addresses a recipient checkpointed before that claim |
| `DeliverySafety.RetryableKeepsTheHead` | pbxsense_agent/relay.py:547-587 | The head leaves the outbox exactly when the answer is below 400 or a permanent rejection; 429, 5xx and lost answers leave the outbox as it was |
| `DeliverySafety.FlushGivesUpOnlyConflicts` | push_relay/app.py:1057-1088 | Over runs in which nothing refuses before the claim, an Agent takes an unacknowledged head out only on an answer other than 408, 425, 429 and 500 or above, and only if the row for its key belongs to another Agent or was made for other content |
| `DeliverySafety.CrashFallsBackToTheSave` | pbxsense_agent/relay.py:505-527 | An Agent that crashes goes on with the outbox it saved last, whatever happened since, and waits for no answer |
| `DeliverySafety.QuotaCountsFirstClaims` | push_relay/app.py:1057-1088 | In every run each Agent-hour counter equals the number of rows first claimed against it and never exceeds the limit |
| `DeliverySafety.NoTokenAcceptsTwice` | push_relay/notification_delivery.py:76-100 | If no sender outlives its lease or crashes after sending, and the service accepts only what it reports, no token accepts an event twice |
| `DeliverySafety.CrashBeforeCheckpointRepeats` | push_relay/app.py:1057-1100 | Without that discipline a concrete run, a crash between send and checkpoint followed by a retry, does accept twice, as the operator notes admit |
| `DeliveryOnce.AcceptsAgainIff` | push_relay/app.py:1022-1100 | From every reachable state with a row for an event, some continuation makes a token accept that event once more exactly when the row is unfinished, wanted by someone and its checkpoint lacks the token, or a publish in flight that has not sent read a checkpoint without it |
| `DeliveryOnce.WantedIffDeliverable` | push_relay/notification_delivery.py:36-44 | Some device wants an event exactly if it is an activity, or important enough |
| `DeliveryOnce.AcceptedHasRow` | push_relay/app.py:1022-1056 | Whatever a token ever accepted has a row, so that equivalence covers every repetition |
| `DeliveryOnce.RunRulesOut` | push_relay/notification_delivery.py:30-46 | Who is ruled out by checkpoint and senders stays ruled out and accepts nothing, over any continuation |
| `DeliveryOnce.OpenRowAccepts` | push_relay/app.py:1057-1088 | Whoever an unfinished row does not rule out does accept once more when the row's Agent publishes again after the lease |
| `EventWindow.Window.Consume` | push_relay/app.py:1171-1182 | A request is admitted exactly when fewer than the limit were admitted within the window before it, over the whole history of admissions |
| `EventWindow.SinceIsExact` | push_relay/app.py:1171-1182 | Dropping from the front keeps exactly the admissions after the cutoff |
| `EventWindow.StandingOutageBlocksTheHour` | push_relay/app.py:1007-1014 | Sixty requests five seconds apart leave no room for any other until the first is an hour old |
| `DeliveryProtocol.RunInv` | push_relay/app.py:1004-1056 | The inductive invariant of the whole path: owners have read what their rows hold, answers below 400 mean completed rows, and an Agent that waits is waiting for its head |
| `DeliveryProtocol.PublishInv` | push_relay/app.py:1022-1042 | Claiming keeps the invariant and only advances rows |
| `DeliveryProtocol.CheckpointInv` | push_relay/notification_delivery.py:76-123 | Checkpointing keeps the invariant and only advances rows, whether or not the usage report that follows fails |
| `DeliveryProtocol.PublishAnswers` | push_relay/app.py:1004-1042 | A publish is answered at once, and writes no row, unless it takes the row over: 200 for a recommendation and for a finished event, 409 for one of another Agent or of other content, 503 while a lease runs, 429 for a new one beyond the quota |
| `DeliveryProtocol.CheckpointAnswers` | push_relay/app.py:1091-1100 | The end of an attempt: 503 and no write if the row has another owner; otherwise the outcome is written, and 500 if the usage report fails, 200 if the event is finished, 503 if somebody has to be tried again |
| `EventLease.ClaimCases` | push_relay/app.py:1057-1088 | Which answer a claim gets, and when: 409 exactly for another Agent's row or an unfinished one of other content, 503 exactly for an own unfinished row of that content whose lease is not over, 429 exactly without a row when the hour's quota is used up, duplicate exactly for an own finished row, granted in all other cases; it then takes the row over with its settled recipients and charges only new rows |
| `EventLease.EventStore.ClaimEventDelivery` | push_relay/app.py:1057-1088 | The transaction answers exactly so; a refusal writes nothing, and a granted row is leased for sixty seconds to its new owner, with whom it had settled, a new one charged to its hour |
| `EventLease.EventStore.FinishEventDelivery` | push_relay/app.py:1091-1100 | Only the owner writes, and only outcome, state and end of lease of its own row: the row is then finished for good or can at once be claimed again by its Agent for the same content |
| `NotificationDelivery.SelectRecipients` | push_relay/notification_delivery.py:36-44 | The addressed tokens are, without repetition, exactly those of a device record that has notifications on and the signal not muted, takes activities or finds the event important enough, is not expired, and has a token that is not completed |
| `NotificationDelivery.Settle` | push_relay/notification_delivery.py:93-98 | Exactly the paired-off recipients whose outcome is a success or one of four permanent error codes become completed; a retry is due unless every recipient has such an outcome |
| `NotificationDelivery.Deliver` | push_relay/notification_delivery.py:30-123 | A whole attempt: recipients as selected, one checkpoint of exactly what came back, and the status each situation answers, also when clean-up or usage reporting after the checkpoint fails |
| `NotificationDelivery.AttemptSettlesBeforeItEnds` | push_relay/notification_delivery.py:93-100 | An attempt never forgets a recipient and ends the event only when every eligible recipient is settled |
| `Outbox.AgentOutbox.Queue` | pbxsense_agent/relay.py:505-527 | Superseded is exactly what announces the same device token or the same named signal; the item comes last; the fewest entries are given up that make 500 items and 2 MiB, an event only after all older ones and a device only when no event is left; every item ever queued has exactly one fate |
| `Outbox.AgentOutbox.Trim` | pbxsense_agent/relay.py:529-545 | Trimming ends within 500 items and 2 MiB, gives up no more than necessary, and counts exactly what it gives up |
| `Outbox.AgentOutbox.Flush` | pbxsense_agent/relay.py:547-587 | Up to ten items leave from the head, in order, as long as each answer accepts or refuses for good (not 408, 425, 429 or 500 and above); accepted ones are acknowledged, refused ones rejected, the last twenty rejections are kept and accepted registrations counted |
| `Outbox.AgentOutbox.RemoveDevice` | pbxsense_agent/relay.py:321-335 | Exactly the registrations with the app's token, identifier or digest leave, as revoked |
| `Outbox.DropTakesOldestEventsFirst` | pbxsense_agent/relay.py:529-545 | Trimming gives up the oldest events in order; a device goes only when no event is left |
| `Outbox.VictimIsOldest` | pbxsense_agent/relay.py:529-545 | One trimming step removes the first event, or the first device when there is no event |
| `Outbox.QueueStep` | pbxsense_agent/relay.py:505-527 | Queueing keeps order and coalescing, and supersedes what it replaces by the later item |
| `Outbox.HeadLeaves` | pbxsense_agent/relay.py:547-587 | Taking the head keeps order, coalescing, bounds and conservation, with either fate |
| `Outbox.BookedExactly` | pbxsense_agent/relay.py:560-587 | A flush acknowledges exactly the decoded items and rejects exactly the refused ones |
| `Outbox.RemovalIsExact` | pbxsense_agent/relay.py:321-335 | After a removal an entry is queued exactly if it was and does not belong to the removed app |
| `Outbox.RemovalShrinks` | pbxsense_agent/relay.py:37-40 | Taking one entry out never makes the serialized outbox longer |
| `Outbox.BytesAreJson` | pbxsense_agent/relay.py:37-40 | The size that is bounded is that of the serialized list: two brackets, the items, and a comma between any two |
| `IdentitySafety.OneOwnerPerToken` | push_relay/app.py:524-633 | In every interleaving, with registrations that die between their writes, a device with a token is the one the token points to exactly if no registration by an Agent wrote it a token that pointed elsewhere at that moment, without an assignment to the device or a write of its own token having put that right since |
| `IdentitySafety.SharedTokenStrayed` | push_relay/app.py:532-557 | Of two devices that hold one token, one holds it by such a write |
| `IdentitySafety.OneOwnerWithoutDeaths` | push_relay/app.py:524-633 | In every interleaving without a death between the two writes, a device with a token and no registration in flight is the one the token points to, and shares it with no other such device |
| `IdentitySafety.TornRegistrationSharesIff` | push_relay/app.py:532-557 | From every reachable state, a registration that dies between its writes leaves its device on one token with another live device exactly if the token was held elsewhere when it began: by the device it points to, or by one that went astray with it |
| `IdentitySafety.FinishConfirms` | push_relay/app.py:586-633 | A registration that completes confirms its device, whatever was torn before |
| `IdentitySafety.TornRegistrationSharesToken` | push_relay/app.py:532-557 | The input: an Agent registers a device with the token another one owns, and dies; both are live with that token and nothing is in flight |
| `IdentitySafety.OldTokenAfterMove` | push_relay/app.py:524-558 | An app that re-registers itself withdraws its old token; an Agent that re-registers it leaves the old token pointing at it |
| `IdentitySafety.AssignmentDeletesIff` | push_relay/app.py:600-619 | Assigning a token deletes another device exactly when the token still points to it, whatever token that device holds by now |
| `IdentitySafety.ClaimsAreSingleUse` | push_relay/app.py:377-502 | In every interleaving a public key has at most one Agent, an activation creates at most one device ever, and a ticket pays at most once ever |
| `IdentitySafety.RunWithinCap` | push_relay/app.py:561-583 | Claims, registrations, assignments and removals never take an Agent past its cap, if no device deleted meanwhile is written again by its own app |
| `IdentitySafety.CapExceededIff` | push_relay/app.py:891-917 | From the cap, a step goes past it exactly when an app that had authenticated writes its own device after that was deleted |
| `IdentitySafety.AuthedOnceExisted` | push_relay/app.py:891-917 | An app that can still write its device authenticated, earlier in the run, as that device while it existed |
| `IdentitySafety.PastTheCap` | push_relay/app.py:891-917 | A run from nothing that passes a cap of one |
| `Identity.Directory.RegisterAgentDevice` | push_relay/app.py:561-583 | Refused exactly for a new device at the cap; otherwise only this device's token changes, its secret and activation stay, and no device is added beyond the cap |
| `Identity.Directory.WriteOwnSettings` | push_relay/app.py:891-917 | An app's own settings leave its token and credential alone, and create the document if it is gone |
| `Identity.Directory.AssignDeviceToken` | push_relay/app.py:586-633 | Afterwards device and token agree on each other, the pointer of the former token is withdrawn if it was the device's own, at most the token's former owner goes, and nothing else changes |
| `Identity.Directory.DeleteDeviceRegistration` | push_relay/app.py:1229-1256 | Refused exactly for a wrong credential; otherwise only this device goes, and only a pointer of its own token to it |
| `Identity.Directory.ClaimActivation` | push_relay/app.py:377-502 | Which answer a claim gets, field by field: 401 for a wrong secret, a used or an expired activation, 403 for a revoked Agent, 500 for one without a site, 409 at either limit, 401 for a missing, expired or used ticket or an id that is taken; a refusal writes nothing, and what is granted creates one device, uses activation and ticket up, and creates an Agent only for a new public key |
| `Availability.RunTracks` | pbxsense_agent/pulse.py:311-421 | For phones and a clock that never goes back, the tracker shows a phone exactly when an uninterrupted unavailable run spanned the confirmation and no two-sample reachable run spanned the recovery since, nor a role change |
| `Availability.TrunkRunTracks` | pbxsense_agent/pulse.py:311-421 | For trunks the tracker shows one exactly when an outage stands over the samples that are certain, unavailable or reachable ones since the last change of role or lapse; missing and unclear samples in between say nothing |
| `Availability.PhoneIsDue` | pbxsense_agent/pulse.py:311-421 | A phone is due exactly if some unbroken stretch of snapshots that spans the confirmation listed it down, by role, health and state, and since then none gave it another role and no stretch of at least two that spans the recovery listed it up |
| `Availability.TrunkIsDue` | pbxsense_agent/pulse.py:311-421 | A trunk is due exactly if it was down for the confirmation as far as snapshots were certain, by its health or failing that by calls and state, and since then it was not up for the recovery, not given another role, and not missed by the inventory for the recovery |
| `Availability.ReassignedIsNotDue` | pbxsense_agent/pulse.py:328-332 | If the newest snapshot gives the extension another role and does not list it in this one, it is not shown |
| `Availability.MissingStays` | pbxsense_agent/pulse.py:344-359 | A phone that is shown stays shown when the inventory stops listing it |
| `Hysteresis.DecisiveIsRest` | pbxsense_agent/pulse.py:333-343 | Those samples are the unavailable and reachable ones from the last break on, a change of role or a run of missing samples as long as the recovery confirmation |
| `Hysteresis.CertainIffDecisive` | pbxsense_agent/pulse.py:333-343 | An outage stands over the decisive samples exactly when, over all samples, a stretch without a break in which nothing certain was reachable confirmed one, and since then neither a break came nor such a stretch of the reachable kind |
| `Availability.Tracker.Observe` | pbxsense_agent/pulse.py:311-421 | One observation of all endpoints: an unreachable snapshot shows and changes nothing, a reachable one shows, for either role and with a clock that never goes back, exactly the endpoints that are due by the fields of the snapshots so far |
| `Availability.Tracker.ObservePresent` | pbxsense_agent/pulse.py:360-419 | The branches for a listed endpoint, computed step by step, equal the sample's specification |
| `Availability.SilentTracks` | pbxsense_agent/pulse.py:333-359 | A sample that misses the phone, or finds its state unclear, leaves what the tracker holds in step with the phone's history |
| `Hysteresis.JudgeLast` | pbxsense_agent/pulse.py:378-419 | What one sample decides can be read off the run that ends with it: the timers lose nothing of the history |
| `Hysteresis.StandingStep` | pbxsense_agent/pulse.py:378-419 | An outage stands after a sample exactly when the sample confirms one or an earlier one stands and is not ended |
| `Hysteresis.FreshOutageBetween` | pbxsense_agent/pulse.py:204-219 | Two recoveries of one phone are separated by a freshly confirmed outage |
| `Occurrences.SameOccurrenceIffSameOutage` | pbxsense_agent/pulse.py:388-392 | With strictly increasing times two moments carry the same notification id exactly when no sample between them ends the outage by its history: a confirmed recovery of an outage that stood, a change of role, or, before it stood, a sample that finds the phone reachable or gone from the inventory |
| `Occurrences.EndsIffOver` | pbxsense_agent/pulse.py:333-419 | The tracker forgets a phone exactly when its history says that the outage is over |
| `Occurrences.IdIsFirstUnavailable` | pbxsense_agent/pulse.py:388-392 | The id is that of the outage's first unavailable sample |
| `Occurrences.ShownHasEvidence` | pbxsense_agent/pulse.py:423-439 | Every shown phone has an id and the record of an unavailable sample |
| `Occurrences.PhoneSignals` | pbxsense_agent/pulse.py:1037-1118 | There is a signal exactly for each current record of a visible phone that is out, told by that record, and for each other visible phone with evidence, told by that; each under the phone's own id, and one per phone if no extension is listed twice |
| `Occurrences.ObserveAndSignal` | pbxsense_agent/pulse.py:311-439 | A reachable observation yields a signal for exactly the phones that are due, each under the identity of its outage and with the record of a phone that was out, a current one if there is one, and exactly one if no extension is listed twice |
| `Activity.ActivityTracker.Observe` | pbxsense_agent/pulse.py:89-132 | An event is recorded exactly when some phone comes back, by its fields in the reachable snapshots, naming those phones and the ones still out; shown, newest first, is each recorded event that is recent and that no reachable snapshot since has reversed, by naming a phone of it, or any phone if none remained, as down |
| `Activity.RecoveryIsSaid` | pbxsense_agent/pulse.py:94-122 | A recovery completes with a snapshot exactly when the phone was down for the outage confirmation, had not come back since, and has now been listed with a known health and not down for the recovery confirmation |
| `Activity.ActivityTracker.ObserveReachable` | pbxsense_agent/pulse.py:94-122 | After a reachable observation every retained event is still true of the snapshot, and the new one is withdrawn at once exactly if it leaves no confirmed outage while some phone is unavailable |
| `Activity.WithdrawnAtOnce` | pbxsense_agent/pulse.py:114-118 | A run in which an event that all phones are back is recorded and withdrawn by the same observation |
| `Activity.ActivityTracker.TimeOutages` | pbxsense_agent/pulse.py:95-108 | Outage timers and the confirmed set after the loop, phone by phone |
| `Activity.ActivityTracker.RecordRecoveries` | pbxsense_agent/pulse.py:194-239 | Which recoveries are confirmed, what they clear, and the one event they record |
| `Activity.MemoryFollows` | pbxsense_agent/pulse.py:89-132 | The four collections hold, for each phone, exactly what its history calls for |
| `IncidentHistory.EpisodesAreWellFormed` | pbxsense_agent/relay_notification_policy.py:141-328 | In every run with a positive clock, an episode's events are (outage+ recovery)* with revisions 1, 2, 3, ..., at least two phones in the first, and 30 seconds between outages in a row |
| `IncidentHistory.RecoveryNeedsStableClear` | pbxsense_agent/relay_notification_policy.py:225-242 | Recovery is announced exactly when an active incident has been free of its phones, in connected samples, for 15 seconds |
| `IncidentHistory.AnnouncesIff` | pbxsense_agent/relay_notification_policy.py:176-242 | When one observation announces a recovery, in terms of the state before it |
| `IncidentHistory.AdvanceEpisode` | pbxsense_agent/relay_notification_policy.py:176-242 | One advance extends its own episode well-formedly |
| `IncidentPolicy.RelayNotificationPolicy.Observe` | pbxsense_agent/relay_notification_policy.py:35-79 | One observation as a function of the state: correlation, forgetting, announcing; what that means over runs is in `IncidentRuns` |
| `IncidentPolicy.RelayNotificationPolicy.CorrelateEndpointIncident` | pbxsense_agent/relay_notification_policy.py:81-242 | Correlation and suppression, including the disconnected case |
| `IncidentPolicy.RelayNotificationPolicy.TrackOutages` | pbxsense_agent/relay_notification_policy.py:107-128 | First-seen times and the quiet period after an outage that vanished unannounced |
| `IncidentPolicy.RelayNotificationPolicy.ConsiderIncident` | pbxsense_agent/relay_notification_policy.py:130-171 | Which outages begin an incident and which are held back, with the imperative oldest-first scan proved equal to a pairwise window |
| `IncidentHistory.AdvanceTimer` | pbxsense_agent/relay_notification_policy.py:205-224 | In an incident that stays active the recovery timer runs exactly while none of its phones is out, from the first such sample on |
| `IncidentHistory.AdvanceAnnounces` | pbxsense_agent/relay_notification_policy.py:225-242 | An advance announces a recovery exactly when an active incident has no phone out and its timer has run fifteen seconds |
| `IncidentRuns.StartsAreFirst` | pbxsense_agent/relay_notification_policy.py:107-126 | Over every run, a start is recorded for a phone exactly while its outage lasts, and is the time of the first connected observation since which every connected one has shown the phone |
| `IncidentRuns.IncidentBeginsIff` | pbxsense_agent/relay_notification_policy.py:130-171 | Without an incident, a connected observation begins one exactly when two phones or more are monitored and three outages began within 15 seconds of the oldest, or two did and some outage has lasted 15 seconds; it speaks for those phones and the ones that just went out, and says so at once |
| `IncidentRuns.TwoPhones` | pbxsense_agent/relay_notification_policy.py:130-171 | With two phones out, an incident begins exactly when they went out within 15 seconds of each other and the older outage has lasted 15 seconds |
| `IncidentRuns.ThreePhones` | pbxsense_agent/relay_notification_policy.py:150-153 | Three phones that went out within 15 seconds of each other and of everyone else begin one at once |
| `IncidentRuns.IncidentGoesOn` | pbxsense_agent/relay_notification_policy.py:173-242 | What one connected observation makes of an incident, by the phones hit: it is over after 120 seconds of cooldown without a hit, tells of an outage when other phones are hit than were told and the last event is 30 seconds old or the incident comes back, and of recovery after 15 seconds without a hit, with these figures; and all it then holds |
| `IncidentRuns.QuietWhileVanished` | pbxsense_agent/relay_notification_policy.py:110-128 | Recoveries are kept quiet exactly during the 15 seconds after an outage vanished that was never announced |
| `IncidentRuns.AnnouncedExactly` | pbxsense_agent/relay_notification_policy.py:35-79 | Over every run, a signal whose id nothing else has is announced exactly when it is active and worth telling by its fields, differs from what was delivered in more than its occurrence token, and is not kept back: a phone for 10 seconds if it is the only one monitored or 15 if it is not, or while an incident speaks for it, a recovery next to an incident or after a vanished outage, both while disconnected |
| `IncidentRuns.LoneOutageWaits` | pbxsense_agent/relay_notification_policy.py:132-171 | One phone out and no incident: none begins, and its signal is announced exactly when it is new and its outage has lasted 15 seconds since the observation it began with, 10 with a single monitored phone |
| `IncidentRuns.RecordExactly` | pbxsense_agent/relay_notification_policy.py:47-68 | What is then on record of such a signal: itself if it was announced, otherwise what there was, unless it is inactive; a disconnected observation keeps phones |
| `IncidentRuns.ForgottenExactly` | pbxsense_agent/relay_notification_policy.py:47-62 | The record of an id no signal has survives exactly as a phone's in a disconnected observation |
| `SignalQuiet.NoIndividualEventForAffected` | pbxsense_agent/relay_notification_policy.py:176-204 | While an incident exists none of its phones is announced individually |
| `SignalQuiet.AffectedOnlyGrows` | pbxsense_agent/relay_notification_policy.py:177-184 | While an incident record exists its membership only grows |
| `SignalQuiet.AnnouncedIffChanged` | pbxsense_agent/relay_notification_policy.py:330-371 | A signal is announced exactly when somewhere in the observation it is relayable, unsuppressed and differs from its record: the last relayable signal of its id before it, or else what was delivered; an id may occur any number of times |
| `SignalQuiet.DisconnectedIsSilent` | pbxsense_agent/relay_notification_policy.py:101-102 | A disconnected observation announces nothing about phones and leaves the incident and its timers alone |
| `SignalQuiet.RestampedIsAnnouncedAgain` | pbxsense_agent/pulse.py:1078-1114 | A signal that differs from what was delivered in its check time at most is announced again exactly when that differs |
| `SignalQuiet.QuietIffUnchanged` | pbxsense_agent/relay_notification_policy.py:35-79 | Over any continuation of any run, connected or not, in which its record survives, a delivered signal stays silent exactly as long as each relayable, unsuppressed showing of it is what was delivered, check time included |
| `SignalQuiet.UnchangedStaysQuiet` | pbxsense_agent/relay_notification_policy.py:35-79 | In particular a signal that shows itself as it was delivered stays quiet, through disconnections too |
| `SnapshotRuntime.ReadsAreTimely` | pbxsense_agent/snapshot_runtime.py:62-84 | For any number of readers and refreshers, each read returns a generation that was current after some step between its beginning and its end |
| `SnapshotRuntime.ReadsAreRendered` | pbxsense_agent/snapshot_runtime.py:62-84 | A read returns a payload that was built for its own window from that generation |
| `SnapshotRuntime.CachedReadsReturnAtOnce` | pbxsense_agent/snapshot_runtime.py:62-70 | A read whose payload is cached answers with it in its first step and takes no lock; any other goes to the lock for a collection if nothing was published, and to that for rendering otherwise |
| `SnapshotRuntime.CacheIsCurrentAndBuiltOnce` | pbxsense_agent/snapshot_runtime.py:50-84 | Every cached payload belongs to the current publication, and each generation and window is built with success at most once |
| `SnapshotRuntime.OneFirstCollection` | pbxsense_agent/snapshot_runtime.py:45-61 | However many callers find nothing published, they cause one successful collection |
| `SnapshotRuntime.ReadersAlwaysFindAPublication` | pbxsense_agent/snapshot_runtime.py:71-78 | The error for a missing publication behind the payload lock cannot occur |
| `SnapshotRuntime.StatusFollowsTheCollector` | pbxsense_agent/snapshot_runtime.py:46-61 | Collection is reported exactly while one thread is inside it, and never two are |
| `SnapshotRuntime.FailedCollectionLeavesNoTrace` | pbxsense_agent/snapshot_runtime.py:51-60 | A failed collection keeps publication and cache, resets the status and frees the lock, whatever other threads do between its steps |
| `SnapshotRuntime.StepInv` | pbxsense_agent/snapshot_runtime.py:45-84 | Every step of every thread keeps the joint invariant of the three locks, the cache, the builds and the records of what each call found |
| `SnapshotRefresh.RefreshesRefresh` | pbxsense_agent/snapshot_runtime.py:45-61 | A refresh that is not only for a missing publication and returns without failure has itself published, between its beginning and its end, a generation one higher than the one it found, with an empty cache |
| `SnapshotRefresh.ContentedCollectsIffMissing` | pbxsense_agent/snapshot_runtime.py:45-50 | One that is only for a missing publication, or for a read, collects exactly if it found none under the lock |
| `SnapshotRefresh.UnansweredHasFailed` | pbxsense_agent/snapshot_runtime.py:62-84 | A read without an answer is one whose own collection or build failed |
| `SnapshotRefresh.CallsEnd` | pbxsense_agent/snapshot_runtime.py:45-84 | Every step of a call that does not wait for a lock brings it nearer to its end, and of the calls that run one does not wait |
| `CallLedger.LedgerHoldsGreatest` | pbxsense_agent/daily_summary.py:153-196 | A key's entry in the ledger is the greatest number of records that carry it in any one processed batch, of answered and missed ones within two days of the batch |
| `CallLedger.RepeatedReadsAddNothing` | pbxsense_agent/daily_summary.py:191-196 | Reading records again, in any order and at any later time, adds nothing |
| `CallLedger.ReachedWithoutMenus` | pbxsense_agent/daily_summary.py:191-201 | The answered calls of a day are those of the ledger if no record tells of a menu, and none if all do |
| `DailySummary.LedgerGrows` | pbxsense_agent/daily_summary.py:185-202 | What a batch adds to the days is exactly what the longer ledger has over the shorter, so calls, missed and answered keep equal to what the batches showed |
| `DailySummary.QueuesKeepVerdicts` | pbxsense_agent/daily_summary.py:105-124 | One look at the queues keeps each day's completeness flag equal to continuity of the whole history of looks, and its names, longest wait and closing state exact |
| `DailySummary.FailureKeepsVerdicts` | pbxsense_agent/daily_summary.py:143-148 | A failed write costs today its flags, and the verdict on today says so |
| `DailySummary.TouchedKeepsVerdicts` | pbxsense_agent/daily_summary.py:126-142 | Whatever reads and saves do to call and voicemail flags, they leave queue verdicts alone |
| `QueueDay.ContinuousStep` | pbxsense_agent/daily_summary.py:105-124 | Continuity of a day can be decided one look at a time |
| `QueueDay.NamesAreConstant` | pbxsense_agent/daily_summary.py:118-121 | On a continuous day every look saw the same queues |
| `CallDay.CoveredStep` | pbxsense_agent/daily_summary.py:105-142 | Whether a day's count of calls, or of voicemails, can be vouched for, read off the whole history of looks and reads, can be decided one look at a time |
| `CallDay.StillCoveredIff` | pbxsense_agent/daily_summary.py:97-103 | A day that was covered is still covered exactly when no later look casts doubt on it |
| `CallDay.CoveredIffWatched` | pbxsense_agent/daily_summary.py:97-142 | What coverage of a day asks of each look, field by field: on the day stored, the first within a minute, nothing undated; up to the first read after the day ready, recent, in time after the last read, and read in full, for calls from its anchor on; no call in progress over either midnight |
| `DailySummary.FlagsKept` | pbxsense_agent/daily_summary.py:105-148 | One observation keeps each day's call and voicemail flags equal to that coverage: opened in the first minute, reads ready, recent and counted, no failed write; for calls reads anchored in the one before, no undated call and no call over midnight; for voicemails their source ready, and none undated or too many |
| `DailyRestart.TrueIffHarmless` | pbxsense_agent/daily_summary.py:45-86 | A day claimed from the kept looks was, over all the looks there were, as claimed exactly when no lost look takes anything away from it |
| `DailyRestart.TrueIffEdgesAgree` | pbxsense_agent/daily_summary.py:139-145 | If only looks were lost that were not worth saving, the claim is true exactly when those lost before the day's first kept look saw its queues, and its last look, if lost, saw them empty |
| `DailyRestart.CoveredIffNoneDoubts` | pbxsense_agent/daily_summary.py:97-142 | Calls covered by the kept looks are covered by all looks there were exactly when no lost look, nor the first kept one if others came before it, casts doubt on the day |
| `DailyRestart.UnremarkableIsNegligible` | pbxsense_agent/daily_summary.py:139-145 | A look that was not worth saving at once was ready, unless the day's claim was lost already, its wait was short or a long one saved, and it saw the day's queues if any look of the day was saved before |
| `DailyRestart.QuietGrows` | pbxsense_agent/daily_summary.py:139-145 | Looks that are not worth saving change no verdict, however many there are since the last save |
| `DailyRestart.ForgottenWaitMisleads` | pbxsense_agent/daily_summary.py:143-148 | A claim about a day of which a long wait was forgotten is false |
| `DailyTracker.Tally` | pbxsense_agent/daily_summary.py:153-173 | The scan of a batch: multiplicities of the counted keys, a last dated call, undated calls, and what the last record of each key says of a menu |
| `DailyFacts.LookSees` | pbxsense_agent/daily_summary.py:109-127 | A look records exactly the names, the longest wait over all queues, emptiness and readiness of its snapshot |
| `DailyFacts.BatchIsShown` | pbxsense_agent/daily_summary.py:153-217 | What a batch is said to show is what its records and the table show: undated calls, the anchor of the last read or fewer than a thousand records, more than a hundred thousand keys, voicemails undated or too many |
| `DailyFacts.SavesWhenDue` | pbxsense_agent/daily_summary.py:142-145 | The state is saved exactly when a read was committed, a flag of today changed, a minute has passed, or a wait over a minute is new today |
| `DailyTracker.DailySummaryTracker.Observe` | pbxsense_agent/daily_summary.py:105-151 | After failed transactions and restarts at any point: day counts equal the ledger, and queue, call and voicemail flags equal continuity and coverage of the looks that led to the state; the look that was added is what the snapshot says, field by field; within a process flags never rise and exactly the doubtful ones are lowered; the batch is counted exactly when the read is due, succeeds and fits, and its latest key is the next anchor; the state is saved exactly when a read was committed, a flag of today changed, a long wait is new or a minute has passed; every look is in the chronicle, and a failed write leaves a tear |
| `DailyTracker.DailySummaryTracker.History` | pbxsense_agent/daily_summary.py:153-217 | A committed read counts its batch and lowers what it cannot vouch for; a failed one leaves the database alone |
| `DailyTracker.DailySummaryTracker.CountBatch` | pbxsense_agent/daily_summary.py:185-199 | For calls: every key adds its excess over the table, and the table then holds the greater count |
| `DailyTracker.DailySummaryTracker.ReadHistory` | pbxsense_agent/daily_summary.py:132-141 | A failed read is undone in memory |
| `DailyTracker.DailySummaryTracker.Persist` | pbxsense_agent/daily_summary.py:142-145 | Saving happens exactly when due and fails exactly when the database refuses; memory and database keep counting the same ledger |
| `DailyTracker.DailySummaryTracker.Restart` | pbxsense_agent/daily_summary.py:47-86 | A new process goes on from what was saved and forgets no look of the chronicle; a queue, call or voicemail flag rises exactly when the lost looks took it down; with no failed write since the last save no queue flag rises, and no flag of the present day |
| `DailyTracker.DailySummaryTracker.Invalidate` | pbxsense_agent/daily_summary.py:97-103 | The loop lowers exactly the given flags of exactly the days in doubt |
| `DailyMoments.QueueMomentIsExact` | pbxsense_agent/engine.py:662-686 | The queue moment is emitted exactly when, five minutes into the next day, the looks that led to the state show a continuous day with waits within 60 seconds that closed empty |
| `DailyMoments.ContinuousLooks` | pbxsense_agent/daily_summary.py:88-124 | What continuity means for each look: ready, first within the 60th second, gaps within bounds up to and over midnight, constant queues |
| `DailyMoments.NoMissedIsExact` | pbxsense_agent/engine.py:687-692 | A retained day has no missed call exactly when no processed batch ever showed one for it, and counts calls exactly when some batch showed one |
| `DailyMoments.CleanIsExact` | pbxsense_agent/engine.py:687-704 | Any retained day is recorded as clean exactly when its calls were covered by the history of reads, some batch showed a call of it and none a missed one |
| `DailyMoments.StreakIsExact` | pbxsense_agent/engine.py:693-711 | Every retained day of a streak was clean by its history and the one before it was not; there is a streak to show exactly when the last two days were clean |
| `DailyMoments.Streak` | pbxsense_agent/engine.py:693-711 | The loop finds exactly the clean days that end yesterday |
| `DailyMoments.OperationalMoments` | pbxsense_agent/engine.py:662-711 | Which of these three moments a publication yields |
| `DailyMoments.ObserveAndClaim` | pbxsense_agent/engine.py:662-711 | Over any run, with the look that was added told by the fields of the snapshot: the queue moment appears exactly when the looks that led to the state bear it out, and over all looks there ever were it is true exactly when the lost ones are harmless, always if none is lost; the day without missed calls and the streak appear exactly when coverage and ledger make the last day, or two, clean, and every retained day of the streak was; that coverage holds over all looks exactly when no lost one casts doubt; figures are those of the history |
| `DailyRuns.LoseLook` | pbxsense_agent/daily_summary.py:143-148 | A look whose write fails before a restart leaves memory and database as they were; only the chronicle has it |
| `DailyRuns.MisleadingMoment` | pbxsense_agent/daily_summary.py:143-148 | For every setting of the gaps from ten seconds on, a run with a look every ten seconds in which a wait of 500 seconds is forgotten that way and the day is said to have finished within target |
| `DailyRuns.CallFlagRises` | pbxsense_agent/daily_summary.py:139-145 | For every setting of the gaps, a run without any failed write in which a restart brings back yesterday's call flag |
| `AmiFraming.RecvThrough` | pbxsense_agent/ami.py:440-472 | However peeks are cut, a call returns and consumes one packet: the stream up to the end of its first marker, or its rest, with no marker before its end; it fails exactly when that exceeds the limit, and then no marker ends within the limit and the stream goes on beyond it |
| `AmiFraming.ReadPackets` | pbxsense_agent/ami.py:422-472 | Repeated calls return exactly the packets of the stream, up to the first that is too long |
| `AmiFraming.FramesJoin` | pbxsense_agent/ami.py:440-472 | The packets concatenate back to the stream |
| `AmiFraming.FramesAreExact` | pbxsense_agent/ami.py:440-472 | Every packet but the last ends with the marker, and none holds one any earlier |
| `AmiFraming.PeekDecides` | pbxsense_agent/ami.py:459-465 | Searching the carried-over tail with the peeked bytes finds a straddling marker and misses none |
| `LiveReplay.ReplayIsExact` | pbxsense_agent/live.py:4-73 | The events take a client from one payload to the next exactly when they replace the state or no changed key ends in an item equal to the old one |
| `LiveReplay.UniquePayloadsReplay` | pbxsense_agent/live.py:4-73 | With unique keys they always do |
| `LiveReplay.RepeatedKeyMisleads` | pbxsense_agent/live.py:76-106 | With a key twice a concrete pair of payloads is not reproduced |
| `LiveReplay.CollectionReplays` | pbxsense_agent/live.py:76-132 | One collection: changes and removals give the new keyed view exactly when the diff is faithful |
| `LiveReplay.Live` | pbxsense_agent/main.py:1366-1406 | A client tracks the payload after every turn of the feed, and no turn ends with ten quiet seconds behind it |
| `LiveReplay.OneTurn` | pbxsense_agent/main.py:1381-1406 | One turn sends what is due; if nothing is, the whole state when it differs, or a heartbeat after ten quiet seconds; and with unique keys it brings a client from the previous payload to the current one |
| `LiveDiff.HomeLiveEvents` | pbxsense_agent/live.py:4-73 | The whole state exactly when a person, trunk or queue is gone; otherwise exactly the events that are due, item by item: created for a key that is new, updated where the last item of the key was another, removed for a signal that is gone, and the three parts that differ, in their order |
| `LiveDiff.CollectionEvents` | pbxsense_agent/live.py:76-106 | The loops over a collection emit exactly one event per new or changed keyed item |
| `LiveDiff.RemovedKeys` | pbxsense_agent/live.py:109-132 | The comprehension lists exactly the keys that disappeared, in order |

## Left out

- HTTP handlers, authentication, cryptography, settings, pages, diagnostics and installers.
- Expiry of Relay records by the database, the clean-up of tokens the service calls invalid after the checkpoint, and usage accounting.
- Agent status notifications and secure snapshots on the Relay.
- Serialization of the outbox: `Outbox` takes each item's encoded size as given; encryption at rest and the health timestamps of the relay state are not modelled.
- Enrollment and locking around the Agent's relay object: `IncidentPolicy` and `Outbox` are the two halves of its observation (`pbxsense_agent/relay.py:358-379`).
- Wording of titles and bodies, the order in which retained signals are listed, and `signal_lifecycle`.
- The queue, trunk, voicemail and busy-period parts of the activity tracker, and the aggregate tip tracker.
- The staleness flag that `SnapshotRuntime` adds to a payload, and elapsed times in its diagnostics.
- The size and shape checks of a stored summary at start-up: a restart reads back what was saved.
- DailyTracker.DailySummaryTracker.CountBatch: counts calls; counts of voicemails, a set of keys kept like the ledger, and the time of the first answered call are not modelled.
- DailyMoments.OperationalMoments: only the queue moment, the day without missed calls and the clean streak; the first answered call, the voicemail-free streak and the volume moments are not modelled.
- DeliveryOnce.AcceptsAgainIff: continuations let an Agent queue any event again, which is more than a real one does: that an unfinished row is published again is possible, not certain.
- IncidentHistory.EpisodesAreWellFormed: covers runs without an Agent crash between an emission and the save that follows it.
- AmiFraming.RecvThrough: time-outs and resets of the connection end a call by an exception and are not modelled.
- Items without a key, and payload parts the live feed never reports, are outside the client's keyed view in `LiveReplay`.
- Parsing of the exchange's own formats, connectors and file scanning.
