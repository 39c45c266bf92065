# mqtt-linak: a verified model of the bridge

mqtt-linak connects LINAK desks, reached over Bluetooth LE, to an MQTT broker. It is a supervisor:
one loop per desk, one event pump, one scan controller and the MQTT client's own loop and callbacks
share flags, channels of capacity one, a routing map and last-value state. This project models that
supervisor and proves what every interleaving, every run and every input keeps. The Bluetooth
helper, the desks, the paho client and the broker are the environment: a step of theirs succeeds,
fails or delivers an event, whichever they like.

Two kinds of model meet:

- **Transition systems** for what processes do to each other: `ScanProtocol` (desk loops, pump,
  controller), `MqttSession`, `Commands`, `Mirror` and `MirrorSplit`. A run is any sequence of
  enabled steps, with any number of desks, calls and handlers.
- **Classes** for what one goroutine does in place: `DeskModel.DeskManager` (desk.go),
  `ThrottleModel.Throttle` (throttle.go), `BridgeModel.Bridge` (bridge.go) and `MqttModel.Client`
  (mqttc.go). Every method is proved against a function of the old state, and lemmas about those
  functions carry the properties. Where a method is one process's part of a transition system, it is
  shown to be one of that system's runs (`OnDiscoveryIsARun`, `ScanPassIsARun`, `SubscribeIsARun`,
  `HandlerIsARun`, `ServingIsARun`).

The files, in reading order:

| file | what it holds |
|---|---|
| Text.dfy, Arithmetic.dfy | trimming, ASCII case folding, the matching rule; products and quotients |
| ScanProtocol.dfy, ScanSafety.dfy | the resolve/scan/connect/disconnect protocol; hand-off tokens and the scan wake-up |
| ScanRouting.dfy, ScanDrops.dfy | which desk a disconnection event reaches, and that no drop is missed: each exactly under exclusive matching |
| ScanSessions.dfy, ScanProgress.dfy | what can end a session although its link is up, exactly; and that a desk can always get back to being served, exactly under exclusive matching |
| ScanRescan.dfy | what a desk may dial, and when it gives up on its peripheral |
| Bridge.dfy | the pump's handlers and the controller's pass as written |
| Throttle.dfy, SessionHeights.dfy | the publish throttle: refinement, convergence, rate bound; and as every served session uses it |
| Mirror.dfy, MirrorHistory.dfy, MirrorSplit.dfy, AvailabilitySplit.dfy | broker agreement with decide and publish as one step; record and broker as functions of what happened; and with the two taken apart: the height, and the availability |
| Backoff.dfy, Lifecycle.dfy, Serving.dfy, Commands.dfy, DeskManager.dfy | one desk: delays, rounds, the serve loop, its queue, and the class |
| MqttSession.dfy, Mqtt.dfy | the MQTT connection loop and Subscribe |
| Topics.dfy, Payloads.dfy, Config.dfy, Gaps.dfy | topic names, payloads and what they mean, what Validate accepts, and where accepting is not enough |

## Hypotheses

- Routing, "no missed drop" and "never stuck" hold when matching is exclusive: no peripheral is ever
  advertised so that two desks match it. Validate does not check this. For each of the three it is
  exactly what is needed (`RoutingAgreesIffExclusive`, `NoMissedDropIffExclusive`,
  `NeverStuckIffExclusive`). `ExclusiveWhateverIsHeardIff` says
  which accepted configurations have it whatever is advertised, and `AcceptedDesksCanMisroute` gives
  one that does not.
- Peripheral identifiers are never empty, and a disconnection event spells one up to letter case.
- Every link that goes down by itself is reported to the pump (the library's channels do not
  overflow); the event may be pumped arbitrarily late. A Disconnect we ask for may or may not be
  reported, and its error is ignored: the link may outlive its session, and so may the link of a
  Connect that fails after it came up. Such a link goes down at any later time, with an event or
  without.
- `scanning` is what the controller believes, not what the adapter does. An advert is heard while it
  believes in a scan; everything is proved both with and without adverts that are pumped later than
  that (`System.late`), so "can get back" never leans on an advert heard without a scan.
- The closed form of the delays and what follows from it need `reconnect_max_backoff` to be at most
  2^62 - 1 ns (about 146 years), so that doubling does not wrap. Validate accepts more; the bound is
  exact (`ClosedFormIff`, `NeverNegativeIff`). run itself is proved for every backoff, wrap included.
- The keepalive bound needs the ticks to be handled at most `gap` apart (60 s in the source if no
  operation is slow), and the base height read on connect to be answered within the interval.
- The MQTT connection is open before the connect handler starts; each handler runs in a goroutine of
  its own and may outlive its session.
- The rate bound needs a clock that does not run backwards.

## Where the source and its documentation disagree

The model follows the code.

- README.md:418 says commands while a desk is offline are dropped rather than queued. Nothing drains
  `commands` when a session ends (desk.go:287-300), so a command accepted before a drop is applied
  after the next connect (`CommandCanOutliveItsSession`). `AppliesOnlyOwnIff` says exactly when a
  session can still apply a command checked in another one; at its start that is unless the queue is
  empty and no callback is between its check and its send (`FreshSessionIff`).
- desk.go:203-204 drains a disconnect left over so that it does not end the next session at once. An
  event pumped after the drain still does, although the new link is up (`LateDropEndsNextSession`).
  `EndsAliveIff` says exactly when, at the drain, that can still come.
- The state is republished after each reconnect so that the broker agrees again. That is so when a
  decision and its publish are one step (`BrokerAgreesAfterOutages`). They are not: throttle.go:50-51
  publishes after the unlock and desk.go:486-500 publishes an earlier snapshot, so the broker can be
  left with an old height although nothing is under way (`OvertakingHappens`, `StaleSnapshotUndoes`),
  lastHeight with it, and republishing only restores the old value (`RepublishRestoresStale`).
  `BrokerEndsAtIff` and `HeightEndsAtIff` say exactly where the two end up, and `TurnsAgree` that they
  agree if publishes and republishes go through one at a time. In the same way the
  broker can be left showing a desk as online that has gone offline (`StaleSnapshotShowsOnline`);
  `AvailabilityEndsRightIff` says exactly when it cannot.
- README.md:402-403 says the final resting position is always published. It is exactly if it differs
  from the height published last since the desk came online (throttle.go:40-44, desk.go:269;
  `SettledHeightToldIff`).
- desk.go:139 logs the grown backoff as the delay after a stable session; the sleep uses the minimum.
- bridge.go:351 speaks of two matching fields; there are three, of which exactly one is set.
- "Held" runs from the first setOnline to the second, so it includes the deferred Disconnect
  (desk.go:219-223), up to five seconds in which the desk was already gone.

## Model

| member | source | states |
|---|---|---|
| `ScanSafety.NoHandoffLost` | internal/bridge/bridge.go:241-259 | in every reachable state, for any number of desks, (wantResolve set) + (pump between its swap and its send) + (length of resolved) is 1 while the desk is in resolve and 0 otherwise; hence the CompareAndSwap cannot fail, the send never takes its default branch, and no stale identifier is waiting when a new request starts |
| `ScanSafety.NoLostScanWake` | internal/bridge/bridge.go:310-347 | with the flags read one at a time in any interleaving: with the controller parked, scanWake empty and nobody between a flag change and its wake, `scanning` holds exactly when some desk has wantResolve set and the last pass did not end in a failed StartScan |
| `ScanSafety.WaitingDeskIsServed` | internal/bridge/desk.go:169-181 | at that rest, a desk blocked in resolve has its identifier waiting, or wants one and is being scanned for unless StartScan has just failed |
| `ScanSafety.StartsThatSucceedScan` | internal/bridge/bridge.go:329-346 | along any path on which no StartScan fails, nothing is booked as failed, so at rest the scan runs exactly when some desk wants one |
| `ScanSafety.NoScanWithoutStart` | internal/bridge/bridge.go:330-338 | along any path on which no StartScan succeeds there is no scan, and at rest the failure is on record whenever some desk wants one |
| `ScanSafety.ControllerCatchesUp` | internal/bridge/bridge.go:299-346 | from any state whatever, with no step but the controller's own, no wake-up but its ticker's and a StartScan that succeeds, the scan comes to run exactly when some desk wants one, and nothing else has changed |
| `ScanSafety.PowerOnStartsScan` | internal/bridge/bridge.go:217-219 | after the adapter is powered on the scan can come to run, if some desk wants one, without the ticker |
| `ScanSafety.DeskStepMovesToken` | internal/bridge/desk.go:115-181 | no step of a desk's own loop but entering and leaving resolve changes its token count |
| `ScanRouting.RoutesAreHoldings` | internal/bridge/bridge.go:253-264 | with exclusive matching, in every reachable state, each desk holding or about to receive an identifier owns its upper-cased key, and every key in byPeripheral belongs to the desk that holds that identifier, so a desk owns at most one |
| `ScanRouting.RoutingAgreesIffExclusive` | internal/bridge/bridge.go:241-264 | every desk that holds a peripheral is routed its disconnections in all reachable states if and only if matching is exclusive |
| `ScanRouting.OverlapBreaksRouting` | internal/bridge/bridge.go:253 | any two desks matching one peripheral have a run after which the first holds it and the second owns its route, so that the second gets its events |
| `ScanRouting.PinnedDesksAreExclusive` | internal/bridge/bridge.go:352-355 | desks pinned by identifiers that differ beyond letter case are exclusive, whatever is advertised |
| `ScanRouting.RouteStep` | internal/bridge/bridge.go:253 | storing the route of a claimed peripheral whose key no other desk holds keeps routes and holdings in exact correspondence |
| `ScanRouting.DiscoveryIsARun` | internal/bridge/bridge.go:230-261 | onDiscovery run without interference, the first wanting and matching desk taking the identifier, is one of the interleavings |
| `ScanDrops.NoMissedDrop` | internal/bridge/desk.go:203-217 | if the link of the current connection is gone and its session has not noticed, then unless the event about that very connection is still to be pumped, `disconnected` is full and the serve loop can leave its select |
| `ScanDrops.NoMissedDropIffExclusive` | internal/bridge/bridge.go:263-274 | no reachable state has a session with a dead link, unpoked and with nothing about its connection on the way, if and only if matching is exclusive |
| `ScanDrops.OverlapMissesDrop` | internal/bridge/bridge.go:253-264 | with two desks matching one peripheral there is a run after which the first serves a dead link it will not be told about |
| `ScanDrops.DropFindsItsSession` | internal/bridge/bridge.go:263-274 | with exclusive matching, in every reachable state, an event about a live session looks up the desk whose session it is |
| `ScanSessions.PokedSinceDrain` | internal/bridge/desk.go:203-208 | what the drain is for: in every run a session finds `disconnected` full only if the pump delivered an event after that session's own drain, whatever earlier sessions left behind |
| `ScanSessions.EndsAliveIff` | internal/bridge/desk.go:203-223 | with exclusive matching and no disconnection event about the peripheral but those of our own connections, from any reachable drain: the session can end on a drop while its link is up if and only if, at the drain, an event naming the peripheral is still to be pumped, or a link to it that outlived its session is still up, or the pump is about to poke the desk |
| `ScanSessions.LateDropEndsNextSession` | internal/bridge/desk.go:203-208 | it happens wherever a desk can be found at all: a first session leaves an event with its own number queued at the next drain, and the pump pokes the second session, whose number is higher and whose link is up, with that event |
| `ScanProgress.NeverStuckIffExclusive` | internal/bridge/desk.go:115-181 | from every reachable state every desk with a matching advert that can be heard can still get to being served over a link that is up, if and only if matching is exclusive; also when adverts are heard only while the controller scans |
| `ScanProgress.GetsUp` | internal/bridge/desk.go:115-301 | the way back, from wherever the desk's loop, its link, the pump and the controller stand, without any event about a connection that is not ours |
| `ScanProgress.StuckForGood` | internal/bridge/bridge.go:253-274 | a desk serving a dead link, not told of it and with no route to it, is never served again on any run |
| `ScanRescan.DialsOnlyItsOwn` | internal/bridge/bridge.go:241-259 | in every reachable state, however matching overlaps, the identifier a desk holds was advertised, spelled so, by a peripheral that matches it |
| `ScanRescan.FailuresBounded` | internal/bridge/desk.go:149-160 | in every reachable state at most two failures are on the count, and none from being served until the session is settled |
| `ScanRescan.ForgetsOnlyOnThird` | internal/bridge/desk.go:184-190 | in every reachable state the only step that takes a desk's peripheral away is settling a failure with two on the count, and its route goes with it |
| `ScanRescan.ThirdFailureRescans` | internal/bridge/desk.go:149-160 | from the top of its loop a desk refused every time keeps its peripheral and its route until it has failed three times in a row, and then has neither |
| `ScanRescan.ServedSessionStartsAfresh` | internal/bridge/desk.go:131-160 | after a session that was served and dropped, a desk refused n times keeps its peripheral for n < 3 and has none for n = 3 |
| `BridgeModel.Bridge.constructor` | internal/bridge/bridge.go:63-72 | a new bridge is the initial state of the protocol for its configuration |
| `BridgeModel.Bridge.OnDiscovery` | internal/bridge/bridge.go:230-261 | of the desks in order the first that wants a peripheral and matches gets flag, route, identifier and wake-up; if none does nothing changes |
| `BridgeModel.Bridge.OnDisconnection` | internal/bridge/bridge.go:263-274 | the owner of the peripheral is poked, and nobody else; an unknown peripheral changes nothing |
| `BridgeModel.Bridge.ScanPass` | internal/bridge/bridge.go:321-346 | with a StartScan that succeeds one pass leaves the scan running exactly when some desk wants it, nothing booked as failed; without one it runs exactly when some desk wants it and it ran before |
| `BridgeModel.Passed` | internal/bridge/bridge.go:329-346 | what a pass leaves: as above; a failure is on record exactly when some desk wants a scan and there is none; nothing else changes |
| `BridgeModel.FirstTaker` | internal/bridge/bridge.go:241-250 | the desk chosen wants and matches, and no desk before it does |
| `BridgeModel.OnDiscoveryIsARun` | internal/bridge/bridge.go:230-261 | the method's effect is a run of the protocol, whoever else is in the middle of something |
| `BridgeModel.ScanPassIsARun` | internal/bridge/bridge.go:310-346 | so is a woken controller's pass |
| `Matching.DuplicateNamesDoNotMatter` | internal/bridge/bridge.go:371-384 | dropping an advertised local name that only repeats the peripheral name never changes whether a desk matches |
| `Text.TrimIs` | internal/bridge/bridge.go:353-376 | trimming takes nothing off the ends but cut characters, and leaves none there |
| `Matching.MatchesByIdentifierIff` | internal/bridge/bridge.go:353-355 | a desk pinned to an identifier matches exactly that one, letter by letter up to ASCII case, under whatever name |
| `Matching.MatchesByNameIff` | internal/bridge/bridge.go:356-359 | a desk set by name matches exactly the adverts one of whose trimmed, non-empty names has its length and agrees with it letter by letter up to ASCII case |
| `Matching.MatchesByPrefixIff` | internal/bridge/bridge.go:360-363 | a desk set by prefix matches exactly the adverts one of whose trimmed, non-empty names is at least that long and starts with it, letter by letter up to ASCII case |
| `ThrottleSpec.ThrottleRefinesChangePublisher` | internal/bridge/throttle.go:38-77 | in every run, from a fresh throttle or one just reset, the published values are a subsequence of those of a publisher that says every changed reading |
| `ThrottleSpec.SinceReset` | internal/bridge/throttle.go:79-86 | after any history a Reset leaves nothing published and nothing pending, and what follows runs and publishes as from that state alone: so the facts below hold of every stretch since a Reset |
| `ThrottleSpec.NewestIsPendingOrLast` | internal/bridge/throttle.go:38-86 | in every run a pending value differs from `last`, and the newest reading since the last Reset is the pending value or, with nothing pending, `last` |
| `ThrottleSpec.NoValueTwiceRunning` | internal/bridge/throttle.go:40-45 | from a fresh throttle or one just reset, until the next Reset no two neighbouring published values are equal |
| `ThrottleSpec.SettledIffNothingPending` | internal/bridge/throttle.go:61-77 | in such a stretch the last published value is the change-only publisher's last value exactly when nothing is pending |
| `ThrottleSpec.Converges` | internal/bridge/throttle.go:47-77 | in such a stretch it is so after a forced Set, and after a Flush at least min after the last publish |
| `ThrottleSpec.SettledReadingPublishedIff` | internal/bridge/throttle.go:40-51 | in such a stretch a settled reading is published if and only if it differs from the value published last in it |
| `ThrottleSpec.PublishesExactly` | internal/bridge/throttle.go:38-77 | in such a stretch every decision is a function of the publishes made so far and the newest reading alone: the flags and the pending slot implement exactly that |
| `ThrottleSpec.MovingReadingPublishedIff` | internal/bridge/throttle.go:40-55 | in such a stretch an unforced reading is published at once exactly when it is not the value published last and no publish is less than min old |
| `ThrottleSpec.FlushPublishesIff` | internal/bridge/throttle.go:61-77 | in such a stretch a flush publishes the newest reading exactly when it is not the value published last and no publish is less than min old |
| `ThrottleSpec.UnforcedPublishesWait` | internal/bridge/throttle.go:47-74 | in such a stretch an unforced publish comes at least min after the publish before it, forced or not |
| `ThrottleSpec.RateBound` | internal/bridge/throttle.go:47-86 | a window of length T holds at most T/min + 1 publishes, plus one for each Reset and each publish a forced Set made, whatever went before the window |
| `ThrottleSpec.RateBoundIsTight` | internal/bridge/throttle.go:47-53 | the bound is met: n readings min apart are all published |
| `ThrottleSpec.FirstReadingAfterReset` | internal/bridge/throttle.go:79-86 | in every run, with no reading since the last Reset, the next one is published at once, whatever its value |
| `ThrottleSpec.PublicationsAreTrace` | internal/bridge/throttle.go:51 | the timed record of publishes has exactly the published values, in order |
| `SessionHeights.SessionTellsChanges` | internal/bridge/desk.go:267-300 | in every served session, whatever came before it, the heights passed to publish since it came online are exactly the throttle's, a subsequence of the changes read in it, none twice running |
| `SessionHeights.SettledHeightToldIff` | internal/bridge/desk.go:398-407 | in every served session a settled height is passed to publish if and only if it is not the height passed last since the desk came online |
| `SessionHeights.MovingHeightToldIff` | internal/bridge/desk.go:398-407 | in every served session a moving desk's height is passed to publish if and only if it is not the one passed last and none was passed less than min ago |
| `SessionHeights.FlushTickTellsIff` | internal/bridge/desk.go:293-294 | in every served session a flush tick passes the newest height to publish if and only if it is not the one passed last and none was passed less than min ago |
| `SessionHeights.SessionSettles` | internal/bridge/desk.go:293-294 | in every served session, after a settled height, or a flush tick at least min after the last publish, the height passed last is the newest one read since the desk came online |
| `ThrottleModel.Throttle.Set` | internal/bridge/throttle.go:38-56 | Set in place decides and updates as the value model of the run theorems says |
| `ThrottleModel.Throttle.Flush` | internal/bridge/throttle.go:61-77 | likewise Flush |
| `ThrottleModel.Throttle.Reset` | internal/bridge/throttle.go:82-86 | likewise Reset |
| `Mirror.BrokerAgreesAfterOutages` | internal/bridge/bridge.go:179-184 | for any accepted configuration and any run of readings, flushes, connects, drops, broker restarts that keep anything, and republishing handlers left over from old sessions: once the open session's republishAll has run, the broker was last told every desk's availability, height and base height and that the bridge is online; and lastHeight is the throttle's `last` whenever it has one |
| `Mirror.BrokerShowsNewestReading` | internal/bridge/desk.go:398-407 | then, with nothing pending, the height the broker was last told is the desk's newest reading since it came online |
| `Mirror.HeightIsReannounced` | internal/bridge/desk.go:267-270 | after a connect and any flush ticks the first reading is published as the height, even if it is the height published last |
| `MirrorHistory.RecordFollowsHistory` | internal/bridge/desk.go:402-518 | in every run a desk's record is a function of what the desk itself has done: the last base height read, whether it is up, the last height its throttle let through; outages, announcements and other desks leave it alone |
| `MirrorHistory.BrokerShowsHistory` | internal/bridge/desk.go:456-518 | end to end, with the topics spelled out: once the open session's republishAll has run, the broker shows each desk "online" exactly when it came online and has not gone offline since, "offline" otherwise, with the height published last and the base height read last; and the bridge as "online" |
| `Mirror.DeskStepSaysChanges` | internal/bridge/desk.go:402-518 | each desk step publishes exactly the recorded values it changed |
| `Mirror.RestatedAgrees` | internal/bridge/desk.go:485-501 | republishState brings the broker to agree with everything on record |
| `Mirror.ToldEffect` | internal/mqttc/mqttc.go:296-303 | a desk's messages set its own topics to what they say last and reach no other desk's topic nor the bridge's |
| `MirrorSplit.DecisionsAreConserved` | internal/bridge/throttle.go:48-51 | with publish after the unlock, in every interleaving the values sent plus those under way are, as a multiset, the values decided |
| `MirrorSplit.EverySentInOrder` | internal/bridge/throttle.go:72-76 | if at most one publish is under way at a time the values go out in decision order, all of them once none is under way |
| `MirrorSplit.TurnsAgree` | internal/bridge/desk.go:402-501 | if publishes and republishes go through one at a time then, in every run with readings, resets, outages and reconnects, whenever none is under way lastHeight is the throttle's last value, and the broker shows it once it has been told any height since the connection opened |
| `MirrorSplit.BrokerEndsAtIff` | internal/bridge/desk.go:402-407 | however what is under way finishes, the broker ends up showing v: if and only if every message under way carries v, or none does and the broker shows v already |
| `MirrorSplit.HeightEndsAtIff` | internal/bridge/desk.go:402-407 | however what is under way finishes, lastHeight ends up as v: if and only if every decision still to be recorded is v, or none is and it is v already |
| `MirrorSplit.LonePublishRepairs` | internal/bridge/throttle.go:48-51 | a publish with nothing else under way leaves the throttle's `last`, lastHeight and the broker all with its value, whatever went before |
| `MirrorSplit.OvertakingLeavesStaleHeight` | internal/bridge/throttle.go:50-76 | from any quiet connected state with a value pending, with a clock that does not run backwards: the serve loop's flush of that value, overtaken by one settled reading from the callback, leaves broker and lastHeight with the pending value while the throttle's `last` is the reading, nothing pending or under way |
| `MirrorSplit.OvertakingHappens` | internal/bridge/throttle.go:50-76 | such a run from the very start, with the connect's Reset before it, for any three readings of which the neighbours differ |
| `MirrorSplit.RepublishRestoresStale` | internal/bridge/desk.go:485-501 | losing the connection, reconnecting and republishing with nothing else under way shows the stale height again, whatever the broker kept |
| `MirrorSplit.StaleSnapshotUndoes` | internal/bridge/desk.go:485-500 | a republish snapshot sent late leaves the broker with the old height although a newer one was recorded and sent |
| `AvailabilitySplit.AvailabilityEndsRightIff` | internal/bridge/desk.go:485-494 | in every reachable connected state: however what is under way finishes, the broker ends up showing the recorded availability, if and only if no snapshot under way is old and, with nothing under way, it shows it already |
| `AvailabilitySplit.StaleSnapshotShowsOnline` | internal/bridge/desk.go:485-494 | a snapshot of a connected desk, sent after the desk has gone offline and said so, leaves it shown as online |
| `Backoff.ClosedFormIff` | internal/bridge/desk.go:163 | of the backoffs Validate accepts, in int64 the k-th sleep is min(minBackoff * 2^k, maxBackoff) for every k if and only if the maximum is at most 2^62 - 1 |
| `Backoff.NeverNegativeIff` | internal/bridge/desk.go:163 | of the backoffs Validate accepts, no delay ever goes negative, so that the desk is retried without any wait, if and only if the maximum is at most 2^62 - 1 |
| `Backoff.JitterBounds` | internal/bridge/desk.go:599-604 | a sleep is between its delay and five quarters of it, for every delay whose five quarters fit an int64 |
| `Backoff.JitterSpreads` | internal/bridge/desk.go:599-604 | and every such value is one a random number leads to |
| `Backoff.SumBeforeCap` | internal/bridge/desk.go:116-163 | until the cap is met the first n delays add up to minBackoff * (2^n - 1) |
| `Backoff.SumAfterCap` | internal/bridge/desk.go:116-163 | after it every delay costs maxBackoff |
| `Lifecycle.UnstableRoundsClimb` | internal/bridge/desk.go:131-163 | since the start, or since the last session of 60 s, the delays climb one place a round |
| `Lifecycle.RetriesTakeTime` | internal/bridge/desk.go:115-165 | a desk that never holds 60 s cannot begin its n-th next attempt before the first n delays have passed |
| `Lifecycle.FlappingIsRateLimited` | internal/bridge/desk.go:45-49 | so a flapping desk is retried at most once per maxBackoff but for the first k rounds |
| `Lifecycle.LogFollows` | internal/bridge/desk.go:131-163 | the log without its counters: the delay is the minimum on the first round and after 60 s online, and otherwise the doubled and capped delay of the round before; the peripheral is forgotten on every third round in a row that never came online, and only then |
| `Lifecycle.ShortDelayIffHeldAMinute` | internal/bridge/desk.go:134-147 | after the first round the minimum delay comes exactly after a round that came online and stayed so for 60 s |
| `Lifecycle.PassKeepsTrack` | internal/bridge/desk.go:131-163 | one pass of run's loop keeps backoff, consecFailure and the peripheral where the history of rounds puts them, and the log of rounds in order |
| `Lifecycle.PassIsRoundOf` | internal/bridge/desk.go:120-163 | what the counters give a round is what its history calls for: its delay from the place since the last stable session, its rescan from the streak |
| `Lifecycle.HeldIncludesDisconnect` | internal/bridge/desk.go:503-518 | the time a round held runs from the end of its own ownership exchange to the end of the deferred Disconnect |
| `Lifecycle.OneRoundEach` | internal/bridge/desk.go:120-163 | each attempt makes one round, which counts as failed exactly if the attempt was refused |
| `Lifecycle.LoopStartsWithActivity` | internal/bridge/desk.go:242-284 | the select loop always starts with an operation on record, so idleFor's zero-activity case is not met there |
| `Lifecycle.OpeningIs` | internal/bridge/desk.go:241-278 | what a connect sends and tells before its select loop, and when: wake-up and stop only if configured, ownership, online, a throttle reset, the base height; the queue is as the session before left it |
| `Lifecycle.AttemptEndsOffline` | internal/bridge/desk.go:127-129 | every attempt, even a refused one, ends with the desk offline and the broker told so |
| `Lifecycle.RefusedTellsOffline` | internal/bridge/desk.go:127-129 | a refused attempt tells offline and sleeps, and touches nothing else |
| `Lifecycle.SessionKeepsDeskAlive` | internal/bridge/desk.go:277-300 | a session whose ticks are handled at most gap apart never leaves its desk idle for interval + gap |
| `DeskModel.DeskManager.constructor` | internal/bridge/desk.go:100-112 | a new manager is offline with nothing recorded, queued or sent, and a fresh throttle |
| `DeskModel.DeskManager.Run` | internal/bridge/desk.go:115-165 | for every backoff and over any finite script of outcomes, the whole record (queue, histories of commands, operations and messages, clock) and the log of rounds are the ones the script makes; delays and rescans follow from neighbouring rounds as in `Lifecycle.LogFollows`; the peripheral is the one resolved in the first round since it was last forgotten; every round counts as failed exactly when its attempt was refused |
| `DeskModel.DeskManager.RunOnce` | internal/bridge/desk.go:120-163 | one attempt: the record becomes that of its session, offline again and asleep; the delay is the minimum exactly after 60 s online; the peripheral is resolved only if there is none, and forgotten exactly on a refusal with two failures on the count |
| `DeskModel.DeskManager.ResolveAndServe` | internal/bridge/desk.go:121-129 | the held time is that of the session that just ended, and zero if there was none, never an earlier one |
| `DeskModel.DeskManager.ConnectAndServe` | internal/bridge/desk.go:200-301 | a session's effect on the record; online is stamped with the end of the ownership exchange |
| `DeskModel.DeskManager.ServeLoop` | internal/bridge/desk.go:287-300 | the loop's events take the record where the specification's fold does |
| `DeskModel.DeskManager.SetOnline` | internal/bridge/desk.go:503-518 | online holds exactly when onlineAt is set; going offline keeps the time since, or zero |
| `DeskModel.DeskManager.KeepAlive` | internal/bridge/desk.go:442-454 | one wake-up if configured, online and idle for the interval, and nothing otherwise |
| `DeskModel.DeskManager.Submit` | internal/bridge/desk.go:545-560 | only a payload in range, sent while online and with room, reaches the queue, at its end |
| `DeskModel.DeskManager.TakeAndApply` | internal/bridge/desk.go:562-580 | the head of the queue is sent; a base height that was taken is read back, recorded and published |
| `DeskModel.DeskManager.OnReferenceOutput` | internal/bridge/desk.go:398-407 | a reading goes through the throttle, and what comes out is recorded and published |
| `DeskModel.DeskManager.RepublishState` | internal/bridge/desk.go:485-501 | announces availability, and height and base height if there are any |
| `Serving.KeepaliveBound` | internal/bridge/desk.go:284-299 | in every served session with an interval K > 0 and ticks handled at most gap apart, consecutive operations are at most K + gap apart |
| `Serving.NeverIdleForLong` | internal/bridge/desk.go:426-454 | idleFor stays below K + gap |
| `Serving.KeepaliveOnlyWhenIdle` | internal/bridge/desk.go:442-454 | after any events, a tick sends one operation if the last one is at least K old and none otherwise |
| `Serving.NoKeepalive` | internal/bridge/desk.go:442-454 | with keepalives off, or offline, or before the first operation, a tick does nothing |
| `Serving.OperationsAreCommands` | internal/bridge/desk.go:442-454 | with keepalives off the desk is sent between one and two operations for each command it is served, and no others |
| `Serving.KeepaliveRate` | internal/bridge/desk.go:280-299 | any window W of the session holds at least W / (K + gap) operations |
| `Serving.ThreeInFourHours` | internal/config/config.go:165-173 | with the default interval and a tick every minute, any four hours hold at least three |
| `Serving.QueueKept` | internal/bridge/desk.go:297-298 | serving keeps applied ++ queued = accepted, the capacity of 8 and the range 0..65535 |
| `Serving.NextCommandHandled` | internal/bridge/desk.go:562-580 | the oldest command is taken; one operation, or two when the desk took a base height, whose answer is then recorded and told; nothing else changes |
| `Serving.IncomingQueuedIff` | internal/bridge/desk.go:545-560 | a payload reaches the queue exactly if it parses, the desk is online and fewer than eight are waiting; otherwise nothing is queued |
| `Serving.OfflineAcceptsNothing` | internal/bridge/desk.go:551-554 | while a desk is offline nothing is accepted, whatever comes |
| `Commands.CommandsAreConserved` | internal/bridge/desk.go:545-580 | with the check and the send apart, in every interleaving with drops and reconnects: applied ++ queued = accepted in queueing order, at most 8 are queued, and every applied value is in 0..65535 and passed a check while online |
| `Commands.NoneLostButAtAFullQueue` | internal/bridge/desk.go:545-560 | in every interleaving the commands that passed their check are, as a multiset, those applied, those queued, those still to be sent and those that met a queue of eight |
| `Commands.CommandCanOutliveItsSession` | internal/bridge/desk.go:551-559 | a command checked in one session can be applied in the next |
| `Commands.AppliesOnlyOwnIff` | internal/bridge/desk.go:267-300 | in any state between setOnline(true) and setOnline(false): every run within the session applies only commands checked in it, if and only if its select loop has ended, or everything queued, and everything checked but not yet sent, was checked in it |
| `Commands.FreshSessionIff` | internal/bridge/desk.go:267-300 | at the start of a session, in every run, that is: the queue is empty and no callback is between its check and its send |
| `Commands.ServingIsARun` | internal/bridge/desk.go:287-300 | what the desk manager's serve loop does to its queue is one of these runs |
| `MqttSession.EverySubscriptionInEverySession` | internal/mqttc/mqttc.go:246-282 | however Subscribe calls interleave with connects, drops and old handlers, once the open session's handler has finished and every call has returned, every remembered filter has been requested in that session (clean session, MQTT 3.1.1 section 3.1.2.4) |
| `MqttSession.NoMissedLoss` | internal/mqttc/mqttc.go:146-192 | a loop waiting on a connection that is gone and whose lost handler has run finds `lost` full |
| `MqttSession.LossIsToldSinceDrain` | internal/mqttc/mqttc.go:167-171 | what the drain is for: the loop finds `lost` full only if a loss is reported after its own drain |
| `MqttSession.CanReconnect` | internal/mqttc/mqttc.go:160-201 | from every reachable state the loop can still get back to waiting on an open connection |
| `MqttModel.Client.Subscribe` | internal/mqttc/mqttc.go:246-254 | the filter is remembered last, and requested at once if connected |
| `MqttModel.Client.Resubscribe` | internal/mqttc/mqttc.go:273-282 | exactly the remembered filters are requested in addition, and only if connected |
| `MqttModel.SubscribeIsARun` | internal/mqttc/mqttc.go:246-254 | the uninterrupted call is a run of the interleaved steps |
| `MqttModel.HandlerIsARun` | internal/mqttc/mqttc.go:137-145 | so is an uninterrupted connect handler |
| `MqttModel.Run` | internal/mqttc/mqttc.go:160-201 | the k-th failure in a row sleeps min(2 s * 2^k, 60 s), k from 0; a success never sleeps and starts the count again |
| `MqttModel.FailuresAre` | internal/mqttc/mqttc.go:160-201 | the place in the streak is the number of failures in a row since the last success |
| `Topics.TopicIsInjective` | internal/bridge/topics.go:19-27 | base, desk and leaf can be read back from a topic when desk and leaf hold no slash |
| `Topics.RangeCheckIsExact` | internal/bridge/topics.go:85-94 | a number is accepted exactly when strictly between -0.5 and 65535.5, and then taken to the nearest integer, halves up |
| `Topics.DecimalPayloadIsExact` | internal/bridge/topics.go:43-51 | so a decimal payload is accepted by its value alone |
| `Topics.FormattedHeightParses` | internal/bridge/topics.go:43-98 | round trip: a formatted height in 0..65535, however padded and quoted, parses back to itself |
| `Payloads.FormatReadsBack` | internal/bridge/topics.go:98 | a formatted number of either sign is a decimal without leading zeros that reads back as it |
| `Payloads.AllDigitsCount` | internal/bridge/topics.go:77-84 | that value is what all the digits are worth with the point moved over those after it |
| `Payloads.SignsParse` | internal/bridge/topics.go:77-84 | a plus in front changes nothing, a minus the sign |
| `Payloads.UnsignedParses` | internal/bridge/topics.go:77-84 | a decimal reads as its whole part and its fraction, with or without a point |
| `Payloads.PayloadErrors` | internal/bridge/topics.go:43-74 | which error a payload gets: blank, out of range, or neither a number nor an object |
| `Payloads.ObjectMeansItsField` | internal/bridge/topics.go:53-74 | a JSON command means the first of value, height, position and base_height it has: a height there, bare or quoted, is the command; one that is no number is an error whatever the others hold; none of the four is an error, and so is what does not decode |
| `Topics.ParseTenthsMM` | internal/bridge/topics.go:43-74 | whatever is accepted, plain or from a JSON field, fits the desk's sixteen bits |
| `Config.Validate` | internal/config/config.go:250-301 | reports no problem exactly for the configurations in order: every field in range, no wildcard or trailing slash in a base, every desk well named with exactly one matcher, ids pairwise different; and reports only a problem that is there, a desk's only with the desks before it in order |
| `Config.ValidateDesks` | internal/config/config.go:267-289 | the loop with its `seen` set reports the first desk with a problem, and which |
| `Config.NoProblemIffDesksOk` | internal/config/config.go:267-289 | there is no problem exactly when every desk is in order and no two share an id |
| `Config.CountMatchers` | internal/config/config.go:277-282 | the loop counts the matching fields that are set |
| `Config.DeskTopicsAreDistinct` | internal/bridge/topics.go:19-27 | in an accepted configuration, under one base, two desk topics are equal only for the same desk and leaf |
| `Config.TopicsAreConcrete` | internal/config/config.go:303-330 | no topic of an accepted configuration holds a wildcard, or an empty level next to a desk's id |
| `Config.BridgeTopicIsItsOwn` | internal/config/config.go:147-149 | no desk topic is the bridge's availability topic |
| `Config.HearsItselfIffBasesEqual` | internal/config/config.go:257-262 | a command topic is also a metric topic if and only if the two bases are equal (a filter without wildcards matches by equality, MQTT 3.1.1 section 4.7) |
| `Config.NestedPrefixesOverlap` | internal/bridge/bridge.go:356-363 | two accepted desks with nested name prefixes both match any name that starts with the longer one |
| `Gaps.AcceptedBridgeCanHearItself` | internal/config/config.go:257-262 | an accepted configuration makes the bridge subscribe to a topic it publishes on |
| `Gaps.ExclusiveWhateverIsHeardIff` | internal/config/config.go:267-289 | an accepted configuration is exclusive whatever is advertised if and only if it has one desk, or pins every desk to an identifier of its own, up to letter case |
| `Gaps.AcceptedDesksCanMisroute` | internal/config/config.go:267-289 | an accepted configuration has a run that leaves a desk holding a peripheral whose drops go to another |

## Left out

- The CoreBluetooth helper, the desk and GATT libraries and paho: each call is a step with an outcome the environment chooses. Discovery and ensureSubscriptions are one such step; the notify registry behind them is not modelled.
- Which desk the commands address after a rescan has found a different peripheral: the source builds its desk object once, from the first device (desk.go:373).
- Context cancellation, shutdown, the final publishes and the 200 ms sleep: runs are those before cancellation.
- YAML, the environment overlay, flags, logging, the line writer and launchd: plumbing.
- internal/bridge/scan.go: a diagnostic listing.
- `Topics.ParseTenthsMM`: plain decimals as exact rationals only (sign, digits, fraction); exponents, hexadecimal, infinities, NaN and binary rounding are not modelled, so a text that only those would accept is refused here. JSON decoding is a parameter, the raw text of each field.
- `Matching.DuplicateNamesDoNotMatter`: letter case folds over ASCII only, and strings are characters rather than bytes.
- `DeskModel.DeskManager.Run`: takes a finite script in place of the world; the disconnected channel and its drain live in ScanProtocol only. connectAndServe and run are cut into smaller methods, and a reading that arrives outside the select loop, or a callback running concurrently with it, appears in Mirror, MirrorSplit and Commands instead.
- `DeskModel.DeskManager.Submit`: the check and the send are one step in this class; Commands takes them apart.
- `BridgeModel.Bridge.OnDisconnection`: the pump's interleaving with the other processes is in ScanProtocol; the class states the effect without interference. The set of peripherals already logged is not modelled.
- `MqttModel.Run`: works on the outcomes of the connect attempts; the lost channel and its drain are in MqttSession. republishAll's loop over the desks is a step per desk in Mirror.
- `Mirror.BrokerAgreesAfterOutages`: retain flags and QoS; "told" means delivered last. A message lost in flight is covered by the outage that follows, after which the broker may hold anything.
- `MirrorSplit.BrokerEndsAtIff`: one desk's height; AvailabilitySplit does the availability, and the base height goes out from the serve loop and from snapshots in the same way.
- An adapter state change other than power-on, and Bluetooth errors, only log.
