# Call-screening platform: verified model

A Dafny model of the stateful cores of the call-screening platform, and proofs of what they
are for. Nothing here runs the platform; the claims are the contracts Dafny verifies.

    dafny verify dfyconfig.toml

Every component is written in the form its source has. What the source updates in place is a
class whose methods are proved against a pure step function; what a run of calls guarantees is
then proved about that function, and what a step does is proved again on the inputs' own fields,
without the step function's helpers. A `…Theorems`, `…Runs`, `…Meaning`, `…Plans` or `…Steps` file
holds these results, a `…Witnesses` file the particular runs that show where a claim stops holding.

| files | component |
|---|---|
| `Ring`, `Frames`, `RealFacts`, `Names` | the shared ring, the frame, products of reals, string order |
| `FeatureWindow`, `FeatureWindowTheorems`, `FeatureWindowMeaning` | the bounded feature window and its statistics |
| `NoiseFloor`, `NoiseFloorTheorems` | the adaptive noise floor and its retraction |
| `VoiceActivity`, `VoiceActivityTheorems`, `VoiceActivityRuns` | the six-state voice activity machine |
| `Endpoint`, `EndpointTheorems`, `BargeIn`, `BargeInTheorems` | end of turn, and interruption delivery |
| `AudioChain`, `AudioChainTheorems`, `AudioChainRuns`, `AudioChainWitnesses` | the four detectors in the order one frame passes them |
| `SeenMask`, `Continuity` | the 64-number window of sequence numbers, and transport faults |
| `Correlation`, `Overlap`, `OverlapTheorems` | double-talk: the correlation coefficient and the overlap machine |
| `MemberNames` | the strict JSON member-name walk (unique claim names: section 4 of RFC 7519) |
| `EditDistance` | word and character error counts |
| `TurnManager`, `TurnManagerTheorems`, `TurnManagerRuns` | floor control |
| `Dialogue`, `Personas`, `Clarification`, `ClarificationTheorems`, `Policy`, `Planner` | what the decision cycle consists of |
| `Conversation`, `ConversationTheorems` | the decision cycle with its re-plan loop and the floor around it |
| `ConversationPlans`, `ConversationSteps` | what each utterance and each other event comes to, on its own facts |
| `ConversationRuns`, `ConversationWitnesses` | whole conversations |
| `GoldenStore` | approved observations, their history and the pending counter |
| `ReplayStore` | DPoP freshness and replay reservation (sections 4.3 and 11.1 of RFC 9449) |
| `TranslationKit` | Android string escapes |

Times are integers in nanoseconds and levels are reals, except in the feature window. There a
value is the expression that computed it, so that "the same statistics" means the same
operations in the same order on the same measurements. Clock readings, the network's verdicts
and classifier results are parameters. Each locked method is one atomic step.

## Where the code and its documentation differ

The model follows the code; each difference is proved.

- The retraction comment (`packages/go/audiointel/noise.go:391-395`) says exactly
  MinOnsetFrames samples leaked, and the retraction withdraws that many. As many levels are
  withdrawn as leaked if and only if the ring holds MinOnsetFrames, MinOnsetFrames is at least 2
  and every real frame of the candidate supported it. None of them is left in the ring if and only
  if the last two hold or the ring holds no more than MinOnsetFrames. In every case nothing older
  is withdrawn (`EveryOnsetRetractsOnlyItself`). Both ways of leaving one behind happen, in valid
  configurations and at any levels: `AShortOnsetLeavesALevel`, `ADoubtfulFrameLeavesALevel`.
- NoiseHoldFrames is documented as a number of consecutive frames
  (`packages/go/audiointel/config.go:291-292`). The hums of a candidate that came to nothing still
  count, however quiet it has been since (`HumsAcrossAPause`, under any valid configuration with
  NoiseHoldFrames above 1), so they are consecutive if and only if one is enough
  (`NoiseIsConsecutiveExactly`).
- A silence-window endpoint is said to follow the offset. It finds the run still open exactly
  when it fires on a synthesised frame inside the hangover (`SilenceEndpointFollowsTheOffset`),
  and such a run exists (`AnEndpointMayPrecedeTheOffset`).
- The clarification budget is documented as the number of clarifying questions before
  escalation (`packages/go/conversation/persona.go:81`). The policy rule counts the question
  being proposed as already used, so a conversation asks at most one fewer. The bound is exact
  (`QuestionsAreBounded`, `TheBoundIsReached`). The budget meant is that of every persona taking
  part. Fraud shield is described as a narrowing, but its budget is the largest. The budget of the
  persona a conversation starts with is never exceeded, unless that is the personal assistant
  (`StartingBudgetHolds`); from it there is a run that exceeds it (`StartingBudgetFails`). The
  stricter bound, one fewer, holds from fraud shield and the emergency assistant
  (`NarrowStartsStayBelow`) and not from the receptionist (`ReceptionistMayReachItsBudget`).
- Some plans name Listening, which Thinking does not lead to. `FailsExactlyInDeadEnds` gives
  the exact inputs; the conversation then stays in Thinking. If the floor was free or the
  caller's, nothing said or spoken out afterwards changes anything again
  (`DeadEndsStopListening`, and over whole runs `DeadEndsAreFinal`). If another party held it,
  the next word leaves Thinking exactly when it wins the floor, and if it does not no later word
  will (`LeavesThinkingExactly`, `TheFirstWordDecides`). `ThePlatformsTurnIsWonBack` is such a case:
  the platform holds the floor after a provider's failure, and the next word recovers the
  conversation if and only if OverlapGrace is zero. The shipped receptionist persona gets stuck
  after two questions and one noisy utterance (`ReceptionistReachesADeadEnd`).
- The turn manager says the caller wins any sustained overlap
  (`packages/go/conversation/turn.go:364-366`), and by itself that is so
  (`SustainedOverlapDecides`). The engine forgets each backchannel as soon as it is classified.
  So words spoken over the agent stop it if and only if the first of them wins the floor, which it
  can only if an overlap is already being timed (`TheFirstWordOverTheAgentDecides`). One stays
  timed only where OverlapGrace is zero and someone other than the caller was refused
  (`OverlapIsForgottenUnlessDenied`). Otherwise no number of words interrupts the agent
  (`WordsNeverStopTheAgent`).
- The rule named `safety.escalation_always_available` says no rule may deny escalation. The
  built-in rules deny it in a terminal state and to a persona without the capability
  (`EscalationIsRefusedExactly`).
- A proof is accepted again if and only if some presentation swept its reservation first, for any
  clock and any mix of age limits (`AcceptedExactlyOnceSwept`, `AcceptedAgainExactly`). So single
  use needs a clock that does not go back, and verifiers that share a store must allow less than
  one second more age than each other (`NeverAcceptedTwice`). Neither condition can be dropped for
  any rules (`ClockGoingBackAcceptsTwice`, `TwoAgeLimitsAcceptTwice`).

## Model

| member | source | states |
|---|---|---|
| Ring.Push | packages/go/audiointel/window.go:77-85 | writing at the next slot and stepping on keeps exactly the newest entries, oldest first, for any position of the ring |
| Ring.Drop | packages/go/audiointel/noise.go:419-445 | moving the next slot back over count entries forgets exactly the count newest and keeps the order of the rest |
| FeatureWindow.FeatureWindow.Push | packages/go/audiointel/window.go:77-85 | the window then holds the last capacity frames of what it held plus the new one |
| FeatureWindow.FeatureWindow.Newest | packages/go/audiointel/window.go:88-97 | the newest frame held, or none when empty |
| FeatureWindow.FeatureWindow.Oldest | packages/go/audiointel/window.go:100-108 | the oldest frame held, or none when empty |
| FeatureWindow.FeatureWindow.At | packages/go/audiointel/window.go:111-124 | the n-th newest frame, or none outside the window, wherever the ring stands |
| FeatureWindow.FeatureWindow.Stats | packages/go/audiointel/window.go:211-333 | the statistics are the in-order folds over the frames held; a valid cache and a recomputation agree |
| FeatureWindow.FeatureWindow.Recompute | packages/go/audiointel/window.go:217-333 | the wrapped walk computes the same expressions as the chronological folds, addition not assumed associative |
| FeatureWindow.FeatureWindow.RecentMinRms | packages/go/audiointel/window.go:339-369 | the lowest level of the newest n frames, as the backward walk compares them |
| FeatureWindow.FeatureWindow.RecentModulation | packages/go/audiointel/window.go:386-421 | the coefficient of variation of the newest n energies, summed oldest to newest; zero for one frame, a short window or no energy |
| FeatureWindowTheorems.HeldIsTheNewest | packages/go/audiointel/window.go:77-85 | after any history the window holds exactly its newest capacity frames |
| FeatureWindowTheorems.StatsForgetHistory | packages/go/audiointel/window.go:135-160 | two sessions of any length that end in the same capacity frames report identical statistics |
| FeatureWindowTheorems.RecentModulationIsLocal | packages/go/audiointel/window.go:386-421 | the short-window modulation depends on nothing older than its own n frames |
| FeatureWindowTheorems.MinimumHasNoDirection | packages/go/audiointel/window.go:339-369 | under any comparison of values (a strict weak order) neither the backward nor the forward minimum is less than the other |
| FeatureWindowTheorems.MinimumByValue | packages/go/audiointel/window.go:339-369 | a machine that compares what its expressions come to gets the same minimum from both walks, rounding or not |
| FeatureWindowTheorems.ValueOfVariation | packages/go/audiointel/window.go:386-421 | evaluated without rounding, the modulation is the standard deviation over the mean |
| FeatureWindowTheorems.ModulationIsDimensionless | packages/go/audiointel/window.go:371-421 | a gain on every energy leaves the modulation unchanged |
| FeatureWindowMeaning.StatsMeanWhatTheySay | packages/go/audiointel/window.go:211-333 | evaluated without rounding, every statistic is what its name says: the means of their own measurements, the least and greatest level, the variation and trend of the energy, the span and the count |
| FeatureWindowMeaning.RecentModulationMeansVariation | packages/go/audiointel/window.go:386-421 | evaluated without rounding, the short-window modulation is the variation of the newest n energies, or zero without energy |
| NoiseFloor.NoiseAnalyzer.Push | packages/go/audiointel/noise.go:264-272 | the retained levels become the newest windowFrames of the old ones plus this one |
| NoiseFloor.NoiseAnalyzer.ObserveWarmup | packages/go/audiointel/noise.go:188-212 | warm-up records real levels and their minimum, and settles the floor at the clamped minimum after WarmupFrames |
| NoiseFloor.NoiseAnalyzer.ObserveBackground | packages/go/audiointel/noise.go:217-251 | one background level is recorded and moves the floor down by FallAlpha or up by RiseAlpha under the rise ceiling |
| NoiseFloor.NoiseAnalyzer.Observe | packages/go/audiointel/noise.go:165-186 | the whole new state: warm-up, gate or background step |
| NoiseFloor.NoiseAnalyzer.Retract | packages/go/audiointel/noise.go:419-445 | exactly the count newest levels are forgotten, all of them if fewer are held, and the floor is not touched |
| NoiseFloorTheorems.AdaptedIsBounded | packages/go/audiointel/noise.go:217-260 | one level keeps the floor in range, moves it towards the level and never past it, and up by at most the rise factor |
| NoiseFloorTheorems.RiseIsBounded | packages/go/audiointel/noise.go:217-260 | after any events the floor is in range and at most the start times the rise factor to the number of background levels heard |
| NoiseFloorTheorems.GatedFramesNeverMoveTheFloor | packages/go/audiointel/noise.go:165-186 | no run of speech frames, synthesised frames and retractions moves the floor |
| NoiseFloorTheorems.FallIsGeometric | packages/go/audiointel/noise.go:217-251 | a constant lower background shrinks the excess by exactly (1 - FallAlpha) to the number of frames |
| NoiseFloorTheorems.RiseIsExact | packages/go/audiointel/noise.go:217-260 | a higher level raises a floor below its maximum: by RiseAlpha of the difference, or to the ceiling where that is lower, and not past the maximum |
| NoiseFloorTheorems.FallIsExact | packages/go/audiointel/noise.go:217-260 | a level no higher lowers the floor by FallAlpha of the difference and not past the minimum |
| NoiseFloorTheorems.RiseIsGeometric | packages/go/audiointel/noise.go:217-251 | a constant background near above the floor closes the gap by exactly (1 - RiseAlpha) to the number of frames |
| NoiseFloorTheorems.ClimbIsGeometric | packages/go/audiointel/noise.go:217-251 | far below a constant background the floor climbs by exactly the rise factor to the number of frames, while the ceiling binds |
| NoiseFloorTheorems.LevelsAreTheNewestBackground | packages/go/audiointel/noise.go:165-186 | over any run of frames what is kept is the newest background levels, whatever was gated between them |
| NoiseFloorTheorems.WithdrawalForgets | packages/go/audiointel/noise.go:419-445 | a retraction takes that many of the newest levels, or all there are, and nothing else |
| NoiseFloorTheorems.ContaminationIsErased | packages/go/audiointel/noise.go:141-154 | whatever leaked in, a quiet stretch leaves at most a geometrically shrinking share of a geometrically bounded rise |
| NoiseFloorTheorems.WarmupFindsTheQuietest | packages/go/audiointel/noise.go:188-212 | the converged floor is the clamped quietest real level of the warm-up |
| NoiseFloorTheorems.WarmupKeepsRealLevels | packages/go/audiointel/noise.go:188-212 | the warm-up keeps and counts every real level, whatever the gate says |
| VoiceActivity.SpeechDetector.Observe | packages/go/audiointel/vad.go:341-576 | one frame's decision and whole new state, with no transition refused from a consistent state |
| VoiceActivity.SpeechDetector.Conclude | packages/go/audiointel/vad.go:519-575 | the state moves only along declared edges, and a refused move reports no onset or offset |
| VoiceActivity.SpeechDetector.BeginSilence | packages/go/audiointel/vad.go:652-657 | silence starts at its first frame and is not restarted by later ones |
| VoiceActivity.SpeechDetector.Reset | packages/go/audiointel/vad.go:707-725 | the detector is as constructed |
| VoiceActivity.ConfidenceIsShared | packages/go/audiointel/vad.go:629-650 | the confidence is between 0 and 1 and the active and inactive confidences of one frame are complementary |
| VoiceActivity.StaysConsistent | packages/go/audiointel/vad.go:34-63 | every step of the machine is a declared transition and keeps its timers and counters in agreement with its state |
| VoiceActivityTheorems.OnsetsAndOffsetsAlternate | packages/go/audiointel/vad.go:341-576 | over any run onsets and offsets strictly alternate, an onset first, and a run is open exactly when the machine is active |
| VoiceActivityTheorems.RunsPartitionTheMedia | packages/go/audiointel/vad.go:495-517 | for ordered frames the reported runs are non-empty, disjoint and in order, so their total is at most the media time elapsed |
| VoiceActivityTheorems.SynthesisedFramesChangeNothing | packages/go/audiointel/vad.go:367-380 | any number of synthesised frames neither opens, closes nor moves a run |
| VoiceActivityRuns.TwoThresholds | packages/go/audiointel/vad.go:382-543 | after any run: a candidate opens or gains support exactly on a frame that is audible, at the onset threshold and shaped like speech; an open run starts its hangover exactly on a frame that is inaudible or below the release threshold, and resumes on any other; a frame between the thresholds does neither |
| VoiceActivityRuns.EveryOtherMove | packages/go/audiointel/vad.go:382-543 | where every other real frame leads from every state, and what it counts as noise |
| VoiceActivityRuns.DeclaredExactlyIfTaken | packages/go/audiointel/vad.go:34-63 | an edge between two states is declared if and only if some frame takes the machine along it, under any valid configuration |
| VoiceActivityRuns.SilenceIsTimed | packages/go/audiointel/vad.go:652-697 | the silence reported is timed from its first frame until speech is entered, and every decision reports the state it leads to |
| VoiceActivityRuns.SpeechIsTimed | packages/go/audiointel/vad.go:665-677 | while a run is open its backdated start stays and is what is reported |
| VoiceActivityRuns.OpenedIsCandidate | packages/go/audiointel/vad.go:420-456 | a candidate that a supporting frame opened, and only supporting and humming frames have followed, too few to decide it, is open with exactly those counts |
| VoiceActivityRuns.CandidateWasOpened | packages/go/audiointel/vad.go:420-456 | every candidate was opened so |
| VoiceActivityRuns.OnsetsAreGathered | packages/go/audiointel/vad.go:420-440 | an onset is confirmed exactly by a supporting frame that brings an open candidate to MinOnsetFrames, never fewer than two |
| VoiceActivityRuns.OnsetsAreBackdated | packages/go/audiointel/vad.go:420-440 | the confirmed run starts with the frame that opened its candidate |
| VoiceActivityRuns.CandidatesTurnToNoise | packages/go/audiointel/vad.go:442-450 | a candidate turns to noise exactly at its NoiseHoldFrames-th humming frame |
| VoiceActivityRuns.NoiseIsConsecutiveExactly | packages/go/audiointel/config.go:291-293 | before speech, noise is declared only after NoiseHoldFrames consecutive humming frames if and only if NoiseHoldFrames is 1 |
| VoiceActivityRuns.RunsEndExactly | packages/go/audiointel/vad.go:458-518 | a run ends exactly by a pause of MinSilence without a loud frame, or by ProfileGraceFrames humming frames without a shaped one between them |
| VoiceActivityRuns.PausesAreNotSpeech | packages/go/audiointel/vad.go:495-518 | a run ended by a pause lasted to the first frame of the pause |
| VoiceActivityRuns.HummingIsNotSpeech | packages/go/audiointel/vad.go:458-493 | a run ended by humming lasted to the frame that was one too many |
| VoiceActivityRuns.ConfidenceIsProportional | packages/go/audiointel/vad.go:629-650 | the confidence of an active state is the floor's in proportion to the excess, half at the onset threshold and all at twice that; a quiet state has the rest |
| Endpoint.EndpointDetector.Track | packages/go/audiointel/endpoint.go:120-142 | an onset opens a fresh turn, and the speech time kept is the longest seen or the offset's run duration |
| Endpoint.EndpointDetector.Observe | packages/go/audiointel/endpoint.go:117-194 | one frame's endpoint decision and whole new state: the turn limit first, then the silence window under its gates |
| EndpointTheorems.SilenceEndsItExactly | packages/go/audiointel/endpoint.go:117-225 | a turn ends by silence if and only if it is short of its limit, the silence is as long as the window, neither gate of the policy is shut, the credited speech is enough, and a required falling energy is not rising |
| EndpointTheorems.TurnLimitEndsIt | packages/go/audiointel/endpoint.go:144-158 | a turn ends by its limit if and only if it is that long, whatever the gates say |
| EndpointTheorems.WithheldForTheFirstReason | packages/go/audiointel/endpoint.go:170-225 | a due endpoint is withheld exactly when a gate stands in its way, and names the first in order |
| EndpointTheorems.OpenUntilItEnds | packages/go/audiointel/endpoint.go:117-194 | a turn is open from its onset to its endpoint, measured from the backdated onset; outside a turn nothing is decided |
| EndpointTheorems.CreditedWithTheLongest | packages/go/audiointel/endpoint.go:130-142 | until the caller stops, the turn is credited with the longest speech reported in it |
| EndpointTheorems.CreditedWithTheRun | packages/go/audiointel/endpoint.go:130-142 | when the caller stops, it is credited with exactly the run that ended |
| EndpointTheorems.CandidateAnnounced | packages/go/audiointel/endpoint.go:144-168 | a candidate is announced on a frame exactly when it has silence and speech, an onset or nothing announced came before it |
| EndpointTheorems.AnnouncedOnce | packages/go/audiointel/endpoint.go:144-168 | within one silence no second candidate is announced |
| BargeIn.BargeInDetector.Armed | packages/go/audiointel/bargein.go:218-250 | a detection is complete at the onset, or after ConfirmFrames further active frames |
| BargeIn.BargeInDetector.Observe | packages/go/audiointel/bargein.go:137-211 | the fate of a detection in the order of its gates, and the whole new state |
| BargeIn.BargeInDetector.Reset | packages/go/audiointel/bargein.go:255-260 | everything is cleared except the instant of the last delivery |
| BargeInTheorems.DeliveriesAreSpaced | packages/go/audiointel/bargein.go:173-211 | over any run, resets included, consecutive deliveries are at least MinInterval apart |
| BargeInTheorems.DeliveriesSpan | packages/go/audiointel/bargein.go:173-211 | any n + 1 deliveries span at least n intervals |
| BargeInTheorems.CompletesWhenConfirmed | packages/go/audiointel/bargein.go:218-250 | over any run a detection is complete exactly at the onset, or at the ConfirmFrames-th active frame after an onset with nothing but active frames between |
| BargeInTheorems.DeliveredExactly | packages/go/audiointel/bargein.go:137-211 | an interruption is delivered, and under way, if and only if it is confirmed, enabled, has an agent to interrupt where one is asked for, is MinInterval after the last, is not stale, and is taken |
| BargeInTheorems.StoppedByTheFirstObstacle | packages/go/audiointel/bargein.go:137-211 | one that is not names the first obstacle in order |
| AudioChain.AudioAnalyzer.Hear | packages/go/audiointel/analyzer.go:164-184 | the floor is updated under the previous verdict, then the verdict taken, then the leak of a confirmed onset withdrawn |
| AudioChain.AudioAnalyzer.Analyze | packages/go/audiointel/analyzer.go:164-207 | one frame through all four detectors: the whole new state and every decision |
| AudioChain.AudioAnalyzer.Reset | packages/go/audiointel/analyzer.go:238-248 | a fresh chain that remembers only the last delivered interruption |
| AudioChainTheorems.RunStaysLinked | packages/go/audiointel/analyzer.go:160-207 | over any run the levels held while a candidate is open are the older ones plus exactly its real frames, and an unresolved barge-in has its speech run still open |
| AudioChainTheorems.EveryOnsetRetractsOnlyItself | packages/go/audiointel/noise.go:387-445 | every onset withdraws only levels recorded since its candidate opened; as many as leaked, or all that the ring still has, exactly under the conditions given |
| AudioChainTheorems.TurnsAreBounded | packages/go/audiointel/endpoint.go:117-194 | every onset has at most one endpoint, a turn is open exactly between the two, and no open turn has lasted MaxTurnDuration |
| AudioChainTheorems.SilenceEndpointFollowsTheOffset | packages/go/audiointel/endpoint.go:170-194 | a silence-window endpoint comes after the offset with exactly its run duration, except exactly on a synthesised frame inside the hangover |
| AudioChainRuns.TheChainListens | packages/go/audiointel/analyzer.go:164-184 | every run of the chain is a run of the voice activity machine on the same measurements, ready once the floor has settled and the window is ready |
| AudioChainRuns.SilenceEndsTheTurn | packages/go/audiointel/endpoint.go:117-194 | a caller who has said enough and falls silent is answered: the turn is over by the first ungated frame that ends SilenceWindow after the silence began, synthesised frames included |
| AudioChainRuns.GatesHoldTheTurn | packages/go/audiointel/endpoint.go:201-225 | while the agent speaks, or an interruption is under way, a policy that says so ends no turn by silence |
| AudioChainRuns.SpeechTeachesTheFloorNothing | packages/go/audiointel/noise.go:165-186 | once settled, the floor and its levels are moved by exactly the real frames outside a run of speech |
| AudioChainRuns.NothingIsAssertedTooSoon | packages/go/audiointel/vad.go:382-391 | silence is first asserted exactly when the floor has settled and the window is ready |
| AudioChainRuns.OnsetsInterrupt | packages/go/audiointel/analyzer.go:186-207 | with no frames to wait for, an onset is delivered on its own frame or not at all, under the gates of that frame |
| AudioChainWitnesses.AShortOnsetLeavesALevel | packages/go/audiointel/noise.go:387-445 | a valid configuration with MinOnsetFrames 1 in which two levels leak and one stays behind, whatever the frames measure |
| AudioChainWitnesses.ADoubtfulFrameLeavesALevel | packages/go/audiointel/noise.go:387-445 | a valid configuration with MinOnsetFrames 2 in which one real frame does not support the candidate, three levels leak and one stays behind |
| AudioChainWitnesses.AnEndpointMayPrecedeTheOffset | packages/go/audiointel/endpoint.go:170-194 | a valid configuration and five ordered frames, each shorter than the window, after which a turn has ended by silence with its speech run open |
| SeenMask.BitTest | packages/go/audiointel/continuity.go:180-190 | the mask test reads the bit of that distance |
| SeenMask.SetAgrees | packages/go/audiointel/continuity.go:213-239 | a number at or below the highest keeps the mask in agreement with the unbounded set of numbers seen |
| SeenMask.SlideAgrees | packages/go/audiointel/continuity.go:213-239 | a number above the highest slides the mask and keeps the agreement, also when it jumps out of reach |
| Continuity.ContinuityDetector.Classify | packages/go/audiointel/continuity.go:169-207 | the fault as defined over every frame ever seen: duplicate if and only if seen within 64 of the highest, missing if and only if it skips |
| Continuity.ContinuityDetector.Advance | packages/go/audiointel/continuity.go:213-239 | the highest number, the mask and the latest end stay those of the whole history |
| Continuity.ContinuityDetector.Record | packages/go/audiointel/continuity.go:242-254 | the incremental counter equals a recount of the last windowFrames verdicts |
| Continuity.ContinuityDetector.Observe | packages/go/audiointel/continuity.go:104-149 | the report in terms of the whole history: the fault, the exact count skipped, saturating, and whether continuity is broken, just broke or was restored |
| Continuity.ContinuityDetector.ObserveDelivery | packages/go/audiointel/continuity.go:277-304 | a delivery failure is one more verdict; degraded still means a fault followed by too few clean frames, however the two kinds of call interleave |
| Continuity.ContinuityDetector.Reset | packages/go/audiointel/continuity.go:313-322 | the history starts again empty |
| Continuity.FaultsOfLast | packages/go/audiointel/continuity.go:242-254 | pushing a verdict moves the window's fault count by the new verdict and the one pushed out |
| Continuity.FaultsExactly | packages/go/audiointel/continuity.go:169-207 | on the history's own terms, exactly when a real frame is a duplicate, out of order, missing predecessors, early, late or clean, and how many numbers it skipped |
| Continuity.BrokenWhileAFaultIsRecent | packages/go/audiointel/continuity.go:104-149 | degraded exactly while the last RestoreFrames verdicts contain a fault |
| Continuity.RatioIsTheShare | packages/go/audiointel/continuity.go:256-264 | the ratio is the share of the window's verdicts that are faults |
| Overlap.OverlapDetector.ObserveEcho | packages/go/audiointel/overlap.go:297-320 | both levels are recorded only while the agent speaks and its level is known; a correlation is measured exactly from the sixteenth pair on, and is that of the newest sixteen in the order they came |
| Overlap.OverlapDetector.Correlate | packages/go/audiointel/overlap.go:330-370 | the correlation coefficient of the two rings |
| Overlap.OverlapDetector.Observe | packages/go/audiointel/overlap.go:184-294 | one frame's overlap decision and whole new state |
| Correlation.CauchySchwarz | packages/go/audiointel/overlap.go:330-370 | the squared covariation is at most the product of the variations, for every pair of series |
| Correlation.PearsonIsBounded | packages/go/audiointel/overlap.go:330-370 | the coefficient of any two equal-length series lies in [-1, 1] |
| Correlation.PearsonIgnoresRotation | packages/go/audiointel/overlap.go:297-370 | correlating in slot order gives the same answer wherever the two rings stand |
| Correlation.EchoesCorrelatePerfectly | packages/go/audiointel/overlap.go:330-370 | a series that is not constant correlates at 1 with any copy of itself at a positive gain and any offset, and at -1 at a negative gain |
| Correlation.GainAndOffset | packages/go/audiointel/overlap.go:330-370 | a positive gain and an offset on one series leave its coefficient with any other unchanged, and a negative gain negates it |
| Correlation.ConstantsCorrelateWithNothing | packages/go/audiointel/overlap.go:330-370 | the coefficient is 0 when either series is constant |
| Correlation.SquareIsTheCommonShare | packages/go/audiointel/overlap.go:330-370 | otherwise its square is the squared covariation over the product of the variations, and its sign that of the covariation |
| OverlapTheorems.CorrelationOnlyLowers | packages/go/audiointel/overlap.go:377-394 | the score stays in [0, 1] and a measured correlation never raises it |
| OverlapTheorems.EchoOnlyDoubts | packages/go/audiointel/overlap.go:184-394 | for the detector's own full rings the reported confidence is at most that of the same frame unmeasured, and an echo never brings a confirmation that frame would not |
| OverlapTheorems.EchoScales | packages/go/audiointel/overlap.go:377-394 | a measured echo scales the reported confidence by exactly one minus the penalty times its positive correlation |
| OverlapTheorems.PerfectEchoIsCut | packages/go/audiointel/overlap.go:330-394 | when the levels heard are those said, at any positive gain and offset, the confidence is exactly one minus the penalty of the unmeasured one |
| OverlapTheorems.ConfidenceIsExplained | packages/go/audiointel/overlap.go:184-394 | over any run, the length reported and the confidence as the speech's own in proportion to that length, less what the echo takes |
| OverlapTheorems.ConfirmationIsSustained | packages/go/audiointel/overlap.go:184-294 | over any run: an overlap opens exactly on an overlapping frame, is confirmed exactly when every frame since overlapped for MinDuration with the confidence asked for, and is resolved exactly after a quiet of ResolveAfter; no move is refused |
| OverlapTheorems.DeclaredExactlyIfTaken | packages/go/audiointel/overlap.go:17-30 | a move between two stages is declared if and only if some frame makes it |
| MemberNames.IsLowerAsciiName | packages/go/accesstoken/accesstoken.go:500-510 | true exactly for non-empty strings of the letters a to z |
| MemberNames.NamesAreOfLetters | packages/go/accesstoken/accesstoken.go:500-510 | a name is accepted by the spelling rule if and only if it has a character and all are among the 26 letters |
| MemberNames.MemberWalker.Key | packages/go/accesstoken/accesstoken.go:436-455 | in name position: a close pops, a fresh lower-case name is recorded, anything else is refused, and aliased frames do not interfere |
| MemberNames.MemberWalker.Value | packages/go/accesstoken/accesstoken.go:457-472 | in value position: an opening token pushes a new frame, a closing one pops, and a scalar completes a value |
| MemberNames.ValueWalk | packages/go/accesstoken/accesstoken.go:408-472 | walking one whole value refuses it exactly when some object in it is badly named, for the first offending name, and otherwise leaves the stack as it was |
| MemberNames.AcceptedExactlyWhenWellNamed | packages/go/accesstoken/accesstoken.go:408-495 | a token stream is accepted if and only if it ends between documents and every object at every depth has distinct, non-empty, lower-case ASCII names; the stack never underflows |
| MemberNames.TheFirstFlawRefuses | packages/go/accesstoken/accesstoken.go:408-495 | a stream is refused for its first offending name in reading order: misspelt or repeated |
| MemberNames.CheckMemberNames | packages/go/accesstoken/accesstoken.go:475-495 | the explicit stack reaches the verdict of the recursive predicate, with the error it names |
| EditDistance.EditDistance | tools/speech-eval/score.py:82-90 | the two-row loop returns the recursive distance |
| EditDistance.DistanceIsLeastCost | tools/speech-eval/score.py:82-90 | some edit script turns the reference into the hypothesis at that cost, and none does it for less |
| EditDistance.NoScriptIsShorter | tools/speech-eval/score.py:82-90 | every script that fits costs at least the distance |
| EditDistance.TriangleInequality | tools/speech-eval/score.py:82-90 | the distance through an intermediate transcript is never below the direct one |
| EditDistance.ZeroMeansEqual | tools/speech-eval/score.py:82-90 | the distance is zero exactly for equal sequences |
| EditDistance.Rate.Add | tools/speech-eval/score.py:100-103 | errors grow by the distance and length by the reference length |
| TurnManager.TurnManager.Acquire | packages/go/conversation/turn.go:266-290 | a free floor is taken, a held one kept by its holder and arbitrated for anyone else: the whole new state |
| TurnManager.TurnManager.Release | packages/go/conversation/turn.go:323-352 | only the owner releases; the record keeps the expectation, and a queued request gets the floor |
| TurnManager.TurnManager.Arbitrate | packages/go/conversation/turn.go:367-407 | emergency and transfer preempt, a non-yielding turn queues the first request, and otherwise the overlap's length decides |
| TurnManager.TurnManager.NoteOverlap | packages/go/conversation/turn.go:414-422 | the same arbitration without moving the floor |
| TurnManager.TurnManager.ForceYield | packages/go/conversation/turn.go:437-447 | the floor is taken unconditionally and what was queued is dropped |
| TurnManager.TurnManager.LastExpectation | packages/go/conversation/turn.go:477-487 | the expectation of the agent's last closed turn |
| TurnManagerTheorems.RunsAreSound | packages/go/conversation/turn.go:266-352 | under a non-decreasing clock closed turns are numbered 1, 2, 3 and so on with ordered, non-overlapping intervals, and a queued request implies a non-yielding open turn of another party |
| TurnManagerTheorems.NonYieldingTurnHolds | packages/go/conversation/turn.go:367-388 | whatever else is called, only its owner's release or a forced yield ends a non-yielding turn, and the first contender is the one remembered |
| TurnManagerTheorems.TheFirstContenderIsHeard | packages/go/conversation/turn.go:323-352 | when a non-yielding turn is released the floor goes to whoever asked first, or to nobody if none did |
| TurnManagerTheorems.SustainedOverlapDecides | packages/go/conversation/turn.go:367-407 | after any contention an attempt on a yielding turn wins if and only if it is the caller's and the overlap, timed from its first frame, has passed the grace and, against the agent, the backchannel limit |
| TurnManagerTheorems.TurnsYieldOnlyToTheCaller | packages/go/conversation/turn.go:354-407 | without forced yields every turn ever cut short belonged to someone else and was followed at that instant by a turn of the caller |
| TurnManagerTheorems.ExpectationAfter | packages/go/conversation/turn.go:477-487 | the expectation stands until the agent's next turn closes, and a turn cut short leaves none |
| TurnManagerRuns.FreeFloorIsTaken | packages/go/conversation/turn.go:266-301 | from the first call on, whoever asks for a free floor has it at once, in a turn of its own that yields or not as asked |
| TurnManagerRuns.AnnouncementIsNeverTaken | packages/go/conversation/turn.go:266-388 | a free floor taken for a turn that does not yield is still that turn after any calls but its owner's release and a forced yield; whoever else asks is queued, and the first is remembered |
| TurnManagerRuns.AnnouncementIsHandedOn | packages/go/conversation/turn.go:323-352 | its owner's release closes it unyielded and gives the floor to the first contender, or to nobody |
| TurnManagerRuns.NonYieldingExactly | packages/go/conversation/turn.go:266-320 | a turn does not yield if and only if it was taken so from a free floor and neither released nor forced since |
| TurnManagerRuns.OrdinaryTurnsYield | packages/go/conversation/turn.go:266-407 | a free floor taken in the ordinary way is lost exactly to the caller's overlap past the grace and, against the agent, past the backchannel limit; every other attempt is a backchannel or denied, exactly as stated |
| TurnManagerRuns.ForceTakesTheFloor | packages/go/conversation/turn.go:437-447 | after any calls a forced yield takes the floor, records what cut the open turn short, and leaves nobody queued |
| TurnManagerRuns.EmergenciesPreempt | packages/go/conversation/turn.go:367-388 | against a turn that does not yield, exactly emergencies and transfers are granted |
| TurnManagerRuns.OnlyTheOwnerReleases | packages/go/conversation/turn.go:323-352 | after any calls a release by anyone else changes nothing, and the owner's closes the turn with what it asked for |
| Clarification.Margin | packages/go/conversation/intent.go:89-97 | the gap to the best other candidate, with no other candidate above it counted as zero |
| Clarification.FirstMissingIsLeast | packages/go/conversation/intent.go:72-81 | the slot asked about is missing and no missing slot's name comes before it |
| Clarification.SlotOrderDoesNotMatter | packages/go/conversation/clarification.go:187-193 | the same incomplete intent asks about the same slot first, in whatever order its slots are given |
| Clarification.ReservedStaysWithin | packages/go/conversation/clarification.go:201-265 | a grant counts exactly one round and a refusal none, and no subject, noise or persona limit is ever passed |
| ClarificationTheorems.KindsOfDoubt | packages/go/conversation/clarification.go:165-195 | for every kind of question, exactly which utterances call for it: ambiguous if and only if unclear, whole, consistent, with several readings of which some other comes within 0.15 |
| ClarificationTheorems.SubjectOfDoubt | packages/go/conversation/clarification.go:177-195 | an ambiguous one names the first two readings, an incomplete one the least missing slot, and nothing else carries either |
| ClarificationTheorems.OneQuestionIsCalledFor | packages/go/conversation/clarification.go:165-195 | every utterance calls for exactly one kind of question about exactly one slot |
| ClarificationTheorems.SubjectsAreApart | packages/go/conversation/clarification.go:228-235 | two questions share a counter if and only if they are of one kind and about one slot |
| ClarificationTheorems.CountersCountQuestions | packages/go/conversation/clarification.go:201-265 | over any calls each counter is the number of times its subject was asked about since it was last answered |
| ClarificationTheorems.GrantedExactly | packages/go/conversation/clarification.go:201-246 | a question is refused if and only if its subject has had its rounds or, noise aside, the persona's budget is spent; a granted one says which round it is and whether it is the last |
| Clarification.ClarificationEngine.Reserve | packages/go/conversation/clarification.go:201-246 | the granted request and the whole new budget |
| Clarification.ClarificationEngine.Resolve | packages/go/conversation/clarification.go:253-265 | an answered subject's counter is cleared, the total is not |
| Policy.AllowedUnlessDenied | packages/go/conversation/policy.go:237-251 | an action is allowed if and only if no rule denies it, in whatever order the rules stand |
| Policy.SafetyOverridesEverything | packages/go/conversation/policy.go:191-201 | a denial carries a class no less binding than any rule that denies, so a safety denial is always reported as one |
| Policy.AddingNarrows | packages/go/conversation/policy.go:219-234 | registering a rule can only take permissions away, and takes exactly those the rule denies |
| Policy.BuiltinRulesDecide | packages/go/conversation/policy.go:265-406 | what the nine built-in rules together let through |
| Policy.AllowedExactly | packages/go/conversation/policy.go:265-406 | exactly which actions the built-in rules allow, on the input's own fields |
| Policy.DeniedByTheFirst | packages/go/conversation/policy.go:265-406 | which rule denies, with which class and reason |
| Policy.OrderOfRules | packages/go/conversation/policy.go:219-234 | rules stand in order of class, then priority, then name |
| Policy.EscalationIsRefusedExactly | packages/go/conversation/policy.go:296-306 | the built-in rules refuse escalation exactly in a terminal state or to a persona without the capability |
| Policy.PolicyEngine.Add | packages/go/conversation/policy.go:219-234 | the rule goes behind every rule it does not precede, equal ones included, none is lost, and permissions only narrow |
| Policy.PolicyEngine.Evaluate | packages/go/conversation/policy.go:237-251 | the loop returns the first denial, or allows |
| Planner.QuestionsAreGranted | packages/go/conversation/planner.go:148-202 | a question is planned only for a granted request, carries it, and is not one already denied |
| Planner.ListensExactlyWhenDeclining | packages/go/conversation/planner.go:113-254 | a plan names Listening exactly when it ignores or rejects, and then expects nothing; every other plan names a state Thinking leads to |
| Conversation.Conversation.Handle | packages/go/conversation/engine.go:459-462 | a conversation that is over takes no utterance |
| Conversation.Conversation.HandleUtterance | packages/go/conversation/engine.go:664-806 | one utterance: the outcome, the new state, the plan kept, the pending question, the budget and the floor |
| Conversation.Conversation.HandleOverlap | packages/go/conversation/engine.go:537-564 | a party speaks over the floor's holder: the ruling, the forgotten backchannel, or the interruption |
| Conversation.Conversation.BargeIn | packages/go/conversation/engine.go:595-637 | a user interruption takes the floor in any case and reaches Listening where that is declared |
| Conversation.Conversation.HandleSpeechComplete | packages/go/conversation/engine.go:568-592 | the agent's turn ends with the plan's expectation and the caller's begins, in the state the plan implies |
| Conversation.Conversation.Settle | packages/go/conversation/engine.go:738-783 | the three-attempt loop returns the plan of the recursive definition |
| ConversationTheorems.SettledIsAllowed | packages/go/conversation/engine.go:738-783 | whatever the rules, the applied plan was proposed and allowed, or is the escalation of last resort |
| ConversationTheorems.CapabilitiesAreRespected | packages/go/conversation/engine.go:738-783 | under rules at least as strict as the built-in ones, an applied plan uses only the persona's capabilities, escalates in an emergency, and asks only within budget; otherwise it is that escalation |
| ConversationTheorems.TheLoopIsADecisionTable | packages/go/conversation/engine.go:738-783 | with the built-in rules the loop and its record of denials equal a loop-free decision table, for every input |
| ConversationPlans.UrgencyDecides | packages/go/conversation/planner.go:113-142 | an emergency, then uncertainty, then each limit decides the whole plan, in this order |
| ConversationPlans.DoubtDecides | packages/go/conversation/planner.go:145-202 | nothing urgent, a doubt becomes the question of its kind if a round and the budget are left, and otherwise exactly what is planned instead |
| ConversationPlans.MeaningDecides | packages/go/conversation/planner.go:204-254 | nothing urgent and nothing in doubt, the whole plan by what was understood |
| ConversationPlans.CloseReadingsAreNamed | packages/go/conversation/clarification.go:178-187 | the question about close readings names the first two offered |
| ConversationPlans.DoubtIsPut | packages/go/conversation/engine.go:664-806 | in turn, under the built-in rules, a doubt that may be put is put in the form of its kind, and counted |
| ConversationPlans.QuestionIsAwaited | packages/go/conversation/engine.go:568-592 | once it is spoken the conversation is in the state that awaits that answer, with the expectation on record and the caller's turn open |
| ConversationTheorems.FailsExactlyInDeadEnds | packages/go/conversation/engine.go:796-802 | an utterance fails to apply its plan if and only if noise may be answered but not with a question, or a rejected intent may not be escalated, with nothing else ending the conversation first |
| ConversationTheorems.AnswersAreReadAsAsked | packages/go/conversation/engine.go:568-592 | when the agent has spoken, the awaiting state and the floor's last expectation name the same question |
| ConversationSteps.UtterancesLeadWhereThePlanSays | packages/go/conversation/engine.go:785-806 | an awaited utterance leads to the state its plan names if Thinking leads there, and otherwise fails |
| ConversationSteps.UtterancesHandOver | packages/go/conversation/engine.go:785-806 | it ends the caller's turn whatever it comes to, and gives the agent the floor exactly when there is something to say |
| ConversationSteps.AnswersSettleTheQuestion | packages/go/conversation/engine.go:700-719 | an utterance in doubt becomes the pending question; any other settles the pending one, whose subject has its rounds again |
| ConversationSteps.SpeechLeadsWhereItWasDue | packages/go/conversation/engine.go:568-592 | finished speech leads out of the conversation or to what the plan expects, exactly where that is declared |
| ConversationSteps.SpeechHandsOver | packages/go/conversation/engine.go:568-592 | the agent's turn is closed with the plan's expectation and the caller's is open at that instant |
| ConversationSteps.InterruptionsAreListenedTo | packages/go/conversation/engine.go:595-637 | an interruption leads to Listening exactly where the conversation may be interrupted or listen at once, and is refused elsewhere |
| ConversationSteps.WordsOverAFreeFloor | packages/go/conversation/engine.go:537-564 | with nobody else to speak over, a word changes nothing |
| ConversationSteps.WordsOverAnAnnouncement | packages/go/conversation/engine.go:537-564 | over a turn that does not yield a word is queued, behind whoever is queued already |
| ConversationSteps.WordsOverATurn | packages/go/conversation/engine.go:537-564 | over any other turn it is forgotten if brief, denied if not the caller's, and otherwise cuts the turn short |
| ConversationRuns.LeavesThinkingExactly | packages/go/conversation/engine.go:537-564 | a word leaves Thinking if and only if it wins the floor, and then the caller holds it and is listened to |
| ConversationRuns.TheFirstWordDecides | packages/go/conversation/engine.go:537-564 | if the first word after a failure does not win the floor, no later word leaves Thinking |
| ConversationRuns.TheFirstWordOverTheAgentDecides | packages/go/conversation/engine.go:537-564 | while the agent speaks, the first word wins the floor and is listened to, or no further word moves the floor or the state; it wins only if an overlap was already timed |
| ConversationRuns.WordsNeverStopTheAgent | packages/go/conversation/engine.go:540-547 | with no overlap already being timed, no number of words spoken over the agent moves the floor or the state |
| ConversationRuns.OverlapIsForgottenUnlessDenied | packages/go/conversation/engine.go:537-564 | after a party speaks over the agent the overlap stays timed if and only if there is no grace and the party is neither the caller nor the agent |
| ConversationRuns.DeadEndsStopListening | packages/go/conversation/engine.go:664-671 | after a failure with the floor free or the caller's, no utterance and no finished speech changes anything again |
| ConversationRuns.DeadEndsAreFinal | packages/go/conversation/engine.go:664-806 | over any run of utterances and finished speech from an orderly start, an utterance fails exactly in a dead end and nothing changes afterwards |
| ConversationRuns.ThePlatformsTurnIsWonBack | packages/go/conversation/engine.go:605-607 | with the platform holding the floor a dead end is left by the next word if and only if overlap is given no grace |
| ConversationRuns.QuestionsAreBounded | packages/go/conversation/policy.go:343-354 | over any conversation and any added rules, the plans that ask number fewer than any budget its personas keep within |
| ConversationWitnesses.TheBoundIsReached | packages/go/conversation/policy.go:343-354 | for every budget and every smaller number, some run of utterances and finished speech asks exactly that many questions |
| ConversationWitnesses.ReceptionistReachesADeadEnd | packages/go/conversation/persona.go:126-142 | the shipped receptionist, from any young conversation, asks about two contradictions, fails on the next noise, and nothing changes afterwards |
| ConversationWitnesses.StartingBudgetHolds | packages/go/conversation/persona.go:316-334 | from every shipped persona but the personal assistant, allowed switches never let the questions exceed the starting budget |
| ConversationWitnesses.NarrowStartsStayBelow | packages/go/conversation/persona.go:316-334 | from fraud shield or the emergency assistant they stay below it |
| ConversationWitnesses.StartingBudgetFails | packages/go/conversation/persona.go:316-334 | from the personal assistant an allowed switch to fraud shield lets a run ask three questions against its budget of two |
| ConversationWitnesses.ReceptionistMayReachItsBudget | packages/go/conversation/persona.go:316-334 | from the receptionist such a switch lets a run ask its whole budget of three |
| GoldenStore.GoldenStore.Record | packages/go/evaluation/golden.go:157-176 | a candidate is appended and counted, unless the observation is of another scenario |
| GoldenStore.GoldenStore.Approve | packages/go/evaluation/golden.go:184-247 | the loop over keys in any order promotes the one recording with the identifier, or refuses for the reason it names |
| GoldenStore.GoldenStore.Promote | packages/go/evaluation/golden.go:223-244 | the replaced baseline is kept in the history, the promoted record takes its place, and nothing else changes |
| GoldenStore.GoldenStore.Baseline | packages/go/evaluation/golden.go:264-272 | the baseline is an approved, signed record of its own history |
| GoldenStore.GoldenStore.Retire | packages/go/evaluation/golden.go:300-315 | the baseline is withdrawn and a retired copy of it filed |
| GoldenStore.GoldenStore.PendingCount | packages/go/evaluation/golden.go:349-353 | the incremental counter equals the number of candidates in all histories |
| GoldenStore.GoldenStore.PendingApprovals | packages/go/evaluation/golden.go:361-374 | the walk finds every candidate and exactly as many as the counter says |
| GoldenStore.FindsTheRecording | packages/go/evaluation/golden.go:202-222 | an identifier leads to one recording and never to a superseded or retired copy, in whatever order keys are visited |
| GoldenStore.RunsAreSound | packages/go/evaluation/golden.go:157-315 | after any calls the counter equals a recount, every baseline is on file, and every approval has an author, a reason and an earlier predecessor |
| GoldenStore.NothingIsLost | packages/go/evaluation/golden.go:204-212 | between any two moments of a run every record stays in its place, except that a candidate may have been approved |
| GoldenStore.SupersessionIsAcyclic | packages/go/evaluation/golden.go:232-237 | following Supersedes leads strictly back through earlier approvals and never comes round |
| GoldenStore.RecordingIsWrittenDown | packages/go/evaluation/golden.go:157-176 | a recording is appended with exactly its scenario, observation and instant, unapproved and unsigned |
| GoldenStore.ApprovalIsWrittenDown | packages/go/evaluation/golden.go:184-247 | an approval signs the recording in place with its author, reason and instant, supersedes the baseline it replaces and keeps a copy of that one, and changes nothing else |
| GoldenStore.RetirementIsWrittenDown | packages/go/evaluation/golden.go:300-315 | a retirement leaves a copy of the baseline signed by who retired it and why |
| ReplayStore.PrintableJti | packages/go/dpop/dpop.go:258-268 | true exactly for 1 to 128 characters from '!' to '~' |
| ReplayStore.CheckClaims | packages/go/dpop/dpop.go:384-413 | the first claim rule broken, in the order they are checked |
| ReplayStore.PassesWithinTheWindow | packages/go/dpop/dpop.go:384-413 | a proof passes exactly when it is well formed, bound as required, and its issue time is within the window around now |
| ReplayStore.RefusedForTheFirstRuleBroken | packages/go/dpop/dpop.go:294-413 | which refusal a proof gets: that of the first rule it breaks, in order |
| ReplayStore.KeyIsInjective | packages/go/dpop/dpop.go:133 | two printable proofs share a key only if they share both thumbprint and identifier |
| ReplayStore.MemoryReplayStore.Reserve | packages/go/dpop/dpop.go:125-139 | expired entries go, and the reservation is made exactly when the key is not still held |
| ReplayStore.MemoryReplayStore.Verify | packages/go/dpop/dpop.go:294-337 | every check precedes the reservation, so a refused proof holds nothing |
| ReplayStore.AcceptedExactlyOnceSwept | packages/go/dpop/dpop.go:125-139 | of any clock and any age limits: accepted if and only if it passes the checks and every earlier use of its identifier and key has been swept |
| ReplayStore.AcceptedAgainExactly | packages/go/dpop/dpop.go:125-139 | a use is followed by another if and only if the other passes the checks and the last one was swept by then |
| ReplayStore.RefusedExactlyWhileHeld | packages/go/dpop/dpop.go:418-428 | under a clock that never goes back, a proof that passes the checks is refused if and only if some earlier use has not expired |
| ReplayStore.NeverAcceptedTwice | packages/go/dpop/dpop.go:418-428 | under such a clock one proof is never accepted twice, unless a verifier allows it a second more age than the one that accepted it |
| ReplayStore.HeldWithinOneWindow | packages/go/dpop/dpop.go:123-124 | after every reservation all held entries expire after now and within one window of it |
| ReplayStore.ClockGoingBackAcceptsTwice | packages/go/dpop/dpop.go:125-139 | for any rules, key and identifiers, a run in which a clock that goes back lets one proof through twice |
| ReplayStore.TwoAgeLimitsAcceptTwice | packages/go/dpop/dpop.go:418-428 | for any rules and any second limit at least a second longer, a run in which one shared store lets one proof through both |
| TranslationKit.Escape | tools/i18n/translation_kit.py:205-216 | the chained replacements and the leading-character rule give the one-pass escape |
| TranslationKit.Unescape | tools/i18n/translation_kit.py:190-202 | the scanning loop computes the recursive unescape, a trailing backslash kept |
| TranslationKit.ChainIsOnePass | tools/i18n/translation_kit.py:205-216 | five replacements in this order equal one pass that codes each character |
| TranslationKit.RoundTrip | tools/i18n/translation_kit.py:190-216 | unescaping an escaped text gives the text, for every string |
| TranslationKit.BackslashesAreRead | tools/i18n/translation_kit.py:190-202 | what a backslash means in any text: before n or t, before anything else, and at the end |
| TranslationKit.EscapedIsSafe | tools/i18n/translation_kit.py:205-216 | no quote, apostrophe, newline or tab is left unescaped, and no leading '@' or '?' |

## Left out

- Continuity.ContinuityDetector.Classify: the mask is a word of 64 bits written out as booleans, with its shifts defined on them, rather than a 64-bit vector. On vectors setting and testing a bit are immediate, but sliding the window by a variable amount costs several times more than every other proof here.
- FeatureWindow.FeatureWindow.Recompute: the source fills every accumulator in one walk; here the walk is three, since no accumulator reads another. How two computed floats compare is left open.
- FeatureWindowTheorems.ModulationIsDimensionless: holds for exact arithmetic; no rounding is modelled.
- FeatureWindowMeaning.StatsMeanWhatTheySay: holds for exact arithmetic, and for levels that are not negative and below the largest 64-bit float.
- Correlation.EchoesCorrelatePerfectly: holds for exact arithmetic, with any function that takes square roots.
- NoiseFloorTheorems.WarmupFindsTheQuietest: as WarmupKeepsRealLevels, assumes levels below the largest 64-bit float, which the code uses as its starting minimum.
- NoiseFloor.NoiseAnalyzer.Observe: the reported estimate (background stability and noise class, noise.go:280-384) is not modelled; the state it is computed from is.
- AudioChain.AudioAnalyzer.Analyze: the level ratio in decibels, the window statistics and the floor confidence are arbitrary inputs; continuity, overlap, silence and quality detectors are not in the chain.
- VoiceActivity.SpeechDetector.Observe: verdict strings and the last false trigger are left out.
- BargeIn.BargeInDetector.Observe: the reported reason text, instant and latencies are left out; the outcome says which gate decided.
- AudioChain.AudioAnalyzer.Reset: only the four detectors of the chain are reset.
- GoldenStore.GoldenStore.Record: a fresh identifier is required of the generator; fingerprints and digests of the observation are left out.
- GoldenStore.GoldenStore.PendingApprovals: the final sort of the queue is left out.
- TurnManager.TurnManager.Release: turn numbers do not wrap at 64 bits.
- Conversation.Conversation.HandleUtterance: intent resolution is an input, as are the interruptions counted so far; context, latency budgets, deadlines and the trace are left out.
- Conversation.Conversation.Handle: of the events it dispatches only the utterance is modelled here, finished speech and overlap by their own methods, and the rest not at all.
- Conversation.Conversation.BargeIn: only the user's interruption is modelled; the record of interruptions is an input to later decisions.
- ConversationRuns.QuestionsAreBounded: every other event is any change of state, plan and floor that does not leave a terminal state.
- ConversationRuns.DeadEndsAreFinal: says nothing of other events; a fault or a hangup still ends such a conversation.
- Policy.PolicyEngine.Add: the library sort is taken as the stable insertion it amounts to on a sorted slice.
- ReplayStore.MemoryReplayStore.Verify: signatures, base64 and JWK parsing are left out; a proof is a record of its key, claims and instant. Time arithmetic does not saturate.
- MemberNames.CheckMemberNames: tokens are what a JSON decoder emits; the decoder itself is not modelled, only that its input may end or break off.
- Metrics, events, logging, session registries, the locking of persona switches, latency control, the silence namer and the quality ladder: bookkeeping or easy members.
- PostgreSQL and Redis stores, HTTP, WAV, CSV and XML handling, Unicode normalisation: I/O or unseen libraries.
