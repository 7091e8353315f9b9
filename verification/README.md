# rfx-voiced: a verified model

rfx-voiced is the voice node of a radio system: it decides who may hear what, who holds each
channel, and how each transmission sounds to each listener. This project models three parts of it
and proves properties of them for every input and every run.

**The routing table** (`src/router.rs`, with the arms of `src/control.rs` and `src/stream.rs` that
drive it). `Routing.dfy` gives one state and one function per operation. `Router.dfy` holds the
router itself, a class over the same maps with the source's loops, each method proved to perform
its step whatever order a hash map is walked in. The theorems are about `Run`, any sequence of any
operations: `Holding`, `Answers`, `OneTalker`, `Records`, `Hysteresis`, `HeldLanes`, `QuietChannels`,
`Preemption`, `Audience` and `Isolation`. `Control.dfy` adds announcements and recordings.

**The streaming audio** (`src/dsp.rs`, and the delivery loops). The AM mixer, the decimating
filter, the gain control and one talker's chain of hops are objects updated sample by sample, each
proved to be a batch definition of what it computes, for any way the input is cut up.

**The wire forms** (`src/varint.rs`, `src/mumble.rs`, `b64` in `src/control.rs`): Mumble's
variable-length integers and voice packets, its control framing, and Base64, each with the inverse
it must have.

Three things the source's own comments promise are not so. For each there is a run that shows it, from
the empty node, and the exact condition under which it does hold, judged before the step:

- A key remembers the routes it took so that its release gives back all of them
  (`src/router.rs:255-264`). Pressing the same route again after its patch was taken down overwrites
  that memory (`src/router.rs:487`), and the other routes stay keyed after everything has been
  released. `Records.RekeyAfterUnpatchStrands` is such a run; `Records.KeyKeepsCoveredIff` says
  exactly which presses keep the promise.
- Lane hysteresis is said to cost nothing between calls (`src/router.rs:863-866`). That holds when a
  channel falls quiet by a release. A talker who drops, a route that closes and a patch table that
  changes can each leave a listener on the old lane of a quiet channel:
  `QuietChannels.DroppedTalkerLeavesQualityParked`, `ClosedRouteLeavesQualityParked` and
  `UnpatchLeavesQualityParked`. `QuietChannels.ApplyKeepsExactIff` is the exact condition for every
  operation: it takes the last talker off no channel with something parked.
- A socket that goes away is said to leave nothing keyed against everybody else
  (`src/stream.rs:113-119`). It releases the destination once, so a console that has pressed two
  talkgroups leaves the first keyed until the control channel forgets it:
  `Isolation.DropStrandsTheFirstPress`. `Isolation.DropFreesIff` is the exact condition: its other
  open presses took nothing it still holds that this release does not give back.

Conventions. Times are nanoseconds of a monotonic clock passed in as `now`. A `HashMap` or `HashSet`
is a `map` or `set`, and a loop over one takes its elements in an arbitrary order. `u8`, `u32`,
`u64`, `i16` and `i64` are bounded types, with truncation and wrap-around written out; the release
build's wrapping negation is the one modelled. `f32` is `real`. `State.told` and `State.log` record
history; no operation reads them.

## Model

| member | source | states |
|---|---|---|
| Patches.JoinedIsTheGroup | src/router.rs:904-922 | what `joined` returns is exactly the least set containing the talkgroup that no patch leads out of, for any overlapping table |
| Patches.Joined | src/router.rs:904-922 | the talkgroup itself comes first and nothing comes twice |
| Patches.SameGroup | src/router.rs:904-922 | everything joined to a talkgroup sees the same group |
| Patches.JoinedIsAnEquivalence | src/router.rs:896-903 | being patched together is reflexive, symmetric and transitive |
| RouterObject.Router.JoinedTo | src/router.rs:904-922 | the growing loop over the patch table ends and computes that group |
| Holding.HoldsComeFromKeys | src/router.rs:8-9 | routed nowhere by default: in every run, whoever transmits on a route keyed it, was accepted for a group containing it at that moment, and has held it ever since |
| Holding.OnlyKeysGrant | src/router.rs:440-573 | no operation but a client's own accepted key makes it transmit anywhere, and then only on routes joined to the pressed one |
| Holding.HoldsEndOnlySo | src/router.rs:525-537 | a transmission ends only by its own release, a teardown, a departure, or a console keying the group over a field unit |
| Holding.KeyHolds | src/router.rs:440-573 | no key takes a route from a console, a field unit's key takes nothing from anybody, and gains are confined to the keyer and its group |
| Holding.ReleaseIsScoped | src/router.rs:815-845 | a client-scoped release ends exactly that client's transmissions on the routes it names and changes nobody else's |
| Answers.SecondTalkerOnAFrequency | src/router.rs:515-524 | on a frequency somebody holds, another press cuts nobody off; it is mixed in and collides if and only if the route is AM, and is accepted but not heard on FM |
| Answers.GrantedIff | src/router.rs:499-514 | a press is plainly granted iff the route exists and is free or already the caller's |
| Answers.TurnedAway | src/router.rs:526-572 | on a talkgroup somebody else holds, a field unit is refused by a console and by its own kind, a console by a console, and by a field unit the first time |
| Answers.SecondPressWins | src/router.rs:538-561 | a console refused on a talkgroup, after any run without a press of its own, takes it from whichever field unit holds it by then iff it presses within four seconds of the refusal, and is refused again later |
| Answers.PreemptionSpendsClaims | src/router.rs:453-470 | a preemption leaves the console no earlier claim anywhere in the group |
| Answers.FreeMembersFollow | src/router.rs:471-481 | an accepted press puts its client, alone, on every free member of the group |
| Answers.ReleaseForgetsThePress | src/router.rs:815-845 | after a release what a client still holds is heard from the lowest route, and no record of the press is left |
| Answers.NoCollisionAlone | src/router.rs:694-712 | no AM member, or one talker, is no collision |
| Answers.OpenedAsItSounds | src/router.rs:199-208 | a listener of a frequency is served AM or FM as it was opened |
| Answers.HeardAsThatRouteSounds | src/router.rs:749-792 | what a listener gets comes from one joined route it listens to, in that route's modulation and over its link there, none of its others better, bridged off the pressed one |
| Answers.UnknownIdSoundsAsItsNumber | src/router.rs:165-171 | an id first touched by a subscription is a talkgroup below 2^31, AM from 108 to 137 MHz and FM elsewhere |
| Answers.UnboundIsGone | src/router.rs:290-311 | a lost session takes its client off every route and record and changes nothing of anybody else's |
| Answers.ForgottenIsGone | src/router.rs:603-617 | so does forgetting a console, with what was parked for it |
| Answers.StopsMonitoring | src/router.rs:594-601 | forgetting a membership leaves the client a member of nothing, transmitting where it did |
| OneTalker.TrunkedNeverDoubles | src/router.rs:10-11 | in every run a trunked route has at most one talker |
| OneTalker.OneTalkerPerPatchGroup | src/router.rs:440-490 | through any run that leaves it a group of trunked routes, preemptions and departures included, a patch group's members are all unkeyed or all keyed by one client |
| OneTalker.ClearGroupIsOneChannel | src/router.rs:447-450 | a clear group of trunked routes that no open record names starts as such a channel |
| OneTalker.KeyKeepsChannel | src/router.rs:451-490 | one key step keeps the group one channel, whoever presses which member |
| Records.NoStrandedKeys | src/router.rs:255-264 | in every run, as long as a client's accepted re-keys are safe, every route it transmits on is named by one of its open records |
| Records.KeyKeepsCoveredIff | src/router.rs:479-488 | a key keeps that promise if and only if it is refused or the record it overwrites names nothing the client still holds outside the new group and its other records |
| Records.RekeyAfterUnpatchStrands | src/router.rs:479-488 | a run of the empty node - open, open, patch, press, unpatch, press, release - after which the second route is keyed with no record of it |
| Records.ReleasingEverythingFreesEverything | src/router.rs:815-845 | a client that lets go of everything it pressed transmits nowhere, whatever anybody did to patches and routes in between |
| Records.ReleasingOnceFreesIffCovered | src/router.rs:815-845 | letting go of every recorded press once leaves a client transmitting nowhere if and only if its records covered all it held |
| Hysteresis.RenderingNeverDrifts | src/router.rs:377-426 | in every run, `listen` is the last told, the parked or else stored quality is the last told, and the rendered lane is within one step of it and muted exactly when it is |
| HeldLanes.UpdateIsHeldIff | src/router.rs:398-426 | a told quality is parked and the stored one kept iff somebody transmits in the group, on a route of any kind, and the two are one lane apart on the same side of silence; otherwise it is stored at once |
| HeldLanes.NothingElseMovesALane | src/router.rs:377-426 | no other operation changes a member's stored quality or `listen`, except that what was parked lands on a channel that is quiet afterwards |
| HeldLanes.LaneStaysPutThroughACall | src/router.rs:382-387 | through any run during which the channel is always in use, updates one lane from where a listener stands never move it |
| HeldLanes.LaneIsNearest | src/dsp.rs:437-443 | a lane is the nearest multiple of five, nought up to five and a hundred from there |
| QuietChannels.NextCallStartsExact | src/router.rs:856-882 | over any run whose steps meet the condition, each judged on the state before it, a member of a clear channel is stored at exactly the last quality told |
| QuietChannels.ApplyKeepsExactIff | src/router.rs:856-882 | for each operation, quiet channels stay exact if and only if it takes the last talker off no channel with a quality parked, in terms of the state before it; keys, releases, updates and opens always do |
| QuietChannels.DepartureKeepsExactIff | src/router.rs:290-328 | a departure keeps them exact if and only if nobody staying has anything parked on a channel only the leavers talk on |
| QuietChannels.CloseKeepsExactIff | src/router.rs:361-364 | closing a route keeps them exact if and only if every other channel in use with something parked has a talker off that route |
| QuietChannels.SetPatchesKeepsExactIff | src/router.rs:891-894 | a new patch table keeps them exact if and only if every channel in use with something parked is joined to a talker under the new table |
| QuietChannels.DroppedTalkerLeavesQualityParked | src/router.rs:603-617 | a run of the empty node: a talker is forgotten mid-call and a listener stays at 93 on a clear channel after the node was told 92 |
| QuietChannels.ClosedRouteLeavesQualityParked | src/router.rs:361-364 | the same after the talker's route is closed, on the route patched to it |
| QuietChannels.UnpatchLeavesQualityParked | src/router.rs:891-894 | the same after the patch to the talker's route comes down |
| QuietChannels.ReleaseLandsEverythingParked | src/router.rs:841-843 | a release that leaves a released route's group clear leaves nothing parked anywhere in it |
| Preemption.EveryPreemptionWasAskedForTwice | src/router.rs:545-561 | in every run each preemption follows a refusal of the same console on the same route inside the window with nothing of theirs there between, and every armed entry is such a refusal |
| Preemption.ConsumedOnce | src/router.rs:549-556 | no refusal pays for two preemptions |
| Preemption.DisplacedOnlyByInsisting | src/router.rs:451-478 | whoever loses a route to a key, pressed or sibling, lost it to a preemption logged by that very step |
| Preemption.NobodyIsCutOffUnasked | src/router.rs:451-561 | in every run, a client cut off by a key was cut off by a console that had been refused earlier inside the window, by a refusal spent on nothing else |
| Preemption.PreemptionTakesTheGroup | src/router.rs:453-470 | after a preemption the unit that was cut off holds no member of the group and dispatch holds the pressed route |
| Audience.HearsOnTheBestLink | src/router.rs:749-792 | a client hears a transmission iff it is not the speaker and listens on some joined route; it is served on the first joined route with its best link, bridged unless that is the keyed one |
| Audience.ServeIsArgmax | src/router.rs:773-786 | the pairwise merge is an argmax over the routes, the earliest winning ties |
| Audience.OneAnswerPerGroup | src/router.rs:694-743 | `is_clear` and `am_collision` answer alike for every member of a group |
| Audience.ClearMeansNobodyTalks | src/router.rs:725-743 | a channel is clear iff nobody transmits anywhere in its group |
| RouterObject.Router.ListenersAcross | src/router.rs:749-792 | whatever order members come in, the list holds each client once and exactly as that client alone is served |
| RouterObject.Router.DestinationOf | src/router.rs:626-643 | the route pressed while it is held, else the lowest held, with its audience; nothing iff nothing is held |
| Audience.PressedIsTheDestination | src/router.rs:235-241 | an accepted key that is heard is heard on the route that was pressed, whatever else of the group it took |
| RouterObject.Router.AmCollision | src/router.rs:694-712 | true iff the group has an AM member and two different clients transmit in it |
| RouterObject.Router.ListenersOf | src/router.rs:796-807 | every listening member of one route, once |
| RouterObject.Router.KeyOne | src/router.rs:492-573 | every branch of one route's answer, and the whole state it leaves |
| RouterObject.Router.KeyAt | src/router.rs:440-490 | the press, the seizure of siblings after a preemption, the best-effort keys and the record are one step of the state machine |
| RouterObject.Router.UnkeyAs | src/router.rs:815-845 | releases what the record names, or the current group without one, drains, and reports whether anything was held |
| RouterObject.Router.Unkey | src/router.rs:848-854 | clears one route for everybody and drains its group if that left it clear |
| RouterObject.Router.DrainDeferred | src/router.rs:868-882 | parked qualities land on members of a clear group and nowhere else |
| RouterObject.Router.SetMember | src/router.rs:377-426 | `listen` always applies; quality is parked only on a busy channel for one lane of jitter; unknown routes are classified by id |
| RouterObject.Router.Unbind | src/router.rs:290-311 | the departing player leaves every route, key and record |
| RouterObject.Router.DropServer | src/router.rs:315-328 | the same for everybody of one server |
| RouterObject.Router.ForgetClient | src/router.rs:603-617 | the same for a console, with what was parked for it |
| RouterObject.Router.ForgetMembership | src/router.rs:594-601 | memberships and parked qualities go, transmissions stay |
| RouterObject.Router.OpenConventional | src/router.rs:353-359 | the route becomes a frequency with the given modulation, nothing else about it changes |
| Isolation.DropServerRemovesIt | src/router.rs:315-328 | after a server is dropped none of its clients is bound, a member, a talker or on record anywhere |
| Isolation.DropServerSparesOthers | src/router.rs:313-328 | everybody else holds what they held, with the same destination and exactly the old audience minus that server |
| Isolation.BindingsStayHome | src/router.rs:282-288 | in every run a session is bound only within its own server |
| Isolation.DropFreesIff | src/stream.rs:113-125 | releasing the destination of a dropped socket, whose records cover what it holds, frees everything iff its other open presses took nothing still held outside that release |
| Isolation.DropStrandsTheFirstPress | src/stream.rs:113-125 | a run of the empty node: a console presses 1, then 2, and drops; 1 stays keyed by it and refuses everybody else |
| Isolation.DropFreesASinglePress | src/stream.rs:113-125 | it does for a console with one press outstanding and still held, however the patches moved |
| Control.Node.AnnounceCall | src/control.rs:369-399 | every console listening anywhere in the group is told once, on the first group route it listens to |
| Control.ToldIffListening | src/control.rs:369-399 | a client is told iff it is a console listening somewhere in the group, once, and about a route it listens to |
| Control.Node.DispatchKey | src/control.rs:544-605 | only a granted or preempting key is announced and recorded, a doubled, mixed or refused one is not |
| Control.Node.DispatchUnkey | src/control.rs:607-646 | after the release, the call ends for everybody watching iff the group is clear and the recording iff the route is quiet |
| Control.Node.ReleaseKey | src/stream.rs:104-111 | the same two questions, answered separately, and the consoles watching the route |
| Control.Node.ReleaseOnDrop | src/stream.rs:121-125 | releases the destination route and reports whether it fell quiet; nothing when nothing was held |
| Control.EndOfCallIff | src/control.rs:643-645 | the end of a call is announced iff everybody transmitting in the group was the caller, on routes its release names |
| Control.PreemptedReleaseEndsNothing | src/control.rs:618-629 | a release never ends a call somebody else is still talking on |
| AmMixing.NothingLostOrRepeated | src/dsp.rs:1549-1676 | over any run of adds, drains and flushes in which a talker does not expire, what it added to a rendering is what was consumed followed by what is queued |
| AmMixing.DrainMixesItsShares | src/dsp.rs:1611-1675 | what a drain puts out under a rendering is as long as the longest share it consumed and, sample by sample, the clamped sum of everybody's share, with the beat, when carriers collide, going on from where the renderings ahead left it |
| AmMixing.PhaseIsWhatWasPlayed | src/dsp.rs:1546-1662 | over any run of adds, drains and flushes the phase is that of one tone as long as all the samples put out under renderings two or more talkers shared |
| AmMixing.BeatNeverRestarts | src/dsp.rs:1653-1666 | so each mixture of each drain takes the tone up exactly where the last one left it |
| AmMixing.WaitedForIff | src/dsp.rs:1611-1615 | a drain counts on a talker's queue iff it was heard from less than 121 ms ago |
| AmMixing.WholeFramesGoOut | src/dsp.rs:1632-1645 | what goes out is a multiple of 160 samples, and at least 160 as soon as everybody still there has 160 queued |
| AmMixing.DrainKeys | src/dsp.rs:1617-1622 | renderings go out each at most once, none empty, ordered by modulation, lane and side of the patch |
| AmMixing.ClampKeepsWhatFits | src/dsp.rs:1665 | a sum in range goes out as it is, one out of range as the end of the range |
| AmMixing.FlushMixesItsShares | src/dsp.rs:1564-1604 | the same for a flush, which consumes everything and adds no beat |
| AmMixing.DrainLeavesLessThanAFrame | src/dsp.rs:1606-1645 | a drain takes the same whole number of frames from every talker and leaves somebody short of one |
| AmMixing.BeatIsBounded | src/dsp.rs:1653-1666 | the heterodyne moves no sample by more than 2200 and is absent with one radio up |
| AmMixing.BeatIsOneTone | src/dsp.rs:1657-1665 | the phase after n samples is 620 n / 8000 turns on, less a whole number of turns, and within one turn |
| AmMixing.SumAnyOrder | src/dsp.rs:1645-1651 | the sum is the same in whatever order talkers are visited |
| AmMixer.AmMix.Drain | src/dsp.rs:1611-1675 | popping samples one by one and turning the phase with each emits, rendering by rendering in key order, the clamped sums with the beat, and consumes exactly those frames |
| AmMixer.AmMix.Flush | src/dsp.rs:1564-1604 | each rendering once, zero-padded to its longest queue, and everything emptied |
| AmMixer.AmMix.Add | src/dsp.rs:1550-1556 | samples join the end of that talker's queue for that rendering |
| CollisionTap.Tap.MixAndDeliver | src/mumble.rs:493-559 | by the router's own answer: while a collision lasts AM renderings go through that frequency's mixer, when it ends what is held goes first and the mixer is let go; a listener not on AM is sent exactly what was rendered for it; other frequencies' mixers stay |
| CollisionTap.EverySampleOnceIff | src/mumble.rs:480-525 | over any packets, collisions coming and going, what a talker sent under an AM rendering is what went out followed by what is queued, in order and once, if and only if no drain found it silent too long with samples queued |
| CollisionTap.EverySampleOnce | src/mumble.rs:512-522 | so it is for a talker that while colliding is never silent for more than the limit, judged on the packets alone |
| CollisionTap.HeardIsTheSum | src/mumble.rs:480-559 | what an AM listener is sent for one packet is the sum of what the mixer consumed, with the beat where it stands, then what went straight through |
| CollisionTap.OneTonePerCollision | src/mumble.rs:499-524 | over any packets the beat is one tone from a collision's first mixed sample, and starts afresh with the next |
| CollisionTap.CollisionsStayOnAm | src/mumble.rs:489-525 | over any packets, a digital or FM listener is sent exactly what was rendered for it, before, during and after a collision |
| CollisionTap.EachJoinsItsQueue | src/mumble.rs:498-506 | each AM rendering's samples join that talker's own queue once and no other queue |
| CollisionTap.CleanStaysClean | src/mumble.rs:503-508 | setting the AM renderings aside leaves every other rendering as it was |
| Decimation.AnyChunkingIsTheBatch | src/dsp.rs:558-574 | however the stream is cut into pushes, the output is the batch convolution of the whole |
| Decimation.Decimator.Push | src/dsp.rs:558-574 | the shifting history emits exactly the clamped windowed sums the batch has for the new samples |
| Decimation.BatchExtends | src/dsp.rs:558-574 | later samples never change earlier output |
| Decimation.ImpulseGivesTheTaps | src/dsp.rs:558-574 | one sample alone comes out as the taps it meets, in order, at exactly the outputs whose window holds it |
| Decimation.DotAdds | src/dsp.rs:567-570 | two signals together filter to the sum of each alone |
| Decimation.SampleIsTheSum | src/dsp.rs:571 | an output is its sum cut toward silence by less than one, or the end of the range it passed |
| GainControl.AlwaysInRange | src/dsp.rs:292-361 | over any frames gain stays in 0.5 to 6 and the gate in 0 to 1, a closed gate has an envelope of at most 220 and an open one of at least 110 |
| GainControl.SeedStaysPut | src/dsp.rs:317-334 | from the frame that opens the gate a steady level keeps exactly the seeded gain for ever, whatever the gain was before |
| GainControl.NoChatterInsideTheWindow | src/dsp.rs:260-264 | a level that stays inside the hysteresis window neither opens nor closes the gate, nor moves the gain |
| GainControl.EnvelopeSettles | src/dsp.rs:298-301 | over n frames at one level the envelope keeps 0.5^n of its distance to a louder level and 0.95^n of it to a quieter one |
| GainControl.GateSettles | src/dsp.rs:311-315 | over n frames an open gate keeps 0.65^n of its distance to one, and a shut one 0.95^n of its height |
| GainControl.GainSettles | src/dsp.rs:335-345 | over n frames at a steady level above 220 the gain keeps 0.9^n of its distance to the one wanted |
| GainControl.WantsTheTarget | src/dsp.rs:287-290 | the gain wanted puts the level at exactly 2000 wherever half to six times suffices |
| GainControl.GateTurnsAt | src/dsp.rs:303-309 | a shut gate opens exactly over 220 and an open one shuts exactly under 110 |
| GainControl.LimitedAtTheTop | src/dsp.rs:357-359 | no sample leaves beyond 32000 and none inside it is bent |
| GainControl.RampStaysBetween | src/dsp.rs:347-360 | each sample's multiplier lies between the last frame's and this one's, and the last sample's is this one's |
| GainControl.Agc.Run | src/dsp.rs:292-361 | one frame, by the root of its own mean square, updates the level as stated and scales and limits each sample by the ramp |
| TalkerObject.Talker.PushWide | src/dsp.rs:851-949 | the keys are distinct and exactly those some audible listener asks for; each buffer is the rendering of the whole frames in hand; less than a frame stays pending |
| Rendering.BufferLong | src/dsp.rs:903-946 | every rendering's buffer is the same whole number of frames long |
| TalkerObject.Talker.PushAndDeliver | src/stream.rs:490-547 | each listener receives, once per packet that completes a frame, what its own chain of hops makes of it: over the speaker's hop first if it is across a patch; a digital link under eight gets nothing; the chain is left as one longer packet would leave it |
| Rendering.Deliver | src/stream.rs:536-547 | each listener receives exactly the non-empty buffers under its key, in order, and nobody else receives anything |
| Rendering.MutedByKey | src/dsp.rs:860-868 | listeners on one rendering are all muted or all served |
| Rendering.SharedIff | src/dsp.rs:768-770 | two listeners share a rendering iff their modulation, lane and side of the patch agree |
| Rendering.NothingArrivesIff | src/dsp.rs:860-864 | nothing reaches a listener iff it is digital and its quality is under eight |
| Hops.OneHopOrTwo | src/dsp.rs:906-946 | a frame reaches a listener over its own hop, and across a patch over the speaker's hop and then its own |
| Hops.BridgeIsTheSpeakers | src/dsp.rs:876-889 | the speaker's hop is kept while its mode, lane and side agree with the speaker's and built anew otherwise |
| Hops.AnyPacketsSameAudio | src/dsp.rs:851-949 | however a transmission is cut into packets a listener hears the same frames and the chain is left the same |
| Hops.PacketsLeaveNoTrace | src/dsp.rs:851-949 | from 48 kHz on: packet by packet through filter and hops is the hops run once over the filtered whole |
| Varints.RoundTrip | src/varint.rs:44-102 | for every `u64`, before any bytes and after any, reading what was written gives the value as an `i64` and consumes exactly its bytes |
| Varints.NoEncodingStartsAnother | src/varint.rs:80-102 | no encoding is a prefix of another |
| Varints.NegativesRead | src/varint.rs:66-68 | any number of negative markers before a number turn it round that many times |
| Varints.ShortNegativesRead | src/varint.rs:69-70 | the single-byte negatives read as nought to minus three |
| Varints.MasksAreRanges | src/varint.rs:55-72 | the reader's bit masks are the ranges the model branches on |
| Varints.WriteVarint | src/varint.rs:80-102 | appends exactly the encoding |
| Varints.Reader.Varint | src/varint.rs:52-75 | the byte-by-byte reader returns what the decoding function says and stops where it says, on truncated input too |
| Voice.PacketRoundTrip | src/mumble.rs:145-171 | parsing a packet recovers codec, target, session and exactly the payload bytes |
| Voice.AcceptedPayloadIsInside | src/mumble.rs:159-162 | for any bytes, an accepted payload lies inside the packet |
| Voice.ParseVoice | src/mumble.rs:145-171 | the reader-driven parser accepts and rejects exactly as the function those two are about |
| Framing.AnyChunkingDecodes | src/mumble.rs:199-263 | any division into reads with cancellations anywhere decodes a start of the messages at every moment, all of them once the bytes are used up, and fails only at the end of the stream |
| Framing.EnoughReadsDecodeAll | src/mumble.rs:199-263 | as many uncancelled reads as the stream has bytes decode every message, whatever each brings and however many more are cancelled |
| Framing.BadFramesEndTheTap | src/mumble.rs:233-262 | a length over 8 MiB is refused before its body, a body longer than what is left fails, and any other frame decodes to its kind and body |
| Framing.HeaderSays | src/mumble.rs:191-197 | a written header reads back as its kind and length |
| Framing.ReadsProgress | src/mumble.rs:224-233 | a read that is not cancelled consumes something |
| Framing.Header.ReadFrom | src/mumble.rs:227-262 | one read extends what is held, and at six bytes yields kind and length, or refuses a length over the cap, keeping fewer than six between steps |
| Framing.ReadLoop | src/mumble.rs:409-415 | the header and body loop decodes what the machine of `AnyChunkingDecodes` decodes |
| Framing.WriteFrame | src/mumble.rs:191-197 | the bytes of a frame are kind, length and body |
| Base64Text.TextRoundTrip | src/control.rs:402-426 | a decoder written from section 4 of RFC 4648 recovers every byte string exactly |
| Base64Text.TextLength | src/control.rs:404 | four characters for every three bytes or part of three |
| Base64Text.PaddingSaysTheRest | src/control.rs:414-423 | padding appears only at the end, one character for each byte the last three are short |
| Base64Text.B64 | src/control.rs:402-426 | the chunk loop writes exactly that text |

## Left out

- Sockets, TLS, HTTP, WebSockets, protobuf, tasks and locks: each control message, console frame or voice packet is one step.
- Username parsing: `Bind` takes the player id the name yields, or none.
- Opus, Codec2, biquads, `tanh`, random bit errors and noise: a hop and the front-end conditioning are arbitrary functions of everything they have carried that keep a frame's length.
- Filter coefficients (`src/dsp.rs:528-556`): the decimator works for any 48 taps.
- Rounding of `f32`: reals throughout, so accumulated error in the filter and the gain is not modelled.
- GainControl.Agc.Run: the square root is any function that is one, because the reals of the model have none of their own.
- AmMixer.AmMix.Drain: the sine itself is an arbitrary function of the accumulated phase bounded by 2200, and a sum is not cut at 32 bits, which would take more than sixty thousand talkers.
- AmMixing.NothingLostOrRepeated: says nothing of a talker that expires, whose queue the source drops on purpose; `CollisionTap.EverySampleOnceIff` says that this is the only loss.
- Erasure and bit-error rates of the quality curve (`src/dsp.rs:445-482`): only the muted flag decides anything modelled here.
- Control.Node.AnnounceCall: records what is put to a console's socket; a full or absent socket drops it, and the talker's label is not carried.
- The TX_KEY and TX_UNKEY notices of `src/stream.rs` themselves: sent to the consoles of one route, in one loop each.
- Varints.Reader.Varint: a build with overflow checks would stop at the negation of the least `i64`; the wrapping release build is modelled.
- Which lane a recording keeps, recording files, indexing and pruning: only the set of open recordings is kept.
- Tokens, key hashes, platform polling, server lists, startup, statistics and logging: table lookups and text.
- `source_sink` and `destination` by session: lookups around `DestinationOf`.
