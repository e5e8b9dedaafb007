# Rumble, verified

A Dafny model of the parts of Rumble (a voice chat system with a Mumble bridge) that carry the most state and arithmetic,
and proofs of what they promise. `dafny verify dfyconfig.toml` checks everything.

**The bridge.** A full server state is diffed against the cached one; the ordered messages bring every connected Mumble
client up to date, while a client that joins later is sent a snapshot. `ClientView` is the client: its channels and users,
how it replays messages (a field that is left out stays as it was), and when a view is legal. `Projection` says which view
belongs to a bridge state, and what a client shows that still holds what it was told earlier; `Reconcile` and `LateJoin` are
the diff and the snapshot, `Telling` lists exactly which messages a diff consists of, `Bridge` runs both over histories.
`Rooms`, `RoomWalk` and `Subtree` hold room tables, depths and the breadth-first walks, `IdMaps` the two bidirectional id
maps. The main result is that the diff carries every client, whatever it holds, through legal views only to exactly what it
then holds of the new state, with one message for each thing that changed and none besides.

**The voice path.** `JitterBuffer` is the receiver of one peer as a value with a step function per operation, `JitterRuns`
its invariant and the ledger of packet fates, `Playout` whole runs and the absorption of a pre-roll burst, `PeerAudio` the
class whose methods compute exactly those steps. `Arrival` and `Ticks` say what a packet and a tick do without the steps'
own functions, and follow a new spurt from its first packet to the ear. `Verdict` judges the loss-or-silence decision
against what a sender really sent, `EosRecord` tells which end-of-stream marks it is taken on. `PreRoll` and `CaptureGate` are the sending side: the ring of suppressed frames and the gate of the capture callback.
`VoicePath` joins both ends, `Onset` follows a gate opening from the ring to the listener's next ticks. `CaptureTask` is the
capture side of the audio task (commands, device failures and recovery around the stream whose callback runs the gate) with
commands and callbacks taking turns, and `CaptureOrders` says what its fields and its stream owe to the events so far;
`CaptureThreads` interleaves them at every shared access, as they really run.
`TaskStream` shows when what is then sent over a connection is what the verdict assumes.

**Smaller cores.** `PlaybackRing` (mixer and device callback around a sample ring, interleaved at every shared access),
`Snapshots` (the allocation-free "latest value wins" channel, interleaved at every reference-count access), `VoiceCodec`
(Mumble's variable-length integer and voice packets), `RoomChains` (the permission chain and the room tree's ancestor
iterator), `ChatLog` (the chat log's epoch contract) and `OutputSlots` (the slots in which pipeline stages publish live
values).

Code that changes state is a class or a method here too; its contract equates the new state with a function of the old
one, and the theorems are about that function over all runs. Time and the jitter estimate are real numbers, samples and
codec output are opaque, the outcome of a decode or of FEC and whether a device opens are inputs.

Where the code and its comments differ, the code is followed: the comment in the health check says that establishing a
connection clears `input_recovering` (crates/rumble-client/src/audio_task.rs:1943-1945), but that command does not touch it
(crates/rumble-client/src/audio_task.rs:1143-1212).

Some promises hold of the code only under a condition; each is stated with it, in both directions:

- after a refresh, a Mumble client that was there before shows what one that joins now is sent exactly if no listed room has
  lost a description it holds, and Root is listed or the Root it holds looks like the made-up one; the channel tree and the
  proxied users agree always (`Bridge.Run`, `Bridge.RootlessRefreshDisagrees`, `Bridge.ClearedDescriptionStays`);
- every removal of a diff names something its receivers have exactly if the cached state knows what is removed, as it does
  unless the id maps have drifted from it (`Reconcile.ReconcileServerState`, `Telling.NoDriftKnows`);
- a gap is read as silence exactly if more of its frames went unsent than end-of-stream marks of it are missing
  (`Verdict.VerdictIsExact`); so a lost mark can turn a one-frame silence into a loss, and never a loss into silence;
- every mark that was delivered and neither passed nor outdated since is on record at all times exactly if there are never
  more than eight of them (`EosRecord.CompleteExactlyIf`), and a gap whose marks are on record is read exactly
  (`EosRecord.WholeGapsJudgedExactly`); in general a mark is on record exactly if it was besides never the oldest of eight
  when a ninth came (`EosRecord.OnRecordExactlyIf`), which is less than being among the newest eight, as others may have
  been passed in between;
- capture is active exactly when there is a stream and a connection, nobody mutes it and the mode or the key asks for it,
  except exactly when the datagram handle was lost under active capture and nothing has synced since
  (`CaptureTask.RunKeeps`, `CaptureOrders.CaptureObeys`, `CaptureThreads.EveryRunSturdy`);
- after a stop the receivers have been told, and its mark comes last, exactly if no callback in flight across it had voice
  left to enqueue, and it is marked once exactly if none had a mark left (`CaptureThreads.StopMidCallback`,
  `CaptureThreads.FrameComesLate`);
- audio stashed before a stop goes out when capture resumes exactly if the clock has not moved since and the last frame was
  suppressed (`CaptureTask.StaleExactlyIf`, `CaptureTask.StaleOnset`), against crates/rumble-client/src/preroll.rs:80-84;
- an output reads back its stage's value exactly if it is the first of its key in the stage, or the value is zero
  (`OutputSlots.LayoutReadsFrame`);
- a voice packet reads back exactly if its payload is under 8192 bytes (`VoiceCodec.ServerPacketRoundTrip`).

That the datagrams of a connection ascend on the media clock is proved if the connection begins cleanly: no callback holds a
place on the old clock, and no voice of an earlier connection waits in the queue (`TaskStream.ConnectionIsStream`). Neither
half can be left out (`TaskStream.StraddlerBreaksStream`, `TaskStream.LeftoverBreaksStream`).

## Model

| member | source | states |
|---|---|---|
| Reconcile.ReconcileServerState | crates/mumble-bridge/src/reconcile.rs:89-212 | for distinct ids, a rooted tree and users in listed rooms: every client, whatever descriptions and Root it holds, goes from what it shows of the old state to exactly what it then shows of the new one, through legal views, each message referring to known parents and channels and each removed channel being an empty leaf; each removal names something the client has exactly if the cache knows what the diff removes; the messages are exactly one UserRemove per vanished user, one ChannelState per room not cached alike, one UserState per user not shown alike and one ChannelRemove per unlisted room; the session map ends up holding exactly the unskipped new users, the channel map at most the listed rooms and Root, no id is reissued; the vanished users come back in ascending order; who has a session then are exactly the listed users that are not the bridge's own, not a registered virtual user and not of a pending name, and every UserState tells one of them under their session, with their name, channel, mute and deafness |
| Reconcile.AnnouncedAre | crates/mumble-bridge/src/reconcile.rs:41-46 | a user is announced exactly if somebody of that id is listed who is not the bridge's own user, not a registered virtual user and not of a name still pending |
| Reconcile.OnlyAnnouncedTold | crates/mumble-bridge/src/reconcile.rs:162-190 | every UserState of a diff tells such a user as listed, under the session the map holds for them |
| Reconcile.PruneUsers | crates/mumble-bridge/src/reconcile.rs:103-120 | first section: exactly the mapped users that are no longer announced (Reconcile.AnnouncedAre) lose their session; the messages are their UserRemoves, one each, in ascending order of user, and every client follows |
| Reconcile.SyncChannels | crates/mumble-bridge/src/reconcile.rs:122-160 | second section: after the walk every client shows the new rooms over the old ones, with the descriptions it keeps, parents known before children, and no transient cycle even when rooms swap ancestry; one ChannelState for each room that is not cached alike, and none else |
| Reconcile.SyncUsers | crates/mumble-bridge/src/reconcile.rs:162-190 | third section: every announced user (Reconcile.AnnouncedAre) is shown as in the new state, in a channel that exists; one UserState for each that has no session or is not cached alike, and none else |
| Reconcile.PruneChannels | crates/mumble-bridge/src/reconcile.rs:192-209 | last section: exactly the unlisted rooms but Root are removed, one ChannelRemove each, in the order of RemovalOrder, each without child or proxied user when it goes |
| Reconcile.RemovalOrder | crates/mumble-bridge/src/reconcile.rs:195-204 | the removal order lists exactly the unlisted rooms once, deepest in the old tree first, lower channel id first among equals |
| Reconcile.DeepestIsVacant | crates/mumble-bridge/src/reconcile.rs:192-204 | when everything left over is no deeper in the old tree, a room to be removed has neither a child nor a proxied user |
| Reconcile.FourSections | crates/mumble-bridge/src/reconcile.rs:103-212 | the four sections in order amount to the whole diff: what every client shows, the maps, and the silence on an up-to-date state |
| Telling.AsManyAsChanged | crates/mumble-bridge/src/reconcile.rs:103-209 | as many messages are sent as users vanished, rooms changed, users changed and rooms went, taken together |
| Telling.RemovalsKnown | crates/mumble-bridge/src/reconcile.rs:101-120 | every removal of a diff names a session or channel its receiver has exactly if the cached users and rooms know what is removed |
| Telling.NoDriftKnows | crates/mumble-bridge/src/reconcile.rs:101-103 | the cache knows what any diff removes exactly if the id maps hold nothing it lacks |
| Projection.OverrideRooted | crates/mumble-bridge/src/reconcile.rs:133-160 | a rooted new table laid over a rooted old one is rooted: mixing the two trees makes no cycle |
| Projection.PutRoom | crates/mumble-bridge/src/reconcile.rs:139-156 | one ChannelState changes what any client shows exactly as the room changes the projected state, a description that is left out staying |
| Projection.PutUser | crates/mumble-bridge/src/reconcile.rs:164-190 | one UserState changes what any client shows exactly as the user changes the projected state, and an unchanged user leaves it alone |
| Projection.DropUser | crates/mumble-bridge/src/reconcile.rs:109-120 | one UserRemove changes what any client shows exactly as dropping the session does |
| Projection.DropRoom | crates/mumble-bridge/src/reconcile.rs:205-209 | one ChannelRemove for a vacant room changes what any client shows exactly as dropping the room does |
| Projection.OkIsLegal | crates/mumble-bridge/src/reconcile.rs:58-64 | the view of a consistent state is a channel tree rooted at 0 with every user in one of its channels |
| Projection.HeldShape | crates/mumble-bridge/src/mumble_server.rs:305-375 | what a client holds differs from the snapshot in names and descriptions only: the channel tree and the users are the same |
| Projection.ShowsSnapshot | crates/mumble-bridge/src/reconcile.rs:143-156 | a client shows the snapshot exactly if no listed room lost a description it holds, and Root is listed or looks made up |
| Rooms.OldDepth | crates/mumble-bridge/src/reconcile.rs:72-83 | the depth walk ends on every table, cycles included, at the depth of a room that reaches Root and at the cap for any other |
| Rooms.DepthBound | crates/mumble-bridge/src/reconcile.rs:70-75 | the cap on that walk never cuts a chain that reaches Root |
| RoomWalk.WalkFromRoot | crates/mumble-bridge/src/reconcile.rs:125-160 | for every list with distinct ids, cycles included: the walk ends, visits exactly the rooms that reach Root, each once, parents first, Root first if it is listed |
| RoomWalk.WalkComplete | crates/mumble-bridge/src/mumble_server.rs:322-372 | when the queue runs empty every room that reaches Root has been visited |
| Subtree.CollectSubtreeChannels | crates/mumble-bridge/src/bridge.rs:1421-1462 | for every room list, cycles and repeated ids included: the start channel and exactly the mapped channels of the rooms below it; an unknown start channel yields itself alone |
| LateJoin.BuildChannelStates | crates/mumble-bridge/src/mumble_server.rs:305-375 | the states carry a blank client safely to exactly the channels of the cached rooms; ids only grow, and only Root's may be new once all rooms have one |
| LateJoin.BuildUserStates | crates/mumble-bridge/src/mumble_server.rs:378-420 | the states add exactly the proxied users but the bridge's own, and the other Mumble clients but the one excluded |
| Bridge.BridgeState.ServerState | crates/mumble-bridge/src/bridge.rs:718-797 | a refresh, Root listed or not, replaces the cache and broadcasts messages that bring every connected client, whatever it holds, over to what it then holds of the new state, each message safe to receive; sessions are exactly those of the listed users that are neither the bridge's own nor a registered virtual user nor of a pending name, no UserState is about anyone else, no id is reissued, and an up-to-date state broadcasts nothing |
| Bridge.BridgeState.InitialSync | crates/mumble-bridge/src/bridge.rs:633-647 | the snapshot gives a blank client the view all others have, plus the other Mumble clients, changes no one's view and reissues no channel; it is safe to replay from the blank view if the other Mumble clients stand in known channels, as the proxied users always do; every UserState of it is another Mumble client as held or a listed user other than the bridge's own, with session, name, channel, mute and deafness as listed |
| Bridge.BridgeState.ClientJoins | crates/mumble-bridge/src/mumble_server.rs:238-248 | a joining client gets a fresh session in Root and the common view; no channel is reissued |
| Bridge.BridgeState.AllocateMumbleSession | crates/mumble-bridge/src/state.rs:192-196 | sessions are never reused and stay below the proxy range exactly for the first 99,000 |
| Bridge.Run | crates/mumble-bridge/src/bridge.rs:718-797 | any run of refreshes, Root listed or not, and joins: every client, early or late, shows the current channel tree and proxied users with exactly what it was never told to forget, and so shows what a client that joins now is sent if and only if what it holds agrees with the rooms listed; between start and end no channel and no session is reissued; every view has the listed rooms and the users with a session field by field (name, description given, parent; name, channel, mute, deafness) and no other channel and no other proxied user, and the sessions are those the last refresh announced |
| Bridge.ShowsListed | crates/mumble-bridge/src/mumble_server.rs:305-420 | a client that shows what it holds of a state shows each listed room under its channel with its name, parent and given description, each user with a session with their name, channel, mute and deafness, and nothing else |
| Bridge.RefreshMeetsSnapshot | crates/mumble-bridge/src/mumble_server.rs:322-345 | after any refresh a client holds what it held, brought up to date; that is the view a late client is sent exactly under that condition, and has its shape always |
| Bridge.SteadyAgrees | crates/mumble-bridge/src/mumble_server.rs:322-345 | if no refresh of a run clears a description or drops a Root that would be missed, every client agrees with the rooms listed |
| Bridge.RootlessRefreshDisagrees | crates/mumble-bridge/src/mumble_server.rs:331-338 | a concrete run: after a refresh that lists a Root called Lobby, a join and a refresh that lists none, the early client still shows Lobby and one that joins then shows the made-up Root |
| Bridge.ClearedDescriptionStays | crates/mumble-bridge/src/reconcile.rs:149-155 | a concrete run: after a refresh that describes a room, a join and a refresh that clears the description, the early client still shows it and one that joins then does not |
| Bridge.RefreshIsIdempotent | crates/mumble-bridge/src/reconcile.rs:89-212 | reconciling the state just reconciled, Root listed or not, has nothing to tell |
| ClientView.ReplayAgrees | crates/mumble-bridge/src/bridge.rs:781-796 | messages about proxied users keep clients that differ only in Mumble sessions in agreement |
| IdMaps.ChannelMap.GetOrInsert | crates/mumble-bridge/src/state.rs:28-42 | both maps stay inverse, a known room keeps its id, a new one gets a fresh one, 0 is Root's alone |
| IdMaps.ChannelMap.RemoveByUuid | crates/mumble-bridge/src/state.rs:52-56 | removes exactly the one pair and keeps the counter |
| IdMaps.UserMap.GetOrInsert | crates/mumble-bridge/src/state.rs:89-98 | both maps stay inverse, a known user keeps its session, a new one gets a fresh proxy session |
| IdMaps.UserMap.RemoveByRumbleId | crates/mumble-bridge/src/state.rs:108-112 | removes exactly the one pair and keeps the counter |
| IdMaps.SessionRunReissuesNothing | crates/mumble-bridge/src/state.rs:87-112 | over any run of insertions and removals, between any two of its moments: the map is sound at both, what is in it at both has not moved, and nothing new has a session handed out before |
| IdMaps.ChannelRunReissuesNothing | crates/mumble-bridge/src/state.rs:28-56 | the same of channels, where 0 is Root's alone |
| IdMaps.SessionStandsForOneUser | crates/mumble-bridge/src/state.rs:87-112 | whenever during a run a session is in the map it stands for the same user, user 0 included |
| IdMaps.ChannelStandsForOneRoom | crates/mumble-bridge/src/state.rs:28-56 | whenever during a run a channel is in the map it stands for the same room |
| JitterRuns.InsertKeeps | crates/rumble-client/src/audio_task.rs:438-508 | one received packet, in any state: no frame behind the cursor, at most 20 buffered, at most target + 4 while started unless dropped late, exactly one fate per packet, the late counter grows only for a late drop (what becomes of the buffer is Arrival.InsertDoes) |
| Arrival.InsertDoes | crates/rumble-client/src/audio_task.rs:438-508 | one received packet, told by where its frame lies: ahead of the cursor, or while playout waits, it joins the buffer, of which exactly the newest target + 4 (playing) or 20 (waiting) frames stay with their packets, the cursor going no further than past what was dropped; up to 100 frames behind it is passed over and changes nothing but a counter; further behind, or as the eleventh behind in a row, it starts the stream over with this frame alone; the delay estimate is updated as measured |
| Arrival.JitterApproaches | crates/rumble-client/src/audio_task.rs:403-408 | each forward arrival moves the jitter estimate a sixteenth of the way to its deviation from the media clock |
| Arrival.TargetCovers | crates/rumble-client/src/audio_task.rs:410-411 | the target is the least whole number of frames that covers the base delay and twice the jitter, within 2 and 12 |
| Arrival.PaceDraws | crates/rumble-client/src/audio_task.rs:403-416 | arrivals at any constant pace draw the estimate to their constant deviation, fifteen sixteenths of the distance being left each time, and the target to what covers it |
| Arrival.SteadyPaceIsCalm | crates/rumble-client/src/audio_task.rs:403-416 | frames that arrive on the beat of the media clock keep the estimate at zero and the target at the base delay |
| Arrival.SpurtGathers | crates/rumble-client/src/audio_task.rs:444-507 | while playout waits on an empty buffer, up to 20 consecutive frames are all held, and playout waits on the first |
| Arrival.SpurtIsHeard | crates/rumble-client/src/audio_task.rs:565-609 | a fresh spurt: once as many consecutive frames have come as the target asks for, the ticks play them from the first on, each from its own packet; until then a tick is silent and changes nothing |
| Arrival.NewPeerIsHeard | crates/rumble-client/src/audio_task.rs:355-382 | a new peer whose frames arrive on the beat is heard from its first frame on, from exactly the moment its base delay is buffered |
| JitterRuns.TrimKeeps | crates/rumble-client/src/audio_task.rs:487-507 | the trim loop keeps exactly as many frames as the depth limit allows: the newest ones; each dropped packet gets the fate Trimmed, and nothing is dropped unless the buffer was too deep |
| JitterRuns.DecodeKeeps | crates/rumble-client/src/audio_task.rs:565-669 | one playout tick keeps the invariant, the ledger and the balance of the counters |
| JitterRuns.GapMeansStarted | crates/rumble-client/src/audio_task.rs:611-642 | a gap is only met while started, so the span is taken above the frame last played and cannot underflow |
| Ticks.TickDoes | crates/rumble-client/src/audio_task.rs:565-669 | one tick in any reachable state: silent and unchanged below the target before playout starts; with nothing buffered, silent if the stream ended or has been stale for 200 ms and starved otherwise; the frame at the cursor is played from its own packet, which leaves the buffer; a gap is skipped to the first buffered frame if it reads as silence, else its first frame is lost, recovered from the frame right behind it or concealed; every field of the new state is told |
| Ticks.LossIsCrossed | crates/rumble-client/src/audio_task.rs:648-668 | a gap that reads as loss is crossed frame by frame in as many ticks as it has frames, the buffer staying as it is; only the last frame of it can be recovered |
| Ticks.CountersTell | crates/rumble-client/src/audio_task.rs:604-668 | over every run the counters are what the ticks since the last reset came to: frames lost, recovered, starved, failed, and concealed |
| Playout.RunKeeps | crates/rumble-client/src/audio_task.rs:403-669 | over every run of packets, EOS marks, ticks and resets: invariant, one final fate per packet, and frames concealed equal to losses not recovered plus starved frames plus decode errors |
| Playout.FreshRunsWell | crates/rumble-client/src/audio_task.rs:355-382 | the same from a new peer, for every base delay |
| Playout.AtMostTenLate | crates/rumble-client/src/audio_task.rs:451-466 | at most ten packets in a row are dropped as late |
| Playout.FecKeepsDonor | crates/rumble-client/src/audio_task.rs:648-666 | FEC is taken from the immediate successor, which stays buffered and is played next |
| Playout.PlaysForward | crates/rumble-client/src/audio_task.rs:588-609 | while started every frame played lies beyond the one before, and its packet is decoded once |
| Playout.BurstAbsorbed | crates/rumble-client/src/audio_task.rs:317-329 | up to six consecutive frames into a started, drained buffer whose cursor is not past them: none trimmed, the cursor untouched, for every reachable target |
| Playout.PlaysThrough | crates/rumble-client/src/audio_task.rs:588-609 | a run at the cursor is played straight through, frame by frame, each from the packet buffered for it |
| Playout.AfterBurst | crates/rumble-client/src/audio_task.rs:624-646 | after a burst ahead of the cursor the next tick re-anchors exactly if the gap reads as silence, at exactly the first flushed frame, with the whole burst still buffered |
| PeerAudio.UserAudioState.UpdateJitterEstimate | crates/rumble-client/src/audio_task.rs:403-416 | only forward arrivals move the estimate, as in section 6.4.1 of RFC 3550; the target is that of the estimate |
| PeerAudio.UserAudioState.TrimBuffer | crates/rumble-client/src/audio_task.rs:487-507 | the in-place loop ends and computes the specified trim |
| PeerAudio.UserAudioState.Place | crates/rumble-client/src/audio_task.rs:444-507 | restart, late drop, re-sync and acceptance are told apart by the specified step, which Arrival.InsertDoes describes |
| PeerAudio.UserAudioState.InsertPacketAt | crates/rumble-client/src/audio_task.rs:438-508 | the method is the specified step, so every run theorem holds of it, and in every reachable state it does what Arrival.InsertDoes says |
| PeerAudio.UserAudioState.MarkEndOfStream | crates/rumble-client/src/audio_task.rs:517-525 | the stream counts as ended, and a new mark goes last on record, the oldest making way for a ninth; one on record stays where it is |
| PeerAudio.UserAudioState.CountEosInSpan | crates/rumble-client/src/audio_task.rs:632-641 | counts exactly the marks strictly inside the span, by wrapped distance |
| PeerAudio.UserAudioState.ResolveGap | crates/rumble-client/src/audio_task.rs:611-669 | stop, starve, re-anchor or lose, as specified |
| PeerAudio.UserAudioState.DecodeNext | crates/rumble-client/src/audio_task.rs:565-669 | the method is the specified tick, so every run theorem holds of it, and in every reachable state it does what Ticks.TickDoes says |
| Verdict.SeqDistance | crates/rumble-client/src/audio_task.rs:632-641 | across wrap-around the wrapped distance of two datagrams less than half the space apart is their true distance |
| Verdict.StepsSplit | crates/rumble-client/src/audio_task.rs:624-630 | the datagrams between two voice frames are its voice frames and its EOS marks, each counted once |
| Verdict.FramesFill | crates/rumble-client/src/audio_task.rs:624-630 | the voice frames sent between two frames and the frames left unsent there together fill the media span |
| Verdict.MarksAreEos | crates/rumble-client/src/audio_task.rs:632-641 | the marks counted in a span are exactly the recorded ones among the EOS datagrams sent in it |
| Verdict.VerdictIsExact | crates/rumble-client/src/audio_task.rs:624-646 | a gap reads as silence exactly if more of its frames were never sent than EOS marks of it are not on record |
| Verdict.VerdictIsSound | crates/rumble-client/src/audio_task.rs:624-646 | so a silence verdict implies a frame that was never sent, whichever marks arrived, and with every mark of the gap on record any such frame suffices |
| Verdict.VerdictsAreTruthful | crates/rumble-client/src/audio_task.rs:1799-1821 | over every run of lost, repeated, delayed and reordered datagrams: playout re-anchors exactly over the gaps with more unsent frames than missing marks, and counts as lost only what was sent if no mark is missing |
| EosRecord.StepMovesRecord | crates/rumble-client/src/audio_task.rs:517-525 | one step of the network: a mark is on record after it exactly if the step delivers it, or it was and the step neither starts playout anew, nor plays a frame past it, nor delivers a ninth while it is the oldest of eight |
| EosRecord.OnRecordExactlyIf | crates/rumble-client/src/audio_task.rs:507-609 | over every lossy, repeating, reordering run from an empty record: a mark is on record exactly if some event delivered it and none since then did any of that |
| EosRecord.RecordIsComplete | crates/rumble-client/src/audio_task.rs:517-525 | as long as, since playout last started anew, never more than eight marks stood (delivered, not passed), exactly those that stand are on record |
| EosRecord.CompleteExactlyIf | crates/rumble-client/src/audio_task.rs:517-525 | the record is complete at every moment of a run exactly if at no moment more than eight marks stand |
| EosRecord.CameIsRecorded | crates/rumble-client/src/audio_task.rs:517-525 | then every end-of-stream datagram of the open gap that was delivered since playout last started anew is on record |
| EosRecord.WholeGapsJudgedExactly | crates/rumble-client/src/audio_task.rs:624-646 | so over every such run inside one window a gap all of whose marks were delivered since playout last started anew is skipped exactly if some frame of it was never sent, and else its frames are counted as lost |
| Verdict.FreshTracks | crates/rumble-client/src/audio_task.rs:355-382 | every run from a new peer is covered |
| PreRoll.PushedContiguous | crates/rumble-client/src/preroll.rs:85-93 | the ring always holds consecutive media frames, at most its capacity, the last one pushed newest |
| PreRoll.PreRollRing.Push | crates/rumble-client/src/preroll.rs:119-139 | the circular array stands for the specified sequence: a break in the clock restarts it, a full ring loses its oldest |
| PreRoll.PreRollRing.FlushInto | crates/rumble-client/src/preroll.rs:141-157 | hands out the stored frames oldest first exactly if they lead up to the current one; empty afterwards |
| CaptureGate.SendsExactly | crates/rumble-client/src/audio_task.rs:2286-2345 | for every sequence of verdicts on a forward clock, jumps included: the voice sent is exactly the unsuppressed frames and those at most five unbroken frames ahead of an opening, each once, in capture order |
| CaptureGate.EndsExactly | crates/rumble-client/src/audio_task.rs:2286-2298 | with frames and deactivations taking turns: exactly one end-of-stream mark per frame that closes the gate and per deactivation, in order, never both for one stop |
| CaptureGate.GateFeedsVerdict | crates/rumble-client/src/audio_task.rs:1799-1821 | the frame numbers sent strictly increase, so the numbered output is a stream as the receiver's verdict assumes |
| CaptureGate.RingIsTail | crates/rumble-client/src/preroll.rs:119-157 | the ring always holds exactly the trailing suppressed frames on an unbroken clock, at most five |
| CaptureGate.StopThenFrame | crates/rumble-client/src/audio_task.rs:1060-1080 | a deactivation followed by a frame is one step of the model |
| CaptureGate.CaptureCallback.OnSamples | crates/rumble-client/src/audio_task.rs:2204-2345 | the callback over the ring and the shared flag is the specified step |
| CaptureGate.CaptureCallback.Deactivate | crates/rumble-client/src/audio_task.rs:1060-1080 | marks the end, resets the baseline, leaves the ring |
| VoicePath.SentExactlyIfDue | crates/rumble-client/src/audio_task.rs:2286-2345 | a media frame leaves the sender exactly if it is unsuppressed or in reach of an opening |
| VoicePath.EndToEnd | crates/rumble-client/src/audio_task.rs:565-669 | gate, numbering, any lossy reordering network, jitter buffer: only due frames are played, a gap is read as silence exactly if it holds more frames that were not due than marks that are missing, and with no mark missing only a due frame counts as lost |
| VoicePath.WholeGapsEndToEnd | crates/rumble-client/src/audio_task.rs:624-646 | and a gap whose marks all came in is skipped exactly if some captured frame of it was not to be sent |
| Onset.OpeningSendsBurst | crates/rumble-client/src/audio_task.rs:2303-2343 | when the gate opens after a gap, the last datagrams sent are consecutive frames up to the opening one: the whole gap if it fits the ring, else its last five |
| Onset.GapIsUndue | crates/rumble-client/src/preroll.rs:34-44 | of such a gap exactly what is beyond the ring stays unsent |
| Onset.BurstJudged | crates/rumble-client/src/audio_task.rs:624-646 | for a drained listener and any burst ahead of its cursor, the tick after the burst re-anchors at its first frame, all of it still held, exactly if more of the gap went unsent than marks are missing |
| Onset.LongGapReanchors | crates/rumble-client/src/preroll.rs:34-40 | a gap longer than the ring: the tick after the flushed burst re-anchors at its first frame exactly if the gap has more frames beyond the ring than missing marks, hence always when none is missing |
| Onset.ShortGapPlaysThrough | crates/rumble-client/src/preroll.rs:41-44 | a gap that fits the ring: the ticks after the burst decode the suppressed frames and the opening one straight on |
| TaskStream.ConnectionIsStream | crates/rumble-client/src/audio_task.rs:1799-1821 | over any run of commands, failed opens, device deaths, rebuilds and callbacks, interleaved at every shared access, with the queue drained and dropped as there is a connection or none: the datagrams of a connection that began cleanly strictly ascend on the media clock, retroactive frames included |
| TaskStream.WireFollowsConnection | crates/rumble-client/src/audio_task.rs:1799-1821 | in every interleaving: while there is a connection all that is dequeued is sent, in order and once; while there is none nothing is |
| TaskStream.QueueDrains | crates/rumble-client/src/audio_task.rs:1799-1821 | between commands, as many turns of the loop as messages wait empty the queue onto the wire |
| TaskStream.TaskToListener | crates/rumble-client/src/audio_task.rs:565-669 | the receiver's verdicts on the datagrams of such a connection are truthful, over any lossy reordering run |
| TaskStream.LeftoverBreaksStream | crates/rumble-client/src/audio_task.rs:1799-1821 | a concrete run: a frame still queued when a new connection begins goes out on it with its old timestamp, and the datagrams are no stream |
| TaskStream.StraddlerBreaksStream | crates/rumble-client/src/audio_task.rs:1143-1152 | a concrete run: a callback that took its place on the clock before a new connection restarted it sends that place over it, and the datagrams are no stream |
| PlaybackRing.EveryRunSound | crates/rumble-client/src/audio_task.rs:2704-2761 | in every interleaving of polls and callbacks: samples mixed are samples played followed by those on their way, at most 2879 are in the ring, no push overflows, production stays within 2879 samples of the device |
| PlaybackRing.YieldingProducerEndsPriming | crates/rumble-client/src/audio_task.rs:2446-2460 | once a poll of a producer that keeps yielding has finished, the next callback leaves priming, whatever happened in between |
| PlaybackRing.OneUnderrunPerGap | crates/rumble-client/src/audio_task.rs:2474-2486 | after running dry nothing is played and no further underrun counted until the cushion is rebuilt or the stream ends |
| PlaybackRing.IdleProducerPlaysTail | crates/rumble-client/src/audio_task.rs:2448-2460 | a burst below the cushion is played out, not stranded: in every interleaving after the stream, once the callbacks served have asked for as many samples as are left, whatever their lengths, all of them have been played in order and no underrun is counted |
| PlaybackRing.QuietRunDrains | crates/rumble-client/src/audio_task.rs:2446-2487 | in every interleaving after the stream, what was played is the first samples of the tail, as many as the served callbacks asked for |
| PlaybackRing.BlocksPlayTail | crates/rumble-client/src/audio_task.rs:2446-2487 | undisturbed callbacks for blocks of any lengths play the whole tail as soon as the lengths add up to it |
| PlaybackRing.Shared.Push | crates/rumble-client/src/audio_task.rs:2708-2722 | appends as much of the frame as fits into 9600 samples and counts an overflow exactly if something did not |
| PlaybackRing.Shared.FillPlaybackRing | crates/rumble-client/src/audio_task.rs:2731-2761 | the loop ends after at most two frames, at the target depth or with the mixer exhausted; the frames are taken in order; the call is a run of the interleaved steps |
| PlaybackRing.PlaybackFiller.Fill | crates/rumble-client/src/audio_task.rs:2446-2487 | the callback, stream live or not: unless it is priming, below 1920 samples and the stream live, it outputs exactly the first samples of the ring, as many as asked for or all there are, then silence; it primes again exactly if that was too little, and counts an underrun exactly if the stream is live too; the call is a run of the interleaved steps |
| PlaybackRing.CallbackPlays | crates/rumble-client/src/audio_task.rs:2446-2487 | the same of the undisturbed run of a callback's steps, from every state |
| PlaybackRing.GateDecides | crates/rumble-client/src/audio_task.rs:2447-2460 | in every interleaving: a callback that is not priming, or finds the cushion, goes on to play; any other looks whether a stream is live |
| PlaybackRing.ShortDecides | crates/rumble-client/src/audio_task.rs:2454-2460 | below the cushion a callback is silent exactly if it finds the stream live, whatever the producer did in between |
| PlaybackRing.SizedPlays | crates/rumble-client/src/audio_task.rs:2462-2478 | in every interleaving, stream live or not: a callback that goes on to play takes what was asked for or all there is when it looks, at least what was there before, and plays exactly that, in order; it primes again exactly if it was too little |
| PlaybackRing.DryCounts | crates/rumble-client/src/audio_task.rs:2478-2486 | a callback that ran dry counts an underrun exactly if it then finds the stream live |
| PlaybackRing.EveryCallbackPlays | crates/rumble-client/src/audio_task.rs:2446-2472 | over every run from a fresh ring: a callback that finds the cushion or is not priming plays at least the samples it finds, up to as many as it was asked for |
| Snapshots.LoadsReturnWhatWasPublished | crates/rumble-client/src/snapshot.rs:56-112 | in every interleaving of stores, loads, drops and clones, with any number of writers: each load returns the value published at its load step, and a buffer is allocated exactly while something refers to it |
| Snapshots.NoSharedMutation | crates/rumble-client/src/snapshot.rs:88-112 | a step that changes a buffer is a store writing the one buffer only it refers to; it is neither published nor held by a reader |
| Snapshots.StepSafe | crates/rumble-client/src/snapshot.rs:88-112 | every step keeps the counts equal to the references held and the published and loaded values intact |
| Snapshots.SwapSafe | crates/rumble-client/src/snapshot.rs:105-111 | the swap publishes the new value and disturbs no reader and no other writer |
| Snapshots.SteadyStoreRecycles | crates/rumble-client/src/snapshot.rs:25-27 | with no reader inside a load a store allocates nothing and leaves an unshared spare again |
| Snapshots.LoadSeesLastStore | crates/rumble-client/src/snapshot.rs:74-79 | a load after a store returns its value |
| Snapshots.SnapshotChannel.StoreValue | crates/rumble-client/src/snapshot.rs:88-112 | the straight-line store is the run of its five steps |
| Snapshots.SnapshotChannel.LoadValue | crates/rumble-client/src/snapshot.rs:77-79 | returns the published value and leaves no reference behind |
| CaptureTask.RunKeeps | crates/rumble-client/src/audio_task.rs:1060-1136 | with commands and captured frames taking turns, over every run of commands, failed opens and device deaths: active capture has a stream, the stream's flag is the audio task's, whenever nothing is transmitted the last message enqueued was an end mark, and capture is active exactly when wanted and possible unless the datagram handle was lost under it: active exactly if there is a stream and a connection, neither the user nor the server mutes, and the mode is continuous or push-to-talk is held |
| CaptureTask.EveryStopIsMarked | crates/rumble-client/src/audio_task.rs:1044-1080 | taking turns: between any two moments of a run in which capture was active and then is not, an end mark was enqueued and is last |
| CaptureTask.FailureArmLosesNothing | crates/rumble-client/src/audio_task.rs:1202-1207 | the direct writes of the flag after a failed open change nothing |
| CaptureTask.ReopenKeeps | crates/rumble-client/src/audio_task.rs:1278-1336 | a rebuild marks the end of a running capture even if capture resumes at once |
| CaptureTask.SyncKeeps | crates/rumble-client/src/audio_task.rs:752-766 | after a sync capture is active exactly if there is a stream and a connection, neither the user nor the server mutes, and the mode is continuous or push-to-talk is held |
| CaptureTask.AtMostOneMessage | crates/rumble-client/src/audio_task.rs:1060-1080 | no command, failure or recovery enqueues anything but at most one end mark, and a captured frame at most the five frames of the ring and its own |
| CaptureTask.LostHandleLeavesCaptureActive | crates/rumble-client/src/audio_task.rs:1870-1886 | a run after which capture is active although nothing wants it |
| CaptureTask.HealthRecovers | crates/rumble-client/src/audio_task.rs:1923-1997 | a dead or missing device is reopened by the first check that finds it openable, and capture resumes if wanted; a failed attempt leaves recovery going |
| CaptureTask.StepCalm | crates/rumble-client/src/audio_task.rs:1044-1136 | whatever is not a captured frame or a new connection enqueues no voice, leaves the ring alone or empties it, and never turns the media clock back |
| CaptureTask.RunAudioTask | crates/rumble-client/src/audio_task.rs:1138-2046 | the audio task as an object, handling any list of events one by one through its methods, is the turn-taking run, so every theorem about those holds of it |
| CaptureOrders.EveryRunAsOrdered | crates/rumble-client/src/audio_task.rs:1143-1454 | over every run each of connection, encoder, self-mute, server mute, push-to-talk and mode stands exactly as the last event on the matter left it; deafening mutes, only unmuting unmutes, and what belongs to a connection ends with it |
| CaptureOrders.CaptureObeys | crates/rumble-client/src/audio_task.rs:752-766 | so over every run, unless the handle was lost under it, capture is active exactly if there is a stream and the last words said are: connected, not muted by the user, not by the server, and continuous or pressed |
| CaptureOrders.CapturedDoes | crates/rumble-client/src/audio_task.rs:2204-2345 | a captured frame does nothing while capture is off, is only counted in the warm-up, and is sent otherwise with what is stashed right before it, unless the mode is continuous and the pipeline suppressed it; push-to-talk sends every frame |
| CaptureOrders.SyncDoes | crates/rumble-client/src/audio_task.rs:1044-1136 | a sync enqueues one end mark, stamped with the clock, exactly if it stops capture, and moves the clock past the time not captured exactly if it starts it |
| CaptureOrders.ConnectionOpens | crates/rumble-client/src/audio_task.rs:1143-1212 | a new connection keeps the stream there is, and opens a fresh one exactly if there is none, an encoder and a device that opens |
| CaptureOrders.ChangeRebuilds | crates/rumble-client/src/audio_task.rs:1254-1336 | a new device, changed settings or a changed pipeline leave a fresh stream, not warmed up and with an empty ring, exactly if connected, with an encoder and a device that opens, and none otherwise |
| CaptureOrders.NoChangeKeeps | crates/rumble-client/src/audio_task.rs:1254-1262 | an update that changes nothing does nothing, and choosing the device in use keeps its stream |
| CaptureOrders.HealthDoes | crates/rumble-client/src/audio_task.rs:1923-1997 | the periodic check leaves a live stream, and no stream that nobody waits for, alone; otherwise it makes one attempt and goes on recovering exactly if connected and the attempt failed |
| CaptureOrders.StepConfigured | crates/rumble-client/src/audio_task.rs:1254-1592 | device, settings and pipeline are those last ordered, whatever else happens |
| CaptureTask.ResumesWith | crates/rumble-client/src/audio_task.rs:1096-1125 | what goes out with the first unsuppressed frame after capture resumes on the same stream: the ring if it leads up to the clock, then the frame |
| CaptureTask.StaleExactlyIf | crates/rumble-client/src/preroll.rs:80-84 | audio stashed before the stop goes out then exactly if no uncaptured time moved the clock and the last frame before the stop was suppressed |
| CaptureTask.StaleOnset | crates/rumble-client/src/preroll.rs:80-84 | a concrete run: muted and unmuted within a frame, a frame stashed before the mute is sent after it |
| CaptureThreads.PlanIsStep | crates/rumble-client/src/audio_task.rs:1060-1136 | the shared accesses by which a command is carried out amount, undisturbed, to exactly the command's step, for every command |
| CaptureThreads.AloneIsCaptured | crates/rumble-client/src/audio_task.rs:2204-2345 | so do those of a callback to one captured frame |
| CaptureThreads.CallbacksUnseen | crates/rumble-client/src/audio_task.rs:1138-2046 | in every interleaving of callbacks and commands, what callbacks cannot touch comes out as in the commands' own run |
| CaptureThreads.EveryRunSturdy | crates/rumble-client/src/audio_task.rs:1060-1136 | in every interleaving, between commands: active capture has a stream, there is one gate, and capture is active exactly when wanted and possible unless the datagram handle was lost under it, in terms of the audio task's own fields |
| CaptureThreads.EveryRunAsOrdered | crates/rumble-client/src/audio_task.rs:1138-2046 | in every interleaving, between commands: connection, encoder, mutes, key and mode are what the commands taken so far said last |
| CaptureThreads.EveryStopEnqueuesMark | crates/rumble-client/src/audio_task.rs:1044-1080 | in every interleaving: nothing enqueued is lost, and between a moment with capture active and one without a mark was enqueued |
| CaptureThreads.UndisturbedRunValid | crates/rumble-client/src/audio_task.rs:1060-1080 | in every interleaving in which no callback is under way while capture stops: at rest the whole turn-taking invariant holds, a mark coming last whenever nothing is transmitted |
| CaptureThreads.StopMidCallback | crates/rumble-client/src/audio_task.rs:2250-2345 | a stop at any point of a callback: afterwards the receivers are told and the transmitting flag is clear exactly if the callback had no voice left to enqueue, and the stop is marked beyond its own mark exactly by what the callback had left to mark |
| CaptureThreads.FrameComesLate | crates/rumble-client/src/audio_task.rs:2250-2345 | a concrete run: push-to-talk released in the middle of a frame, voice comes after the mark and the transmitting flag stays set |
| VoiceCodec.VarintRoundTrip | crates/mumble-bridge/src/mumble_voice.rs:24-116 | for every 64-bit value and every trailing bytes: reading undoes encoding and consumes exactly its length |
| VoiceCodec.VarintLayout | crates/mumble-bridge/src/mumble_voice.rs:87-116 | the encoding of every value byte by byte: its length, the prefix over the high bits, then the number with the most significant byte first |
| VoiceCodec.VarintAccepted | crates/mumble-bridge/src/mumble_voice.rs:24-84 | a value is refused exactly when cut short or in a form that is not read |
| VoiceCodec.VarintIsPrefixCode | crates/mumble-bridge/src/mumble_voice.rs:24-84 | what is read depends on the consumed bytes only |
| VoiceCodec.VarintIsMinimal | crates/mumble-bridge/src/mumble_voice.rs:87-116 | no accepted encoding of a value is shorter than the one produced |
| VoiceCodec.VarintIsCanonical | crates/mumble-bridge/src/mumble_voice.rs:24-116 | an accepted encoding is the produced one exactly if it has that length and, in the two longest forms, clear low bits |
| VoiceCodec.ServerPacketRoundTrip | crates/mumble-bridge/src/mumble_voice.rs:180-201 | the documented server-to-client reading recovers session, sequence, payload and terminator exactly if the payload is under 8192 bytes |
| VoiceCodec.ClientPacketRoundTrip | crates/mumble-bridge/src/mumble_voice.rs:139-178 | parsing recovers target, sequence, payload and terminator, whatever follows, exactly if the payload is under 8192 bytes |
| VoiceCodec.ParsedIsSound | crates/mumble-bridge/src/mumble_voice.rs:139-178 | whatever bytes arrive, an accepted packet has its fields in range, its payload really occurs in them, and it survives being sent again |
| VoiceCodec.PacketLayout | crates/mumble-bridge/src/mumble_voice.rs:3-18 | both packets byte by byte while every number in them is below 128: header, session (towards the client only), sequence, length with terminator bit, payload |
| VoiceCodec.FramedIsParsed | crates/mumble-bridge/src/mumble_voice.rs:139-178 | every complete Opus packet is accepted, and each field is read where the format has it |
| VoiceCodec.ParsedIsFramed | crates/mumble-bridge/src/mumble_voice.rs:139-178 | and nothing else is accepted |
| VoiceCodec.Encode | crates/mumble-bridge/src/mumble_voice.rs:183-201 | the appending buffer is the specified packet |
| RoomChains.BuildRoomChain | crates/rumble-client/src/projection.rs:978-1017 | for every room list and target, cycles and repeated ids included: ends with a chain from Root to the target without repetition along parent links, Root standing above a stranger only where the climb was cut |
| RoomChains.RoomTree.Rebuild | crates/rumble-client/src/events.rs:113-137 | the nodes are the listed rooms, and each room's children are exactly the rooms naming it as parent, once |
| RoomChains.AncestorIterator.Next | crates/rumble-client/src/events.rs:219-232 | yields the remaining ancestors one by one and then nothing |
| RoomChains.CollectAncestors | crates/rumble-client/src/events.rs:190-196 | ends in every tree, after at most as many ancestors as there are rooms |
| RoomChains.ChainIsLineage | crates/rumble-client/src/projection.rs:978-1017 | with distinct ids the chain of a room that reaches Root is its lineage |
| RoomChains.ChainIsAncestors | crates/rumble-client/src/events.rs:190-232 | with distinct ids the chain is the reversed ancestors and then the room exactly if the room reaches Root |
| ChatLog.SameEpochIsPrefix | crates/rumble-client/src/events.rs:1083-1088 | two states of one run with the same epoch: the earlier log is a prefix of the later; the epoch never falls |
| ChatLog.IdsMirrorLog | crates/rumble-client/src/projection.rs:346-358 | over every run the id set is the set of ids in the log |
| ChatLog.LogHoldsWhatCame | crates/rumble-client/src/projection.rs:365-418 | over every run: the log's entries are messages that came since the last connect; every message that came since is there under its id, and every notice, draft and mirror as such |
| ChatLog.OneEntryAnId | crates/rumble-client/src/projection.rs:365-418 | an id under which nothing came locally since the last connect has at most one entry, however often it is received or merged |
| ChatLog.MergeIsStable | crates/rumble-client/src/projection.rs:398-418 | a merge that brings a new id leaves a stable sorted permutation of old log and new entries and a new epoch; any other changes nothing; all received ids are in the log afterwards |
| ChatLog.NewOnesAre | crates/rumble-client/src/projection.rs:403-410 | the entries added are among those received, one per missing id |
| ChatLog.NewOnesGrow | crates/rumble-client/src/projection.rs:403-410 | a received message is added exactly if its id was neither known nor came earlier in the same merge |
| ChatLog.StableOrderIsUnique | crates/rumble-client/src/projection.rs:411-415 | there is one stable order by timestamp, so the result does not depend on the sort used |
| ChatLog.SortIsStable | crates/rumble-client/src/projection.rs:411-415 | the sort orders by timestamp, loses nothing and keeps the order of equals |
| ChatLog.ChatProjection.MergeHistory | crates/rumble-client/src/projection.rs:398-418 | the loop with its running id set computes the specified merge |
| ChatLog.ChatProjection.AddMessage | crates/rumble-client/src/projection.rs:365-373 | appends unless the id is known |
| ChatLog.ChatProjection.StartConnect | crates/rumble-client/src/projection.rs:533-545 | clears log and ids under a new epoch |
| ChatLog.ChatProjection.Fold | crates/rumble-client/src/projection.rs:355-420 | each event of the bus, folded in through the methods, is its step |
| OutputSlots.LayoutReadsFrame | crates/rumble-audio/src/outputs.rs:288-313 | writer and reader stop at the same stage, the live slots are exactly the layout's, entry s in slot s below 16; every entry reads its own stage's last value, or zero when the stage is disabled, exactly if it is the first of its key in the stage or that value is zero |
| OutputSlots.FirstReadsWhatever | crates/rumble-audio/src/outputs.rs:237-256 | an entry reads back whatever its stage does exactly if it is the first of its key |
| OutputSlots.UniqueIfAllFirst | crates/rumble-audio/src/outputs.rs:247-255 | every entry of a stage is the first of its key exactly if the stage repeats none |
| OutputSlots.Derive | crates/rumble-audio/src/outputs.rs:288-313 | the layout covers exactly the longest run of stages that fits, and is truncated exactly if there are more |
| OutputSlots.LastSetIs | crates/rumble-audio/src/outputs.rs:237-256 | a stage's last value for a key is the one set after which that key is not set again |
| OutputSlots.NeverSetIsZero | crates/rumble-audio/src/outputs.rs:237-256 | and zero if it never is set |
| OutputSlots.WriteStage | crates/rumble-audio/src/outputs.rs:237-256 | after a stage's sets its window shows the last value per key, zero where none was set, and the rest of the frame is untouched |
| OutputSlots.AudioPipeline.WriteOutputs | crates/rumble-audio/src/lib.rs:633-660 | every placed stage's window shows its values, and the length is the slots placed |
| OutputSlots.AudioPipeline.FromConfig | crates/rumble-audio/src/lib.rs:531-546 | the captured descriptors are the registry's, in configuration order |
| OutputSlots.RepeatedKeyReadsZero | crates/rumble-audio/src/outputs.rs:247-255 | the second entry of a repeated key always reads zero |

## Left out

- Bridge.Run: takes refreshes and joins only; room and user updates between refreshes are not claimed to keep cache and clients equal, because renames and moves are broadcast without updating the cached rooms (crates/mumble-bridge/src/bridge.rs:1164-1198).
- Bridge.BridgeState.ServerState: takes the bridge's own user id from the skip rules of the refresh and keeps it for later snapshots; its id maps hold nothing the cache lacks, as they do from the start over refreshes and joins, while Reconcile.ReconcileServerState covers maps that have drifted.
- Bridge.BridgeState.ClientJoins: does not model the replacement of a silent client of the same name, or clients leaving.
- Bridge.RefreshMeetsSnapshot: clients are taken to keep a field that a message leaves out; a client that cleared it instead would hold the snapshot's descriptions.
- Reconcile.PruneChannels: removed channels are empty of proxied users; local Mumble clients are never moved out of them by the code, and nothing is claimed about them.
- IdMaps.ChannelMap.GetOrInsert: ids are unbounded; wrap-around of the 32-bit counter is not modelled.
- IdMaps.UserMap.GetOrInsert: sessions are unbounded; wrap-around of the 32-bit counter is not modelled.
- RoomWalk.WalkFromRoot: one method stands for the walk both callers repeat; repeated room ids are outside its promise, as the source's lists come from a table keyed by id.
- PeerAudio.UserAudioState.DecodeNext: whether a decode or an FEC recovery succeeds is an input; samples, volume, byte counters and the receive pipeline are not modelled.
- PeerAudio.UserAudioState.UpdateJitterEstimate: the target is computed on unbounded integers; the source casts the jitter frames to 32 bits, saturating, and then adds the base delay (crates/rumble-client/src/audio_task.rs:410-411), an addition that a far enough jump of a sender's timestamps can overflow.
- Playout.RunKeeps: the jitter estimate is a real number, not a float; only the truncation of the arrival step to whole microseconds and the rounding of the target to whole frames are kept.
- Verdict.VerdictsAreTruthful: the datagrams of a run lie within half the 32-bit sequence space; beyond that the wrapped distance is ambiguous.
- CaptureGate.CaptureCallback.OnSamples: one call undisturbed by others, like CaptureGate.CaptureCallback.Deactivate; every encode succeeds; the three warm-up frames after a stream opens are a jump of the clock here and are counted in CaptureTask.
- CaptureTask.RunKeeps: commands and captured frames take turns here; CaptureThreads states what survives their interleaving and when the rest does.
- CaptureThreads.EveryRunSturdy: accesses are interleaved, not reordered; a new stream is gated off before its first callback, and dropping a stream waits for its callback (crates/rumble-desktop/src/audio/pulse.rs:300-308).
- CaptureTask.RunAudioTask: of the loop only what bears on capture; the output side, statistics and incoming datagrams are not events here.
- TaskStream.ConnectionIsStream: the condition that a connection begins cleanly is sufficient; a connection that begins otherwise may still be lucky.
- Onset.ShortGapPlaysThrough: takes the burst as arriving whole, in order and between two ticks, with the buffer drained.
- PlaybackRing.Shared.FillPlaybackRing: the mixer is a supply of frames; without an output stream nothing is modelled.
- Snapshots.LoadsReturnWhatWasPublished: loads and swaps of the cell and reference counts are atomic; memory ordering below that is not modelled.
- RoomChains.RoomTree.Rebuild: the children come in no particular order; their sorting by name is not modelled.
- RoomChains.BuildRoomChain: returns the rooms; attaching each room's access entries is not modelled.
- ChatLog.SameEpochIsPrefix: the epoch is unbounded.
- OutputSlots.AudioPipeline.FromConfig: the processors are given; a configuration that names an unknown processor is refused by the source before this point.
- Permission evaluation, message formats other than the voice packet, transport, devices and codecs: not part of this model.
- Mute, deafen and SFX handling of the output side, backoff and configuration parsing: only easy members.
