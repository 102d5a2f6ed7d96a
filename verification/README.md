# SquadLink Lite, verified in Dafny

This project models the parts of SquadLink Lite that carry state, and proves
what they keep over whole runs. It has four parts.

**Signaling.** The server (`Rooms.dfy`) is a state machine over its sockets. A
step is one critical section: a frame, a hang-up, a message taken by a writer.
A join is two steps, because the source queues the Roster after it has released
the room lock. Every socket has a bounded queue, and the log of all that the
queue ever accepted. `RoomsProofs.dfy` holds the invariants, `RoomsTheorems.dfy`
the results, `Delivery.dfy` what each step sends to whom, seen from the receiving
end, `JoinRaces.dfy` two runs in which a Roster comes too late, and
`InitServer.dfy` the imperative form: rooms and queues updated in place, with a
loop for each broadcast, each method proved to take exactly one step. The
client's mesh is `Mesh.dfy` (functions) and `MeshObjects.dfy` (the objects), and
`MeshHistory.dfy` tells its entries from the events alone; the engine loop's
handling of a server message is `Client.dfy` and `ClientObjects.dfy`, with
`ClientHistory.dfy` on who has an entry when. `Links.dfy` says what one client's links look like over any
stream the room's rules allow, and `Rejoin.dfy` what becomes of a link when one end
joins again.

`Network.dfy` composes the server with all its clients: uplinks and downlinks are
FIFO, and everything else interleaves in any way. Clients come and go, reconnect
with the mesh they have, and may use each other's ids; queues overflow, writers
die and library calls fail. `NetworkInvariant.dfy` proves the invariant over all
runs, from the steps in `NetworkProofs.dfy`, `NetworkKnown.dfy`,
`NetworkMentions.dfy` and `NetworkRelays.dfy`. The results are in
`NetworkGlare.dfy` (who offers to whom), `NetworkTheorems.dfy` (one pair),
`NetworkCounting.dfy` with `Counting.dfy` (a room), `NetworkRekeys.dfy` and
`NetworkGhosts.dfy` (rekeys). `TwoClients.dfy` builds runs of the server and two
clients: in `Overlap.dfy` a rekey goes wrong and the next one mends it, and in
`GhostRun.dfy` a rekey makes an offer to somebody who is gone.

**Audio.** `Resampler.dfy`, `Dsp.dfy`, `Capture.dfy` and `Playback.dfy` model the
resampler, the gate/compressor/limiter, the capture loop, the jitter buffers, the
mixer and the playback ring. Samples are real numbers, and the resampler's phase
is an exact rational; rounding is not modelled.

**Time-driven state.** `Sessions.dfy` and `RateLimiter.dfy` model the session
store and the fixed-window limiter. The clock reading is an argument of every
call.

**Link and endpoint.** `EngineLink.dfy` models the reconnecting signaling link,
and `UrlHost.dfy` the URL parser and the endpoint policy.

## How it is stated

- What foreign code decides is an input of the step: which library calls fail,
  the order in which a hash map lists its keys, whether a room token checks out,
  TURN credentials, random codes, clock readings.
- A PeerConnection is a numbered object, and a session description the number of
  the PeerConnection that made it, the number it answers, and its length. A
  candidate is its text and whether it parses.
- A received answer is refused when no offer is outstanding, as section 4 of
  RFC 3264 has it.
- What the composed network guarantees to two members is stated for a pair whose
  ends are clean: nobody else has ever used either id in the room, neither has been
  refused a message by a full queue, and the library calls each has made for its
  link to the other have succeeded, with descriptions that fit the server's limit; on
  a rekey, also the calls for the peers that came before the other one. Calls for
  anybody else may fail. The other clients run the same code and are otherwise
  free: they may share ids, lose messages, reconnect and fail. Where less is needed
  less is asked: who offers to whom, and that nothing sent or handled is unsaid, hold
  in every run for everybody.
- Commands, such as a rekey, go straight to the connection in the source while the
  mesh's messages wait in a channel, so in a run they may overtake any of these.
- Statements that hold only under a condition say exactly when: a member's view
  is right if and only if the ids announced before its Roster end up as listed
  (`RosterConvergence`), and stays right if and only if there is room for a notice
  that is news; a settled pair is matched if and only if its latest offer was sent
  with no negotiation in flight (`SettledMatchedIff`), so a rekey that finds it
  settled leaves it matched (`OneRekeyMatches`); a rekey makes one offer per
  pair of members if and only if no member has an entry left of somebody gone
  (`RekeyOffersOnePerPairIff`); the limiter lets a peak through if and only if its
  release step passes the target (`PeakGetsThroughIff`); a call is let through if and
  only if the calls its IP has made in the same window, modulo 2^32, are within the
  limit (`AllowedIff`).
- Where the repository's comments and its code differ, the code is modelled. The
  comment at `apps/companion-core/src/audio.rs:313` says that the limiter never
  lets a peak through; `DspChain.SteadyPeakOvershoots` shows that it does, and
  `DspChain.LimiterOvershoot` by how much at most. The comment at
  `apps/companion-core/src/mesh.rs:256-260` says that a rekey re-handshakes every
  link and that every pair gets exactly one new offer;
  `Overlap.OverlappingRekeyUnmatches` shows a link that is left unmatched when a
  rekey comes in the middle of a negotiation, and
  `NetworkGhosts.RekeyOffersOnePerPairIff` says when more offers are made, with a
  run in `GhostRun.RekeyOffersToGhost`. The comment at `server/init/src/main.rs:100`
  says that an IP past its limit is refused. By `RateLimiting.AllowedIff` a call past
  the limit is let through exactly if the count of its window, taken modulo 2^32, is
  within it, so never before the 2^32nd call; `RateLimiting.WrapBreaksBound` shows
  what an IP can get that way.

## Model

| member | source | states |
|---|---|---|
| Wire.ExactlyOneSideIsSmaller | apps/companion-core/src/mesh.rs:194-200 | the id order picks exactly one offering side for every pair of different ids |
| Wire.FirstDifferenceDecides | apps/companion-core/src/mesh.rs:194-200 | the id order is that of the first differing character, and a proper prefix is smaller |
| Wire.ByteLenIsUtf8 | server/init/src/main.rs:67-69 | the length that the field limits count is that of the UTF-8 encoding |
| RosterView.RosterMapOfListing | server/init/src/main.rs:515-518 | collecting any listing of a room gives back exactly its ids and names, whatever the order |
| RosterView.EarlyAnnouncementsMatter | apps/companion-core/src/lib.rs:394-408 | dropping the announcements before a Roster changes the view if and only if one of them, not repeated later, contradicts the Roster |
| RoomsProofs.RunRoomsOk | server/init/src/main.rs:499-537 | in every reachable state each stored room has 1 to 16 members and each handle belongs to a live socket that joined under that very id, also after supersession and double cleanup |
| RoomsProofs.IdentityKept | server/init/src/main.rs:598-613 | a socket's identity never changes, and a socket that ends takes the handle of its identity with it |
| RoomsProofs.RunViewsOk | server/init/src/main.rs:499-609 | in every reachable state a member that lost nothing holds exactly one Roster, and that listing with all its other messages applied is its room |
| RoomsTheorems.RosterConvergence | server/init/src/main.rs:499-539 | the view folded from all messages is the room minus oneself if and only if each id announced only before the Roster ended up as the Roster lists it |
| RoomsTheorems.AtomicRosterConvergence | apps/companion-core/src/lib.rs:394-408 | if a member's own join and its Roster are one step, and it lost nothing, it sees exactly its room, from whatever view it started and however the others joined |
| RoomsTheorems.JoinSeenIffQueueHasRoom | server/init/src/main.rs:506-528 | a right view stays right across a join, new or in place of a socket with the same id, if and only if the member's queue has room for the notice or the id was known under that name |
| RoomsTheorems.LeaveSeenIffQueueHasRoom | server/init/src/main.rs:598-606 | a right view stays right across the end of a socket if and only if the member's queue has room for the notice or the id was no member any more |
| RoomsTheorems.MemberIffLastWord | server/init/src/main.rs:499-613 | in every run an id is registered if and only if the last thing that happened under it was a join, and then it is the joining socket's |
| RoomsTheorems.TakenOverThenDropped | server/init/src/main.rs:506-513 | after any run: when a socket takes over an id and the one it took it from ends, the new one is connected and joined and yet no member |
| JoinRaces.JoinRaceLeavesStaleView | server/init/src/main.rs:537-539 | the interleaving of two joins after which a member never learns of the other although nothing was dropped |
| JoinRaces.LateRosterLeavesGhost | server/init/src/main.rs:537-539 | the interleaving of a join and a departure after which a member that lost nothing sees somebody who has left, and has an entry for it |
| RoomsTheorems.RelayProvenance | server/init/src/main.rs:617-630 | every relayed Offer, Answer, Ice and Ptt in any queue was sent, to that id, by a socket that joined the same room under the stamped id |
| Delivery.StepDelivers | server/init/src/main.rs:456-613 | in every reachable state each step sends each socket exactly what its seat in a room entitles it to, in order: refusals and their reasons, supersession, notices, warnings from twelve on, relayed signals and speaking states within the limits, rekeys with the name, departures, Roster and TURN; its queue takes or drops each of these |
| Delivery.LosslessLogIsOwed | server/init/src/main.rs:441-613 | in every run what a socket was sent, if it lost nothing, is exactly all it was owed, in order |
| Delivery.SignalReaches | server/init/src/main.rs:547-564 | an offer, answer or candidate within the limits goes once to the addressed member of the room of the sender, under its id, and to nobody else; one over the limits or for somebody absent to nobody |
| Delivery.SpeakingReaches | server/init/src/main.rs:565-579 | a speaking state goes once to each other member of the room and to nobody else |
| Delivery.StepSettles | server/init/src/main.rs:456-613 | a step moves its own socket on as the rules say (admitted, refused and closed, or refused and kept) and no other |
| Delivery.MembersAfter | server/init/src/main.rs:499-613 | membership changes by admitted joins and by ends of joined sockets only, and each of these concerns its own id |
| Delivery.QueuesBounded | server/init/src/main.rs:64-65 | in every run no queue holds more than 256 messages |
| InitServer.AppState.Broadcast | server/init/src/main.rs:587-589 | one message to every handle of a room, in whatever order the map yields them, and to no one else |
| InitServer.AppState.ListRoom | server/init/src/main.rs:515-518 | the listing holds every member once, with its name |
| InitServer.AppState.OnJoin | server/init/src/main.rs:471-537 | a Join frame up to the end of the lock takes exactly one step: refusals, cap, supersession, insertion, notices |
| InitServer.AppState.Enter | server/init/src/main.rs:499-537 | the locked part of an accepted join, or the refusal of a full room |
| InitServer.AppState.Insert | server/init/src/main.rs:508-535 | supersession of the old handle, insertion of the new one, and the notices, in this order |
| InitServer.AppState.GiveNotice | server/init/src/main.rs:520-535 | PeerJoined to the others, then Warn to all from twelve members on |
| InitServer.AppState.FinishJoin | server/init/src/main.rs:539-544 | the Roster as listed under the lock, then TURN credentials if there are any, takes one step |
| InitServer.AppState.Relay | server/init/src/main.rs:617-630 | one message to the addressed member of the sender's own room, and nothing if it is not there |
| InitServer.AppState.OnFrame | server/init/src/main.rs:547-593 | a frame of a socket, within the field limits, takes one step |
| InitServer.AppState.SpeakingState | server/init/src/main.rs:565-579 | the speaking state goes to all members but the sender |
| InitServer.AppState.RekeyAll | server/init/src/main.rs:580-593 | the rekey goes to all members, the sender included, with the sender's name |
| InitServer.AppState.OnGone | server/init/src/main.rs:594-613 | the end of a socket takes one step: handle dropped, the rest told, empty room dropped |
| InitServer.AppState.Depart | server/init/src/main.rs:598-611 | the cleanup of a joined socket, also when the handle is by then another socket's |
| Mesh.PcConservation | apps/companion-core/src/mesh.rs:111-192 | in every run, also with failing calls, each PeerConnection ever made is one peer's entry, or closed, or abandoned by a failing add-track, and never two of these |
| Mesh.OpenOrClosed | apps/companion-core/src/mesh.rs:216-273 | if no add-track fails, each PeerConnection ever made is open as one peer's entry or closed, not both, and no peer has two |
| Mesh.OffersGoUp | apps/companion-core/src/mesh.rs:194-273 | in every run, whichever calls fail, a mesh offers to larger ids only |
| MeshHistory.IceQueueExact | apps/companion-core/src/mesh.rs:40-57 | in every run, whatever fails: once a description has been applied to an entry the library has been handed exactly the candidates that arrived for it and parse, in order; before that all of them are queued and none is handed over. What arrived and what was applied is told from the events alone |
| MeshHistory.ReplacementLosesNoCandidate | apps/companion-core/src/mesh.rs:216-235 | an offer that replaces an entry, whatever fails meanwhile, finds every candidate that arrived for it and parses handed over, and closes it |
| MeshHistory.EntryHistory | apps/companion-core/src/mesh.rs:216-248 | in every run, whatever fails, an entry has received exactly the candidates that arrived for it since it was made, and its remote description is the one last applied |
| MeshHistory.LocalIsLastSent | apps/companion-core/src/mesh.rs:204-234 | in every run, whatever fails, the local description of an entry is the last offer or answer it has sent to its peer, and there is none if it has sent none |
| MeshHistory.OfferSentIff | apps/companion-core/src/mesh.rs:111-214 | meeting a peer gives it an entry if and only if it has one or one can be made, and an offer if and only if it then has one, the id is larger and no call for the offer fails; no other entry is touched |
| MeshHistory.AnswerSentIff | apps/companion-core/src/mesh.rs:216-234 | an offer closes an established entry whatever fails, and is answered if and only if there is an unused entry or one can be made, and no call for the answer fails |
| MeshHistory.AnswerAppliedIff | apps/companion-core/src/mesh.rs:236-242 | an answer is applied if and only if there is an entry and its calls succeed |
| MeshHistory.RekeyStopsAtFailure | apps/companion-core/src/mesh.rs:261-273 | a rekey goes no further than its first failing call: what it has not got to is left alone and sent nothing |
| MeshObjects.PeerConn.AddOrQueueIce | apps/companion-core/src/mesh.rs:40-48 | the wrapper's fields change exactly as the queueing rule says |
| MeshObjects.PeerConn.FlushIce | apps/companion-core/src/mesh.rs:49-57 | the flag is set and the loop hands over all that parses, in order, leaving the queue empty |
| MeshObjects.Mesh.Ensure | apps/companion-core/src/mesh.rs:111-192 | an existing entry is kept; otherwise one new entry is made, or none if a call fails |
| MeshObjects.Mesh.OnPeer | apps/companion-core/src/mesh.rs:196-202 | an entry exists afterwards, and the smaller id offers |
| MeshObjects.Mesh.Offer | apps/companion-core/src/mesh.rs:204-214 | the offer is made by the peer's current PeerConnection, becomes its local description, and is sent |
| MeshObjects.Mesh.OnOffer | apps/companion-core/src/mesh.rs:216-234 | an established entry is replaced, the offer applied, the queue flushed and one answer sent, up to the first failing call |
| MeshObjects.Mesh.OnAnswer | apps/companion-core/src/mesh.rs:236-242 | the answer is applied to the current entry, if there is one, and the queue flushed |
| MeshObjects.Mesh.OnIce | apps/companion-core/src/mesh.rs:244-248 | a candidate goes to the current entry and is dropped without one |
| MeshObjects.Mesh.OnLeft | apps/companion-core/src/mesh.rs:250-254 | the entry is removed and its PeerConnection closed |
| MeshObjects.Mesh.Rekey | apps/companion-core/src/mesh.rs:261-273 | over a listing of all peers, each larger id gets a new PeerConnection and an offer, and each smaller one is left alone, up to the first failure |
| MeshObjects.ListKeys | apps/companion-core/src/mesh.rs:262 | the snapshot lists every key exactly once |
| Client.MembersHaveLinks | apps/companion-core/src/lib.rs:394-408 | whatever the server sends and whatever fails for others, an id in the member view has an entry in the mesh, if making its PeerConnection and adding its track never fail |
| Client.MeetAllMeets | apps/companion-core/src/lib.rs:394-398 | a Roster loses no entry, and gives one to each listed id whose PeerConnection can be made and its track added, whatever fails for others |
| Client.RekeyKeeps | apps/companion-core/src/mesh.rs:261-273 | a rekey keeps an entry for a peer that had one, if its PeerConnection can be made and its track added, whatever fails for others |
| ClientHistory.EntryOnlyIfExpected | apps/companion-core/src/lib.rs:394-411 | whatever fails, a client has an entry for an id only if a Roster, a notice or an offer has called for one since that id last left |
| ClientHistory.EntryIffExpected | apps/companion-core/src/lib.rs:394-411 | if PeerConnections and tracks for the id can always be made, it has one exactly then |
| ClientHistory.DepartureCloses | apps/companion-core/src/lib.rs:404-407 | after a departure the entry is gone and its PeerConnection closed, and nothing else has changed |
| ClientHistory.MeshIsARun | apps/companion-core/src/lib.rs:394-416 | the mesh of a client is always in a state of a run of the mesh in which each message is the event it stands for, so all results about runs hold of it |
| ClientHistory.CandidatesHandedOver | apps/companion-core/src/lib.rs:411 | of the candidates that a client has been sent, those for an entry that has a description and that parse have been handed to the library, in order |
| ClientObjects.NamesFollowView | apps/companion-core/src/lib.rs:394-415 | the names in the member table change by the view rules, whatever happens to badges and speaking states |
| ClientObjects.TableIs | apps/companion-core/src/lib.rs:394-415 | after any messages the table has the names of the view, and shows a member as speaking if and only if that is the last that was said of it since it came |
| ClientObjects.ClientLoop.Handle | apps/companion-core/src/lib.rs:393-432 | one server message changes the member table and the mesh in place exactly as specified |
| ClientObjects.ClientLoop.Track | apps/companion-core/src/lib.rs:394-415 | a Roster replaces the table, joins and departures change one entry, Ptt changes the speaking state of a known member |
| ClientObjects.ClientLoop.Meet | apps/companion-core/src/lib.rs:396 | the loop meets every listed peer in order and ignores errors |
| Links.LinkOkStep | apps/companion-core/src/mesh.rs:194-273 | a message the room's rules allow keeps a link in order, if no call for that peer fails (and, on a rekey, none for the peers before it): offers exactly as due, each offer answered once, the entry made by the latest offer, and the first answer since then applied |
| Links.RekeyLink | apps/companion-core/src/mesh.rs:261-273 | a rekey dials each listed larger id exactly once, from a new PeerConnection, if no call fails up to and for that id; it touches no other link, whatever fails |
| Links.MeetAllLink | apps/companion-core/src/lib.rs:394-398 | a listing touches no link of an id it does not name, whatever fails; an id named once, whose calls succeed, is met if smaller, and dialed once from a new PeerConnection if larger and without an entry |
| Links.OnOfferAnswers | apps/companion-core/src/mesh.rs:216-234 | an offer during whose handling no call fails is answered exactly once, by an unused entry if there is one and by a new PeerConnection otherwise |
| Rejoin.RejoinMatches | apps/companion-core/src/mesh.rs:196-242 | for any two meshes, whatever entries they have for each other: if the smaller id is told of the larger one and the calls for the link succeed, it offers exactly once, from the entry it has kept if it has one; the larger id answers once, on an unused entry, closing a used one; and once the answer is handled the two match, whatever candidates and other traffic came in between |
| NetworkKnown.ServerKnownStep | server/init/src/main.rs:515-539 | every step keeps: a socket is told, or is owed a Roster, only of ids that have joined its room |
| NetworkMentions.LeftOkStep | server/init/src/main.rs:598-606 | every step keeps: a member is told of a departure only if a socket that joined under that id has ended |
| NetworkMentions.MentionsOkStep | server/init/src/main.rs:515-539 | every step keeps: a member that has lost nothing is told of each roommate with an unshared id exactly once, counting the Roster it is owed, of nobody twice, and only of ids that joined |
| NetworkRelays.RelaysOkStep | server/init/src/main.rs:547-564 | every step keeps: between two members with unshared ids, what a queue that lost nothing got from one is exactly what that one sent, in order, whatever anyone else does |
| NetworkInvariant.RunInv | server/init/src/main.rs:456-613 | in every run of server and clients, with reconnects, shared ids, overflowing queues and failing calls, the whole invariant holds: shapes, rooms, views, who knows whom, mentions, relays and links |
| NetworkInvariant.Flow | server/init/src/main.rs:617-630 | what one clean member got from another is exactly what the server read from it, a prefix of what the other has sent to it |
| NetworkTheorems.SignalsToKnown | apps/companion-core/src/lib.rs:394-411 | in every run offers and answers go only to ids that have joined the sender's room |
| NetworkGlare.NoGlare | apps/companion-core/src/mesh.rs:194-202 | in every run, whatever is lost, shared or failing, each client has offered to larger ids only and each socket has been sent offers from smaller ids only |
| NetworkGlare.ServerIsARun | server/init/src/main.rs:456-613 | the server of any network run is in a state of a run of the server on its own, so all its results hold there |
| NetworkInvariant.AnswerFromLarger | apps/companion-core/src/mesh.rs:229-242 | an answer between clean members comes from the larger id, and there is an offer for every answer |
| NetworkTheorems.OffersPerPair | apps/companion-core/src/mesh.rs:194-202 | in a clean pair the smaller id has sent exactly the offers due for what it handled, the larger id none, and each offer taken was answered once |
| NetworkTheorems.SettledMatchedIff | apps/companion-core/src/mesh.rs:216-242 | once all offers and answers of a clean pair are handled, each end's remote description is the other's local one, answering this very offer, if and only if the latest offer was sent with no negotiation in flight |
| NetworkTheorems.NewOfferRenewsBothEnds | apps/companion-core/src/mesh.rs:216-226 | between two settled states of a clean pair with another offer in between, both ends have got new PeerConnections |
| NetworkTheorems.RekeyRenewsBothEnds | apps/companion-core/src/mesh.rs:256-273 | a rekey handled by the smaller id renews both ends of a clean pair that stays, whether or not the larger id has handled it, and whatever becomes of everybody else |
| NetworkTheorems.OneRekeyMatches | apps/companion-core/src/mesh.rs:256-273 | a rekey that finds a clean pair settled leaves it, once settled again, matched on new PeerConnections at both ends |
| NetworkTheorems.RunKeepsHistory | apps/companion-core/src/lib.rs:342-345 | over any continuation of any run nothing read or handled is unsaid, nothing sent is lost, the offers and answers to each peer stay in order, and identities and ends are for good |
| NetworkTheorems.CleanAllAlong | apps/companion-core/src/lib.rs:353-366 | an id that by the end of a run nobody else has used and nothing for it was lost was so at every point of the run |
| NetworkTheorems.WellAllAlong | apps/companion-core/src/lib.rs:393-420 | a client whose calls have not harmed its link to a peer by the end of a run had not harmed it at any point of the run |
| NetworkTheorems.DueSinceMention | apps/companion-core/src/lib.rs:416-417 | once a peer has been met, each rekey makes exactly one more offer due |
| Counting.PairCount | apps/companion-core/src/mesh.rs:194-200 | among n different ids the order picks n(n-1)/2 offering pairs |
| Counting.CountByTarget | apps/companion-core/src/mesh.rs:204-214 | all offers in an uplink are the offers to each member added up |
| NetworkCounting.OneOfferPerPair | apps/companion-core/src/mesh.rs:194-202 | n clean members, caught up and not yet rekeyed, have made n(n-1)/2 offers to each other, one per pair and from the smaller id, whoever came and went; if all who joined are still there, these are all their offers |
| NetworkRekeys.EveryMemberGetsEveryRekey | server/init/src/main.rs:580-593 | over any stretch of a run a member that is registered at its end, and to which nothing was dropped, gets exactly as many rekeys as the server read from members of its room |
| NetworkRekeys.RekeyAddsOneOfferPerPair | apps/companion-core/src/mesh.rs:261-273 | between two caught-up states with the same n clean members, each rekey broadcast has added n(n-1)/2 offers between them, whoever came and went |
| NetworkGhosts.RekeyOffersAll | apps/companion-core/src/mesh.rs:261-273 | a rekey during which no call fails makes exactly one offer for each entry of a larger id, and keeps these entries |
| NetworkGhosts.RekeyOffersOnePerPairIff | apps/companion-core/src/mesh.rs:256-273 | while nobody joins or leaves and no call of the members has failed, all offers the members make are one per rekey and entry of a larger id, so n(n-1)/2 a rekey if and only if no member has an entry for a larger id that is no member's |
| GhostRun.RekeyOffersToGhost | server/init/src/main.rs:537-539 | a run of the server and two clients in which nothing is lost and no call fails: one leaves before the Roster that lists it is queued, and a rekey of the other, alone in its room, makes one more offer, to the one that is gone |
| Overlap.IdlePairIsSettled | apps/companion-core/src/mesh.rs:216-242 | a clean pair with nothing in transit is settled and has an offer |
| Overlap.OverlappingRekeyUnmatches | apps/companion-core/src/mesh.rs:236-242 | a run of the server and two clients with a rekey before the answer: the first answer lands on the new PeerConnection, the right one is refused, nothing was lost and all is handled, and the ends do not match; one more rekey, and they do |
| Resampling.Resampler.Feed | apps/companion-core/src/audio.rs:76-88 | one sample adds exactly what the closed form says is new |
| Resampling.Resampler.Process | apps/companion-core/src/audio.rs:75-89 | over any calls the output is the closed form of the whole input: after n samples ceil((n-1)*dst/src) outputs, the k-th the interpolation at k*src/dst |
| Resampling.Resampled | apps/companion-core/src/audio.rs:75-89 | the closed form has as many samples as the count says |
| Resampling.ResampledPrefix | apps/companion-core/src/audio.rs:75-89 | later input never changes what was output |
| Resampling.LinesStayLines | apps/companion-core/src/audio.rs:75-89 | a straight line comes out as the same line at the new rate: output k is its value at k*src/dst |
| Resampling.InputsStay | apps/companion-core/src/audio.rs:75-89 | an output that falls on an input is that input, so at equal rates the stream comes through as it is |
| Resampling.CountOfChunk | apps/companion-core/src/audio.rs:82-86 | a chunk yields at most the ceiling of its exact share, and less than one below it |
| DspChain.Normalized | apps/companion/src-tauri/src/main.rs:263-270 | whatever finite settings come in, the ones used are in range, and those in range are used as they are |
| DspChain.Dsp.Process | apps/companion-core/src/audio.rs:282-320 | the fields and the output after one sample are those of the specification, stage by stage |
| DspChain.ChainLaws | apps/companion-core/src/audio.rs:282-320 | for every memory in range: the gate opens by its coefficient while the detected level is at or above the threshold and closes otherwise, the compressor follows the gated level and keeps to the static curve, a peak that would pass the ceiling is put on it and the gain else recovers by the release share, and the result is cut off at full scale; a stage that is off does nothing |
| DspChain.LoudOpensGate | apps/companion-core/src/audio.rs:286-294 | n samples at or above the threshold leave the gate short of open by the n-th power of the opening coefficient, after any history |
| DspChain.QuietClosesGate | apps/companion-core/src/audio.rs:286-294 | n samples below the threshold, once the detector is below it, bring the gain down by the n-th power of the closing coefficient |
| DspChain.LoudFromRestPasses | apps/companion-core/src/audio.rs:286-294 | what is at or above the threshold from the start is never turned down by the gate |
| DspChain.BetweenPassesUnchanged | apps/companion-core/src/audio.rs:282-320 | a signal between the thresholds comes through unchanged, sample by sample |
| DspChain.CompGainRange | apps/companion-core/src/audio.rs:300-305 | the compressor's gain is above 0 and at most 1 |
| DspChain.GainsInRange | apps/companion-core/src/audio.rs:282-320 | for every input in [-1,1] and any sequence of normalised settings, gate gain in [0,1] and limiter gain in (0,1] |
| DspChain.LimiterOvershoot | apps/companion-core/src/audio.rs:308-318 | after any history the limiter's input is at most max(1, makeup), its output at most ceil + (1-release)*max(0, peak-ceil), and that, cut off at full scale, is the output of the chain |
| DspChain.PeakGetsThroughIff | apps/companion-core/src/audio.rs:312-316 | a peak passes the ceiling if and only if the gain is at or below the target and one release step passes it |
| DspChain.SteadyPeakOvershoots | apps/companion-core/src/audio.rs:312-316 | a steady full-scale input reaches the overshoot bound exactly on its second sample |
| CapturePath.FrameCount | apps/companion-core/src/audio.rs:372-386 | one frame of 960 for every 960 resampled samples |
| CapturePath.FramesAre | apps/companion-core/src/audio.rs:347-386 | every sample of every frame: one denoiser, started once, goes through all blocks of the resampled input, scaled up and back and cut off at full scale; one chain, started once, goes through what it makes, with the settings in force at each frame; frame i holds the outputs 960*i to 960*i + 959 in 16 bits |
| CapturePath.CastIs | apps/companion-core/src/audio.rs:384-386 | the cast to 16 bits cuts off the fraction towards zero and saturates |
| CapturePath.FramesGrow | apps/companion-core/src/audio.rs:355-386 | a frame, once made, depends on nothing captured later |
| CapturePath.DenoisedGrows | apps/companion-core/src/audio.rs:372-381 | later blocks only append to what was denoised |
| CapturePath.Capture.Pass | apps/companion-core/src/audio.rs:359-386 | after every pass the frames and the left-over samples are functions of the concatenated input, fewer than 480 and 960 samples are held back, and earlier frames stay |
| CapturePath.Capture.DenoiseAll | apps/companion-core/src/audio.rs:373-381 | all whole blocks are denoised in order, each sample in exactly one block or left over |
| CapturePath.Capture.FrameAll | apps/companion-core/src/audio.rs:382-386 | all whole frames are cut in order with one snapshot of the settings each |
| CapturePath.Capture.OneFrame | apps/companion-core/src/audio.rs:384-386 | a frame is its samples through the chain, scaled, truncated and saturated to 16 bits |
| Playback.DropOldest | apps/companion-core/src/audio.rs:485-487 | exactly the excess goes, from the front |
| Playback.MixMap.Push | apps/companion-core/src/audio.rs:429-438 | a packet is appended, the excess over the cap is dropped from the front and accounted for, no other buffer changes |
| Playback.MixMap.Decoded | apps/companion-core/src/audio.rs:421-438 | a decoded packet is buffered for its peer, at most 19200 samples |
| Playback.MixMap.Monitor | apps/companion-core/src/audio.rs:388-397 | the microphone check is buffered under its own name, at most 9600 samples |
| Playback.MixMap.Pull | apps/companion-core/src/audio.rs:460-473 | each slot of the mix is the sum of the scaled heads of all buffers, silence past a short one, and exactly those heads are taken |
| Playback.SumOneOut | apps/companion-core/src/audio.rs:463-472 | the mix does not depend on the order in which the map lists the peers |
| Playback.ShareIs | apps/companion-core/src/audio.rs:460-473 | the share of a peer in a slot is its sample times its volume, 1 unless it was set, cut off towards zero, and nothing past the end of its buffer |
| Playback.UnsetGainsArePlain | apps/companion-core/src/audio.rs:460-473 | peers whose volume was never set are mixed as they are |
| Playback.UnityMix | apps/companion-core/src/audio.rs:474-484 | at full volume and with nothing to limit a 16-bit sample reaches the ring within one step |
| Playback.VolumeScales | apps/companion-core/src/audio.rs:474-484 | the limiter gets the mixed sample times the volume, in units of full scale |
| Playback.AccountedSizes | apps/companion-core/src/audio.rs:422-440 | decoded = mixed + dropped + buffered, and a buffer is a suffix of its decoded stream |
| Playback.PushAccounted | apps/companion-core/src/audio.rs:431-437 | a push drops nothing that was mixed, and what it drops is counted |
| Playback.PullAccounted | apps/companion-core/src/audio.rs:463-471 | a pull drops nothing, and what it mixes follows what was mixed before, in order |
| Playback.HeardAndLost | apps/companion-core/src/audio.rs:422-473 | every sample that left a buffer was mixed or dropped, once |
| Playback.RingFits | apps/companion-core/src/audio.rs:449-450 | for every rate the most the ring can hold, target - 1 + ceil(rate/50), is within the hard cap |
| Playback.Mixer.AddFrame | apps/companion-core/src/audio.rs:460-488 | one mixed frame is resampled and appended; the ring stays within its bound, and played plus buffered is all that was mixed, in order, so nothing is ever dropped |
| Playback.Mixer.Refill | apps/companion-core/src/audio.rs:456-489 | a refill with nothing played meanwhile reaches the target within four frames (nine below 50 Hz) |
| Playback.Mixer.Play | apps/companion-core/src/audio.rs:159-164 | the device gets the buffered samples in order, then silence |
| Playback.RefillSuffices | apps/companion-core/src/audio.rs:449-459 | that many frames fill the ring from empty, at any phase of the resampler |
| SessionStore.CtEq | server/init/src/sessions.rs:63-72 | the comparison that accumulates differences is true exactly on equal sequences |
| SessionStore.Sessions.Create | server/init/src/sessions.rs:77-95 | the new session gets a code that was free, and no other session changes |
| SessionStore.Sessions.Join | server/init/src/sessions.rs:98-111 | the answer and the new store are those of the specification |
| SessionStore.Sessions.Reap | server/init/src/sessions.rs:116-129 | the sweep keeps exactly the sessions the rule keeps, and marks those whose room has members |
| SessionStore.StillThere | server/init/src/sessions.rs:77-129 | a session every sweep has spared is stored exactly as its history describes it |
| SessionStore.SurvivesSweepIff | server/init/src/sessions.rs:116-129 | having survived earlier sweeps, a session survives one if and only if it is younger than a day and its room has members or it showed life within five minutes |
| SessionStore.Origin | server/init/src/sessions.rs:77-95 | whatever is stored was created under that code and spared by every sweep since |
| SessionStore.PinLock | server/init/src/sessions.rs:98-111 | a join succeeds if and only if the PIN is equal and fewer than six wrong ones were presented since creation; from the sixth on the code is locked |
| SessionStore.JoinOkIff | server/init/src/sessions.rs:98-111 | the same for any code, over any history: a join succeeds if and only if there is such a session with its PIN right and its lock open, and finds none if and only if none born under the code has been spared since |
| RateLimiting.RateLimiter.Allow | server/init/src/main.rs:101-110 | the counter table and the answer are those of the specification, with the 32-bit wrap |
| RateLimiting.RateLimiter.Prune | server/init/src/main.rs:111-114 | exactly the entries whose window is over are removed |
| RateLimiting.WindowCounted | server/init/src/main.rs:101-114 | in any history, prunes included, an IP's entry holds the start of its latest window and the number of its calls in it, modulo 2^32; without an entry that window is over |
| RateLimiting.AllowedIff | server/init/src/main.rs:100-110 | in any history with a clock that does not go back, a call is let through if and only if the calls its IP has made in its window, itself included and counted modulo 2^32, are at most max; so as long as they are fewer than 2^32, if and only if they are within the limit |
| RateLimiting.SlidingBound | server/init/src/main.rs:101-110 | in any history and any interval of one window's length an IP gets at most 2*max-1 permits for calls with that max, if it makes fewer than 2^32 calls in every such interval |
| RateLimiting.SlidingBoundIsMet | server/init/src/main.rs:101-110 | a history that gets exactly 2*max-1, so the bound cannot be improved |
| RateLimiting.WrapBreaksBound | server/init/src/main.rs:108-109 | with 2^32 + max - 1 calls at one moment, which for max = 1 is 2^32, an IP gets 2*max permits, because the counter wraps to zero |
| RateLimiting.PruningIsTransparent | server/init/src/main.rs:111-114 | prunes with the same window, anywhere, change no answer |
| RateLimiting.OtherIpsDoNotMatter | server/init/src/main.rs:101-110 | the answers to one IP depend on its own calls only |
| EngineLink.LinkAlwaysOk | apps/companion-core/src/lib.rs:316-391 | in every run both halves of the link belong to one connection or are gone, a retry is scheduled exactly while it is down, and the events shown alternate, down first |
| EngineLink.BackoffIs | apps/companion-core/src/lib.rs:366-388 | the wait is min(2^(k+1), 30) after k failures in a row |
| EngineLink.KthFailureWaits | apps/companion-core/src/lib.rs:369-373 | the k-th failure in a row schedules the next attempt that much later, and none comes before |
| EngineLink.AttemptsWhenDue | apps/companion-core/src/lib.rs:366-391 | in every run an attempt is possible exactly from the time on that the history says: two seconds after a loss, at once after a resume by hand while down, min(2^(k+1), 30) seconds after the k-th failure in a row; never while up or stopped |
| EngineLink.StopsForGood | apps/companion-core/src/lib.rs:429 | once the loop has stopped nothing changes any more |
| EngineLink.ConnectionsBeginWithJoin | apps/companion-core/src/lib.rs:342-366 | each connection carries the Join and then exactly the messages that came up while it was current |
| EngineLink.GenerationCounts | apps/companion-core/src/lib.rs:416-420 | the generation shown is one more than the rekeys handled, up to the largest 32-bit number |
| EngineLink.Engine.Handle | apps/companion-core/src/lib.rs:316-478 | one turn of the loop, whatever wakes it, changes the variables by one step of the machine, so they are always those of a run: both halves agree and a retry is scheduled exactly while the link is down |
| Url.UrlHostInvertsPrint | apps/companion-core/src/signaling.rs:28-41 | for any URL printed from parts that can be told apart (userinfo, name or bracketed literal, port, path, query, fragment) the parser returns the host in lower case |
| Url.UrlHostOnlyFromPrint | apps/companion-core/src/signaling.rs:28-41 | conversely, whenever the parser finds a host the URL is such a print, with that host |
| Url.PolicyDependsOnHost | apps/companion-core/src/signaling.rs:51-60 | a URL with a host is accepted if and only if it is secure, or plain with a loopback host |
| Url.AcceptedHasHost | apps/companion-core/src/signaling.rs:51-60 | no URL without a host, and no other scheme, is accepted |
| Url.LowerIs | apps/companion-core/src/signaling.rs:40 | lower case has a small letter for each capital one of the alphabet and every other character as it is |
| Url.TrimIs | apps/companion-core/src/signaling.rs:52 | a trimmed URL is the URL without the white space around it |
| Url.SpaceIsWhite | apps/companion-core/src/signaling.rs:52 | white space is what has the Unicode property of that name |

## Left out

- SessionStore.Sessions.Create: the random draws of a code are a list that holds a free code; the source would draw for ever if none were free.
- RateLimiting.SlidingBound: for histories in which the IP makes fewer than 2^32 calls in every stretch of one window's length; `RateLimiting.AllowedIff` covers the rest. A build with overflow checks would stop at the wrap instead.
- NetworkInvariant.RunInv: speaks of links of clean pairs only; for a link whose end has reconnected the network gives no order between what the old and the new connection still deliver, so `Rejoin.RejoinMatches` is about the two meshes alone.
- Network.NetStep: a client reconnects in one step; what it would send while its link is down is dropped by the source and not part of a run. Every client runs this mesh; one that sends other frames, such as an offer out of turn or a second Join, is met in the results about the server alone (`RoomsProofs`, `RoomsTheorems`), not here.
- NetworkTheorems.RekeyRenewsBothEnds: is about settled states; that a settled state is reached at all depends on the network and is not stated.
- NetworkCounting.OneOfferPerPair: counts all offers only while everybody who joined is still there, because offers to others are counted too.
- DspChain.Normalized: non-finite settings, which the command replaces by defaults, have no real value.
- Playback.Mixer.AddFrame: the soft limiter is an arbitrary function of one sample; mixed sums are unbounded integers, where the source would wrap only with tens of thousands of peers at once.
- Playback.Mixer.Refill: each round of the loop is one atomic step; samples the device takes between the length check and the append only make the ring shorter.
- Floating-point rounding, thread timing and sleep precision.
- Opus encoding and decoding, bitrate, silence suppression and transmission of the frames; the denoiser beyond its block interface.
- The WebRTC library, data channels, chat, badges and bandwidth statistics.
- The order in which participants are shown, and log texts.
- Room-token checking, TURN minting, certificates and random generation.
- HTTP routes, pages, languages and cross-origin rules.
- The serverless mode and the desktop shell.
