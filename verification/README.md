# The NiceChunk Guardian relay, modelled and verified in Dafny

The Guardian is a single-event-loop relay. It seats players in chunk rooms, coalesces their moves, fans events out to an
area of interest, and keeps a persisted manifest of buildings that must not overlap. This project models that server and
proves what its protocol promises, for every input, every run and every interleaving of sockets.

`dafny verify dfyconfig.toml` checks the whole project.

## How it is put together

There are two layers, joined by refinement, and an outside view of both.

* **The abstract machine.** `Session` describes each handler as one atomic step over a value: players, sockets,
  subscriptions and the frames each socket has received. `Tables` holds the invariant of the tables, `View` and `Delivery`
  say what a client makes of its frames, `Runs` carries the invariant through every step, and `Theorems`, `FlushExact`,
  `Dangling`, `Admissions`, `Settled` and `Counters` draw the conclusions for all runs. Opening, HELLO, MOVE, closing and the flush are events of
  their own. Every other message or timer is a `Relay` event: it may send any frames of other types and any error replies
  to any sockets, and touches no table. `Walk` gives runs in full for what does not hold.
* **The server.** `Players`, `Guardian` and `App` are classes whose methods update fields in place, as the C++ does: the
  intrusive room index with swap-with-last removal, the move queue with its two flags, the wrapping id counter, the drain
  and the snapshot loops. `Guardian.GuardianState.model` is a ghost field that says which abstract state the fields
  represent, and every handler of `App.Server` is proved to take exactly the abstract step; the two dig handlers take a
  `Relay` step. `Server.Valid` says that the state is the one a run of the abstract machine reaches by the events handled
  so far, so each theorem about runs is a theorem about what the handlers do to the heap.

* **What is said outside.** Some modules state what the server does once more, from messages, bytes and events, and prove
  that the two agree. `Hearing` spells out which frames each step adds to which inbox; `Messages` says what the records and
  pictures must be from the events of the run alone, and `Acknowledged` what a client works out from its acknowledgement.
  `DigWords` and `DigHeard` do the same for digs, `UpsertRule` and `FileRule` for buildings in blocks, slots and revisions,
  and `Layout` for the place of each field in each message.

Beside them stand `Chunks` and `AoiCount` (geometry), `Ints` and `Wire` (little-endian codecs and frames), `RateLimit`,
`Digs` and `DigBatch` (digs), and `Records`, `Buildings`, `ManifestFile`, `ManifestStore`, `ManifestReply` and
`ManifestHandler` (buildings).

## What the model assumes

* `Chunks.Validated` is what `validate_config` checks (Guardian/src/config.cpp:292-303). `Chunks.Deployable` adds two
  conditions that the code needs and nobody checks: an area-of-interest radius of at most 127, because offsets are stored
  as `int8_t` (Guardian/src/aoi.cpp:12), and a service square that still fits `int32_t` when widened by that radius,
  because offsets are added in 32 bits (Guardian/src/guardian.cpp:584-585).
* Delivery is reliable and in order for each socket, and one handler runs at a time. `ws->publish` excludes the sender;
  `app.publish` does not.
* The iteration order of the hash tables is chosen by the environment: the snapshot order and the topic order of a flush
  are parameters of an event, restricted only to orders that the table can have.
* The clock is a parameter, and may run backwards except where a bound over traces says otherwise. SHA-256 and the two
  wallet digests are arbitrary functions.

## What turned out not to hold

* **A viewer that changes chunk.** It gets no snapshot of its new surroundings and keeps what it knew of the old ones
  (Guardian/src/app.cpp:245-281). `Theorems.ChunkChangeExact` says exactly when its picture is still right: when no posed
  player stands in one of the two squares and not in the other. `Walk.ChunkChangeMisses` is a run of six
  events from the first connection on, on two sockets, after which it is not. The view theorem is therefore about viewers
  for which this held at each change of chunk since HELLO, which includes those that have not changed chunk.
* **Offsets beyond 127.** `Chunks.AoiOffsetsExact` shows that the stored offset table lists the square if and only if the
  radius is at most 127; accepted configurations reach 255.
* **Pointers in the move queue.** The server destroys a player whose socket closes while its move still waits, and the
  next flush reads a flag of it (Guardian/src/guardian.cpp:368-373 and 599). `Dangling.StepDangles` says exactly when: a
  step leaves the queue with a player that is neither active nor retired if and only if it was there before, or the step
  is the close of that player's socket while the player is queued; and a flush leaves none. `Walk.EntryOutlives` is a run
  of six events that ends so.
* **A batch of digs is not single digs to the limiter.** It costs one call, single digs one each.
  `Digs.BatchIsLimitedSingles` says exactly when the two still come to the same, and `Digs.RoomForAll` when digs sent at
  one instant are all admitted. Whatever the limit and the window, `Digs.BatchSaysOther` gives for
  any number of digs that no longer fits the window, up to 255, an accepted batch of that many that differs;
  `Walk.ElevenDigs` is the case of eleven digs at a limit of ten.
* **"Per second".** The limiter admits up to twice its limit in 1000 ms. `RateLimit.TraceBound` proves the bound that does
  hold, and `Admissions.MovesPerPlayer` carries it to the MOVEs of one player over whole runs; `RateLimit.TwiceTheLimit`
  proves that it is reached, and `RateLimit.PerSecondLiteral` that the literal reading holds only for a limit of zero.

* **A first request at revision 0.** A client that has nothing asks with revision 0. If the server is at revision 0 itself
  but has records, which only a file can bring about, it answers with the digest and the client learns of no building:
  `ManifestReply.FirstRequest` says that this is the one case. Chunks of size 0, which `validate_config` accepts, leave a
  region without blocks; `UpsertRule.Reaches` says which buildings are then taken.

## Model

| member | source | states |
|---|---|---|
| Theorems.ViewConsistency | Guardian/src/app.cpp:165-281 | in every run, folding the snapshot, JOIN, LEAVE and MOVE_BATCH frames that an active viewer has received gives exactly the other active posed players in its area of interest, each under its id with its wallet and digests, in its current chunk, and with its current pose unless a move of it is still queued, as long as every chunk change of the viewer since HELLO kept the same posed players in range |
| Theorems.FlushConverges | Guardian/src/guardian.cpp:593-624 | right after any flush in any run, such a viewer's picture has every visible player's current chunk and pose |
| Messages.RecordsAreTold | Guardian/src/app.cpp:149-285 | in every run, for every player ever admitted, the record holds what the events say: the wallet of its HELLO, and the chunk and pose of its last accepted MOVE, or the chunk of its HELLO and no pose if there was none |
| Messages.ShownAsTold | Guardian/src/app.cpp:165-281 | in every run, such a viewer shows, of the other active players, exactly those that have had a MOVE accepted and are in range by what the two have said, each with the wallet of its HELLO, the local coordinates of its last accepted MOVE, and the pose of that MOVE unless it is still queued |
| Messages.FlushShowsTold | Guardian/src/guardian.cpp:593-624 | right after a flush the pose shown is that of the last accepted MOVE |
| Settled.SettledExactly | Guardian/src/app.cpp:241-281 | in every run, the viewers that these theorems speak of are exactly those each of whose accepted MOVEs led to a chunk with the same other posed players in range as the chunk before |
| Hearing.StepTells | Guardian/src/app.cpp:149-285 | what each step adds to the inbox of each socket without a player or with an active one, frame by frame and from the bytes of the message: error codes and the order of the refusals, the acknowledgement and the snapshot, who hears which LEAVE with which reason and which JOIN with which coordinates and pose, and the batches of a flush |
| Hearing.HelloAnswers | Guardian/src/app.cpp:149-214 | a HELLO is answered as that reference says, and gives the socket a player exactly if the answer is not an error |
| Acknowledged.Acknowledges | Guardian/src/app.cpp:185-193 | in every run, of frames about players an active player's socket has heard first one acknowledgement, with the id under which the table holds the player, the centre, radii and version of the server, and after it only JOIN, LEAVE and MOVE_BATCH |
| Acknowledged.LocatesOthers | Guardian/src/app.cpp:185-193 | with the centre and radius of its acknowledgement a viewer works out the chunk of each player it shows |
| FlushExact.FlushIsExact | Guardian/src/guardian.cpp:598-623 | in every run, whatever the order of topics, what the next flush step delivers to a socket on the topic of a served chunk parses to the current move of each queued connected player in range, each once, in queue order, 1 to 255 per frame, under the new tick |
| Theorems.WireFaithful | Guardian/src/protocol.cpp:226-391 | a client that parses the encoded payloads gets the frames the theorems speak of |
| Theorems.ChunkChangeExact | Guardian/src/app.cpp:241-281 | after a viewer's own chunk change its picture is right if and only if the two areas of interest hold the same posed players |
| Theorems.ChunkChangeUntold | Guardian/src/app.cpp:217-281 | the same condition for the picture held by the socket after the MOVE step, in any world that satisfies the invariant, whenever the handler accepts the message |
| Walk.ChunkChangeMisses | Guardian/src/app.cpp:245-281 | a run from the start in which a viewer walks up to a neighbour, is never told, and so has a picture that is not exact |
| Theorems.SessionConservation | Guardian/src/app.cpp:149-182 | in every run, sockets that hold a player pair off with active and retired players; active wallets are distinct; no socket means no player; every accepted move was superseded, sent, skipped because its player had disconnected, or waits; the waiting ones are those the next flush sends and those of disconnected players, and an active player has a move to send exactly if it is queued, so no accepted move of a connected player is lost |
| Theorems.NeverBack | Guardian/src/guardian.cpp:368-413 | once a player is retired or removed it is never active again in any continuation, even if its id is used again |
| Counters.StepLedger | Guardian/src/guardian.cpp:471-488 | what each step does to tick, queue and counters: a flush sends the moves of the connected players in the queue, skips the others, empties it and advances the tick; an accepted move joins the queue, or replaces the one that waits and counts it as dropped |
| Counters.NumbersOfRun | Guardian/src/guardian.cpp:119-126 | in every run the tick is the number of flushes modulo 2^16, and a HELLO that is accepted gives out the lowest free number above the last one given out, or else the lowest free one, the first being 1 |
| Dangling.CloseDangles | Guardian/src/guardian.cpp:368-387 | a close leaves the queue with a player that is neither active nor retired if and only if the player that goes was in it (for an active one: if and only if its move was queued), and a flush clears all of them |
| Dangling.StepDangles | Guardian/src/guardian.cpp:368-387 | after any step of any kind, the queue names a given player that is gone if and only if the step is not a flush and it did before, or the step closes that player's socket while the player is queued |
| Walk.EntryOutlives | Guardian/src/app.cpp:677-697 | a run of six events from the start ends with such a name in the queue |
| Theorems.EveryRun | Guardian/src/app.cpp:606-697 | the invariant (tables in order, sockets paired with players, subscriptions and pictures right) holds in every world that any sequence of opens, HELLOs, MOVEs, closes, flushes and other deliveries reaches |
| Runs.StepKeeps | Guardian/src/app.cpp:606-697 | each of these events keeps that invariant; the messages that are not modelled one by one are deliveries of frames that are not about players |
| Runs.HelloKeeps | Guardian/src/app.cpp:149-214 | HELLO keeps it, through duplicate-wallet retirement, refusal and admission |
| Runs.MoveKeeps | Guardian/src/app.cpp:217-285 | MOVE keeps it, through rate limiting, refusal, chunk transfer and first pose |
| Runs.CloseKeeps | Guardian/src/app.cpp:677-697 | closing keeps it, for active and for retired players |
| Runs.FlushKeeps | Guardian/src/guardian.cpp:593-624 | a flush keeps it, whatever the order in which topics are sent |
| Runs.RelayKeeps | Guardian/src/app.cpp:641-676 | whatever frames of other types and error replies are sent to whatever sockets, no picture and no table changes |
| View.SnapshotExact | Guardian/src/guardian.cpp:626-638 | folding the JOIN frames of a snapshot gives an exact picture |
| View.ExactAfterMove | Guardian/src/app.cpp:241-281 | the frames a moving player causes turn an exact picture of another viewer into an exact one |
| View.ExactAfterFlush | Guardian/src/guardian.cpp:593-624 | the batched items of a viewer's topic turn an exact picture of the state before the flush into an exact one of the state after it |
| Delivery.ReceivedAoi | Guardian/src/guardian.cpp:582-591 | a socket on a chunk's topic gets a fan-out once if the chunk is in range and the socket is not excluded, else nothing |
| Delivery.ReceivedFlush | Guardian/src/guardian.cpp:611-623 | whatever the order of topics, a socket on one topic gets exactly that topic's frames |
| Delivery.CutExact | Guardian/src/guardian.cpp:611-623 | cutting loses, repeats and reorders nothing; every frame has 255 items but the last, which has 1 to 255 |
| Delivery.FoldCut | Guardian/src/guardian.cpp:611-623 | cutting a batch into frames makes no difference to a client |
| Delivery.OthersUnseen | Guardian/src/app.cpp:193-210 | a client makes the same picture of its frames with all frames of other types taken out, wherever among the frames about players they stood |
| Tables.AllocationTotal | Guardian/src/guardian.cpp:119-135 | below capacity, creation fails only for a chunk out of range, and the id is the first free one in cyclic order, not zero, not in use |
| Tables.IdsGoUp | Guardian/src/guardian.cpp:119-135 | the new id is the lowest free one at or above the counter, or else the lowest free one, and the counter stands behind it |
| Tables.FirstFreeExists | Guardian/src/guardian.cpp:119-126 | with fewer than 65535 ids in use the wrapping scan finds one |
| Tables.CreateKeeps | Guardian/src/guardian.cpp:128-154 | creation keeps the tables, the wallet rule and the queue in order |
| Tables.DisconnectKeeps | Guardian/src/guardian.cpp:368-413 | removal and retirement keep them, and the table shrinks by one |
| Tables.MovedKeeps | Guardian/src/guardian.cpp:459-488 | an accepted move keeps them: flags match the queue, and the pending item is where the player is |
| Tables.FlushedQueue | Guardian/src/guardian.cpp:598-609 | after a drain no connected player has a pending move; flags, queue and the conservation law are in order, with as many moves counted sent as there were entries of connected players and as many counted skipped as there were of disconnected ones |
| Tables.CountsPartition | Guardian/src/guardian.cpp:598-600 | of any part of the queue, the entries that the drain sends and the entries of disconnected players are all there is: it passes over nobody else |
| App.Server.HandleOpen | Guardian/src/app.cpp:606-612 | the handler takes the abstract step; the two global topics carry only frames of `Relay` events |
| App.Server.HandleHello | Guardian/src/app.cpp:149-214 | the handler takes the abstract HELLO step, with the snapshot order its loops produced, which is a possible one; a new player has used no dig number; the message counter grows by the topics around a retired player; the digest, equipment and identity frames sent between and after are a separate `Relay` event, whose place makes no difference by Delivery.OthersUnseen |
| App.Server.HandleMove | Guardian/src/app.cpp:217-285 | the handler takes the abstract MOVE step: frames about players, subscriptions, limiter and queue; the message counter grows by the topics left and joined; the equipment frame is a separate `Relay` event |
| App.Server.HandleClose | Guardian/src/app.cpp:677-697 | the handler takes the abstract close step, and the message counter grows by the topics around an active player |
| App.Server.HandleFlush | Guardian/src/app.cpp:725-732 | the ticker takes the abstract flush step, with the topic order its loop produced; the counters of messages, batches and items grow by what was sent |
| App.Server.HandleDig | Guardian/src/app.cpp:288-329 | what the handler does and sends is what the bytes of the message say: DigWords.DigSays for the player of the socket and its place in the tables, and nothing to any other player's limiter or numbers; the dig counter and the message counter grow by what was accepted and sent; a refusal goes to the sender alone, an accepted dig to everybody else on the topics; every theorem about runs still holds of the server |
| App.Server.HandleDigBatch | Guardian/src/app.cpp:332-404 | the same for a batch, with DigWords.BatchSays, one frame for each topic and all its digs counted |
| App.Server.ShowsEveryone | Guardian/src/app.cpp:165-281 | the view theorem for the server object: after any calls of its handlers, a client that has kept its surroundings sees what the tables say |
| App.Server.EmptyWhenClosed | Guardian/src/app.cpp:677-697 | after any calls of its handlers, if every socket has closed then the player table, the retired list and the room map are empty |
| Guardian.GuardianState.AllocatePlayerId | Guardian/src/guardian.cpp:119-126 | the loop returns the first free id of the cycle and leaves the counter behind it, or zero when none is free |
| Guardian.GuardianState.CreatePlayer | Guardian/src/guardian.cpp:128-154 | the tables and rooms afterwards represent the created state, or nothing changed |
| Guardian.GuardianState.RemovePlayer | Guardian/src/guardian.cpp:368-373 | the player leaves room and table; every other seat stays right |
| Guardian.GuardianState.RetirePlayersWithWallet | Guardian/src/guardian.cpp:389-413 | exactly the holder of the wallet is retired and announced, and nobody for an empty wallet |
| Guardian.GuardianState.ReleaseRetiredPlayer | Guardian/src/guardian.cpp:381-387 | the first occurrence in the retired list goes, the rest keeps its order |
| Guardian.GuardianState.GetOrCreateRoom | Guardian/src/guardian.cpp:415-429 | there is one room for each chunk that needs one, under the chunk's key |
| Guardian.GuardianState.AddPlayerToRoom | Guardian/src/guardian.cpp:436-440 | the room index is in order with one more seat |
| Guardian.GuardianState.RemovePlayerFromRoom | Guardian/src/guardian.cpp:442-457 | despite swap-with-last and room deletion, every remaining player is in one room at its stored slot and no room is empty |
| Guardian.GuardianState.SeatsVacated | Guardian/src/guardian.cpp:442-457 | the index invariant before the removal gives it after, from the change of pointers alone |
| Guardian.GuardianState.MovePlayerChunk | Guardian/src/guardian.cpp:459-469 | accepted exactly for served chunks; only the chunk of the player changes |
| Guardian.GuardianState.UpdatePlayerMove | Guardian/src/guardian.cpp:471-488 | the latest move is pending, and it is queued or counted as dropped |
| Updates.MovedInSteps | Guardian/src/guardian.cpp:459-488 | transfer, update and count together are the abstract move |
| Guardian.GuardianState.PublishToAoi | Guardian/src/guardian.cpp:582-591 | the loop publishes to the topics of the clipped square, and counts each |
| Guardian.GuardianState.FlushPendingMoves | Guardian/src/guardian.cpp:593-624 | drain, batch table and cutting loops give the abstract flush in some order of topics; the two counters grow by the frames and items sent |
| Guardian.GuardianState.CollectSnapshot | Guardian/src/guardian.cpp:626-666 | the room-indexed walk lists what a brute-force filter over all seated players would: posed (with equipment, with identity), in range, each once, the viewer only with echo |
| Guardian.GuardianState.CollectJoins | Guardian/src/guardian.cpp:626-638 | the JOIN frames are those of the brute-force list over all players ever created |
| Guardian.GuardianState.RoomsHoldEveryone | Guardian/src/guardian.cpp:415-457 | room sizes add up to the number of players, both metrics equal the map sizes, and no player means no room |
| Guardian.CollectedIsSnapshot | Guardian/src/app.cpp:196-200 | for a newcomer without a pose the list is the abstract snapshot, whatever the echo setting |
| DigWords.DigIsTold | Guardian/src/guardian.cpp:548-560 | the frames of an accepted dig go once to each served chunk in range of the chunk that the dig names, and each parses to the number, local chunk, block and action of the dig, under the player's id and the server's tick |
| DigWords.EventsRepeat | Guardian/src/app.cpp:354-391 | the events on the topic of a chunk repeat, field by field and in order, those digs of a batch whose chunk is in range of it |
| DigWords.BatchRefusal | Guardian/src/app.cpp:356-378 | a batch is refused for its first refused dig: number repeated, or chunk not served or more than two away; that number is then the last one used; without such a dig it is accepted |
| DigWords.DigsFromBytes | Guardian/src/protocol.cpp:124-146 | which bytes are a batch, and the digs they hold, ten bytes each |
| DigHeard.DigIsHeard | Guardian/src/app.cpp:322-327 | an accepted dig is heard, once and as it was said, by the active players in range of it and not by the digger |
| DigHeard.BatchIsHeard | Guardian/src/app.cpp:380-402 | of an accepted batch each other active player hears, in one frame and in order, exactly the digs that it is in range of |
| DigHeard.RefusalIsHeard | Guardian/src/app.cpp:300-321 | a refusal is heard by its sender only |
| Digs.BatchRefinesSingles | Guardian/src/app.cpp:354-401 | the limiter aside, on every topic an accepted batch carries the same events in the same order as the same digs sent one at a time |
| Digs.BatchIsLimitedSingles | Guardian/src/app.cpp:345-401 | with the limiter: an accepted batch carries on every topic what the same digs sent one at a time, at any times, would have carried, if and only if the limiter would have admitted every one of them |
| Digs.RoomForAll | Guardian/src/player.cpp:5-13 | digs sent one at a time at one instant are all admitted if and only if their number fits what the window has left |
| Digs.BatchSaysOther | Guardian/src/app.cpp:345-401 | for every limit, sender and clock at which the limiter admits a message, and every number of digs up to 255 that the window does not hold, there is a batch of that many digs that is accepted and does not carry what the same digs sent one at a time would |
| Walk.ElevenDigs | Guardian/src/app.cpp:345-401 | the case of eleven digs, a limit of ten and an empty window |
| Digs.AcceptedIff | Guardian/src/app.cpp:354-378 | a batch passes if and only if its first number is new, neighbours differ, and every dig is served and within two chunks |
| DigBatch.HandleDigBatch | Guardian/src/app.cpp:332-404 | DigWords.BatchSays: from the bytes, which refusal is sent and when, the limiter window and the sequence number left behind (a refused batch uses up the numbers it has read), and for an accepted one a frame to each topic in range, which parses to the digs in range of it, in order; the dig counter and the message counter; a refused batch publishes nothing |
| DigBatch.HandleDig | Guardian/src/app.cpp:288-329 | DigWords.DigSays: from the bytes, which refusal is sent and when, the limiter window and the sequence number left behind, and for an accepted dig a frame to each topic in range, which parses to the dig repeated; the dig counter and the message counter |
| DigBatch.CheckDigs | Guardian/src/app.cpp:356-378 | the loop stops at the first refusal and has recorded the numbers up to it |
| DigBatch.BatchAround | Guardian/src/app.cpp:380-391 | the handler's own double loop over the square adds the event once to each topic that publish_to_aoi would reach |
| Buildings.Reachable | Guardian/src/guardian.cpp:215-246 | through any upserts, records stay valid and under their ids, the count within the limit, the hash the digest of the id-ordered records, and no two rectangles share a block |
| Buildings.UpsertKeeps | Guardian/src/guardian.cpp:215-246 | one upsert keeps that invariant |
| Buildings.RevisionIsCacheKey | Guardian/src/app.cpp:494-506 | over fewer than 2^64 - 1 upserts, an equal revision means an equal manifest |
| Buildings.RevisionCounts | Guardian/src/guardian.cpp:215-246 | the revision advances once for each success, and no success leaves the manifest as it was |
| Buildings.AdvanceCycles | Guardian/src/guardian.cpp:240-243 | advancing cycles through 1 to 2^64 - 1, in closed form |
| Buildings.RecordsRise | Guardian/src/guardian.cpp:82-87 | while an id stays present its record changes only to a newer one, and its slot never falls |
| UpsertRule.UpsertDoes | Guardian/src/guardian.cpp:215-246 | a record is taken if and only if it removes or updates a building with a lower slot (or, without slots, a lower revision), or is a new one within the limit, and if it is no removal is sound and stands on no block of another; then it stands under its id, or the id is gone, all other ids are unchanged and the revision advances; otherwise nothing changes |
| UpsertRule.SlotsRise | Guardian/src/guardian.cpp:82-87 | while an id stays present over any upserts its slot never falls and rises at each change once it is not 0; while the slot is 0 the revision rises at each change |
| UpsertRule.SoundIsValid | Guardian/src/guardian.cpp:248-265 | a record is valid if and only if it is live, at least two by two, within 32-bit coordinates, has a content hash exactly if it has a revision, and stands on some block of the 100 by 100 chunks that hold the centre |
| Records.NewerIsStrictWeakOrder | Guardian/src/guardian.cpp:82-87 | the newer relation is irreflexive and transitive, and so is being tied; it follows the slots upwards, and without slots the revisions |
| Records.OverlapIsSharedBlock | Guardian/src/guardian.cpp:73-80 | the interval test is true if and only if some integer block lies in both rectangles |
| Records.FloorDivIsFloor | Guardian/src/guardian.cpp:40-44 | truncating division with its correction is the floor |
| Records.RecordRoundTrip | Guardian/src/protocol.cpp:433-444 | a record is recovered from its bytes; the short form loses the slot and nothing else |
| Records.RecordCanonical | Guardian/src/protocol.cpp:185-199 | what decodes from 56 bytes encodes to the same bytes |
| Records.AnnounceRoundTrip | Guardian/src/protocol.cpp:482-488 | an announcement is recovered from its bytes |
| Records.AnnounceCanonical | Guardian/src/protocol.cpp:207-211 | an accepted announcement has one encoding if and only if it is full size |
| ManifestFile.LoadedOk | Guardian/src/guardian.cpp:293-354 | whatever the bytes, the server starts with a manifest in order |
| ManifestFile.FileRoundTrip | Guardian/src/guardian.cpp:193-209 | any manifest in order is restored from its file: version 3 exactly, version 2 with the revision advanced, version 1 with slots lost too |
| ManifestFile.MigrationSettles | Guardian/src/guardian.cpp:337-353 | the file re-saved after a migration loads as it is; the revision was advanced once |
| ManifestFile.EveryManifest | Guardian/src/guardian.cpp:215-354 | from any bytes and through any upserts, the manifest is in order, disjoint, and restored by its own file |
| FileRule.ReadIsFile | Guardian/src/guardian.cpp:293-354 | bytes that load are a header of one of the three versions, for the region of this server, and then sound records within the limit, under distinct ids, on disjoint ground |
| FileRule.FileLoads | Guardian/src/guardian.cpp:318-353 | all such bytes load: the manifest has exactly those records, the revision of the header (advanced once for an old version) and the digest of its own records, whatever hash the header has |
| FileRule.OtherRefused | Guardian/src/guardian.cpp:293-317 | any other bytes give the empty manifest at revision 0 |
| ManifestStore.BuildingManifest.constructor | Guardian/src/guardian.cpp:293-354 | the manifest is in order, and a server started again from what is now on disk has the same one |
| ManifestStore.BuildingManifest.Load | Guardian/src/guardian.cpp:293-354 | a file is installed if and only if header, size and all records are good; otherwise the manifest is empty at revision 0; only older versions are re-saved |
| ManifestStore.BuildingManifest.ReadIndex | Guardian/src/guardian.cpp:318-336 | despite clear-and-break and the overwriting insert, the index has all records if and only if they are valid, under distinct ids and disjoint |
| ManifestStore.BuildingManifest.Upsert | Guardian/src/guardian.cpp:215-246 | accepted exactly when the rule of UpsertRule.Takes allows; a refusal changes nothing, not even the file; a server started again from disk has the same manifest |
| ManifestStore.BuildingManifest.RecomputeHash | Guardian/src/guardian.cpp:267-291 | the hash is the digest of the packed records in id order |
| ManifestStore.BuildingManifest.Binary | Guardian/src/guardian.cpp:193-209 | the loop writes the version 3 file of the state |
| ManifestStore.BuildingManifest.Pages | Guardian/src/guardian.cpp:166-191 | the loop makes the pages that ManifestReply.PageParses and the paging theorems are about |
| ManifestStore.PagesAreTheFile | Guardian/src/guardian.cpp:166-209 | the record bytes of all pages, in order, are the body of the file after its 48-byte header |
| ManifestStore.PageCountExact | Guardian/src/guardian.cpp:173-174 | within the configured limit the 65535 clamp is never reached and the pages have room for all |
| ManifestStore.PagesFull | Guardian/src/guardian.cpp:178-182 | all pages but the last hold 128 records, and a page is empty only if there are none |
| ManifestReply.PageParses | Guardian/src/protocol.cpp:459-480 | a client reads from page p its number, the page count, the total, the region of the centre, revision and hash of the manifest, and its slice of the records |
| ManifestReply.DigestParses | Guardian/src/protocol.cpp:446-457 | a client reads from the digest region, revision, total and hash of the manifest |
| ManifestReply.CopyCatchesUp | Guardian/src/app.cpp:494-506 | a client that keeps the records, revision and hash it has read, and was in step with the manifest some upserts ago, is in step again after one request with the revision it has, whether it gets the digest or pages |
| ManifestReply.CopyFollows | Guardian/src/app.cpp:494-506 | however the upserts fall between its requests, it is in step after each of them, and the hash it has read is the digest of the records it has |
| ManifestReply.FirstRequest | Guardian/src/app.cpp:494-506 | a client that has nothing is in step after its first request if and only if the server is not at revision 0 with records |
| ManifestReply.Answer | Guardian/src/app.cpp:494-506 | for an active player with a well-formed request, the choice of the reply: the digest, or every page, as the abstract reply says |
| ManifestHandler.HandleRequest | Guardian/src/app.cpp:483-508 | a socket without an active player is refused, a malformed request too, and otherwise the abstract reply is sent; the message counter grows by the frames sent |
| ManifestHandler.RequestRoundTrip | Guardian/src/protocol.cpp:201-205 | a request is recovered from its bytes, and accepted bytes are the encoding of what they decode to |
| RateLimit.Allow | Guardian/src/player.cpp:5-13 | the limiter call, its two counters passed in and out, follows the abstract window, unsigned wrap-around included |
| RateLimit.NthCall | Guardian/src/player.cpp:5-13 | whatever the clock does, a call is admitted if and only if it is among the first limit calls since its window was opened, by the first call 1000 ms or more ahead, modulo 2^64, of the opening before |
| Admissions.AcceptedExactly | Guardian/src/app.cpp:224-240 | in every run a MOVE of an active player is accepted if and only if it names a served chunk and is one of the first moveLimit MOVEs of its window, counted over the events of the run, the first window being opened by the HELLO |
| RateLimit.TraceBound | Guardian/src/player.cpp:5-13 | with a clock that does not run backwards, any 1000 ms admit at most twice the limit, any L ms at most limit times (L / 1000 + 2) |
| Admissions.MovesPerPlayer | Guardian/src/app.cpp:224-228 | over any events with a clock that does not run backwards, the MOVEs of one player that the server accepts in any L ms number at most the limit times (L / 1000 + 2), and at most twice the limit in 1000 ms |
| Admissions.MovesCounted | Guardian/src/app.cpp:283 | in every run the move counter, which the conservation law of Theorems.SessionConservation is about, has grown by exactly the number of MOVEs accepted |
| RateLimit.TwiceTheLimit | Guardian/src/player.cpp:5-13 | for every limit a trace reaches the bound |
| RateLimit.PerSecondLiteral | Guardian/src/player.cpp:5-13 | "at most limit in any second" holds if and only if the limit is zero |
| Chunks.ChunkKeyInjective | Guardian/src/chunk.cpp:5-7 | chunks have equal keys exactly when they are equal |
| Chunks.LocalToGlobalInverts | Guardian/src/guardian.cpp:672-676 | two bytes name a chunk exactly when they are the local coordinates of a served chunk |
| Chunks.LocalIsOffset | Guardian/src/chunk.cpp:19-38 | local coordinates are the distance from the low corner of the service square, and topics are numbered row by row from there |
| Chunks.LocalIndexBijection | Guardian/src/chunk.cpp:35-38 | a served chunk has an index below the squared diameter, from which it is recovered |
| Chunks.LocalIndexOnto | Guardian/src/chunk.cpp:35-38 | every such index belongs to a served chunk |
| Chunks.BuildAoiOffsets | Guardian/src/aoi.cpp:7-16 | the double loop builds the row-by-row offset table, int8_t wrap-around included |
| Chunks.AoiOffsetsExact | Guardian/src/aoi.cpp:12 | the table lists the square, each offset once, if and only if the radius is at most 127 |
| Chunks.AoiTopicsExact | Guardian/src/guardian.cpp:582-591 | a fan-out reaches the topic of a served chunk, once, if and only if the chunk is in range |
| AoiCount.FanOutCount | Guardian/src/guardian.cpp:582-591 | the number of topics reached is the product of the clipped side lengths |
| Wire.HelloRoundTrip | Guardian/src/protocol.cpp:84-94 | HELLO is recovered from its bytes if and only if its version is the supported one |
| Wire.HelloCanonical | Guardian/src/protocol.cpp:213-224 | accepted HELLO bytes are the encoding of what they decode to |
| Wire.MoveRoundTrip | Guardian/src/protocol.cpp:96-108 | MOVE is recovered from its bytes, signed pitch included |
| Wire.MoveCanonical | Guardian/src/protocol.cpp:258-271 | accepted MOVE bytes are the encoding of what they decode to |
| Wire.DigRoundTrip | Guardian/src/protocol.cpp:110-122 | DIG is recovered from its bytes |
| Wire.DigCanonical | Guardian/src/protocol.cpp:293-306 | accepted DIG bytes are the encoding of what they decode to |
| Wire.DigBatchRoundTrip | Guardian/src/protocol.cpp:324-341 | a list of at most 255 digs survives the wire if and only if it is not empty |
| Wire.DigBatchCanonical | Guardian/src/protocol.cpp:124-146 | accepted DIG_BATCH bytes are the encoding of what they decode to |
| Wire.DecodeDigBatch | Guardian/src/protocol.cpp:124-146 | the loop accepts exactly well-formed batches and reads all their items |
| Wire.EncodeMoveBatch | Guardian/src/protocol.cpp:273-291 | the loop writes the frame that a client parses |
| Wire.DigEventBatchParses | Guardian/src/protocol.cpp:343-361 | a client recovers the events of a batch, player and tick from the header |
| Wire.DigEventParses | Guardian/src/protocol.cpp:308-322 | a client recovers a single dig event from its bytes |
| Wire.FrameParses | Guardian/src/protocol.cpp:226-391 | every frame about players is recovered from its bytes |
| Ints.ReadWrite | Guardian/src/protocol.cpp:9-51 | little-endian numbers are recovered from their bytes |
| Ints.WriteRead | Guardian/src/protocol.cpp:9-51 | bytes are recovered from the number they encode |
| Layout.Digits16 | Guardian/src/protocol.cpp:27-30 | two bytes, the low one first |
| Layout.Digits32 | Guardian/src/protocol.cpp:32-37 | four bytes, the lowest first |
| Layout.Digits64 | Guardian/src/protocol.cpp:39-41 | two halves of four bytes, the low one first |
| Layout.HelloLayout | Guardian/src/protocol.cpp:213-224 | the type byte of HELLO and the place, width and signedness of each of its fields |
| Layout.MoveLayout | Guardian/src/protocol.cpp:258-271 | the same for MOVE |
| Layout.DigLayout | Guardian/src/protocol.cpp:293-306 | the same for DIG |
| Layout.DigBatchLayout | Guardian/src/protocol.cpp:324-341 | the same for each dig of a DIG_BATCH |
| Layout.AckLayout | Guardian/src/protocol.cpp:226-240 | the same for HELLO_ACK |
| Layout.JoinLayout | Guardian/src/protocol.cpp:363-379 | the same for PLAYER_JOIN |
| Layout.LeaveLayout | Guardian/src/protocol.cpp:381-391 | the same for PLAYER_LEAVE |
| Layout.ErrorLayout | Guardian/src/protocol.cpp:242-248 | the same for ERROR |
| Layout.MoveBatchLayout | Guardian/src/protocol.cpp:273-291 | the same for each item of a MOVE_BATCH |
| Layout.DigEventLayout | Guardian/src/protocol.cpp:308-322 | the same for DIG_EVENT |
| Layout.DigEventBatchLayout | Guardian/src/protocol.cpp:343-361 | the same for each event of a DIG_EVENT_BATCH |
| Layout.AnnounceLayout | Guardian/src/protocol.cpp:433-488 | the same for the 56 bytes of a building record and its announcement |
| Layout.RequestLayout | Guardian/src/protocol.cpp:201-205 | the same for a manifest request |
| Layout.DigestLayout | Guardian/src/protocol.cpp:446-457 | the same for the manifest digest |
| Layout.PageHeaderLayout | Guardian/src/protocol.cpp:459-480 | the same for the head of a manifest page |
| Layout.FileHeaderLayout | Guardian/src/guardian.cpp:193-209 | the same for the header of the file, in each version |
| Layout.HashedLayout | Guardian/src/guardian.cpp:267-291 | the bytes that the manifest hash is taken of are all 56 bytes of every record, by ascending id |

## Left out

- uWebSockets, TLS, threads, timers, back-pressure and HTTP: each handler is one atomic step, and no frame is dropped.
- Object lifetime: the model keeps player objects for ever, so reading a queue entry is defined for it; in the code an entry that Dangling.StepDangles calls left behind names a destroyed object until the next flush clears it.
- `close_with_error` is an error frame now and a close event later; in between the model lets the socket send more, which the library does not.
- Subscriptions of retired sockets: nothing is claimed, as retirement does not unsubscribe them.
- The content of chat, identity, equipment, heartbeat and pong frames, and when these, building announcements and digests are sent outside a manifest request: they carry nothing about where players are, and every such delivery is covered by the `Relay` event. Of equipment and identity only the flags are modelled that the two other snapshots filter by; the handlers that set them are not.
- App.Server.HandleOpen: the subscriptions to the heartbeat and manifest topics and the connection counter are not modelled.
- App.Server.HandleHello: the manifest digest before the JOIN frames and the equipment and identity snapshots after them are not part of the step; they are a `Relay` event after it.
- App.Server.HandleMove: the equipment frame that is sent again after a chunk change or a first pose is not part of the step; it is a `Relay` event after it.
- Idle-socket reaping, last-seen times and byte counters.
- The string names of topics: a topic is its number.
- Failed file writes and renames: the file is a byte sequence that a save replaces.
- The HTTP ETag, which is a function of the manifest hash.
- Collisions of SHA-256 and of the wallet digests: the digests are arbitrary functions.
- Configuration parsing, the terminal interface, logging, statistics and the setup wizard.
- Theorems.ViewConsistency: says nothing of a viewer once a chunk change has brought other posed players into range or taken some out of it, because the code tells such a viewer nothing; by Theorems.ChunkChangeUntold its picture is wrong right after such a change.
- Guardian.GuardianState.Disconnect: joins the flag that the close handler clears to the removal that follows it.
- Guardian.GuardianState.CollectSnapshot: one walk with a filter stands for the three loops that differ only in it.
- Counters are unbounded integers.
- Auxiliary history that the program does not store: which sockets have kept their surroundings, how many queue entries were flushed or skipped, and the list of events.
- A dig's sequence number is recorded before the range checks, as in the code, so two relayed digs may carry the same number.
