# Verified models of a patrol robot's host and voice module

This project models four parts of the MechDog patrol robot's software and proves properties of them.

**Path planning** (`Geometry`, `Lattice`, `Grid`, `BestFirst`, `AStar`, `Reach`, `Segment`, `Simplify`, `Inflation`, `Waypoints`,
`Escape`, `Snap`, `Plan`). The weighted A*, the reachability mask and the bounded escape search run over the same legal moves;
A* and the escape search are two instances of one best-first theory with lazy deletion. A finite check of a segment is shown to
decide every point of it. `plan_to` composes all of it. Arithmetic is over exact reals; the square root is a parameter `hyp`
that is only known to be a root (`IsHypot`). From its squares follow the order and triangle laws the proofs use.

**The audio link** (`Wire`, `Decoder`, `Firmware`, `RxRing`, `Playback`, `Capture`, `Worker`, `CaptureLink`, `XiaoMic`). The
host's incremental decoder; the module's interrupt-fed ring with the parser and the playback on top; the microphone path from the
audio callback through the frame queue and over the line to the host's capture state machine; and the buffer of the network
microphone. The interrupt may run before every look the worker takes at the ring, byte by byte, and the audio callback between
the steps of its work on a capture.

**Safety machines** (`Events`, `Escalation`, `Fsm`, `Runtime`, `Projections`, `Commander`, `SendOrder`). The behaviour state
machine, the response level, and the runtime that couples the two, in which each makes a run of its own; the fixed-period sender; and the send lock's three users against the start
of a session, which does not take the lock. Guarantees are over every sequential run, in `SendOrder` over every interleaving of
the steps of the start with those of the lock's users.

**Shared resources and requests** (`LiveClear`, `ReadingSlot`, `NavRequests`). The scan history behind a temporarily cleared
cell; one result slot with three clients; and navigation requests crossing between threads, as a state machine over the program's
lock sections and unlocked accesses.

## What turned out not to hold as documented

- `snap_to_free` is documented to find the nearest free cell within `max_m`. It scans a disc of cells around the point's own
  cell, so from off the centre of a cell it can miss one in range: `Snap.CornerMissed` is an instance. It cannot exactly if the
  cells that the disc leaves out of its bounding square are all out of range (`Snap.SnapCompleteIff`).
- A stop is not undone by a slow start as far as the route goes (`NavRequests.StopIsNotUndone`). The patrol start that a drain
  asks for on a route's or a goal's behalf is not covered: a cancel that lands after the drain's check, from the state machine's hook on
  another thread, is overtaken by it. `NavRequests.PatrolOutlivesStopIff` and `NavRequests.GoalPatrolOutlivesStopIff` give the
  exact condition, `NavRequests.PatrolOutlivesStop` a run. The program gets there from IDLE: a stop on the dashboard applies
  MANUAL_ON and MANUAL_OFF outside the send lock, leaving MANUAL cancels, and the state is IDLE again, from which the patrol starts.
- A repeated scan leaves the cleared cells alone only when it comes verified and on the same map frame
  (`LiveClear.RepeatChangesNothingIff`).
- The network microphone counts an odd excess one byte too high, and removes half a sample, exactly when its buffer bound is
  below one byte (`XiaoMic.RemovalIsWholeIff`); no frame is ever handed out then.
- The stream to the robot is meant to begin with the session's STOP and to rise in number. The start of the session does not hold
  the send lock: the socket is set, then the opening is encoded, then it is stored. A stop that is sent though its line was encoded
  before the opening, or though it looked for the opening before that was stored, goes out first, erases the opening, or falls
  behind it (`SendOrder.StopBeforeOpening`, `SendOrder.StopErasesOpening`, `SendOrder.StopFallsBehindOpening`).
  `SendOrder.Interleaving` shows that nothing else breaks the promise. The opening carries number 1 exactly when nothing was
  encoded before it, and if the socket refuses it it is never sent again (`SendOrder.LostOpeningStaysLost`).
- An alarm that holds the robot is meant to leave STOP as the repeated intent. The one tick whose own time-out raises it leaves the
  standing MOVE of the ALERT it comes to instead (`Runtime.AlarmWithoutStopIff`, `Runtime.AlarmWithoutStop`); the next leaves STOP
  (`Runtime.AlarmStopsByTheNextTick`), and no tick leaves an intent to walk (`Runtime.NoWalkUnderAlarm`).
- The playback client is content when the module reports as many bytes as were sent. That is not enough: nothing was cut short only
  if no underrun was counted, and nothing at all is played if the end is handled while the amplifier still warms up, as it
  is for a recording of a single packet read together with its end (`Playback.ShortRecordingLost`, `Playback.EndWithinWarmUpIsLost`) - stopping the codec discards what
  it holds. `Playback.PlayedIff` and `RxRing.StreamHeard` give the exact condition.
- The host's checks do not tell captures apart. Over a line that drops whole packets, which no decoder counter shows, packets that
  an earlier capture left in it can end up in this one, which the host then calls finished, if this capture's STARTED is lost
  (`Capture.MixedCapture`, `CaptureLink.MixedCaptureUnseen`), and only then (`Capture.StartedIsFresh`).

## Model

| member | source | states |
|---|---|---|
| Geometry.Triangle | host/behavior/planner.py:338 | the triangle law for any root function: the distance A* uses as estimate is a metric |
| AStar.EstimateConsistent | host/behavior/planner.py:332-339 | the straight-line estimate never drops by more than the weight of a legal move, for any non-negative costs |
| AStar.RouteCost | host/behavior/planner.py:332-336 | a route weighs, step by step, the step's length times one plus the cost of the cell it leads to, and just its length without costs |
| AStar.HeapPop | host/behavior/planner.py:307 | the popped entry is a least one and exactly it is removed |
| AStar.TryMove | host/behavior/planner.py:319-339 | one move's tests and updates are exactly the abstract relaxation: bounds, blocked cells, both side cells of a diagonal, weight, strict improvement |
| AStar.Expand | host/behavior/planner.py:318-339 | after the eight moves the search invariant holds again with the new cell settled |
| AStar.AStar | host/behavior/planner.py:287-340 | the result is a legal route of least weight among all legal routes; None exactly when there is none, the goal is blocked or an end is off the map |
| BestFirst.LeastIsCheapest | host/behavior/planner.py:307-317 | a least queued entry of an unexpanded cell carries the true least cost of that cell, though stale entries stay queued |
| BestFirst.ExhaustedReach | host/behavior/planner.py:306-340 | an empty queue means every admissible chain ends in an expanded cell |
| BestFirst.ClosedStays | host/behavior/planner.py:315-335 | an expanded cell is never improved again |
| BestFirst.ImproveKeeps | host/behavior/planner.py:332-339 | one relaxation keeps queue, parents, optimal closed costs and settled neighbours |
| BestFirst.Backtrack | host/behavior/planner.py:309-314 | following the parents gives a legal chain from the start whose cost is the recorded one |
| Reach.ReachableMask | host/behavior/planner.py:464-486 | true at exactly the cells some legal route reaches from the start; all false if the start is blocked or off the map |
| Reach.SearchesAgree | host/behavior/planner.py:464-486 | the mask is true at a cell exactly when A* finds a path to it, for every unblocked start |
| Segment.SegmentClear | host/behavior/planner.py:149-172 | true exactly when all four probes around every crossing time and every middle between neighbouring crossing times are free |
| Segment.CrossingTimes | host/behavior/planner.py:156-163 | the sorted list holds 0, 1 and every grid-line crossing in [0, 1], once |
| Segment.CrossingListed | host/behavior/planner.py:157-162 | a moving coordinate meets a grid line within the segment only at a listed time |
| Segment.NoCrossing | host/behavior/planner.py:157-164 | between two times without a crossing a coordinate stays in every closed cell interval it touches |
| Segment.ClearCovers | host/behavior/planner.py:149-172 | a clear segment is clear in the continuum: at every time in [0, 1] every cell whose closed square meets the point is in the grid and free |
| Segment.SegmentCovers | host/behavior/planner.py:149-172 | the same in world units, for the offset 1e-9 |
| Segment.RoomyIsClear | host/behavior/planner.py:165-172 | conversely the check refuses only segments that come within the offset of a blocked or outside cell |
| Segment.BlockIsClear | host/behavior/planner.py:165-172 | a segment well inside a block of free cells is accepted |
| Simplify.PerpendicularIsDistance | host/behavior/planner.py:382-387 | the cross-product formula is the distance to the nearest point of the line, reached at a point of it |
| Simplify.Worst | host/behavior/planner.py:369-374 | no interior point is farther from the chord than the one returned |
| Simplify.Simplify | host/behavior/planner.py:364-379 | a subsequence with both ends; every dropped point is within eps of the line through the two kept points around it, and every kept point between the ends is the farthest, and farther than eps, from the line through two other kept points |
| Inflation.Dilate | host/behavior/planner.py:224-245 | a cell is set exactly when some set cell lies within the radius, centre to centre, without wrapping at the edges |
| Inflation.Inflate | host/behavior/planner.py:77-111 | blocked exactly when not observed free or within the layer's radius of an obstacle of that layer |
| Inflation.InflatedClearance | host/behavior/planner.py:98-110 | an unblocked cell's centre keeps more than the soft clearance, or the full one if that is less, from every obstacle, and the full clearance from hard ones |
| Inflation.BlockedForCause | host/behavior/planner.py:98-110 | conversely a cell is blocked only if it was not seen free or an obstacle is within the layer's radius rounded up to cells, and what was not seen free is blocked |
| Inflation.LayersAre | host/behavior/planner.py:98-110 | obstacles are the cells from the occupied threshold up, hard ones from theirs, soft ones the obstacles that are not hard |
| Inflation.ReachIsTight | host/behavior/planner.py:101-108 | the rounding adds less than a cell |
| Inflation.BodyCollisionMask | host/behavior/planner.py:114-146 | refused unless 0 < radius <= clearance; set exactly where a body centred somewhere in the cell could reach an unsafe or outside cell |
| Inflation.BodyClearAlong | host/behavior/planner.py:114-172 | along every segment the check accepts on the body mask, every unsafe point is at least the body radius (less a nanometre) away at every moment |
| Escape.EscapeStart | host/behavior/planner.py:175-221 | the connector starts at the pose, every hop is body-clear, its end is planning-free; it follows a least-cost body-legal route to the nearest exit, and None means stuck or no exit within the limit |
| Escape.RouteHopsClear | host/behavior/planner.py:204-216 | consecutive centres of a legal route pass the segment check |
| Escape.DedupeHops | host/behavior/planner.py:202-203 | dropping repeated points keeps all hops clear |
| Escape.NoneTwice | host/behavior/planner.py:202-203 | it has the same points and none next to itself |
| Snap.SnapToFree | host/behavior/planner.py:489-536 | the point itself if it is clear and reachable, else the centre of a nearest scanned reachable free cell within the range, else none |
| Snap.SnapCompleteIff | host/behavior/planner.py:496-533 | the scan finds the nearest of all candidates on every map exactly when the finitely many cells of its bounding square that the disc leaves out are out of range |
| Snap.SquareCovers | host/behavior/planner.py:515-519 | every cell centre within the range lies in the square the scan runs over |
| Snap.CentreScanCovers | host/behavior/planner.py:515-530 | from a cell centre that test succeeds, for any range |
| Snap.CornerMissed | host/behavior/planner.py:515-533 | off centre it need not: the only free cell, 0.85 away with range 1, is not looked at |
| Waypoints.CostWaypoints | host/behavior/planner.py:406-429 | both ends stay, the result is a subsequence, every merged hop is clear, the total weighted length is at most 1.02 times the input's, and from each survivor the line goes on to the farthest of the next 30 points it may be merged to |
| Waypoints.UniformCost | host/behavior/planner.py:390-403 | over ground that costs the same everywhere the weighted length is the length raised by that cost |
| Waypoints.ClearIsFinite | host/behavior/planner.py:390-403 | a clear segment's sampled cells are all on the map, so its weighted length is finite |
| Plan.Polyline | host/behavior/planner.py:600-609 | the simplified line if all its hops are clear, else the detailed one if its are, else none; it joins start and goal, and none needs an end within the probe offset of a grid line |
| Plan.DefaultIsBodyMask | host/behavior/planner.py:566-568 | so the whole body is safe along a connector checked against that mask |
| Plan.FindStart | host/behavior/planner.py:561-575 | the start itself if clear, else the end of the connector to the nearest exit; refused only when there is no connector |
| Plan.FindGoal | host/behavior/planner.py:576-581 | the goal if clear and reachable, else the nearest scanned reachable cell centre, else lost because there is none |
| Plan.Merge | host/behavior/planner.py:610-611 | merging keeps ends and clear hops, drops only points of the line, stays within two per cent, and merges all that may be merged |
| Plan.NotShorterThanStraight | host/behavior/planner.py:615-618 | the reported length is at least the straight-line distance |
| Plan.LengthJoins | host/behavior/planner.py:615-618 | the length of a hop is the distance of its ends, and lines joined at a point add up |
| Plan.DefaultBody | host/behavior/planner.py:566-568 | without a given mask: blocked exactly where the body could reach an unsafe cell or the planning mask has a block that inflation does not explain |
| Plan.Assemble | host/behavior/planner.py:612-624 | the connector goes in front; hops up to its end are body-clear, the rest planning-clear; length and moves are those of the line |
| Plan.PlanTo | host/behavior/planner.py:539-624 | every outcome is explained: a plan starts at the raw start, leads over the nearest exit if needed, follows a cheapest route to the chosen goal, is drawn, merged and drivable; every refusal has its own true reason; the A* failure refusal cannot happen, and no path means start or goal lies within the probe offset of a grid line |
| Wire.HeaderFields | experiments/wonderecho-audio/protocol.py:12-13 | every header field is read back from the little-endian layout |
| Wire.KnownBytes | experiments/wonderecho-audio/test_stream_client.py:153-154 | the bytes of the start command, and of a short audio packet with checksum and size |
| Decoder.NextStable | experiments/wonderecho-audio/protocol.py:65-89 | a decision about the front of the buffer does not depend on bytes still to come |
| Decoder.StaleIsDropped | experiments/wonderecho-audio/protocol.py:52-65 | a partial packet that waited for the idle time is dropped and counted before the new bytes are read, and no other |
| Decoder.ScanSplits | experiments/wonderecho-audio/protocol.py:52-90 | reading a then b after the rest of a equals reading a + b: packets, rest and all counts |
| Decoder.RunIsOneScan | experiments/wonderecho-audio/protocol.py:52-90 | any timely session of feeds equals one scan of the whole stream |
| Decoder.ChunkingInvariance | experiments/wonderecho-audio/protocol.py:52-90 | two ways of cutting the same bytes give the same packets, buffer and counts |
| Decoder.RoundTrip | experiments/wonderecho-audio/protocol.py:73-89 | any sequence of encoded packets is read back as itself, with no discards, errors or rest |
| Decoder.Resync | experiments/wonderecho-audio/protocol.py:66-72 | after any prefix without a frame mark exactly that prefix is discarded and every packet read |
| Decoder.NoMarkSkips | experiments/wonderecho-audio/protocol.py:66-70 | without a mark all is discarded but the longest tail that could begin one |
| Decoder.SessionRoundTrip | experiments/wonderecho-audio/protocol.py:52-90 | encoded packets fed in any chunks come out as themselves |
| Decoder.ScanExact | experiments/wonderecho-audio/protocol.py:65-89 | where nothing is discarded the bytes are the encodings of the packets read, and the rest |
| Decoder.SessionExact | experiments/wonderecho-audio/protocol.py:52-90 | the same for any timely stretch of a session |
| Decoder.ScanConserves | experiments/wonderecho-audio/protocol.py:48-90 | every byte is discarded, in a packet, or still buffered, and the buffer stays under header plus max_payload |
| Decoder.RunConserves | experiments/wonderecho-audio/protocol.py:48-90 | the same over whole sessions, idle expiry included |
| Decoder.Decoder.Feed | experiments/wonderecho-audio/protocol.py:52-90 | the new state and packets, or the refusal that leaves the state alone, are those of the specification of one feed |
| Decoder.Decoder.DecideFrame | experiments/wonderecho-audio/protocol.py:73-89 | one decision: wait, length error, checksum error, or a packet, with exactly its bytes consumed and its counter changed |
| Decoder.Decoder.Align | experiments/wonderecho-audio/protocol.py:66-72 | everything before the first mark is discarded and counted |
| Decoder.Decoder.Drain | experiments/wonderecho-audio/protocol.py:64-90 | the loop computes the scan of the buffer |
| Firmware.HostToModule | experiments/wonderecho-audio/play_client.py:31-39 | what the host encodes the module reads as the same frames without slipping a byte |
| Firmware.StreamRoundTrip | experiments/wonderecho-audio/play_client.py:31-39 | a recording cut into packets is read by the module as exactly that recording, then the end mark |
| Firmware.StreamAfterCommands | experiments/wonderecho-audio/play_client.py:76-113 | the same after any commands that carry no audio |
| Firmware.NextStable | experiments/wonderecho-audio/voice_stream.c:343-385 | the module's decision about the front of its bytes does not depend on later ones |
| Firmware.TakesOnlyEncodings | experiments/wonderecho-audio/voice_stream.c:343-385 | the module takes no frame but one that is the host's encoding of a packet for it, byte for byte |
| Firmware.ScanExact | experiments/wonderecho-audio/voice_stream.c:343-385 | a stream read without a slipped byte or a bad sum is the host's encoding of the packets read, and what is unread |
| RxRing.SlicePush | experiments/wonderecho-audio/voice_stream.c:323-324 | storing at the head appends to the queue the indices stand for |
| RxRing.SlicePop | experiments/wonderecho-audio/voice_stream.c:254-260 | moving the tail drops that many bytes from its front |
| RxRing.RxLink.Push | experiments/wonderecho-audio/voice_stream.c:323-325 | a byte is stored at the end of the queue, or counted as dropped exactly when the ring is full |
| RxRing.RxLink.Interrupt | experiments/wonderecho-audio/voice_stream.c:310-330 | an interrupt stores a prefix of the clean bytes it finds and counts the rest, which there is only if the ring is full; flagged entries vanish |
| RxRing.RxLink.FillBuffer | experiments/wonderecho-audio/voice_stream.c:253-267 | the bytes at the front of the queue go to the playback stream in order; full buffers are handed on |
| RxRing.RxLink.PlayConsume | experiments/wonderecho-audio/voice_stream.c:239-269 | the tail advances by exactly the payload length on every path; the played part is a prefix of the payload, a short one is counted, and only a codec without a free buffer cuts one short |
| RxRing.RxLink.PayloadSum | experiments/wonderecho-audio/voice_stream.c:361-363 | the sum taken from the ring is the sum of the payload |
| RxRing.RxLink.Classify | experiments/wonderecho-audio/voice_stream.c:344-364 | the verdict on the frame at the front is the specification's, though bytes arrive meanwhile |
| RxRing.RxLink.ParseOne | experiments/wonderecho-audio/voice_stream.c:343-385 | one round consumes what one decision says; only a checksum-correct payload reaches the speaker or the commands |
| RxRing.RxLink.DrainRxRing | experiments/wonderecho-audio/voice_stream.c:339-386 | when it returns, its log is the one-pass reading of every byte ever accepted, and the unread rest is what that leaves; while playback runs it adds exactly the audio of the new frames to the playback buffers if and only if it counts no underrun, and payloads are cut short as often as the codec refused a buffer |
| RxRing.ReadStep | experiments/wonderecho-audio/voice_stream.c:343-385 | acting on a decision extends the log so that it stays a reading of the whole stream, now or later |
| RxRing.Quiescent | experiments/wonderecho-audio/voice_stream.c:339-386 | a worker that has caught up has read exactly what one pass over the accepted bytes reads |
| Playback.FinishedIff | experiments/wonderecho-audio/voice_stream.c:288-308 | when a playback ends, everything that arrived was played exactly if no payload was cut short, the codec had been started, and it was done with all buffers, the padded one included, when it was stopped |
| Playback.TurnKeeps | experiments/wonderecho-audio/voice_stream.c:510-520 | every turn of the worker - frames, end, warm-up, host gone, stop, in that order - keeps every report of an ended playback explained by what arrived and what was played |
| Playback.RunKeeps | experiments/wonderecho-audio/voice_stream.c:510-520 | the same over every run |
| Playback.PlayedIff | experiments/wonderecho-audio/play_client.py:118-129 | of a recording that is all the audio there ever was, the speaker played exactly what was recorded if and only if the report tells all its bytes and no underrun, and the codec was started before the end was handled and done when it was stopped |
| Playback.CutShortIff | experiments/wonderecho-audio/voice_stream.c:239-269 | while playback runs and does not end, the buffers get exactly the audio of the frames if and only if no underrun is counted meanwhile |
| Playback.CommandsHeard | experiments/wonderecho-audio/voice_stream.c:370-384 | each kind of event is asked for exactly if one of the host's packets is the command for it: 0x106 stop, 0x108 start, 0x102 query, 0x10B prompt, 0x10E loop, 0x111 end |
| Playback.StopEndsPlayback | experiments/wonderecho-audio/voice_stream.c:519-520 | an uncut turn that reads the stop packet ends idle |
| Playback.EndIsReported | experiments/wonderecho-audio/voice_stream.c:511-518 | one that reads the end packet, or finds the host gone, ends a playback and reports it |
| Playback.OthersLeavePlayback | experiments/wonderecho-audio/voice_stream.c:511-520 | no other command touches a playback: it goes on with everything it has, and the codec is started exactly when the warm-up is over |
| Playback.ClocksAreSet | experiments/wonderecho-audio/voice_stream.c:226-241 | the warm-up counts from the first audio, the host's absence from the last |
| Playback.EndedBeforeStart | experiments/wonderecho-audio/voice_stream.c:288-515 | a playback whose end is handled before the codec was started is not heard at all, and the report tells all its bytes |
| Playback.EndWithinWarmUpIsLost | experiments/wonderecho-audio/voice_stream.c:511-515 | so is every playback whose end is handled while every turn so far looked at the clock within the warm-up, however the recording arrives |
| Playback.ShortRecordingLost | experiments/wonderecho-audio/play_client.py:103-129 | an instance: a recording of one packet read in one turn with its end; the host is told all bytes and no underrun, and nothing was played, whatever the clocks say |
| RxRing.StreamHeard | experiments/wonderecho-audio/play_client.py:103-129 | host to speaker: a recording streamed after any commands, none of it dropped at the ring, is played byte for byte under any interleaving exactly if the module reports all its bytes and no underrun, and had started the codec before it handled the end and let it finish |
| RxRing.RxLink.PlayFinish | experiments/wonderecho-audio/voice_stream.c:288-308 | the last buffer is padded and handed on, a started codec is waited for while bytes keep arriving, and stopped with anything left only at the deadline |
| RxRing.RxLink.Drain | experiments/wonderecho-audio/voice_stream.c:299-303 | the wait ends with an idle codec or at the deadline |
| RxRing.RxLink.TakeTurn | experiments/wonderecho-audio/voice_stream.c:441-520 | the playback part of a turn of the worker is a turn of the specification, with the clock's own readings, cut short exactly by a prompt without a capture |
| RxRing.RxLink.Serve | experiments/wonderecho-audio/voice_stream.c:441-520 | every run of the worker, with interrupts, clock, codec and prompts doing what they will, is a run of the specification |
| Capture.Module.QueueFrame | experiments/wonderecho-audio/voice_stream.c:69-80 | a full frame is queued with its number, the 250th ends the capture, a full queue and nothing else aborts it |
| Capture.Module.Submit | experiments/wonderecho-audio/voice_stream.c:54-84 | every sample of the block is taken in order unless the last frame is cut or the queue is full; a block of the wrong size takes nothing and ends the capture; queued frames stay |
| Capture.Module.SendFrame | experiments/wonderecho-audio/voice_stream.c:538-548 | the oldest queued frame is encoded and offered to the line with its number; the verdict is the codec's or the line's |
| Capture.Module.Round | experiments/wonderecho-audio/voice_stream.c:536-559 | a round sends the queued frames, eight at most, unless codec or line fail; the capture goes on exactly without a reason to end, else its verdict is offered; FINISHED/LIMIT is on the wire only after all 250 frames were cut and sent, in order |
| Capture.Module.Finish | experiments/wonderecho-audio/voice_stream.c:555-559 | a capture ends with diagnostics and then a verdict offered to the line; only LIMIT is the verdict of success |
| Capture.Module.Start | experiments/wonderecho-audio/voice_stream.c:523-533 | a new capture starts empty and takes samples exactly if the line took STARTED, and FAILED is offered if the codec is not set up |
| Capture.Module.Stop | experiments/wonderecho-audio/voice_stream.c:519-522 | a stop ends whatever runs and offers a verdict the host does not take for success |
| Worker.StreamTask.Answer | experiments/wonderecho-audio/voice_stream.c:519-560 | a stop is answered with its verdict, a start at rest with STARTED or FAILED, a query at rest with READY, and a capture that goes on through the turn sent its queued frames |
| Worker.StreamTask.Turn | experiments/wonderecho-audio/voice_stream.c:441-560 | one turn of the worker: what is read is played and answered, unless a prompt cuts it short |
| Capture.StatusFields | experiments/wonderecho-audio/voice_stream.c:112-125 | the host reads back identity, phase, reason, count and rate of a status packet |
| Capture.HostCapture.Accept | experiments/wonderecho-audio/stream_client.py:101-240 | the new state, or the refusal, is that of the specification for one packet; frames are only appended, one at a time and in number order, finished only with 250 of them, and no flag is taken back |
| Capture.StatusTakenIff | experiments/wonderecho-audio/stream_client.py:104-146 | which status packets the host takes in which state, and what becomes of it |
| Capture.DiagTakenIff | experiments/wonderecho-audio/stream_client.py:203-230 | the same for the diagnostics of a capture |
| Capture.AudioTakenIff | experiments/wonderecho-audio/stream_client.py:231-238 | and for audio: the next number, 42 bytes, while the capture runs |
| Capture.OnlyTheModulesPackets | experiments/wonderecho-audio/stream_client.py:101-237 | the host takes no packet but those a module's own encoding of a status, a diagnosis or an audio frame yields, so these four say of every packet whether it is taken |
| Capture.AcceptMatches | experiments/wonderecho-audio/stream_client.py:121-238 | accepting a packet the module may have sent keeps the host's frames equal to the module's, as far as they go |
| Capture.FinishedIsComplete | experiments/wonderecho-audio/stream_client.py:101-238 | whatever the channel drops, repeats or reorders of a capture: if the host finishes, its 250 frames are the module's frames 0 to 249 in order |
| Capture.StartedIsFresh | experiments/wonderecho-audio/stream_client.py:101-238 | the same whatever packets of earlier captures come first, if this capture's STARTED arrives |
| Capture.MixedCapture | experiments/wonderecho-audio/stream_client.py:101-238 | without it, and over a line that drops whole packets, an earlier capture's first packets and all but the first frame of this one make a capture the host calls finished |
| Capture.FrameIsSlice | experiments/wonderecho-audio/voice_stream.c:64-82 | frame i is samples 320 i to 320 (i + 1) of what the microphone delivered |
| Capture.TailAccepted | experiments/wonderecho-audio/stream_client.py:231-238 | from any number of accepted frames on, the module's next audio packets are all accepted and appended |
| Capture.StreamAccepted | experiments/wonderecho-audio/stream_client.py:231-238 | the module's audio packets in order are all accepted |
| Capture.WholeIsFinished | experiments/wonderecho-audio/stream_client.py:101-240 | a capture that arrives whole is accepted to the end |
| CaptureLink.WholeCaptureArrives | experiments/wonderecho-audio/stream_client.py:318-336 | over the bytes: a complete capture, cut in any timely chunks, ends in a finished host with the module's frames and an undisturbed decoder |
| CaptureLink.FinishedOverLine | experiments/wonderecho-audio/stream_client.py:318-336 | over a line that drops, repeats or reorders whole packets and may hold earlier captures, a finished host that got this capture's STARTED has this capture's frames |
| CaptureLink.NothingUnseen | experiments/wonderecho-audio/stream_client.py:324-330 | while the decoder counts nothing the host aborts on, what came in is the encodings of the packets the capture was given, whole and in order, and the beginning of one more |
| CaptureLink.MixedCaptureUnseen | experiments/wonderecho-audio/stream_client.py:101-238 | whole packets can be missing unseen: the mixed capture disturbs no decoder counter |
| XiaoMic.RemovalFits | experiments/wonderecho-audio/xiao_mic.py:115-119 | a push keeps the bound and removes at most one byte more than needed |
| XiaoMic.RemovalIsWholeIff | experiments/wonderecho-audio/xiao_mic.py:115-120 | whole samples are removed and all that is counted is removed, whatever arrives, exactly when the bound is at least one byte |
| XiaoMic.Microphone.Push | experiments/wonderecho-audio/xiao_mic.py:112-121 | the buffer is what was received and has not left; removal, count and alignment are exact |
| XiaoMic.Microphone.Flush | experiments/wonderecho-audio/xiao_mic.py:84-87 | everything but a half sample goes |
| XiaoMic.Microphone.ReadFrame | experiments/wonderecho-audio/xiao_mic.py:89-96 | a frame is the next 640 bytes, and on a sample boundary the next 320 samples |
| XiaoMic.Microphone.Disconnect | experiments/wonderecho-audio/xiao_mic.py:169-171 | only the half sample of the broken connection is dropped |
| XiaoMic.Run | experiments/wonderecho-audio/xiao_mic.py:84-171 | over any run and bound every frame handed out is 320 whole consecutive samples, and frames do not overlap |
| Commander.NextDueWithinPeriod | host/behavior/commander.py:179-187 | after a firing the next deadline is within (now, now + period] and at least a period after the last |
| Commander.DeadlinesDoNotDrift | host/behavior/commander.py:11-187 | with no lateness of a full period the k-th deadline is the first plus k periods, whatever each delay was |
| Commander.NoBurst | host/behavior/commander.py:183-187 | however late the ticks, k + 1 firings after a time take more than k periods |
| Commander.Commander.Fire | host/behavior/commander.py:169-196 | when due: the queued one-shots in order, then the repeated intent, consecutively numbered, queue emptied, deadline advanced; else nothing |
| Commander.Commander.AnnounceState | host/behavior/commander.py:93-103 | a state is queued once per change |
| Commander.Commander.SendOnceUnlessPending | host/behavior/commander.py:110-119 | queued exactly when no one-shot of its kind waits |
| Commander.Commander.Now | host/behavior/commander.py:125-154 | an immediate line takes the next number and drops the repeated intent to STOP |
| Commander.ShotsExactlyOnce | host/behavior/commander.py:89-194 | over any run everything queued once is emitted exactly once in order, or still waits |
| Commander.TickEndsWithIntent | host/behavior/commander.py:172-194 | the repeated intent closes every tick that is due |
| Commander.NumbersInARow | host/common/protocol.py:337-367 | over any run the encoded numbers are one unbroken row |
| Commander.LastOneSteers | host/behavior/commander.py:85-154 | over any run the last drive, halt or immediate line decides what every later tick ends with |
| Commander.QueuedOncePerChange | host/behavior/commander.py:93-103 | over any run announcing a state queues it exactly if the last state announced, however long ago, is another one |
| Commander.OneOfAKind | host/behavior/commander.py:110-119 | a shot queued unless one of its kind waits never makes a second one wait, and what waited still does |
| SendOrder.Link.SocketIsSet | host/runtime.py:1601 | first step of the start of a session: from now on stops can be sent |
| SendOrder.Link.OpeningIsEncoded | host/runtime.py:1607 | second step: the opening STOP takes the next number |
| SendOrder.Link.OpeningIsStored | host/runtime.py:1607 | third step: the opening waits to be sent with the first lines that go out |
| SendOrder.Link.Step | host/runtime.py:1640-1712 | a tick's lines go out behind a waiting session opening, filtered by the motion lock; with no peer they are dropped and the opening waits |
| SendOrder.Link.StopNow | host/runtime.py:1386-1660 | a stop whose steps nothing separates: encode, look for a waiting opening, test for somebody to send to, hand over |
| SendOrder.StopIsHandedOver | host/runtime.py:1386-1660 | such a stop goes out at once behind a waiting opening, motion lock or not, or is not sent while there is nobody to send to |
| SendOrder.Link.EmergencyStop | host/runtime.py:1647-1660 | the ESTOP goes out at once behind a waiting session opening, motion lock or not, or is not sent while there is no socket or no peer |
| SendOrder.Link.RouteStop | host/runtime.py:1386-1395 | the same for the STOP of a route stop |
| SendOrder.PassedKeeps | host/runtime.py:1675-1687 | the motion lock's filter keeps the numbers increasing and lets a first stop through |
| SendOrder.PassedIff | host/runtime.py:1675-1687 | of a locked link's lines exactly those of kind STOP, ESTOP, STATE and LED go out; without the lock all do |
| SendOrder.Interleaving | host/runtime.py:1379-1712 | in any interleaving of the steps of the start, of stops, ticks and requests, what is handed to the socket begins with the session's STOP and rises in number if and only if no stop that is sent was encoded before the opening or looked for it before it was stored |
| SendOrder.StopBeforeOpening | host/runtime.py:1601-1660 | a run in which an emergency stop between socket and opening is the first datagram |
| SendOrder.StopErasesOpening | host/runtime.py:1601-1660 | a run in which one that looks before the opening is stored erases it, and it is never sent |
| SendOrder.StopFallsBehindOpening | host/runtime.py:1583-1660 | a run in which one encoded before the opening follows it with a lower number |
| SendOrder.LostOpeningStaysLost | host/telemetry/ros2_relay.py:82-101 | once anything was handed over the opening is never handed over again: the robot gets it if and only if the socket took it then |
| SendOrder.DroppedStaysIncreasing | host/telemetry/ros2_relay.py:82-101 | datagrams the socket refuses leave an increasing stream |
| SendOrder.TicksAreHandedOver | host/runtime.py:1640-1712 | with a robot to send to and no stop in between, a run of ticks hands over exactly what the sender emits, in order and filtered by the motion lock only, behind the waiting opening |
| SendOrder.NobodyToSendTo | host/runtime.py:1640-1712 | until the robot's address is known nothing is handed over, whatever else happens, and the opening goes on waiting |
| SendOrder.SessionOpens | host/runtime.py:1601-1712 | a session that starts undisturbed opens with its first tick once the address is known |
| Escalation.Escalation.RaiseTo | host/behavior/escalation.py:179-189 | the level ends at least where it was and at least as asked, and a pending alarm stays; an alarm during a warning becomes a latch, one during F is remembered |
| Escalation.Escalation.NoteEvent | host/behavior/escalation.py:203-220 | raising regardless of acceptance, lowering only if accepted; a latched level is lowered by an accepted reset only, and no event drops its pending alarm |
| Escalation.Escalation.PassTime | host/behavior/escalation.py:276-308 | warning end, loss at L1 and L2 and promotion, in the program's order of precedence; time changes nothing at a latched level |
| Escalation.TimeIff | host/behavior/escalation.py:276-308 | what time does and exactly when: a warning ends, L1 is left on loss, L2 is reached after the hold, a lost L2 becomes an alarm or calms; nothing else changes |
| Escalation.FromCalm | host/behavior/escalation.py:71-82 | which events make a calm level an alarm, F or a warning |
| Escalation.WatchingFromCalm | host/behavior/escalation.py:223-262 | a sighting and a suspected fall lead to L1, and the end of the suspicion back |
| Escalation.EndsOfWatching | host/behavior/escalation.py:236-268 | rest ends watching and asking, an authentication ends asking |
| Escalation.EveryOpRemembers | host/behavior/escalation.py:203-352 | every operation keeps the last word on a suspected fall, the last sighting, and an authentication until it is withdrawn or the level is let go |
| Escalation.ResetGoesBack | host/behavior/escalation.py:179-336 | a reset means something at F only, and goes back to L3 exactly if an alarm was pending when F was entered or came meanwhile |
| Escalation.ApplyKeeps | host/behavior/escalation.py:144-352 | every operation keeps: below F an alarm is pending exactly at a latched L3; a warning is an unlatched L3 |
| Escalation.OnlyAPersonLowers | host/behavior/escalation.py:315-336 | L3 is lowered only by the operator's confirmation, F only by the accepted reset |
| Escalation.AlarmIsNeverLost | host/behavior/escalation.py:179-352 | over any run of operations an alarm is pending exactly when one was raised that no confirmation at L3 followed, and then the level is a latched L3 or F |
| Escalation.StayHasAStart | host/behavior/escalation.py:348 | the stored time is when the present unbroken stay at L1 began |
| Escalation.PromotionNeedsTheHold | host/behavior/escalation.py:299-308 | a tick promotes to L2 only an unauthenticated target watched at L1 without a break for the whole hold |
| Fsm.Row | host/behavior/fsm.py:57-113 | the table: no row of its own leads to FAILSAFE or shadows a row for every state, and FAILSAFE has one row |
| Fsm.FailsafeIsSealed | host/behavior/fsm.py:95-222 | FAILSAFE takes RESET_CONFIRMED only, and exactly the three safety events lead there from everywhere else |
| Fsm.PatrolErrands | host/behavior/fsm.py:57-94 | scanning, avoiding, getting lost, zones, hazards and suspected falls lead where they should and back to the patrol |
| Fsm.PersonErrands | host/behavior/fsm.py:57-94 | so do meeting a person, following, authentication either way, protective gear and losing sight |
| Fsm.FromEverywhere | host/behavior/fsm.py:95-113 | from every state but FAILSAFE the operator takes over, the robot may get lost or be sent to a hazard |
| Fsm.TransitionsChange | host/behavior/fsm.py:57-222 | no transition leads to its own state; an unreachable goal ends an errand exactly in PATROL, SCAN, AVOID and LOST |
| Fsm.Fsm.Handle | host/behavior/fsm.py:228-238 | the state changes exactly when the table has a target for the event |
| Fsm.Behavior.Handle | host/behavior/fsm.py:407-430 | a held alarm lets only safety and operator events pass; a transition records trigger and entry time and clears the stay's timers, and leads to FAILSAFE exactly for a safety event |
| Fsm.Behavior.Tell | host/behavior/fsm.py:459-467 | RESET_CONFIRMED is refused while the robot reports its latch, and nothing else leaves FAILSAFE; a safety event always ends there |
| Fsm.Behavior.WatchTarget | host/behavior/fsm.py:362-372 | target loss is measured from the last sighting and reported once: reporting it forgets the sighting |
| Fsm.Behavior.WatchTimers | host/behavior/fsm.py:393-405 | a state's timer fires once per stay, after its time plus what was deferred: what it leaves in the same state is no longer due |
| Fsm.Behavior.DeferTimer | host/behavior/fsm.py:374-386 | grants what is asked within the cap on the stay's total |
| Fsm.Behavior.Tick | host/behavior/fsm.py:469-493 | links, then target, then timers, then the directive; a due tick's last line is the repeated intent |
| Fsm.DirectiveIs | host/behavior/fsm.py:131-150 | at rest, in FAILSAFE and when lost a tick leaves STOP, under manual control the operator's intent, elsewhere that of the state's sequence |
| Fsm.ScanCycle | host/behavior/fsm.py:164-170 | a patrol scans when the interval is over and goes on when the scan is, not before and not under an alarm |
| Fsm.LossEndsAlert | host/behavior/fsm.py:362-372 | a target out of sight for the time-out ends watching and following, and not before |
| Fsm.LossIsForgotten | host/behavior/fsm.py:362-372 | a reported loss forgets the sighting, one that is refused changes nothing |
| Fsm.LinkLossIff | host/behavior/fsm.py:349-360 | the watchers end in FAILSAFE exactly from the time-out after the last sign of life on; without any the link is never lost |
| Fsm.UnreachableEndsTheTick | host/behavior/fsm.py:469-491 | a sequence that reports its goal unreachable ends the errand in the same tick, unless an alarm holds the robot |
| Fsm.StayBeginsAfresh | host/behavior/fsm.py:407-430 | every transition begins a stay afresh: time, fired timers and deferrals; what makes none leaves the clocks alone |
| Fsm.TickBeginsAfresh | host/behavior/fsm.py:469-493 | the same over a whole tick, which gives a stay without a beginning its own time |
| Fsm.StaleTickStops | host/behavior/fsm.py:349-483 | a tick with stale telemetry ends in FAILSAFE with STOP as the repeated intent, whatever state, alarm or sequence |
| Fsm.TickAndFailsafe | host/behavior/fsm.py:349-493 | a tick never leaves FAILSAFE and enters it only on a lost link, which it names as trigger |
| Fsm.TickNames | host/behavior/fsm.py:416-493 | if a tick ends in another state, its trigger names a transition to that state from one of the states the tick passed through |
| Fsm.TimeOutIsReported | host/behavior/fsm.py:166-405 | a time-out of AUTH_WAIT in a tick ends in ALERT with AUTH_FAILED as trigger |
| Fsm.TickIsQuiet | host/behavior/fsm.py:349-493 | without that time-out a tick names no authentication failure |
| Fsm.TickAndWaiting | host/behavior/fsm.py:469-493 | no tick enters AUTH_WAIT |
| Fsm.DeferralIsCapped | host/behavior/fsm.py:374-414 | over any run all deferrals of one stay together stay within the cap |
| Fsm.DeferralIsGranted | host/behavior/fsm.py:374-386 | a deferral is granted as asked, up to the cap |
| Fsm.WaitingEnds | host/behavior/fsm.py:374-405 | repeated deferrals cannot hold off the time-out beyond its time plus the cap |
| Runtime.NotedAndF | host/behavior/escalation.py:203-220 | what one event does to level F, and that it never drops a pending alarm |
| Runtime.AppliedKeeps | host/runtime.py:1266-1299 | an event through the gates keeps FAILSAFE and F coupled; it frees the robot only as RESET_CONFIRMED the latch does not contradict, into L3 if an alarm is pending, else L0 |
| Runtime.AlarmStopsAtOnce | host/runtime.py:1266-1299 | an event that leaves an alarm holding the robot stops it at once, and no other event touches the intent |
| Runtime.ModeGate | host/behavior/mission.py:41-61 | authentication events count only in the guard mode, zone, gear and fall events only in the factory, a patrol never starts under the motion lock, and every other event passes |
| Runtime.ResetFrees | host/runtime.py:1505-1519 | a reset that was asked for frees the robot at the report that its latch is released, under the alarm if one is pending |
| Runtime.ResetIsSettledIff | host/runtime.py:1505-1519 | a reset stays asked for until a report of the released latch finds the robot out of FAILSAFE or takes it out; outside FAILSAFE a report changes nothing else |
| Runtime.ReportIsHeard | host/runtime.py:834-837 | whatever comes of it, a report refreshes link and latch, an acknowledgement the link |
| Runtime.ConfirmedKeeps | host/runtime.py:1333-1355 | confirming an alarm keeps the coupling and does nothing below or above L3 |
| Runtime.ConfirmationResumes | host/runtime.py:1333-1355 | confirming an alarm that holds the robot calms the level and sends it back on patrol, whatever the alarm was about |
| Runtime.BehavedKeeps | host/runtime.py:1203-1221 | a behaviour tick keeps the coupling and pending alarms; stale telemetry or a held alarm leaves STOP |
| Runtime.SequenceIs | host/behavior/actions.py:112-119 | scanning and waiting stand, ALERT outside the factory stands, the hazard states stop, elsewhere the sequence decides |
| Runtime.StepKeeps | host/runtime.py:1168-1355 | every step keeps the coupling; FAILSAFE is left only by a reset the robot's latch does not contradict; only a confirmation at L3 ends a pending alarm |
| Runtime.OwnFields | host/runtime.py:1168-1355 | the mode changes at rest or under manual control only, the operator's drive is taken as it is, asking for a reset stops the robot, and nothing else but events, reports, confirmations and ticks touches the intent |
| Runtime.RunKeeps | host/runtime.py:1168-1355 | the same over every run: FAILSAFE exactly when level F at every step, and an alarm survives until confirmed |
| Runtime.TimeOutRaisesTheAlarm | host/runtime.py:1213-1220 | the time-out of AUTH_WAIT, which passes no event entry, still latches L3 |
| Runtime.AlarmWithoutStopIff | host/runtime.py:1203-1297 | a tick leaves another intent than STOP under an alarm that holds the robot if and only if no alarm held it before and its own AUTH_WAIT timer runs out on fresh telemetry; that intent is the one of a standing robot |
| Runtime.AlarmWithoutStop | host/behavior/actions.py:112-119 | an instance: nobody answers, and the tick that latches the alarm leaves ALERT's standing MOVE 0 0 |
| Runtime.NoWalkUnderAlarm | host/runtime.py:1168-1221 | after any run, no tick leaves a robot that an alarm holds with an intent to walk |
| Runtime.StepWaits | host/behavior/mission.py:58-61 | every step keeps: AUTH_WAIT is a state of the guard mode, whose ALERT stands |
| Runtime.RunWaits | host/behavior/mission.py:58-61 | the same over every run |
| Runtime.AlarmStopsByTheNextTick | host/runtime.py:1203-1297 | the next tick leaves STOP in any case |
| Runtime.AlarmHoldsTheRobot | host/behavior/fsm.py:416-425 | while an alarm holds the robot an event moves it only into or out of FAILSAFE and MANUAL |
| Runtime.Runtime.Apply | host/runtime.py:1266-1299 | motion lock, mode gate, state machine, level and halt, in that order |
| Runtime.Runtime.SettleReset | host/runtime.py:1505-1519 | a reported release settles an asked-for reset, and the request stays if the transition is refused |
| Runtime.Runtime.HearReport | host/runtime.py:834-837 | a report refreshes link and latch before the reset is settled |
| Runtime.Runtime.HearAck | host/runtime.py:745-760 | an acknowledgement counts as a sign of life, and settles the reset only if it carries the latch |
| Runtime.Runtime.ConfirmTheAlarm | host/runtime.py:1333-1355 | zone, fall and held alarms resume the mission as specified |
| Runtime.Runtime.Tick | host/runtime.py:1168-1221 | the state after a turn of the loop is the behaviour tick of the polls and the level's clock, in order; stale telemetry at its beginning ends in FAILSAFE and F with STOP last; an alarm that holds the robot leaves no walking line last; and without late polls no warning outlives its time |
| Runtime.QuietTurn | host/runtime.py:1190-1200 | a turn whose polls find nothing stands the level down at rest, and otherwise lets time do its work on it and nothing else |
| Projections.StepExplained | host/runtime.py:1168-1519 | every step is operations of the level and acts of the state machine, each guarded by the alarm as the act finds it |
| Projections.RunExplained | host/runtime.py:1168-1519 | over any run the level is where its own operations lead it and the state machine where its own acts do, so what is proved of their runs holds here |
| Projections.AlarmIsNeverLost | host/behavior/escalation.py:179-352 | in any run of the runtime an alarm is pending exactly if one was raised that no confirmation at L3 followed |
| Projections.AskedAfterTheHold | host/behavior/escalation.py:299-308 | in any run only somebody not authenticated and watched at L1 without a break for the whole hold is asked for an authentication |
| Projections.DeferralIsCapped | host/behavior/fsm.py:374-414 | in any run all deferrals of one stay together stay within the largest cap |
| LiveClear.LiveClear.Mark | host/behavior/live_nav.py:76-98 | free exactly the cells a usable beam crosses before its last two and none ends in |
| LiveClear.SeenFreeIff | host/behavior/live_nav.py:76-98 | a scan sees a cell free exactly if a usable beam crosses it before its last two cells and no usable beam ends there |
| LiveClear.LiveClear.Update | host/behavior/live_nav.py:99-102 | counts and times become those of the history with one more scan |
| LiveClear.LiveClear.Observe | host/behavior/live_nav.py:41-102 | counts and times stay functions of the accepted scans, through frame change, unverified pose, stale scan, new boot and age gap |
| LiveClear.LiveClear.Mask | host/behavior/live_nav.py:104-113 | cleared exactly the cells cleared at a time within the ttl |
| LiveClear.ObservedKeepsChain | host/behavior/live_nav.py:59-75 | accepted scans since a wipe are one device and boot, rising in number, without an over-age gap inside a streak |
| LiveClear.ClearedHasEvidence | host/behavior/live_nav.py:99-102 | a cell cleared at t has the required number of consecutive scans ending at t that saw it free, and no later scan hit it |
| LiveClear.ClearedCellIsSeenFree | host/behavior/live_nav.py:41-113 | the same for every cell in the mask after any sequence of scans, and the evidence is younger than the ttl |
| LiveClear.EvidenceClears | host/behavior/live_nav.py:41-113 | conversely enough verified scans in a row that see a cell free clear it, whatever was known before, for the ttl |
| LiveClear.RepeatChangesNothingIff | host/behavior/live_nav.py:52-65 | an already seen scan changes nothing exactly when verified on the same frame, or with nothing to lose |
| ReadingSlot.Worker.Submit | host/vision/vlm_worker.py:78-91 | only while nobody owns a result not yet taken; accepted then exactly if the model is loaded |
| ReadingSlot.Worker.Take | host/vision/vlm_worker.py:93-97 | hands out what the last reading left and empties the slot; it answers the owner's question |
| ReadingSlot.PathCause.Report | host/behavior/path_cause.py:80-99 | a call is recorded at once with its reason, or becomes the waiting one, asked about at once exactly if it may ask |
| ReadingSlot.RefusalIff | host/behavior/path_cause.py:80-99 | which reason is recorded exactly when: no frame, a stale one, no mission, no model, busy, in that order, and a call nothing speaks against waits |
| ReadingSlot.PathCause.Ask | host/behavior/path_cause.py:131-142 | the question goes out exactly if no late answer is to be drained, no other reading is out and the model is loaded |
| ReadingSlot.PathCause.Poll | host/behavior/path_cause.py:101-129 | an ended reading is recorded with what it left; a call that may ask asks; else it is kept within the wait and then recorded once with TIMEOUT or BUSY; a timed-out reading stays owned until drained, and is drained once it ended |
| ReadingSlot.FallMonitor.TakeReading | host/behavior/fall_monitor.py:155-184 | an ended reading is taken exactly once, as the answer for the frame it was asked for |
| ReadingSlot.FallMonitor.Ask | host/behavior/fall_monitor.py:185-220 | asks exactly when it is time, nobody waits and the model is loaded; a rule-confirmed fall goes to the cross-check, and a frame without one forgets the confirmation |
| ReadingSlot.FallMonitor.AskCross | host/behavior/fall_monitor.py:222-246 | the frame in which the rule first confirmed is asked about as soon as the slot is free, and given up at the end of the budget |
| ReadingSlot.FallMonitor.TakeCross | host/behavior/fall_monitor.py:248-274 | while it runs a late cross-check is reported once; when it has ended what it left is reported unless that was done, as an answer only if it came in time |
| ReadingSlot.FallMonitor.VerdictIff | host/behavior/fall_monitor.py:248-274 | a report is late from the budget on and carries the answer exactly if it came in time and is not degraded |
| ReadingSlot.FallMonitor.Watch | host/behavior/fall_monitor.py:116-133 | reports a late cross-check and gives up a rule confirmation that could not be asked about within the budget |
| ReadingSlot.ZoneInspector.ReadScene | host/behavior/zone_inspector.py:426-446 | asked once per visit, and then exactly if nobody else waits, nothing is out and the model is loaded |
| ReadingSlot.ZoneInspector.TakeReading | host/behavior/zone_inspector.py:457-504 | an ended reading is taken for the zone and frame asked about, and a second question follows exactly after one that is wanted |
| ReadingSlot.Loop.Step | host/runtime.py:525-587 | with the runtime's wiring every step keeps one owner of the slot, the one whose books say so; each act does to its client what that client's contract says, and a blocked path is always reported |
| ReadingSlot.Run | host/runtime.py:525-587 | in every run no two clients own the slot, the calls are the blocked paths in order, each is recorded exactly once or still waits, every cross-check is reported once or still waits, and every answer used, that of a cross-check included, is the answer to the question its user asked |
| NavRequests.StepKeeps | host/behavior/nav_requests.py:97-240 | every lock section and loop action keeps: what is on its way is as new as the last cancel, or a cancel is still to be handled |
| NavRequests.DrainHandles | host/behavior/nav_requests.py:204-215 | a cancel marked when a drain begins is handled by that drain |
| NavRequests.StopIsNotUndone | host/behavior/nav_requests.py:97-240 | whatever interleaves, when that drain ends no request begun before the cancel is driven to, waits, or can still be accepted |
| NavRequests.RouteIsDriven | host/behavior/nav_requests.py:204-228 | a route nobody cancels is handed to the navigator by the next drain, and the patrol that drives it starts |
| NavRequests.GoalIsDriven | host/behavior/nav_requests.py:229-240 | so is a goal |
| NavRequests.StartIsAccepted | host/behavior/nav_requests.py:66-126 | a start that no cancel overtakes between its two lock sections is accepted |
| NavRequests.StartIsRefused | host/behavior/nav_requests.py:97-131 | a route start is refused while a cancel waits to be handled, and one given up cannot be finished |
| NavRequests.OneRequestWaits | host/behavior/nav_requests.py:82-131 | the newest request wins: over any run never both a route and a goal wait |
| NavRequests.RefusedIsNotDriven | host/behavior/nav_requests.py:216-240 | what the navigator refuses is not driven to and asks for no patrol; nor does anything while on patrol |
| NavRequests.StopIsCarriedOut | host/behavior/nav_requests.py:204-215 | an undisturbed drain that finds a cancel drops goal, route and request, and the patrol's start exactly if one of them, or a goal's result, was there |
| NavRequests.FreshOrOvertaken | host/behavior/nav_requests.py:227-240 | every action keeps the waiting patrol newer than the last cancel but one: a drain asking for it on behalf of an overtaken request |
| NavRequests.PatrolOutlivesStopIff | host/behavior/nav_requests.py:207-228 | that happens on a route's behalf exactly if a cancel lands between the drain's check and its asking |
| NavRequests.GoalPatrolOutlivesStopIff | host/behavior/nav_requests.py:229-240 | and the same on a goal's behalf |
| NavRequests.PatrolOutlivesStop | host/behavior/nav_requests.py:207-228 | a run in which the patrol starts after the stop and outlives the next drain |

## Left out

- Floating-point rounding, infinities and NaN: coordinates and times are exact reals and integers; finiteness tests have no counterpart.
- Square root and hypotenuse: a parameter fixed by its squares.
- `_collision_cells`, `obstacle_grid`, `mark_obstacle` and `detect_new_obstacle`: inflation of a single chart only.
- `distance_costs`: A* and the waypoint merge take any non-negative cost field; that exponentials are non-negative is not modelled.
- Numpy slicing: masks are two-dimensional arrays or sets of cells; shifting by more than the array's size follows the intended meaning.
- Serial ports, sockets, HTTP, threads, clocks, FreeRTOS queues and notifications: atomic steps, explicit times and abstract queues.
- Prompt and loopback captures, amplifier and codec set-up: only plain captures and playback; a flash prompt only keeps playback from beginning or cuts a turn short.
- The codec's driver: once started it plays buffers in the order handed on, a buffer counts as played when it is done with, and stopping discards the others.
- Byte and underrun counters and the clock of the module are unbounded.
- The Speex codec: a function of the frames so far.
- Runtime: log, dashboard, speaker, voice-authentication window and incident records; concurrency of `apply_external` with the loop (runs are sequential).
- Runtime.Runtime.Tick: the polls inside a turn are arbitrary steps; what each judge decides is not modelled.
- Escalation: LED, blink and warning texts; the reason string.
- Fsm: the vision stall flag, the onboard state display and hooks; a state's motion sequence is any repeated intent, and may report its goal unreachable.
- The encoder takes and advances its number in one step: two threads inside it at once, which can only happen while a session starts, are not modelled.
- `send_immediate` and the shutdown loop of ESTOPs: outside the three paths of `SendOrder`.
- Encoder errors for unknown commands and clamping of fields: every intent is encodable as it is.
- Scan matching, localization votes, authentication, motion sequences, follow and avoidance heuristics: mostly tuning, or easy next to what is here.
- Line tracing of beams and their range test: each beam comes with its cells and whether it is usable.
- The fall monitor's mission gate, suspicion, cool-down and confirmation, and the zone inspector's conclusions: only their use of the reading slot.
- NavRequests: location hints and the feedback shown to the operator; what the navigator answers is a parameter.
