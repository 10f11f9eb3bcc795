# A verified model of muxws

muxws multiplexes cancellable, bidirectional streams over one ordered WebSocket. The protocol is
written twice, in Python (`muxws/`) and in TypeScript (`ts/`). This project models its five components
and proves what they promise. `dafny verify dfyconfig.toml` checks everything.

How the model is laid out:

- **Specification and object.** What the source computes is a function over datatype values; code that
  works by changing fields or by loops is a class or a method proved equal to that function. Theorems
  about every run are lemmas over the functions. A step is the code between two suspension points of
  the source, so an encoding failure of a lane and the failure of its stream are one step.
- **The fragmenter.** `Utf8`, `Codecs`, `Fragmenter` (the lazy splitter as a generator value),
  `SplitLaws` (search and completeness), `Assembly` (round trip, and the `Assembler` class),
  `FragmentLoops` and `FragmentPorts` (the loops of both ports), `Json` (the encoder and the laws its
  lengths have), `JsonReader` (a reader, and the round trip that makes JSON a lawful codec), `Envelopes`
  (a frame's mapping, and the round trip of whole messages).
- **The writer.** `Writer` (lanes, rotation), `WriterLaws` (bypass, order, idle), `WriterObjects`
  (`StreamQueue` and `Writer` with one queue object a lane), `WriterFrames` (a law of all frames queued),
  `Outbound` and `Ends` (what one end puts on the wire, in every run, against any remote), `Strays` (the
  one message that breaks its order).
- **Streams and peers.** `Stream`, `StreamObject`, `StreamPort` (the TypeScript consumer), `Peer`,
  `PeerInvariant` (what holds against any remote), `Inbound` (what any message that arrives does), `Calls`
  (what any call of the application does, and when it does nothing), `Locality` (what a message leaves
  alone), `Lives` (one stream over a whole run: what its consumer gets, its end, its id), `Answers` (who may
  consume a stream, and what an await and an iterator get), `PeerFrames` and `Farewells` (what is promised on
  the wire), `ConnectionLane` (all that is said on the connection's own lane), `PeerTable` (two marks and a
  live map against a full per-id table). `PeerObject` is the peer made of stream objects its
  application holds too and of the writer with its queue objects; `PeerRun` drives it and proves that any
  run ends where the run of the model does.
- **Two peers.** `Duplex` joins two ends by two lossless first-in-first-out channels. The proof ties, for
  every stream and each direction, what one end has said to what the other has heard once it hears what
  is on its way: `Conversation` says how a receiver hears frames, `Halves` how each step changes one
  stream's tie, `Strands` and `Reception` bring a peer's step down to one stream, and `DuplexMoves`,
  `DuplexWriting` and `DuplexReading` show that every step of either end keeps all ties. `DuplexLaws`
  holds the theorems, `Endings` those about a stream's end, `Room` and `Undisturbed` those about runs in
  which nothing is reset, `DuplexWhole` a condition an application can check beforehand, `Refusals`,
  `Reopenings` and their JSON forms the runs the theorems exclude, `DuplexRetry` retry safety.
- **The rest.** `Registry` and `RegistryPort` (the tag index of each port against a scan), `Reconnect`
  (the schedule over the reals, and the driver with a record of what it did).

Text is its UTF-8 bytes throughout, since every length and offset of the protocol is in bytes. The codec
is a parameter with the laws each theorem names; `JsonReader.JsonIsLawful` proves all of them of JSON.

Where the code and its comments disagree, the model follows the code:

- The comment on the re-split search promises at most log2(ceiling) encodes. The loop makes
  floor(log2(ceiling)) + 1, one for a ceiling of 1, or one less exactly when a probe is too long while a
  power of two of sizes is still open (`FragmentLoops.ProbesExactly`, `FragmentLoops.DocumentedBoundIff`).
- A message over the frame cap of a type other than `open`, `data` and `reset` that names a stream is
  answered with a `reset` on that stream, also when it is a stream this peer has not opened
  (`muxws/peer.py:580-592`). If that stream's `open` is neither sent nor ahead in its lane, the reset goes
  first. No other message can bring the wire out of order (`Ends.OpensInOrder`,
  `Strays.OnlyAStrayOvertakes`).
- A `data` or `reset` frame on stream 0 is ignored as late before any even id was opened, because no mark is
  below 0, where a table of every id calls it fatal (`muxws/peer.py:904-914`). The two agree exactly on all
  other frames (`PeerTable.VerdictsAgreeIff`, `PeerTable.ZeroIsIgnored`).
- A fragmented `open` that was refused or reset before its last fragment fails the connection when its
  next fragment arrives (`muxws/peer.py:783-785`). That is exactly when one peer can fail the other's
  connection (`DuplexLaws.OnlyACutOpeningFails`). With JSON it happens at any cap from 128 bytes on and
  any limit the ids can reach (`JsonRefusals.JsonOpeningFails`); it cannot happen when opens fit one frame
  (`DuplexWhole.WholeOpensNeverFail`).
- By requirement WSM-STM-012 a stream with both ends half-closed is closed, but the last fragment of an `open`
  that carries the end sets the half-closed remote state over a local end (`muxws/peer.py:806-807`,
  `ts/peer.ts:1347`), and an application can reach a stream that is still opening (`muxws/peer.py:197-199`) and
  end it. Such a stream is closed at its opener, and at the other end lives on and may send again, unheard
  (`Reopenings.EarlyEndIsUndone`, `JsonReopenings.JsonEarlyEndIsUndone`). It is the only way the ends of a
  stream come to differ, or anything said on a stream that was not reset is lost (`Endings.QuietEndsMirrorIff`,
  `Endings.DeliveredIsCompleteIff`).
- A first await made after a payload and then a reset sees the reset (`StreamModel.FirstAwaitAfterReset`).
- A negative `max_delay` passes the options' checks and makes every delay zero
  (`Reconnect.JitterStaysWithinIff`).
- A remote `open` that carries `end` sets the state and queues no end item (`muxws/peer.py:776-777`), so a
  handler that iterates or awaits such a stream waits (`Lives.OpenWithEndQueuesNone`). The end of a stream
  is on its queue exactly when it came on a `data` frame or the stream has closed (`Lives.EndIsQueuedIff`).

## Model

| member | source | states |
|---|---|---|
| `Utf8.ContinuationIsTheMaskTest` | muxws/fragment.py:51 | The range of bytes called continuation bytes is exactly where the source's mask test holds. |
| `Utf8.SliceIsValid` | muxws/fragment.py:41-48 | Every slice of valid UTF-8 between two boundaries is itself valid UTF-8 (section 4 of RFC 3629), so every text fragment can be carried and decoded on its own. |
| `Utf8.BoundaryWithinThree` | muxws/fragment.py:47-48 | In valid UTF-8 a boundary lies at most three bytes below any offset. |
| `Fragmenter.FloorIsLargest` | muxws/fragment.py:38-53 | The floor of an offset is the largest boundary at or below it. |
| `Fragmenter.NextIsFirst` | muxws/fragment.py:56-62 | No boundary lies strictly between an offset and the next boundary. |
| `FragmentLoops.FloorBoundary` | muxws/fragment.py:38-53 | The backward loop ends on a boundary, skips none, and moves at most three bytes in valid UTF-8. |
| `FragmentLoops.NextBoundary` | muxws/fragment.py:56-62 | The forward loop ends on the first boundary above `start`. |
| `SplitLaws.SearchIsLargest` | muxws/fragment.py:120-152 | Under lengths that grow with the slice, the bisection over floored limits returns the largest boundary-aligned slice up to its ceiling that fits the cap, or 0 when none does. |
| `SplitLaws.SearchFindsNothingIff` | muxws/fragment.py:136-137 | The bisection returns 0 exactly when the one unit at `position` does not fit. |
| `FragmentLoops.HalvingsIsLog2` | muxws/fragment.py:132-133 | The halvings that count encodes are floor(log2(ceiling)) + 1. |
| `FragmentLoops.ProbesExactly` | muxws/fragment.py:132-152 | The search never makes more than floor(log2(ceiling)) + 1 encodes; when none raises it makes exactly that many, or one less exactly when a probe is too long while the number of sizes still open is a power of two above one. |
| `FragmentLoops.SizesSplit` | muxws/fragment.py:132-152 | Under lengths that grow with the slice, the sizes whose slice fits are exactly those up to the largest that does. |
| `FragmentLoops.DocumentedBoundIff` | muxws/fragment.py:132-133 | The bound the comment gives, floor(log2(ceiling)) encodes, is met, when no encode raises, if and only if bisecting the numbers up to the ceiling ends a probe early at the largest size that fits: a condition on those two numbers alone. |
| `FragmentLoops.PowersEndShort` | muxws/fragment.py:132-133 | For a ceiling that is a power of two it is met exactly when the largest size that fits is at least two below it. |
| `FragmentLoops.DocumentedBoundFails` | muxws/fragment.py:132-133 | It is never met for a ceiling one below a power of two; for a ceiling of 1 there is one encode. |
| `FragmentLoops.LargestFittingCount` | muxws/fragment.py:120-152 | The loop returns the search's result in exactly as many encodes as the counting function says; what it returns fits and nothing larger does. |
| `FragmentLoops.Middle` | muxws/fragment.py:224-242 | One pass past the closing attempt: the budgeted slice floored to a boundary, never empty, re-split only when it measures over the cap, with each of its failures. |
| `FragmentLoops.IterFragments` | muxws/fragment.py:160-246 | The generator run to its end yields exactly the fragments, and raises exactly the error, of the one splitting function both ports are compared with. |
| `SplitLaws.MiddleFound` | muxws/fragment.py:224-239 | Where one unit fits the cap, a middle fragment is found, so the floor error is not raised. |
| `SplitLaws.DrainIsCutting` | muxws/fragment.py:208-246 | What the splitter yields without an error is a boundary-aligned cutting, non-final slices non-empty, each piece within the cap. |
| `SplitLaws.CuttingIsFound` | muxws/fragment.py:208-246 | From any position the splitter has reached, it raises no error when any such cutting of the payload exists. |
| `SplitLaws.SplitsIffSomeCuttingFits` | muxws/fragment.py:160-246 | Completeness: a frame over the cap is split if and only if some boundary-aligned cutting with non-empty non-final slices fits the cap. |
| `SplitLaws.WholeIffItFits` | muxws/fragment.py:186-199 | A frame is sent whole if and only if it fits the cap, for any cap from 2 on. |
| `SplitLaws.ClosesAsSoonAsItFits` | muxws/fragment.py:209-222 | From any position, the next fragment is the last one if and only if all that is left fits in one: no fragment is spent where none is needed. |
| `SplitLaws.MiddleIsLargest` | muxws/fragment.py:224-242 | A fragment that is not the last fits the cap and holds at least one unit, and no larger slice would fit and still leave the room the splitter keeps free for its envelope. |
| `Assembly.DrainShape` | muxws/fragment.py:208-246 | The shape of every split: `more` on all but the last, headers on the first only, `end` and trailers on the last only, each fragment within the cap, non-final ones non-empty, text cut into valid UTF-8. |
| `Assembly.FeedReassembles` | muxws/fragment.py:282-301 | Fed such fragments in order, the assembler yields nothing until the last one, then the payload, and is empty again. |
| `Assembly.SplitRoundTrip` | muxws/fragment.py:160-301 | Round trip: a split without an error is the frame itself within the cap, or fragments that each fit and that the assembler turns back into the payload. |
| `Assembly.FeedCounts` | muxws/fragment.py:289-300 | After any fragment, whatever it holds, the byte count equals the sum of the parts held. |
| `Assembly.Assembler.FeedFrame` | muxws/fragment.py:282-301 | The object's `feed` does what the specification says on every fragment: pending, decoded, mixed kinds, undecodable; the buffer is dropped in all but the first. |
| `Assembly.Assembler.Reset` | muxws/fragment.py:276-280 | Dropping the buffer leaves the empty assembler. |
| `FragmentPorts.BoundaryWithin` | ts/fragment.ts:96-102 | The TypeScript width, whose loop stops at `start`, is the Python floor minus `start`. |
| `FragmentPorts.FirstUnitWidth` | ts/fragment.ts:105-111 | The width of the unit at `start` reaches exactly the Python next boundary. |
| `FragmentPorts.UnitsWithinBudget` | ts/fragment.ts:114-116 | The budgeted width equals the Python floor-or-next choice, the JavaScript falsy zero included. |
| `FragmentPorts.LargestFittingCount` | ts/fragment.ts:173-195 | The TypeScript search returns what the Python search returns. |
| `FragmentPorts.Middle` | ts/fragment.ts:268-277 | The TypeScript middle step takes the Python count, with the same failures. |
| `FragmentPorts.IterFragments` | ts/fragment.ts:222-283 | The TypeScript generator yields the same fragments and raises the same error as the Python one, for every frame, cap and codec. |
| `FragmentPorts.GuardChangesNothing` | muxws/fragment.py:212-219 | Encoding the closing fragment on every pass would yield the same fragments: the guard only saves encodes. |
| `JsonReader.EscapedByteReads` | muxws/codecs/json_.py:28 | What the writer puts for one byte of a string is read back as that byte (section 7 of RFC 8259). |
| `JsonReader.EscapeRoundTrip` | muxws/codecs/json_.py:28 | The escapes of a whole string, up to the closing quote, are read back as the string. |
| `JsonReader.ValueReads` | muxws/codecs/json_.py:64-71 | Round trip of a whole value, nested to any depth: what the encoder writes is read back as the value, and what follows it is left. |
| `JsonReader.RenderIsValid` | muxws/codecs/json_.py:28 | Whatever the encoder writes is valid UTF-8. |
| `JsonReader.JsonIsLawful` | muxws/codecs/json_.py:64-71 | JSON, with that reader, meets every law of a codec the round trip and the two-peer theorems assume; those theorems hold of it. |
| `Json.PieceLength` | muxws/codecs/json_.py:52-53 | A fragment under JSON is as long as an envelope that does not depend on the slice, plus the escaped slice; bytes are refused. |
| `Json.JsonIsMeasured` | muxws/codecs/json_.py:46-65 | The JSON codec has every length law the splitter theorems assume: lengths grow with the slice and with headers, cover the slice, and fragments of a frame that encodes, encode. |
| `Envelopes.MappingRoundTrip` | muxws/frames.py:72-118 | A frame of any type with any fields, default or not, is read back from its mapping as that frame, if and only if it does not carry a payload and a fragment both, which is refused. |
| `Envelopes.UnknownIsDropped` | muxws/frames.py:100-118 | A field of a name that is not known changes nothing about what is read, wherever in the envelope it stands. |
| `Envelopes.EncodeIsRendered` | muxws/codecs/json_.py:52-53 | The message is the JSON of the frame's mapping: each field that is not at its default once, the type and the stream first, the rest in alphabetical order. |
| `Envelopes.MessageRoundTrip` | muxws/codecs/json_.py:52-62 | What one peer encodes another decodes as the same frame, for every frame that encodes, if and only if it does not carry a payload and a fragment both. |
| `WriterModel.RotateListed` | muxws/writer.py:193-213 | Rotation, retirement and failure keep the rotation a duplicate-free listing of the lane map's keys. |
| `WriterModel.EnqueueListed` | muxws/writer.py:161-171 | So does enqueueing on a known or a new lane. |
| `WriterModel.DiscardListed` | muxws/writer.py:256-269 | So does discarding, whether or not an unsent `open` is spared. |
| `WriterModel.AdvanceListed` | muxws/writer.py:244-254 | So does slicing ahead, a failed encode included. |
| `WriterLaws.PrepareOutcome` | muxws/writer.py:84-108 | A lane without a frame is left empty by being asked; one with a frame hands it over or fails to encode it. |
| `WriterLaws.TurnServesFirst` | muxws/writer.py:193-213 | A turn serves the first lane of the rotation that has a frame, and returns nothing exactly when no lane has one. |
| `WriterLaws.DoPasses` | muxws/writer.py:161-269 | An operation that spares a lane leaves it its frame, and leaves ahead of it only lanes that already were, without the one just served. |
| `WriterLaws.BoundedBypass` | muxws/writer.py:161-269 | Bounded bypass: whatever is enqueued, sliced, discarded or fails on the others, each other lane is served at most once before a lane with a frame is, and at most as many turns pass as lanes are ahead of it. |
| `WriterLaws.PrepareKeepsUpcoming` | muxws/writer.py:84-108 | Slicing moves a frame to the prepared place and loses or reorders none. |
| `WriterLaws.LaneIsFifo` | muxws/writer.py:84-213 | In every run, what a lane has handed over followed by what it still will is what it had followed by what was put on it, each frame split, in order. |
| `WriterLaws.AskedAtMostOnce` | muxws/writer.py:193-213 | A turn asks a front part of the rotation, so no lane twice. |
| `WriterLaws.IdleInEveryRun` | muxws/writer.py:173-191 | In every run of the write loop, while the writer is not stopped, `idle` is set only when nothing is queued, prepared or being sliced, and no frame is in flight but one taken before the writer was last emptied; and the loop sleeps only with nothing to send. |
| `WriterLaws.IdleIsSetIff` | muxws/writer.py:173-191 | The converse: a turn of a running writer leaves `idle` set if and only if it was set or no lane has a frame. |
| `WriterLaws.IdleIsReached` | muxws/writer.py:173-191 | Progress over runs of the loop: from any writer that lists its lanes, with nothing enqueued meanwhile, one turn more than there are frames its lanes still hand over or fail on leaves `idle` set. |
| `WriterLaws.EndedIsIdle` | muxws/writer.py:271-285 | Stopping or emptying the writer wakes its loop, and it is idle from then on while nothing is queued; a stopped one never sends again. |
| `WriterLaws.NothingIsKept` | muxws/writer.py:193-235 | A turn that finds nothing to send leaves no lane but the connection's, and that one empty. |
| `WriterLaws.DiscardLeaves` | muxws/writer.py:256-269 | After a discard the stream's lane still sends an `open` of which nothing was sent, whole, and nothing else; without one the lane is gone; no other lane changes. |
| `WriterObjects.StreamQueue.Put` | muxws/writer.py:81-82 | A frame goes to the back of its lane. |
| `WriterObjects.StreamQueue.Prepare` | muxws/writer.py:84-108 | The object's `prepare` does what the specification says, and records whether it failed on an unsent `open`. |
| `WriterObjects.StreamQueue.Take` | muxws/writer.py:110-113 | Hands over the prepared fragment and leaves none. |
| `WriterObjects.StreamQueue.Discard` | muxws/writer.py:115-118 | Leaves the lane empty. |
| `WriterObjects.StreamQueue.DiscardExceptUnsentOpen` | muxws/writer.py:120-127 | Keeps an `open` of which nothing was sliced and drops everything else. |
| `WriterObjects.Writer.Enqueue` | muxws/writer.py:161-171 | The lane objects and the rotation change as specified: one frame at the back of one lane, a new lane last in the rotation, not idle, awake; every other lane object untouched. |
| `WriterObjects.Writer.PrepareLane` | muxws/writer.py:215-225 | Slicing one lane changes that lane alone; an exception empties and retires it and reports an unsent `open`. |
| `WriterObjects.Writer.Ask` | muxws/writer.py:199-212 | Asking a lane hands over its frame, fails it, or retires it, as specified. |
| `WriterObjects.Writer.RotateTurn` | muxws/writer.py:193-213 | The rotation loop over the objects computes the specified turn, and the lanes it asked are distinct. |
| `WriterObjects.Writer.NextFrame` | muxws/writer.py:173-191 | One pass of the loop of `next_frame`: stopped, a frame, a failure, or nothing with `wake` cleared and `idle` set exactly when no lane has work. |
| `WriterObjects.Writer.Retire` | muxws/writer.py:227-235 | Removes the lane from the map and from the rotation; the connection lane stays. |
| `WriterObjects.Writer.Advance` | muxws/writer.py:244-254 | Slices the lane ahead and wakes the loop when it has work. |
| `WriterObjects.Writer.Discard` | muxws/writer.py:256-269 | Drops a stream's frames but for an unsent `open`, and retires a lane left empty. |
| `WriterObjects.Writer.Stop` | muxws/writer.py:271-275 | Stopped, idle and awake. |
| `WriterObjects.Writer.DiscardAll` | muxws/writer.py:277-285 | Nothing is kept for a next socket. |
| `Outbound.EnqueueOpenTidy` | muxws/peer.py:313-332 | An `open` queued with the id just allocated, with nothing in between, goes to a new lane at the end of the rotation; unsent opens stay in increasing id order along the rotation. |
| `Outbound.DiscardTidy` | muxws/writer.py:256-269 | A discard keeps that order and every unsent `open`. |
| `Outbound.AskTidy` | muxws/writer.py:199-212 | The front lane's unsent `open` goes on the wire above every earlier one and below every later one, or fails and is gone. |
| `Outbound.NextFrameTidy` | muxws/writer.py:173-213 | A whole turn, over lanes that hand over, retire and fail, extends the wire by one frame that keeps the order. |
| `Outbound.AdvanceTidy` | muxws/writer.py:244-254 | Slicing ahead happens only on a lane already on the wire, so it never fails an unsent `open`. |
| `Outbound.SeenIsOpened` | muxws/writer.py:120-127 | Whatever was sent on a stream of this end's own, its `open` was. |
| `Ends.OpensInOrder` | muxws/peer.py:313-332 | In every run of one end, against any remote: every message on the wire is within the cap, nothing on a stream it opens precedes that stream's `open`, and first opens are strictly increasing, unless an over-cap message of another type names an own stream whose `open` is neither on the wire nor ahead in its lane. |
| `Strays.OnlyAStrayOvertakes` | muxws/peer.py:554-593 | The condition is exact: from any end of a run, a message that is not of that kind leaves every continuation in order; one that is has a continuation that puts its reset on the wire before the `open`, unless a frame that does not encode ends the connection first. |
| `Strays.ResetOvertakes` | muxws/peer.py:580-592 | For such a reset the run is found: within as many rounds as lanes are ahead of it, it is on the wire before any `open` of its stream. |
| `Strays.StrayResetGoesFirst` | muxws/peer.py:580-592 | The smallest such run: an over-cap `ping` that names stream 1 makes a dialer that has opened nothing send a `reset` on it first. |
| `StreamModel.HappenKeepsConsistent` | muxws/stream.py:242-309 | Every event keeps the queue's shape: payloads before any end or failure, one of those only once the remote can send no more, closed exactly when there is a cause. |
| `StreamModel.IterationYieldsWhatArrived` | muxws/stream.py:391-402 | Whatever happens to a stream, iteration yields what was queued before and then exactly the payloads that arrived while its remote could send, in order. |
| `StreamModel.AnswerIsMemoized` | muxws/stream.py:326-352 | The answer is unsettled until the first await, then is what the first arrived item or the reset decides, and once settled never changes. |
| `StreamModel.RefusedIffTaken` | muxws/stream.py:313-324 | Over any events of a stream's life, a use is refused if and only if one of another kind was granted before, or one was granted and both are iterations. |
| `StreamModel.EveryAwaitAgrees` | muxws/stream.py:326-332 | Once one await was granted every later one is, with the same answer. |
| `StreamModel.AwaitGetsTheFirstPayload` | muxws/stream.py:326-352 | On a stream that is never reset, an await gets the first accepted payload whenever it happens, and an error only if the stream ended with none. |
| `Answers.AwaitsGetWhatArrivedFirst` | muxws/stream.py:326-352 | In every run of a peer, whatever its remote sends and whenever its streams are awaited: an await on a stream that was not reset gets the first payload that inbound data brought to it, fails only when it ended with none, and waits only while nothing has come. |
| `Answers.AnswersStay` | muxws/stream.py:326-332 | An answer that is settled at some moment of a run is the answer at every later one. |
| `Answers.RefusedIffTaken` | muxws/stream.py:313-324 | In every run of a peer, over all calls made on a stream: a use is refused if and only if one of another kind was granted before it, or one was granted and both are iterations. |
| `Answers.EveryAwaitAgrees` | muxws/stream.py:326-332 | Whatever the run does after a granted await, the next await is granted and gets the same answer, the one settled by then if the first one waits. |
| `Answers.IteratorGetsWhatArrived` | muxws/stream.py:391-402 | In every run, what an iterator has been handed so far is, in order, the front of what arrived for it, and its next item is the next of those, as soon as it is there. |
| `StreamModel.FirstAwaitAfterReset` | muxws/stream.py:341-343 | A first await made after payload-then-reset sees the reset; one made in between sees the payload. |
| `StreamObject.StreamHandle.NoteRemote` | muxws/stream.py:219-234 | Refuses headers after the remote's first frame, and takes an answer's headers. |
| `StreamObject.StreamHandle.Accept` | muxws/stream.py:242-246 | Queues the payload and settles a waiting answer with it. |
| `StreamObject.StreamHandle.EndRemote` | muxws/stream.py:248-256 | Closes normally from the local half-closed state, else half-closes and ends the queue; a closed stream only takes the trailers. |
| `StreamObject.StreamHandle.TakeIn` | muxws/fragment.py:282-301 | A fragment goes to the stream's own buffer, and nothing else of it changes. |
| `StreamObject.StreamHandle.EndLocal` | muxws/stream.py:258-262 | Closes normally from the remote half-closed state, else half-closes. |
| `StreamObject.StreamHandle.CloseNormal` | muxws/stream.py:264-270 | Closed, the queue ended, a waiting answer rejected. |
| `StreamObject.StreamHandle.FailWith` | muxws/stream.py:296-309 | The first failure closes the stream, drops the partial payload, rejects a waiting answer and queues the failure; later ones do nothing. |
| `StreamObject.StreamHandle.Sending` | muxws/stream.py:111-193 | Raises exactly after a close, after the local end, or on late headers, and otherwise records the first frame. |
| `StreamObject.StreamHandle.ClaimIt` | muxws/stream.py:313-324 | One consumer: a second kind of use, or a second iteration, is refused. |
| `StreamObject.StreamHandle.AwaitAnswer` | muxws/stream.py:326-356 | The first await creates the one answer and settles it from what has arrived. |
| `StreamObject.StreamHandle.Next` | muxws/stream.py:391-402 | One item, in arrival order, if there is one. |
| `StreamObject.StreamHandle.IterateArrived` | muxws/stream.py:391-402 | The iterator's loop over what has arrived yields the payloads up to the first end or failure. |
| `StreamPort.PayloadQueue.Put` | ts/stream.ts:176-183 | The k-th `put` is the item of the k-th `get`, handed to it at once when it waits. |
| `StreamPort.PayloadQueue.Get` | ts/stream.ts:185-190 | The k-th `get` has the k-th item, at once when it was put, else as soon as it is. |
| `StreamPort.PayloadQueue.Peek` | ts/stream.ts:167-174 | The next item of a `get`, without taking it. |
| `StreamPort.StreamConsumer.AcceptPayload` | ts/stream.ts:473-476 | The port shows its consumer what the model's accepted payload does, with the item read already when an iterator waits. |
| `StreamPort.StreamConsumer.RemoteEnd` | ts/stream.ts:479-490 | The port shows the model's remote end. |
| `StreamPort.StreamConsumer.LocalEnd` | ts/stream.ts:524-527 | The port shows the model's local end. |
| `StreamPort.StreamConsumer.CloseNormally` | ts/stream.ts:529-536 | The port shows the model's normal close. |
| `StreamPort.StreamConsumer.Fail` | ts/stream.ts:493-504 | The port shows the model's failure. |
| `StreamPort.StreamConsumer.ClaimIt` | ts/stream.ts:578-592 | The port refuses a second consumer exactly when the Python port does. |
| `StreamPort.StreamConsumer.AwaitAnswer` | ts/stream.ts:595-621 | The promise made in the constructor, with its two flags, is settled as the future of the Python port is. |
| `StreamPort.StreamConsumer.Next` | ts/stream.ts:714-736 | A `get` resolves to the model's next item, or waits exactly when the model has none. |
| `PeerInvariant.OnOpenSound` | muxws/peer.py:750-795 | An inbound `open`, valid or not, keeps every receiver invariant and the limit on live remote streams. |
| `PeerInvariant.OnDataSound` | muxws/peer.py:942-976 | So does inbound data, over-cap, malformed or late, at every fragment. |
| `PeerInvariant.OverCapSound` | muxws/peer.py:554-593 | So does a message over the frame cap, on every branch. |
| `PeerInvariant.ReceiveSound` | muxws/peer.py:595-617 | So does any message at all. |
| `PeerInvariant.ReceiverBounds` | muxws/peer.py:1007-1040 | After any sequence of inbound frames and local calls every reassembly buffer is within the payload cap and counted exactly, the remote's live streams are within the limit, no closed stream is live, and a started handler's id is at or below the `last_stream` of the first goaway. |
| `Inbound.DataDelivers` | muxws/peer.py:942-976 | In any state a run can reach, against any remote: `data` on a live stream closes it, with exactly the code its fault calls for, if it comes after the remote's end, with late headers, whole amid fragments, over the payload cap, of mixed kinds or undecodable; any other delivers exactly the payload it completes and the end, trailers and headers it carries, changes nothing else of the stream and sends nothing. |
| `Inbound.ResetIsHeard` | muxws/peer.py:916-928 | An inbound reset closes its stream at once with the code it carries, 0 without one; of what was queued only an `open` not yet begun still goes out, and nothing is answered. |
| `Inbound.OpenBegins` | muxws/peer.py:750-795 | Any `open` that begins a stream: over the limit, over the payload cap, undecodable, after a sent goaway or without a handler it is turned away with that code and no handler; otherwise its stream starts once the payload is whole, with the payload, headers and end it carried. |
| `Inbound.OpenContinues` | muxws/peer.py:797-809 | Any later fragment of an opening payload, likewise; the end counts on the last one. |
| `Inbound.OthersAnswer` | muxws/peer.py:595-617 | A ping is answered with its own nonce; a pong and a frame of unknown type change nothing. |
| `Inbound.OverCapAnswers` | muxws/peer.py:554-593 | An `open`, `data` or `reset` over the cap delivers nothing and starts nothing; it fails the connection, and moves the mark, exactly when the same message within the cap would; otherwise the live stream it names is closed with PAYLOAD_TOO_LARGE, one it would have begun is turned away with it, and a late one is ignored. |
| `Calls.SendTakesEffectIff` | muxws/stream.py:111-158 | In any state a run can reach: a send takes effect if and only if the stream is live, its own side has not ended, and headers come only on its first frame; then exactly its frame is last in the lane, the end ends the own side, and no other stream changes. |
| `Calls.ResetTakesEffectIff` | muxws/stream.py:201-217 | A reset takes effect if and only if the stream is live and the code may be sent; then the stream is closed with it at once, and of its frames only an `open` not yet begun goes out before the reset. |
| `Calls.RaisingTakesEffectIff` | muxws/peer.py:869-892 | A raising handler resets its stream if and only if that is live, behind all it had sent. |
| `Calls.OpenTakesEffectIff` | muxws/peer.py:313-349 | In every run, `open` takes effect if and only if the connection is open, neither end has said farewell, and ids are left; the streams opened have the ids of this peer's parity in order, none left out. |
| `Calls.DeathClosesAll` | muxws/peer.py:1121-1145 | A dead socket closes every live stream with CONNECTION_CLOSED, touches no other, and drops all that was queued. |
| `Calls.NothingAfterDeath` | muxws/peer.py:1121-1145 | After it nothing is put on the wire, queued or changed on any stream, whatever is called. |
| `Calls.TurnTakesEffect` | muxws/peer.py:419-479 | A turn of the write loop puts the writer's frame on the wire and changes no stream, or, when a lane cannot be encoded, closes that lane's stream with INTERNAL_ERROR and tells the remote unless it never heard of it; a lane without a live stream ends the connection. |
| `Calls.SlicingTakesEffect` | muxws/peer.py:432-479 | Slicing ahead sends nothing and does likewise. |
| `Locality.OneStreamAtATime` | muxws/peer.py:896-929 | While the connection goes on, a message about one stream, whatever it is, leaves every other stream, its lane and the connection as they were, but for the mark a new `open` moves. |
| `ConnectionLane.ConnectionTalk` | muxws/peer.py:595-634 | In every run, what the connection's lane put on the wire followed by what still waits there is exactly what the actions of the run call for, in order: each ping, a pong for each ping read, the farewells, and a reset for an over-cap message of another type that names stream 0; once the connection is dead the wire has the front of that. |
| `ConnectionLane.MarkIsTheLargest` | muxws/peer.py:811-827 | At every moment of every run the remote's mark is the largest id among its `open`s that were read, 0 when there was none. |
| `ConnectionLane.GoawaysNameTheLargest` | muxws/peer.py:683-693 | In every run, each goaway on the wire comes of a `close` or of a message that failed the connection, and its `last_stream` is exactly the largest id among the remote's `open`s read up to then, 0 when there was none. |
| `Farewells.GoawayEnds` | muxws/peer.py:695-714 | A received goaway closes with REFUSED exactly the live streams of this end above the id it names; no other stream, and nothing queued, changes. |
| `Farewells.NoneOutlivesTheGoaway` | muxws/peer.py:695-714 | In every run, once a goaway was read, no stream of this end above it is live at any later moment, and none is opened. |
| `Farewells.GoawaysCoverWhatWasStarted` | muxws/peer.py:683-693 | In every run, every goaway on the wire names a `last_stream`, and no stream above it ever has its handler started, before or after. |
| `Lives.ConsumersGetWhatArrived` | muxws/stream.py:242-294 | In every run of a peer, whatever its remote sends, iteration of any of its streams yields exactly the payloads that inbound data brought to it, in order. |
| `Lives.EndIsQueuedIff` | muxws/peer.py:776-777 | In every run, on a stream that was not reset and whose remote has ended, the end is on the queue if and only if it came on a `data` frame or the stream has closed. |
| `Lives.OpenWithEndQueuesNone` | muxws/peer.py:776-795 | The excluded input: an `open` that carries `end` starts its handler on a stream with an empty queue and no end item; an await waits, and no further arrival or end changes that. |
| `PeerObject.PeerHandle.OpenNew` | muxws/peer.py:313-349 | Refused on a dead or departing connection or with ids used up; otherwise the new id, stream and queued `open` are one step of the specification, and the handle returned is the object in the live map. |
| `PeerObject.PeerHandle.SendOn` | muxws/stream.py:111-158 | A send is the specified frame queued behind what was sent before, with the stream's state after it. |
| `PeerObject.PeerHandle.ResetOn` | muxws/stream.py:197-215 | A reset discards the stream's frames but for an unsent `open`, queues one reset, and closes the stream; nothing happens on a closed one. |
| `PeerObject.PeerHandle.HandlerRaised` | muxws/peer.py:869-892 | A raising handler queues one reset behind what it sent, and closes the stream. |
| `PeerObject.PeerHandle.FailOneLane` | muxws/peer.py:458-479 | A lane that cannot be encoded fails its stream, with a reset only when its `open` was sent; without a stream the connection dies. |
| `PeerObject.PeerHandle.SendGoawayOnce` | muxws/peer.py:683-693 | At most one goaway by `close`, naming the highest remote id. |
| `PeerObject.PeerHandle.SocketDied` | muxws/peer.py:1121-1145 | Every live stream fails, the live map and the writer are emptied, once. |
| `PeerObject.PeerHandle.AdmitRemoteOpen` | muxws/peer.py:811-827 | An id is admitted exactly when of the remote's parity and above the mark, which it becomes; otherwise the connection fails. |
| `PeerObject.PeerHandle.StartOrRefuse` | muxws/peer.py:829-847 | The handler starts, or, after a goaway or without a handler, the stream is refused. |
| `PeerObject.PeerHandle.Reassemble` | muxws/peer.py:1007-1036 | One fragment is measured before it is kept, and over the cap or malformed resets its stream. |
| `PeerObject.PeerHandle.HandleOpen` | muxws/peer.py:750-795 | An inbound `open` takes the branch of the specification: continue, fail, refuse, or create. |
| `PeerObject.PeerHandle.HandleData` | muxws/peer.py:942-976 | Inbound data is delivered, or resets the stream after the end, on late headers, and on a whole frame amid fragments. |
| `PeerObject.PeerHandle.HandleStreamFrame` | muxws/peer.py:896-929 | A frame for a stream that is not live is ignored at or below the mark and fails the connection above it; a reset closes. |
| `PeerObject.PeerHandle.HandleGoaway` | muxws/peer.py:695-714 | Exactly the own streams above `last_stream` fail, without a reset. |
| `PeerObject.PeerHandle.AnswerOverCap` | muxws/peer.py:554-593 | An over-cap message is answered on each branch as specified, and goes no further. |
| `PeerObject.PeerHandle.ReadOne` | muxws/peer.py:513-552 | One turn of the read loop on a decoded message is the specified step. |
| `PeerObject.PeerHandle.SendPingOf` | muxws/peer.py:619-634 | A ping on an open peer is one frame on the connection lane. |
| `PeerObject.PeerHandle.CloseAll` | muxws/peer.py:1121-1145 | The loop over the live streams fails each of them on its own object and takes it out of the map. |
| `PeerObject.PeerHandle.CloseStream` | muxws/stream.py:296-309 | The stream object fails, which its holder sees, and it leaves the live map. |
| `PeerObject.PeerHandle.AwaitOn` | muxws/stream.py:326-356 | An await made on a handle, past the peer, is an await of the stream in the peer, and changes nothing else of it. |
| `PeerObject.PeerHandle.PullOn` | muxws/stream.py:391-402 | A `get` made on a handle, past the peer, is one of the stream in the peer. |
| `PeerObject.PeerHandle.TakeNext` | muxws/peer.py:419-456 | The next frame for the wire, or the failure of one lane. |
| `PeerObject.PeerHandle.SentOne` | muxws/peer.py:432-453 | Slicing ahead after a frame has reached the socket. |
| `PeerRun.Perform` | muxws/peer.py:313-552 | Any call of the application, message read, or turn of the write loop does to the objects what it does to the model; a call on a stream that has closed does nothing. |
| `PeerRun.Drive` | muxws/peer.py:313-552 | Refinement over whole runs: after any sequence of those, the peer's stream and writer objects show exactly the state of the model's run, and each handle in the live map shows its stream. |
| `PeerTable.VerdictDecides` | muxws/peer.py:896-914 | The verdict read off the marks and the live map is what the peer acts on: fatal exactly when the connection fails, ignored exactly as a late frame. |
| `PeerTable.VerdictsAgreeIff` | muxws/peer.py:811-827 | On a frame the compact verdict is that of a per-id table, in which opening an id closes all lower idle ids (compare section 5.1.1 of RFC 9113), if and only if the frame is an `open`, is not on stream 0, or the mark for stream 0 has risen. |
| `PeerTable.ZeroIsIgnored` | muxws/peer.py:904-914 | The excluded input: a new peer ignores `data` on stream 0, where the table says fatal. |
| `PeerTable.AdmissionAgrees` | muxws/peer.py:811-827 | An inbound `open` is admitted by the mark if and only if the table has its id idle and of the remote's parity. |
| `PeerTable.MarksRefineTheTable` | muxws/peer.py:896-914 | In every run, well formed or not, two marks and the live map give the full table's verdict on the next frame if and only if it is not such a frame on stream 0. |
| `Lives.NoIdIsReused` | muxws/peer.py:1224-1226 | In every run of a peer, counted over its own steps, an id begins at most one stream, and the stream it began is the one it names ever after. |
| `Conversation.TwoPieces` | muxws/peer.py:1025-1036 | A receiver makes of two consecutive fragments what it makes of the one they were cut from. |
| `Conversation.ResumeIsInaudible` | muxws/writer.py:84-108 | One call of the splitter changes nothing about what will be heard from a stream. |
| `Conversation.PrepareIsInaudible` | muxws/writer.py:84-108 | Slicing a lane ahead changes nothing about what will be heard from it. |
| `Conversation.HeadersStay` | muxws/stream.py:219-234 | Once a side has begun, no later frame that can be heard changes its leading headers. |
| `Conversation.PrefixIsHeard` | muxws/peer.py:942-976 | Of a sequence of frames a receiver can hear, it can hear every prefix, and has then been given a prefix of the payloads. |
| `Reception.DataAt` | muxws/peer.py:942-976 | Inbound `data` that its stream's reader can hear is taken in as the reader makes of it, unless its fragment takes the payload over the cap: then, and only then, it is turned away with PAYLOAD_TOO_LARGE. |
| `Reception.NewOpenAt` | muxws/peer.py:750-795 | The first frame of a stream is taken in as its reader would have it, or turned away with exactly the code that the stream limit, the payload cap, a sent goaway or a missing handler calls for. |
| `Reception.LaterOpenAt` | muxws/peer.py:797-809 | A later fragment of an opening payload likewise. |
| `Reception.DataTurnedAwayIff` | muxws/peer.py:1007-1019 | Of the frames a reader can hear, `data` is turned away if and only if it has a fragment that takes the payload over the cap. |
| `Reception.OpenTurnedAwayIff` | muxws/peer.py:750-795 | A first `open` is turned away if and only if the stream limit is reached, its fragment is over the payload cap, or, once it is whole, a goaway was sent or no handler is registered. |
| `Halves.TakenInLinked` | muxws/peer.py:942-976 | A frame that arrives and is taken in keeps a stream's two ends tied through what is on its way. |
| `Halves.RefusedLinked` | muxws/peer.py:763-774 | So does one over which the listener closes the stream. |
| `Halves.EchoLinked` | muxws/peer.py:904-914 | So does what is said after the end, to which a listener that has ended too is deaf. |
| `Halves.ResetLinked` | muxws/peer.py:414-417 | So does a reset that drops queued frames, whatever is on its way already. |
| `DuplexModel.AppResetJoined` | muxws/stream.py:201-217 | The tie of every stream survives an application's reset or cancel, of a stream whose `open` is unsent too. |
| `DuplexMoves.SendJoined` | muxws/stream.py:111-158 | It survives a send, on a stream that is still opening or that was ended already too. |
| `DuplexMoves.GoodbyeJoined` | muxws/peer.py:683-693 | It survives a goaway, and marks as late what the other end opens above it. |
| `DuplexMoves.SendPingJoined` | muxws/peer.py:619-634 | It survives a ping, and so do its answers. |
| `DuplexWriting.TakeJoined` | muxws/peer.py:419-456 | It survives every turn of the write loop, lanes that fail included. |
| `DuplexReading.GoawayReadJoined` | muxws/peer.py:695-714 | It survives a received goaway that closes streams without a reset. |
| `DuplexReading.DeliverJoined` | muxws/peer.py:513-552 | It survives every frame that arrives; and of those only an `open` of a stream whose opening was cut short fails the connection. |
| `DuplexLaws.RunJoined` | muxws/peer.py:419-552 | Safety over whole runs: the ties of all streams, both ways, hold after any interleaving of the two applications, which may act on streams that are still opening, their pings, write loops, read loops and socket deaths. |
| `DuplexLaws.DeliveredIsPrefix` | muxws/peer.py:942-976 | End to end, in every reachable state: what an application was given on a stream is, whole and in order, a prefix of what the other end's application said on it up to where it ended it. |
| `DuplexLaws.DrainedArrived` | muxws/writer.py:173-191 | A writer without work and a channel read to its end leave nothing of any stream on its way. |
| `DuplexLaws.DeliveredToItsEnd` | muxws/peer.py:942-976 | Once everything has arrived, on live connections, a stream that neither end reset was conveyed, each way, up to where its application ended it: every payload, the end, the leading headers and the trailers. |
| `Endings.DeliveredIsCompleteIff` | muxws/peer.py:942-976 | It was conveyed completely if and only if nothing was sent on it after it was ended; and something can be only when both applications ended it before its opening payload was complete, the opener in an `open` that carries the end. |
| `Undisturbed.NothingIsReset` | muxws/peer.py:942-976 | Over two peers: in a run in which no application resets, no handler raises, no lane fails, no farewell is said, no end dies, the limits are never reached and every payload is within the other end's cap, no connection fails and no stream is ever closed by a reset. |
| `Undisturbed.EverythingIsConveyed` | muxws/peer.py:942-976 | In such a run everything said on a stream that has arrived was conveyed to where it was ended, with no assumption left about resets or failures. |
| `Room.SlicedFits` | muxws/fragment.py:160-246 | Slicing a lane ahead changes nothing about whether the payloads on it stay within the other end's cap. |
| `Endings.NothingIsHeardAfterTheEnd` | muxws/peer.py:904-914 | Whatever an application says after it has ended a stream, and whatever happens then, the other end is never given any of it. |
| `Endings.ReadAgain` | muxws/peer.py:806-807 | Of all frames and sizes, the one that lets a stream send again after its end is the last fragment of an `open` that carries the end. |
| `DuplexLaws.HeadersAgree` | muxws/stream.py:219-240 | In every reachable state with live connections, both ends of a stream that neither reset see the same leading headers each way, from the first frame that may carry them on. |
| `DuplexLaws.OnlyACutOpeningFails` | muxws/peer.py:811-827 | In every reachable state, a frame that arrives fails the connection if and only if it is an `open` of a stream that end refused or closed while its opening payload was incomplete. |
| `DuplexLaws.FailureNeedsACutOpening` | muxws/peer.py:1044-1061 | From any joined state a run with a failed connection has delivered such an `open`. |
| `DuplexLaws.StepNeverFails` | muxws/peer.py:1044-1061 | No local call, turn of the write loop or socket death marks the connection failed. |
| `DuplexLaws.PeersDoNotFailEachOther` | muxws/peer.py:811-827 | Two correct peers never fail each other's connection, crossing resets, cancels of unsent opens and goaways included, in any run in which no cut opening is continued. |
| `Refusals.FillsUp` | muxws/peer.py:763-774 | Up to any limit the ids can reach, a run fills the acceptor: as many streams are live there as it allows, and nothing is on its way. |
| `Refusals.CutOpenFails` | muxws/peer.py:763-774 | From there, an `open` that is cut into two fragments or more is refused, and its second fragment fails the connection. |
| `Refusals.RefusedOpeningFails` | muxws/peer.py:763-774 | The excluded run, for any lawful codec under which an `open` with a null payload fits the cap, and any limit the ids can reach: a run of the two peers in which the acceptor's connection fails. |
| `JsonRefusals.JsonOpeningFails` | muxws/peer.py:763-774 | With JSON, any cap from 128 bytes on and any limit the ids can reach, such a run exists, with no assumption about the codec left. |
| `DuplexLaws.QuietEndsMirror` | muxws/stream.py:248-309 | Whenever everything has arrived both ways on live connections, the two ends of a stream are both gone or both live in mirrored states, if and only if neither may send again after its end. |
| `Endings.QuietEndsMirrorIff` | muxws/peer.py:806-807 | They mirror each other if and only if it is not so that both applications ended the stream before its opening payload was complete, the opener in its `open`, and one end of it still lives. |
| `Reopenings.EarlyEndIsUndone` | muxws/peer.py:806-807 | The excluded run, for any lawful codec under which such an `open` is cut in two: nothing is on its way, neither end reset the stream, it is closed at its opener, and the other end may send on it again. |
| `JsonReopenings.JsonEarlyEndIsUndone` | muxws/peer.py:806-807 | With JSON and any cap from 256 bytes on such a run exists, with no assumption about the codec left. |
| `DuplexWhole.WholeOpensNeverFail` | muxws/peer.py:811-827 | When every `open` the applications make fits one frame, no run of the two peers fails a connection. |
| `DuplexRetry.RefusedWasNotProcessed` | muxws/peer.py:829-847 | Retry safety: in every run in which no application sends REFUSED itself, a stream that ends REFUSED at its opener, by a reset or a goaway, never had its handler started at the remote. |
| `DuplexRetry.RunRetryable` | muxws/peer.py:695-714 | What every run keeps for it: wherever REFUSED was seen or is on its way, the remote will never start a handler for that id. |
| `Registry.RemovedInverse` | muxws/registry.py:77-85 | Discarding one holder, and its bucket when empty, keeps index and reverse map mutual inverses with no empty bucket. |
| `Registry.AddedInverse` | muxws/registry.py:60-70 | So does adding one. |
| `Registry.Narrowed` | muxws/registry.py:106-114 | One more key narrows a scan to the holders of its entry. |
| `Registry.SnapshotSincePlainWrites` | muxws/registry.py:50-58 | Tag writes after `register` change nothing until the next one: the snapshot is the tags as they were. |
| `Registry.PeerRegistry.RegisterPeer` | muxws/registry.py:50-75 | The peer's snapshot becomes its tags, all others stay, and the inverse invariant holds. |
| `Registry.PeerRegistry.DeregisterPeer` | muxws/registry.py:77-85 | The peer is forgotten, all others stay, and no bucket is left empty. |
| `Registry.PeerRegistry.PeersFor` | muxws/registry.py:96-116 | Equals a linear scan of all snapshots: every wanted key present with an equal, hashable value; all peers when none is wanted; none for an unhashable value. |
| `Registry.AnswerAfter` | muxws/registry.py:50-116 | After any sequence of tag writes, registers and deregisters, the answer is that of a scan of the tags each registered peer had when last registered. |
| `RegistryPort.PortRegistry.RegisterPeer` | ts/registry.ts:78-106 | As in the Python port, over a map of maps and arrays of entries. |
| `RegistryPort.PortRegistry.DeregisterPeer` | ts/registry.ts:109-121 | As in the Python port; no empty set and no empty inner map is left. |
| `RegistryPort.PortRegistry.PeersFor` | ts/registry.ts:145-159 | Equals the same scan. |
| `RegistryPort.AnswerAfter` | ts/registry.ts:78-159 | After any sequence of operations the TypeScript port answers as the same scan, so as the Python port does. |
| `RegistryPort.PrunedInverse` | ts/registry.ts:113-120 | Removing one entry keeps the two levels and the arrays mutual inverses, without empty maps or sets. |
| `Reconnect.DelayGrowsToTheCap` | muxws/reconnect.py:89-100 | The unjittered delay never decreases with failed attempts and never passes the cap. |
| `Reconnect.DelayIsPlanned` | muxws/reconnect.py:89-100 | With a cap that is not negative, the delay after no failure is the smaller of the first delay and the cap, and after one more failure the smaller of the factor times the one before and the cap. |
| `Reconnect.CapIsReachedIff` | muxws/reconnect.py:89-100 | The cap is reached after some number of failures if and only if it is no more than the first delay or the factor is above 1, and it is kept from then on. |
| `Reconnect.SleepsArePlanned` | muxws/reconnect.py:399-417 | In every run of the helper, the sleep after k others since the connection was last up is the first delay times the factor k times, never past the cap, and the share of it that its draw gives. |
| `Reconnect.UndrawnSleepsArePlanned` | muxws/reconnect.py:399-417 | With every draw 0, each sleep is that delay. |
| `Reconnect.EveryLossIsAnswered` | muxws/reconnect.py:364-470 | Whatever the attempts after a loss turn out to be: all failing ones are dialled while the options allow more, and the one after them unless the helper was stopped asleep; an establishment brings the connection up once and the next loss is answered alike; running out gives up once; that or a stop is the end. |
| `Reconnect.JitterStaysWithin` | muxws/reconnect.py:74-86 | With a cap that is not negative and a draw in [-1, 1], the delay lies within the jitter fraction of the unjittered one and is not negative. |
| `Reconnect.JitterStaysWithinIff` | muxws/reconnect.py:49-62 | The options' checks accept a negative cap; the delay lies within its fraction if and only if the cap is not negative. |
| `Reconnect.NegativeCapMeansNoDelay` | muxws/reconnect.py:74-86 | With a negative cap every delay is zero, whatever is drawn. |
| `Reconnect.ConnectionLoop.Redial` | muxws/reconnect.py:399-417 | The record grows by exactly the marks of the attempts up to the first that ends the redial, and how it ends is what they determine; it is exhausted only with no attempt left. |
| `Reconnect.ConnectionLoop.Adopt` | muxws/reconnect.py:419-453 | A hello that is acknowledged resets the counter, the only place that does; one that fails is one failed attempt. |
| `Reconnect.ConnectionLoop.GiveUp` | muxws/reconnect.py:472-491 | Reports the loss as final. |
| `Reconnect.ConnectionLoop.Try` | muxws/reconnect.py:399-453 | One attempt adds to the record exactly what its draw and outcome determine: the scheduled sleep, the dial, and the miss, loss or establishment that followed. |
| `Reconnect.ConnectionLoop.Supervise` | muxws/reconnect.py:364-384 | Loss after loss, the record grows by exactly what the attempts and options determine, and stays lawful. |
| `Reconnect.RunHelper` | muxws/reconnect.py:364-470 | In every run of the helper the record is the one its attempts and options determine, and of it: the counter is the failed attempts since the last establishment, at most `max_attempts` dials come between two establishments, every delay is on the schedule, a loss reported as final is followed by no dial, and a loss is reported as final exactly when no dial is left. |

## Left out

- `ts/writer.ts` and the stream states and protocol steps of `ts/stream.ts` and `ts/peer.ts`, which mirror the
  Python, are not modelled a second time; the TypeScript fragmenter, stream consumer and
  registry, which are written differently, are.
- `ts/reconnect.ts`: the same schedule and driver in milliseconds, not modelled a second time.
- Sockets, transports, handshakes, `connect`, `accept` and `serve`'s plumbing: the socket is a lossless
  channel that may die at any step.
- Wall-clock time: heartbeat, ping deadlines, drain windows and request timeouts; an expiry is a local
  reset or a death at any step. Pong bookkeeping has no effect on streams.
- Handler tasks: a handler is a flag that says it was started; what it does is any sequence of local calls,
  on any stream there is.
- Interceptors, observers, logging, error classes and reason text: no effect on protocol state.
- `_fail_unsendable`, `_fail_internal` and the shutdown when ids run out: `open` refuses past the last id,
  the rest are ways for a connection to die.
- Frames travel the channel as values, with the length their encoding has; `Envelopes.MessageRoundTrip` is why
  nothing is lost by that. A message that does not decode fails the connection as a frame without a stream does,
  and is no step of its own.
- Floats and msgpack: no value of the model is a float, and msgpack is covered as far as it meets the laws
  of a codec.
- Lone surrogates: text that is not UTF-8 is refused by the encoder here, where the source fails a moment later,
  when it measures the message.
- JsonReader.ValueReads: the reader takes the compact form the encoder writes. White space, floats and the
  escapes no encoder here writes, which the source's reader also takes, are not modelled; neither are dict
  keys that come twice, which no dict holds.
- The payload of a fragmented `reset` is not reassembled by the source either; the delivery theorems are
  about the payloads of `open` and `data`.
- A message the read loop holds while the write loop takes the connection down: it may still be dispatched to the
  dead peer there (`muxws/peer.py:1077-1085`), where a dead peer here drops it.
- The order in which `peers_for` lists what it found, and tag values of different types that compare
  equal; tag values stand for classes of equal values.
- PeerObject.PeerHandle.ReadOne: the map of all streams ever created is a ghost field beside the live map, for
  the handles an application still holds; nothing that is not ghost reads it. A stream learns of its peer by
  the peer's own call, so the callbacks from stream to peer are calls the peer makes.
- PeerObject.PeerHandle.CloseStream: the ghost set of streams cut while opening is kept for the theorems
  and is no field of the source; nothing in the source reads it.
- DuplexRetry.RefusedWasNotProcessed: an application that itself sends REFUSED is excluded, as it may do
  so after its handler ran.
- Endings.DeliveredIsCompleteIff: a stream that either end reset has no completeness promise, only the
  prefix.
- Reconnect.DelayGrowsToTheCap: over the reals, so the source's overflow branch, which returns the cap, is
  the same minimum here.
- Reconnect.RunHelper: the outcome of each attempt and each draw is an input; the hello exchange is one of
  those outcomes.
- Callback failures, weak references of the registry's close hooks, and the demo and interoperability
  programs.
