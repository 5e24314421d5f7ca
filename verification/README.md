# Verified model of nuropb-rmq

nuropb-rmq is an AMQP 0-9-1 client written from the octets up, with a JSON-RPC session on top
of it. This project models the parts of it whose behaviour is hard to see from any one
function, and proves what they promise together:

- **The wire** (`Octets`, `Utf8`, `Frames`, `FieldTables`, `FieldTableProofs`,
  `FieldTableReach`, `FieldTableDepths`, `FieldTableCodec`, `ContentHeader`,
  `ContentHeaderCodec`, `ValueLayouts`, `Methods`, `MethodLayouts`, `MethodCodec`, `Assembler`,
  `ReadLoop`, `ConnectionReader`, `Publishing`, `WirePath`, `WireInterleaving`): frames, field
  tables, the content header, the methods that come in and those of them that the client also
  sends, the body splitter, the incremental decoder and the per-channel assembler. Encoders and
  decoders are compared with each other and with the octets the standard lays out, field by
  field. They end in two theorems: delivered and returned messages, put on the wire octet by
  octet, their bodies cut into any parts and the octets into any chunks, come out of the read
  loop with all their fields unchanged; and so they do when the frames of several channels are
  interleaved in any way and mixed with heartbeats, answers, confirms and flow control.
- **Publisher confirms** (`AnswerWaiters`, `Confirms`, `ConfirmChannel`, `ConfirmResults`,
  `ChannelPublisher`): which calls that wait for one method of the broker come back; the
  tracker that numbers publishes, the deque of mandatory tags that decides which publish a
  `basic.return` belongs to, the exact conditions under which the numbering agrees with the
  broker's and that decision is right, and how each publish call ends, told from the history of
  signals and losses alone: all over all runs of client and broker.
- **The RPC session** (`Correlation`, `RpcServer`, `SessionState`, `SessionRuns`,
  `SessionSafety`, `SessionRepublish`, `SessionAnswers`, `SessionConclusions`, `SessionParking`,
  `SessionReopening`, `SessionStranding`, `SessionObject`, `SessionRefinement`, `Reconnection`): one state machine,
  with a step for every stretch of code between two awaits, in which callers, the reply loop,
  the reconnecting task, the broker and the servers may step in any order and a loss may land
  anywhere. Over all its runs: a call ends with an outcome iff a step with that cause came
  while it was pending, and in particular is answered iff its reply was delivered; calls
  complete at most once and with the handler's own answer or error, every message is what a caller asked
  for, confirmed calls stay parked, and republishing is exact. The exact conditions are proved
  under which a call is left behind, on a closed session or on an open one, and under which a
  session that was closed stays closed. On an open session a call counts as left behind only
  once its publish is confirmed: one that is still registered or sent is not counted. On a
  closed session every pending call counts.
- **The handshake and the watchdog** (`ConnectionMachine`, `Watchdog`).

Where the source updates objects in place or loops, the model has a class or a method that does
the same and is proved equal to a specification function; the theorems are about those
functions. Where a frame, text or number matters as octets it is octets: text is its UTF-8
octets with a validity predicate, a double is its eight octets, and integers carry the source's
range checks explicitly.

What the code does, where its documentation or the AMQP specification would lead one to expect
something else, is kept and stated as a theorem:

- A message with an empty body is followed by an empty BODY frame, which the client's own read
  loop rejects (`WirePath.EmptyBodyLosesTheConnection`).
- With one depth budget, k nested tables can be encoded iff k is within it but decoded iff 2k
  is (`FieldTableProofs.DepthBudgetsDiffer`).
- The declared end of a table does not bound what is read for its last value, unless the
  table's reach is its end (`FieldTableReach.DeclaredEndBoundsIff`,
  `FieldTableReach.OverrunReaches`).
- A second content header in the middle of a body is accepted, and the message then has more
  octets than declared (`Assembler.HeaderThenBodies`).
- Returns are filed under the oldest mandatory publish; out of order they are filed wrongly
  (`ConfirmChannel.ReturnOutOfOrder`), and a loss between an ack and the resumption of its call
  turns a returned publish into a successful one (`ConfirmChannel.LossAfterAckHidesReturn`).
- Two overlapping calls of `confirm_select` can both come back, if the second has found
  confirms off and waits in its write while the first gets its answer. Both enable confirms,
  and the second starts the numbering over: tags are used twice and no longer agree with the
  broker's (`ConfirmChannel.SecondSelectStartsOver`). Conservation and agreement hold in a run
  iff no such call comes back once tags have been given out
  (`ConfirmChannel.ConservedIffNeverRenumbers`, `ConfirmChannel.TagsAgree`).
- Calls that wait for the same method of the broker on one channel share one key, and each new
  one takes it from the one before: a call comes back iff an answer comes in while its own
  future is filed (`AnswerWaiters.EndsIff`, `AnswerWaiters.OverwrittenNeverComesBack`).
- While the broker blocks publishing, a delivery that is due a reply is neither answered nor
  settled, and the server's loop ends (`RpcServer.SettledOnce`,
  `RpcServer.BlockedReplyLeavesDeliveryUnsettled`, `RpcServer.LoopEndsAtBlockedReply`).
- An ack or a nack that comes in cut short of its bits is taken as one with no bit set
  (`MethodLayouts.BitsMayBeMissing`), and a method that is not known is kept and not refused
  (`MethodLayouts.UnknownIsKept`).
- The id pattern ends in `$`, so an id with one trailing newline is valid
  (`Correlation.ValidIdIsSafe`, `Correlation.NewlineIdIsValid`).
- The session's documentation says that parked calls stay pending and are republished. A loss
  after the last result the reconnect task awaits, but before that coroutine resumes, leaves
  them pending with nobody reconnecting and no connection
  (`SessionParking.LossBeforeConsumingIsSeen`, `SessionParking.LossBeforeConfirmIsSeen`,
  `SessionParking.AbandonedForGood`).
- So does an exception in the middle of a republish round on a connection that stays up: the
  retry finds the session open and returns, and the calls the round had left are sent again by
  nobody (`SessionStranding.RaiseInRoundStrands`, `SessionStranding.StrandedUntilLoss`).
- An exception in the reply loop fails every pending call and drops every parked one, whatever
  the policy (`SessionStranding.BrokenReplyLoopFailsAll`), and leaves the session open with
  nobody to read its replies: it goes on taking calls that no reply can reach
  (`SessionStranding.DeafSessionTakesCalls`, `SessionStranding.DeafUntilLoss`).
- `SessionStranding.LeftBehindExactly` says that these, a `close` that goes on over calls (next
  item), and confirms that come too late for a round are all the ways to lose a call; the last
  of them comes of a schedule coarser than the event loop's.
- The automatic reconnection can swallow its cancellation by `close`: in its teardown, where it
  drops the cancellation while it waits for tasks it has cancelled itself, and where it awaits
  an answer through `wait_for`, which in Python 3.11 hands out what is already there, the
  answer or the loss of the connection, instead of the cancellation. Then the session can open
  again although it is being closed (`SessionReopening.OpensWhileClosing`), take calls on, and
  be closed over them (`SessionReopening.CallIsClosedOver`).
- A session closed by its caller stays closed, unless a caller reconnects it, iff its policy is
  fail-fast, or its connection is lost when it is closed and the automatic reconnection does
  not go on in spite of the cancellation (`SessionReopening.ReopensIff`; by what the session
  looks like at the call of `close`, `SessionReopening.MayReopenIff`). Otherwise it can reopen
  by itself, if the connection breaks while it is closing.
- Between two checks the watchdog awaits the write of a heartbeat. If the peer does not read,
  that can block for ever, no further check is made, and the silent peer is never declared lost
  (`Watchdog.SilenceIsNoticedIff`, `Watchdog.BlockedWriteHidesSilence`).
- With a frame limit of exactly the frame overhead the body-splitting loop would never end; the
  METHOD frame before it is refused first (`Publishing.SplittingLoopGetsOn`).
- The first reconnect pause is not capped (`Reconnection.Reconnect`), and `on_close_ok` leaves
  even the error state (`ConnectionMachine.TerminalStates`).

## Model

| member | source | states |
|---|---|---|
| Frames.EncodeFrameInPlace | src/nuropb_rmq/transport/frame.py:45-59 | filling a buffer in place gives exactly the frame of section 4.2.3 of AMQP 0-9-1, or the error for a channel, size or limit out of range |
| Frames.DecodeIsInverse | src/nuropb_rmq/transport/frame.py:45-96 | the decoder returns a frame iff the buffer starts with what the encoder makes of that frame, and it uses exactly those octets |
| Frames.DecodeIsStable | src/nuropb_rmq/transport/frame.py:62-96 | a frame or an error other than "incomplete" does not change when octets are appended |
| Frames.CutFrameIsIncomplete | src/nuropb_rmq/transport/frame.py:68-90 | every proper prefix of a frame is "incomplete", never an error and never a frame |
| Frames.IncompleteIff | src/nuropb_rmq/transport/frame.py:68-90 | the decoder asks for more octets iff there is no whole frame head yet, or what is there is a proper prefix of a frame it would accept |
| Frames.FrameLayout | src/nuropb_rmq/transport/frame.py:45-59 | a frame octet by octet: type, channel and size in big-endian order, payload, and 206 at the end |
| Utf8.ValidUtf8Iff | src/nuropb_rmq/transport/frame.py:102-117 | octets count as text iff they encode some sequence of Unicode scalar values by section 3 of RFC 3629 |
| FieldTables.ShortstrRoundTrip | src/nuropb_rmq/transport/frame.py:102-117 | a short string decodes to itself at its exact end, inside any octets |
| FieldTables.LongstrRoundTrip | src/nuropb_rmq/transport/frame.py:120-135 | the same for long strings |
| FieldTables.ShortstrInverse | src/nuropb_rmq/transport/frame.py:102-117 | the short-string decoder returns a text iff the octets there are what the encoder makes of it, and uses exactly those |
| FieldTables.LongstrInverse | src/nuropb_rmq/transport/frame.py:120-135 | the same for long strings, up to the ceiling |
| FieldTables.DictSetLookup | src/nuropb_rmq/transport/frame.py:298-322 | of two entries with one key the later value counts, in the earlier place, and other keys keep theirs |
| FieldTables.DecodeValue | src/nuropb_rmq/transport/frame.py:192-280 | decoding terminates on every octet string; on success it ends strictly past its start, within the data, and within the depth budget |
| FieldTables.DecodeTable | src/nuropb_rmq/transport/frame.py:298-322 | the same for tables, and the keys of a decoded table are distinct |
| FieldTableProofs.ValueRoundTrip | src/nuropb_rmq/transport/frame.py:138-280 | an encoded value, inside any octets, decodes to itself at its exact end iff the decoder's budget covers its nesting, and otherwise to the depth error |
| FieldTableProofs.TableRoundTrip | src/nuropb_rmq/transport/frame.py:283-322 | the same for whole tables with distinct keys; the outer ceiling alone implies every inner one |
| FieldTableProofs.EncoderDepth | src/nuropb_rmq/transport/frame.py:138-189 | the encoder raises its depth error only on a value nested beyond the budget, and accepts only values nested within it |
| FieldTableProofs.BudgetsCompared | src/nuropb_rmq/transport/frame.py:155-322 | because a table counts twice for the decoder, the depth it needs lies between once and twice the encoder's |
| FieldTableProofs.DepthBudgetsDiffer | src/nuropb_rmq/transport/frame.py:289-322 | a chain of k tables encodes iff k <= d and, once encoded, decodes iff 2k <= d |
| FieldTableProofs.OverrunIsAccepted | src/nuropb_rmq/transport/frame.py:311-322 | a concrete table whose value lies past its declared end is accepted, though the same octets cut at that end are refused |
| FieldTableReach.CutValue | src/nuropb_rmq/transport/frame.py:192-280 | for all octets and cuts, a value that decodes still decodes to the same if the cut is not short of its reach, and is refused as truncated otherwise |
| FieldTableReach.CutTable | src/nuropb_rmq/transport/frame.py:298-322 | the same for tables |
| FieldTableReach.DeclaredEndBoundsIff | src/nuropb_rmq/transport/frame.py:309-322 | a table that decodes is unchanged by a cut at its declared end iff its reach is that end, and refused otherwise |
| FieldTableReach.EncodedTablesStayWithin | src/nuropb_rmq/transport/frame.py:283-322 | the encoder's own tables never reach past their end, inside any octets |
| FieldTableReach.OverrunReaches | src/nuropb_rmq/transport/frame.py:311-322 | the concrete table above has a reach past its end |
| FieldTableDepths.DepthLaw | src/nuropb_rmq/transport/frame.py:155-320 | at every position of a value the decoder's depth is the encoder's plus the number of tables around it |
| FieldTableDepths.FitsIffNesting | src/nuropb_rmq/transport/frame.py:155-320 | a value fits a depth budget, for either direction, iff every position of it does |
| FieldTableDepths.EncodesIff | src/nuropb_rmq/transport/frame.py:138-189 | a value encodes iff it is in range and nested within the budget, and then into exactly its size |
| FieldTableDepths.TableEncodesIff | src/nuropb_rmq/transport/frame.py:283-295 | the same for tables |
| FieldTableDepths.CodecFitsEveryPosition | src/nuropb_rmq/transport/frame.py:138-322 | a small value in range, encoded and put inside any octets, decodes to itself iff at every position the encoder's depth plus the tables around it is within the decoder's budget |
| FieldTableCodec.EncodeFieldValue | src/nuropb_rmq/transport/frame.py:138-189 | the encoder that grows its parts in loops computes the specification encoder |
| FieldTableCodec.EncodeFieldTable | src/nuropb_rmq/transport/frame.py:283-295 | the same for tables |
| FieldTableCodec.DecodeFieldValue | src/nuropb_rmq/transport/frame.py:192-280 | the decoder that advances a position in loops computes the specification decoder |
| FieldTableCodec.DecodeFieldTable | src/nuropb_rmq/transport/frame.py:298-322 | the same for tables |
| ContentHeader.FlagWordBits | src/nuropb_rmq/protocol/methods.py:317-382 | the flag word has the k-th bit from the top set iff the k-th property is given, and no others |
| ContentHeader.HeaderRoundTrip | src/nuropb_rmq/protocol/methods.py:317-426 | for every subset of the fourteen properties, an encoded header decodes to its class, size and exactly those properties |
| ContentHeader.HeaderEncodes | src/nuropb_rmq/protocol/methods.py:317-382 | given properties in range, a header encodes iff its class id and body size are in range |
| ValueLayouts.IntegersRead | src/nuropb_rmq/transport/frame.py:205-262 | each of the nine integer tags, by its letter, is read with its own width and sign, or refused as truncated |
| ValueLayouts.ScalarsRead | src/nuropb_rmq/transport/frame.py:192-280 | the same for every other tag, and any other octet is refused |
| ValueLayouts.EncodedTags | src/nuropb_rmq/transport/frame.py:138-189 | which tag the encoder gives each kind of value |
| ValueLayouts.PropertyOctets | src/nuropb_rmq/protocol/methods.py:317-382 | each property's octets: text, one octet, eight octets, or a table |
| ValueLayouts.HeaderLayout | src/nuropb_rmq/protocol/methods.py:317-382 | a header octet by octet: class, two zeros, size, one flag for each property present, and the properties at their places in the order of their bits |
| ContentHeaderCodec.EncodeContentHeader | src/nuropb_rmq/protocol/methods.py:317-382 | setting bits and appending field by field computes the specification header |
| ContentHeaderCodec.DecodeContentHeader | src/nuropb_rmq/protocol/methods.py:385-426 | moving an offset flag by flag computes the specification decoder |
| Methods.MethodRoundTrip | src/nuropb_rmq/protocol/methods.py:83-314 | every method with both an encoder and a decoder decodes to itself |
| MethodLayouts.EncodesAsLaidOut | src/nuropb_rmq/protocol/methods.py:83-220 | each of these methods, and publish, encodes to exactly the octets the standard lays out, and is refused iff a field has no room for its value |
| MethodLayouts.DecodesAsLaidOut | src/nuropb_rmq/protocol/methods.py:223-314 | the octets the standard lays out for any of the 23 methods that come in decode to exactly that method |
| MethodLayouts.PublishReads | src/nuropb_rmq/protocol/methods.py:165-174 | an encoded publish, read back: its head, the exchange, the routing key, one octet for mandatory, and nothing else |
| MethodLayouts.UnknownIsKept | src/nuropb_rmq/protocol/methods.py:310-314 | any other class and method is kept with its arguments as they came, and no known one is |
| MethodLayouts.BitsMayBeMissing | src/nuropb_rmq/protocol/methods.py:286-293 | an ack or a nack without its octet of bits has none of them set |
| MethodCodec.EncodeMethodPayload | src/nuropb_rmq/protocol/methods.py:83-220 | the encoder that grows its body computes the specification encoder |
| MethodCodec.DecodeMethodPayload | src/nuropb_rmq/protocol/methods.py:223-314 | the decoder that advances an offset computes the specification decoder |
| Assembler.ChannelsAreIndependent | src/nuropb_rmq/transport/connection.py:911-1036 | for any interleaving of frames, each channel emits and holds exactly what a lone assembler makes of that channel's frames |
| Assembler.RejectedIffSomeChannelIs | src/nuropb_rmq/transport/connection.py:911-1036 | the loop rejects a sequence of frames iff some channel's own frames, seen alone, are rejected |
| Assembler.BodiesComplete | src/nuropb_rmq/transport/connection.py:1015-1036 | bodies that add up to what remains complete one message, with the slot's octets followed by theirs |
| Assembler.HeaderThenBodies | src/nuropb_rmq/transport/connection.py:1004-1036 | header and bodies of the declared size emit one message; its body has that size iff the slot was empty |
| Assembler.BodiesDecided | src/nuropb_rmq/transport/connection.py:1015-1036 | body frames on a slot are accepted iff they do not exceed what is left and none follows its completion; short of it the slot holds what came |
| Assembler.HeaderDecided | src/nuropb_rmq/transport/connection.py:1004-1014 | a header is taken iff it decodes and a slot is open |
| ReadLoop.DrainInTwo | src/nuropb_rmq/transport/connection.py:902-910 | draining a buffer in two steps is draining it at once |
| ReadLoop.ChunksDoNotMatter | src/nuropb_rmq/transport/connection.py:893-910 | every way of cutting a stream into chunks ends in the same events, slots, verdict and waiting octets as one piece |
| ReadLoop.AnyTwoCutsAgree | src/nuropb_rmq/transport/connection.py:893-910 | two cuts of one stream cannot be told apart |
| ReadLoop.StreamDrains | src/nuropb_rmq/transport/connection.py:902-910 | the encodings of a run of frames drain to exactly those frames, whatever follows |
| ReadLoop.EndOfStreamRejects | src/nuropb_rmq/transport/connection.py:898-900 | an empty chunk ends the loop by a rejection, wherever it comes, and nothing more is emitted |
| ConnectionReader.AmqpReader.constructor | src/nuropb_rmq/transport/connection.py:893-896 | a reader starts with an empty buffer and no slots |
| ConnectionReader.AmqpReader.Feed | src/nuropb_rmq/transport/connection.py:897-1036 | the loop that takes frames off its buffer in place computes the specification reader, chunk by chunk |
| ConnectionReader.AmqpReader.Handle | src/nuropb_rmq/transport/connection.py:911-1036 | one frame updates the slots and emits events as specified |
| ConnectionReader.AmqpReader.HandleMethod | src/nuropb_rmq/transport/connection.py:913-1003 | the method branches in their order, including the rejections |
| ConnectionReader.AmqpReader.HandleHeader | src/nuropb_rmq/transport/connection.py:1004-1014 | the header branch, including a header without a slot and an empty body |
| ConnectionReader.AmqpReader.HandleBody | src/nuropb_rmq/transport/connection.py:1015-1036 | the body branch with its single-frame fast path computes plain accumulation |
| ConnectionReader.AmqpReader.FinishDelivery | src/nuropb_rmq/transport/connection.py:1050-1068 | a finished slot is closed and emitted once, as a delivery or a return |
| Publishing.Pieces | src/nuropb_rmq/transport/connection.py:605-615 | the pieces of a body concatenate to it, and each is non-empty and fits |
| Publishing.PieceCount | src/nuropb_rmq/transport/connection.py:605-615 | there are exactly ceil(length / piece size) of them |
| Publishing.OnlyMethodAndHeaderMustFit | src/nuropb_rmq/transport/connection.py:587-615 | a message can be written iff its method and header payloads encode and fit; its body always does, for a frame limit of at least 9 |
| Publishing.WrittenFramesFit | src/nuropb_rmq/transport/connection.py:587-615 | every frame of a message that can be written is within the negotiated frame size, and every BODY frame but the last fills it |
| Publishing.SplittingLoopGetsOn | src/nuropb_rmq/transport/connection.py:587-615 | an iteration of the splitting loop advances iff the limit exceeds the frame overhead, and the loop is reached only with room for four octets or more |
| Publishing.AmqpWriter.WriteFrame | src/nuropb_rmq/transport/connection.py:869-872 | one frame is appended to what was written, or nothing is |
| Publishing.AmqpWriter.WriteBody | src/nuropb_rmq/transport/connection.py:605-615 | the splitting loop terminates and appends exactly the body frames |
| Publishing.AmqpWriter.WriteMessage | src/nuropb_rmq/transport/connection.py:587-615 | method, header and body frames are appended in that order |
| WirePath.ContentAssembles | src/nuropb_rmq/transport/connection.py:913-1068 | the octets of one delivered or returned message, its body cut into any parts, make one event that carries its delivery tag, exchange, routing key, redelivered flag, consumer tag or reply, its header's properties and its whole body |
| WirePath.WirePathIsIdentity | src/nuropb_rmq/transport/connection.py:893-1068 | any run of delivered and returned messages, on any channels, cut anywhere, is emitted with all its fields unchanged, in order, with nothing kept back |
| WirePath.ClientMessagesTravel | src/nuropb_rmq/transport/connection.py:587-615 | what the client's own encoders and body splitter write is such a message, if its body is not empty |
| WirePath.EmptyBodyLosesTheConnection | src/nuropb_rmq/transport/connection.py:608-1018 | a single message of the client's own writer crosses the wire without a rejection iff its body is not empty |
| WireInterleaving.HeartbeatsDoNotMatter | src/nuropb_rmq/transport/connection.py:911-912 | heartbeats anywhere change nothing |
| WireInterleaving.AsidesDoNotMatter | src/nuropb_rmq/transport/connection.py:911-1003 | heartbeats, answers, confirms and flow control between content frames neither disturb the messages nor are disturbed, and emit exactly their own events |
| WireInterleaving.MethodsDecided | src/nuropb_rmq/transport/connection.py:913-1003 | for every method that comes in, given octet by octet: whether it ends the connection, opens a slot, is answered as the broker's close, or is an aside |
| WireInterleaving.MessagesAssemble | src/nuropb_rmq/transport/connection.py:1004-1068 | a lone assembler turns the frames of a channel's messages into those messages and ends with no slot |
| WireInterleaving.InterleavedWirePathIsIdentity | src/nuropb_rmq/transport/connection.py:587-1095 | the wire path for many channels: whatever the interleaving, the asides and the cuts, each channel emits exactly its own messages, in order, and exactly its asides' events |
| AnswerWaiters.EndsIff | src/nuropb_rmq/transport/connection.py:884-1116 | in every run, a waiting call ends with an answer iff one comes in while its own future is the one filed under the key, with the loss iff that comes while it is, and with a timeout iff its own does |
| AnswerWaiters.OverwrittenNeverComesBack | src/nuropb_rmq/transport/connection.py:884-891 | once another call has filed its future over it, or has left and cleared the key, a waiting call never comes back in any run |
| AnswerWaiters.SecondTakesFirstAnswer | src/nuropb_rmq/transport/connection.py:884-1002 | the run of two overlapping calls and two answers: the first answer goes to the second call, the second to nobody |
| AnswerWaiters.LeavingDropsTheOther | src/nuropb_rmq/transport/connection.py:888-891 | a call that leaves after another has filed its future takes that one's answer away |
| AnswerWaiters.Waiters.ExpectMethod | src/nuropb_rmq/transport/connection.py:884-887 | a new future is filed under the key, over any other |
| AnswerWaiters.Waiters.Complete | src/nuropb_rmq/transport/connection.py:999-1116 | the filed future gets the method, or the loss, if it is still pending |
| AnswerWaiters.Waiters.LeaveKey | src/nuropb_rmq/transport/connection.py:890-891 | the end of a wait clears the key, whoever is filed |
| Confirms.RegisterConserves | src/nuropb_rmq/transport/confirm.py:37-44 | registering keeps tags 1 to next-1 the disjoint union of outstanding and settled |
| Confirms.ResolveConserves | src/nuropb_rmq/transport/confirm.py:56-70 | so does every ack or nack, single or multiple, and a settled tag never changes its outcome |
| Confirms.MultipleIsManySingles | src/nuropb_rmq/transport/confirm.py:56-70 | a multiple signal equals single signals, in ascending order, for the outstanding tags up to it, except for the tag a nack records |
| Confirms.ConfirmTracker.EnableConfirms | src/nuropb_rmq/transport/confirm.py:33-35 | enabling restarts the numbering |
| Confirms.ConfirmTracker.RegisterPublish | src/nuropb_rmq/transport/confirm.py:37-44 | the next tag, or an error while confirms are off |
| Confirms.ConfirmTracker.OnAck | src/nuropb_rmq/transport/confirm.py:46-47 | an ack resolves as specified |
| Confirms.ConfirmTracker.OnNack | src/nuropb_rmq/transport/confirm.py:49-54 | a nack resolves as specified, and records its own tag |
| Confirms.ConfirmTracker.ResolveTags | src/nuropb_rmq/transport/confirm.py:56-70 | popping the affected tags one by one, in ascending order, settles exactly those |
| Confirms.ConfirmTracker.FailAllTags | src/nuropb_rmq/transport/confirm.py:72-76 | every outstanding tag fails and none is left |
| ConfirmChannel.RunCounts | src/nuropb_rmq/transport/connection.py:412-582 | in every run of client and broker the two counts are tied together by what went out unnumbered, unwritten or renumbered |
| ConfirmChannel.ConservedIffNeverRenumbers | src/nuropb_rmq/transport/connection.py:412-424 | tags 1 to next-1 are split between outstanding and settled throughout a run, each settling at most once, iff no confirm_select comes back once tags have been given out |
| ConfirmChannel.TagsAgree | src/nuropb_rmq/transport/connection.py:412-582 | a publish gets the broker's number iff the unnumbered writes and the renumbered tags together are as many as the unwritten registrations; with neither unnumbered nor unwritten publishes, iff no confirm_select has come back late |
| ConfirmChannel.SecondSelectStartsOver | src/nuropb_rmq/transport/connection.py:417-424 | a run of two overlapping selects: the second publish takes tag 1 again, and the first one's ack lets it succeed |
| ConfirmChannel.FiledRightIffDisciplined | src/nuropb_rmq/transport/connection.py:1070-1095 | a return is filed under its own publish iff that is the oldest waiting mandatory one |
| ConfirmChannel.AttributionNeedsDiscipline | src/nuropb_rmq/transport/connection.py:584-1109 | over whole runs, the deque is the ascending unsettled, unreturned mandatory tags in every state and every return is filed rightly, iff the broker returns in order and no confirm_select comes back late |
| ConfirmChannel.ReturnedIffOwnMessage | src/nuropb_rmq/transport/connection.py:618-630 | a mandatory publish raises PublishReturned with a message iff that was its own returned message, it was acked, and the connection was not lost before the call resumed |
| ConfirmChannel.ReturnOutOfOrder | src/nuropb_rmq/transport/connection.py:1084-1087 | a run without that order: call 1 raises for call 2's message, and call 2 succeeds |
| ConfirmChannel.LossAfterAckHidesReturn | src/nuropb_rmq/transport/connection.py:806-816 | a run with it: a loss between ack and resumption makes a returned publish succeed |
| ConfirmResults.ReturnsIffSettled | src/nuropb_rmq/transport/connection.py:575-619 | in every run without a late confirm_select, a publish call can return iff, since its publish, a signal spoke of its tag or the connection was lost |
| ConfirmResults.ResultByHistory | src/nuropb_rmq/transport/connection.py:616-630 | and the first of these decides: a nack raises, the loss raises, and with an ack the call succeeds unless a return is filed under its tag when it resumes |
| ConfirmResults.NewCallsWait | src/nuropb_rmq/transport/confirm.py:37-44 | in every world, late confirm_selects included, a publish just numbered cannot return yet, however an earlier one of its number ended, and no other call's return is affected |
| ConfirmResults.OthersAreNotReturned | src/nuropb_rmq/transport/connection.py:616-630 | in every run, late confirm_selects included, only a mandatory publish raises PublishReturned |
| ChannelPublisher.Publisher.BeginSelect | src/nuropb_rmq/transport/connection.py:414-422 | confirm.select is sent iff confirms are off at that moment |
| ChannelPublisher.Publisher.SelectAnswered | src/nuropb_rmq/transport/connection.py:423-424 | confirms are enabled, whatever they were, and the numbering starts at 1 |
| ChannelPublisher.Publisher.Register | src/nuropb_rmq/transport/connection.py:577-585 | numbering a publish, and queueing its tag if mandatory |
| ChannelPublisher.Publisher.FinishReturn | src/nuropb_rmq/transport/connection.py:1084-1087 | a return is filed under the head of the deque, if there is one |
| ChannelPublisher.Publisher.ClearMandatoryTags | src/nuropb_rmq/transport/connection.py:1097-1109 | the loops drop exactly the confirmed tags from the deque |
| ChannelPublisher.Publisher.HandleSettle | src/nuropb_rmq/transport/connection.py:970-985 | deque first, then tracker, and nothing while confirms are off |
| ChannelPublisher.Publisher.NotifyLoss | src/nuropb_rmq/transport/connection.py:806-816 | a loss fails every tag and clears deque and filed returns, once |
| ChannelPublisher.Publisher.Resume | src/nuropb_rmq/transport/connection.py:618-630 | what the awaiting publish call makes of its outcome |
| Correlation.FinishLaw | src/nuropb_rmq/session/correlation.py:44-60 | resolve and fail complete the id's own future, first result wins, an unknown id changes nothing, and no done future changes |
| Correlation.RegisterLaw | src/nuropb_rmq/session/correlation.py:30-42 | a fresh id gets a fresh future and disturbs no other |
| Correlation.DiscardLaw | src/nuropb_rmq/session/correlation.py:62-67 | discarding completes every pending future, only those, and leaves none pending |
| Correlation.CorrelationTable.RegisterId | src/nuropb_rmq/session/correlation.py:30-42 | a malformed or outstanding id is refused without effect |
| Correlation.CorrelationTable.RegisterGenerated | src/nuropb_rmq/session/correlation.py:30-42 | without an id of the caller's, the first generated one that is not outstanding is registered |
| Correlation.ValidIdIsSafe | src/nuropb_rmq/session/ids.py:11-32 | a valid id is all safe characters iff it does not end in a newline |
| Correlation.ValidIdIff | src/nuropb_rmq/session/ids.py:11-32 | exactly which ids are valid |
| Correlation.NewlineIdIsValid | src/nuropb_rmq/session/ids.py:11-32 | an id that ends in one |
| Correlation.CorrelationTable.FinishId | src/nuropb_rmq/session/correlation.py:44-60 | popping the id and completing its future, as specified |
| Correlation.CorrelationTable.DiscardAllIds | src/nuropb_rmq/session/correlation.py:62-67 | the loop over all futures completes each that is not done |
| RpcServer.SettledOnce | src/nuropb_rmq/patterns/rpc.py:268-334 | a delivery is acked or nacked exactly once and last iff it is not the case that a reply is due while publishing is blocked; then nothing happens to it and the exception leaves the handler |
| RpcServer.SettledAs | src/nuropb_rmq/patterns/rpc.py:271-334 | a delivery is nacked, with that requeue flag, iff its ids agree and authorization, or else the handler, refuses it so; it is acked iff it is not refused and no reply is held up |
| RpcServer.ResultsAreTheHandlers | src/nuropb_rmq/patterns/rpc.py:271-333 | a result is published iff the two ids agree, authorization passes, the handler returned it for this body, a reply queue is named, and publishing is not blocked |
| RpcServer.ErrorsAreMapped | src/nuropb_rmq/patterns/rpc.py:271-333 | exactly which error reply goes out, with which code and which id |
| RpcServer.BlockedReplyLeavesDeliveryUnsettled | src/nuropb_rmq/patterns/rpc.py:319-334 | an ordinary request that is neither answered nor acked |
| RpcServer.LoopEndsAtBlockedReply | src/nuropb_rmq/patterns/rpc.py:260-266 | every delivery before the first blocked reply is settled once, that one is not, and none after it is taken |
| RpcServer.Handle | src/nuropb_rmq/patterns/rpc.py:268-334 | the handler's branches, in the order of their effects, with the publish that raises |
| RpcServer.Loop | src/nuropb_rmq/patterns/rpc.py:260-266 | the loop takes deliveries until one raises |
| SessionSafety.CompletedAtMostOnce | src/nuropb_rmq/session/correlation.py:44-67 | in every run, with any losses, republishes, redeliveries and duplicate replies, a completed call keeps its outcome, and a call is complete iff it is no longer pending |
| SessionSafety.AnswersAreTheHandlers | src/nuropb_rmq/patterns/rpc.py:160-180 | in every run, a returned value is what a handler returned for that call's own body, and the reply's correlation check never fires |
| SessionAnswers.StepFollowsCause | src/nuropb_rmq/session/session.py:95-290 | one step completes a pending call iff it has a cause for it, with that outcome, and takes it out of the pending and the parked ones |
| SessionAnswers.RepliesAnswer | src/nuropb_rmq/session/session.py:274-279 | a delivered reply answers the pending call with its correlation id with itself, and changes no other call |
| SessionAnswers.OutcomeByHistory | src/nuropb_rmq/session/session.py:95-290 | in every run and for every outcome: a call ends with it iff, while the call was pending, a step came that causes it |
| SessionAnswers.AnsweredIffDelivered | src/nuropb_rmq/session/session.py:262-279 | in every run, a call is answered with a reply iff that reply was delivered with the call's id while it was pending |
| SessionConclusions.EndsAsServed | src/nuropb_rmq/patterns/rpc.py:160-333 | in every run, an answered call ends as some server's taking of its own body did: with the value the handler returned once authorized, or with the code of the error that authorization or the handler raised |
| SessionAnswers.MessagesAreAsRequested | src/nuropb_rmq/patterns/rpc.py:80-120 | in every run, every message with the broker, republished or not, has the exchange, routing key, method, parameters and id some caller asked for |
| SessionAnswers.QueuesAreDistinct | src/nuropb_rmq/session/session.py:136-147 | in every run, no two connections have a reply queue of one name, given that generated names do not repeat |
| SessionAnswers.CallIsAnswered | src/nuropb_rmq/patterns/rpc.py:80-180 | under every policy there is a run in which a call is answered with any value its handler returns |
| SessionAnswers.ParkedCallIsAnswered | src/nuropb_rmq/session/session.py:188-260 | under every park policy there is one in which the connection is lost before the reply, and the call is answered on the next |
| SessionSafety.MessagesPassTheServersCheck | src/nuropb_rmq/patterns/rpc.py:273-278 | in every run, every message with the broker, republished or not, passes the server's id check and is its call's own but for the reply queue |
| SessionSafety.ConfirmedCallsAreParked | src/nuropb_rmq/patterns/rpc.py:105-135 | in every run, a pending call whose publish was confirmed has its own envelope parked, and every parked envelope is its own call's |
| SessionSafety.StepOk | src/nuropb_rmq/session/session.py:95-290 | every step, of whichever task, keeps all of that and changes no completed call |
| SessionRepublish.RepublishIsExact | src/nuropb_rmq/session/session.py:188-241 | when a republish round ends, each call parked at its start was published once, unchanged, to the new reply queue, or not at all; what was not confirmed is complete, with the outcome it had before its turn or else the mapped error; and every turn starts with its call pending |
| SessionRepublish.StepKeepsRounds | src/nuropb_rmq/session/session.py:188-241 | what is sent so far is exactly what the logged turns wrote, with any step in between |
| SessionRepublish.RefusedIsDone | src/nuropb_rmq/session/session.py:214-241 | a refused call ends its turn with the mapped error if it was pending, and with the outcome it had otherwise |
| SessionRepublish.SentOnce | src/nuropb_rmq/session/session.py:195-214 | no call's message is sent twice in a round |
| SessionParking.LeftBehindOnlyThen | src/nuropb_rmq/session/session.py:109-165 | in every run, no call is ever pending on a closed session without a running reconnect task, iff that task never resumes for the last time on a connection lost again with calls left, and no `close` that had to wait for a reconnection goes on with calls pending |
| SessionParking.LeftBehindIffLate | src/nuropb_rmq/session/session.py:109-260 | the same for one step, with the condition on the state before it |
| SessionStranding.LeftBehindIffStranded | src/nuropb_rmq/session/session.py:188-260 | one step leaves a call of an earlier connection without a message to this one's reply queue, outside the running round, iff it cuts the round short on a live connection with calls left, or confirms such a call too late |
| SessionStranding.DeafIffLoopFails | src/nuropb_rmq/session/session.py:262-272 | one step leaves an open session without a reply task iff that task ends by an exception |
| SessionStranding.BrokenReplyLoopFailsAll | src/nuropb_rmq/session/session.py:105-272 | that fails every pending call and drops every parked one under either policy, and leaves the rest of the session as it is |
| SessionStranding.LeftBehindExactly | src/nuropb_rmq/session/session.py:109-272 | in every run, no call is ever left behind, on a closed session or an open one, and no open session is without a reply task, iff no step finishes late, closes over calls, cuts a round short, confirms too late, or ends the reply task of an open session |
| SessionStranding.RestingSessionHasRepublished | src/nuropb_rmq/session/session.py:188-272 | after every run without such a step, if the session is open and at rest, its replies are read and every call waiting from an earlier connection has its message out with this connection's reply queue |
| SessionStranding.RaiseInRoundStrands | src/nuropb_rmq/session/session.py:202-253 | under every park policy with a second attempt there is a run that ends open and at rest with a parked call nothing was sent for |
| SessionStranding.StrandedUntilLoss | src/nuropb_rmq/session/session.py:243-260 | until the next loss or close, nothing is sent for it |
| SessionStranding.DeafSessionTakesCalls | src/nuropb_rmq/session/session.py:262-272 | under every policy there is a run that ends open and at rest, with a confirmed call pending and no reply task |
| SessionStranding.DeafUntilLoss | src/nuropb_rmq/session/session.py:262-272 | until the next loss or close, nothing is delivered there |
| SessionParking.GivingUpFailsAll | src/nuropb_rmq/session/session.py:128-134 | the automatic reconnection gives up after its last attempt and then fails every pending call; before, a failed attempt changes nothing but the count |
| SessionParking.LossBeforeConsumingIsSeen | src/nuropb_rmq/session/session.py:123-190 | under every park policy there is a run that leaves a parked call behind: the loss comes after the consumer's confirmation is set |
| SessionParking.LossBeforeConfirmIsSeen | src/nuropb_rmq/session/session.py:123-214 | the same with the loss after the last republished message's confirm is set |
| SessionParking.AbandonedForGood | src/nuropb_rmq/session/session.py:109-126 | after that, no step but a caller's own reconnect opens the session again |
| SessionReopening.ReopensIff | src/nuropb_rmq/session/session.py:109-175 | after any history, a session its caller closes can be open again, with no `close` still to go on and no caller reconnecting it, iff its policy is to park and either its connection was not lost at the close, or the cancellation was swallowed in the teardown, or anywhere but at the last answer with an attempt left |
| SessionReopening.MayReopenIff | src/nuropb_rmq/session/session.py:109-175 | the same over both outcomes of the cancellation, by the state in which `close` is called |
| SessionReopening.ClosedSessionStaysClosed | src/nuropb_rmq/session/session.py:109-175 | otherwise every such continuation leaves it closed |
| SessionReopening.ClosedSessionReopens | src/nuropb_rmq/session/session.py:109-260 | a continuation by which it reopens, after any such history, with no further `close` and no caller reconnecting |
| SessionReopening.OpensWhileClosing | src/nuropb_rmq/session/session.py:152-175 | the run that opens a session on a new connection after its close on a lost one, before `close` has returned |
| SessionReopening.CallIsClosedOver | src/nuropb_rmq/session/session.py:152-175 | the run that goes on to leave a call pending on the closed session |
| SessionReopening.QuitUntilLoss | src/nuropb_rmq/session/session.py:152-165 | until a loss comes or a caller reconnects, nothing is delivered there and no call taken on |
| SessionObject.Session.constructor | src/nuropb_rmq/session/session.py:136-150 | the state `start` leaves a session in |
| SessionObject.Session.BeginRequest | src/nuropb_rmq/patterns/rpc.py:80-95 | a request is refused, without effect, iff the session is closed, the id malformed or outstanding; else registered |
| SessionObject.Session.RememberPublish | src/nuropb_rmq/session/session.py:95-97 | an envelope is parked under its id |
| SessionObject.Session.ForgetPublish | src/nuropb_rmq/session/session.py:99-100 | an envelope is dropped if there |
| SessionObject.Session.FailAll | src/nuropb_rmq/session/session.py:105-107 | every pending call fails and nothing stays parked |
| SessionObject.Session.ConnectionLoss | src/nuropb_rmq/session/session.py:109-126 | the loss callback: once per connection, failing everything or starting the one reconnect task |
| SessionObject.Session.TakeReply | src/nuropb_rmq/session/session.py:274-279 | a reply completes its call and unparks it; without a correlation id it is only acked |
| SessionObject.Session.EnterReconnect | src/nuropb_rmq/session/session.py:252-255 | an open session returns at once; otherwise the teardown begins |
| SessionObject.Session.NewConnection | src/nuropb_rmq/session/session.py:256-259 | a new connection, epoch and queue name, with no loss handled yet |
| SessionObject.Session.QueueDeclared | src/nuropb_rmq/session/session.py:142-147 | the reply queue is set even if a loss came meanwhile |
| SessionObject.Session.ConsumerUp | src/nuropb_rmq/session/session.py:148-260 | the session is started, and republishing begins unless the reply queue is gone |
| SessionObject.Session.GoOn | src/nuropb_rmq/session/session.py:195-198 | the loop forgets settled calls and stops at the first pending one, or releases the lock |
| SessionObject.Session.PassOver | src/nuropb_rmq/session/session.py:195-198 | the loop over settled calls drops exactly their envelopes |
| SessionObject.Session.TurnOver | src/nuropb_rmq/session/session.py:214-241 | a refused message fails its call with the mapped error; an acknowledged one stays parked |
| SessionObject.Session.AttemptFailed | src/nuropb_rmq/session/reconnect.py:52-63 | a failed attempt is counted, and the last one fails every pending call |
| SessionObject.Session.CloseSession | src/nuropb_rmq/session/session.py:152-165 | closing fails every pending call, drops the envelopes and cancels the automatic reconnection, which ends by it or goes on |
| SessionObject.Session.CloseGoesOn | src/nuropb_rmq/session/session.py:159-165 | when the reconnection waited for is over, the reply queue goes, and calls taken on meanwhile stay as they are |
| SessionObject.Session.RepublishParked | src/nuropb_rmq/session/session.py:188-241 | the whole loop over the parked envelopes, with replies arriving between its turns, computes the specification |
| SessionObject.OnlyOwnAreSent | src/nuropb_rmq/session/session.py:195-214 | it sends only its items' own messages, and none for a call not pending when it began |
| SessionObject.SentAreDistinct | src/nuropb_rmq/session/session.py:195-214 | no two messages it sends are for the same call |
| SessionRefinement.LoopIsARun | src/nuropb_rmq/session/session.py:188-260 | the loop of the object is a run of the state machine, whatever replies come during each turn and however each publish ends: same desk, same messages in the same order, lock released |
| SessionRefinement.TurnIsARun | src/nuropb_rmq/session/session.py:202-241 | the same for one turn, written, answered and resumed, or blocked |
| SessionObject.UnsentAreComplete | src/nuropb_rmq/session/session.py:195-241 | a call it sent nothing for is complete by its end |
| Reconnection.Reconnect | src/nuropb_rmq/session/reconnect.py:49-63 | success iff one of the first max_attempts attempts succeeds, stopping there, with a pause only between attempts and of the doubling, capped length |
| Reconnection.NextPause | src/nuropb_rmq/session/reconnect.py:61 | doubling and capping again gives the closed form of the pause |
| Reconnection.PausesGrow | src/nuropb_rmq/session/reconnect.py:50-61 | pauses never shrink and keep to the cap, except possibly the first |
| ConnectionMachine.OpenIffHandshake | src/nuropb_rmq/protocol/connection_sm.py:52-140 | over all call sequences, the machine is open with a heartbeat iff the calls, passing checks aside, are exactly the plain or TLS handshake with that heartbeat, from 1 to 60 |
| ConnectionMachine.OpensIff | src/nuropb_rmq/protocol/connection_sm.py:52-140 | the same from every state, with the rest of the handshake |
| ConnectionMachine.NeverBack | src/nuropb_rmq/protocol/connection_sm.py:49-112 | the position never goes back, closed and error are never left, and the heartbeat stays from 1 to 60 |
| ConnectionMachine.RejectedNeverOpens | src/nuropb_rmq/protocol/connection_sm.py:52-54 | a rejection from outside, wherever it comes, ends the handshake for good |
| ConnectionMachine.TerminalStates | src/nuropb_rmq/protocol/connection_sm.py:52-112 | what each call does in the two terminal states |
| ConnectionMachine.ClosingStates | src/nuropb_rmq/protocol/connection_sm.py:52-112 | from every state, what leads to closing and to closed, and what changes the heartbeat |
| ConnectionMachine.ChecksFollowHandshake | src/nuropb_rmq/protocol/connection_sm.py:76-140 | what may be sent goes with the handshake: each of its methods exactly where sending it is the next call, close from start on, close-ok while closing, update-secret once open, nothing else |
| ConnectionMachine.ConnectionStateMachine.RejectNow | src/nuropb_rmq/protocol/connection_sm.py:52-54 | the error state, always with an exception |
| ConnectionMachine.ConnectionStateMachine.TcpConnectedNow | src/nuropb_rmq/protocol/connection_sm.py:56-59 | the transition, or the error state and an exception |
| ConnectionMachine.ConnectionStateMachine.TlsVerifiedNow | src/nuropb_rmq/protocol/connection_sm.py:61-64 | the transition, or the error state and an exception |
| ConnectionMachine.ConnectionStateMachine.AllowAmqpHeader | src/nuropb_rmq/protocol/connection_sm.py:66-71 | the check passes iff TCP is up or TLS verified |
| ConnectionMachine.ConnectionStateMachine.ConnectionStart | src/nuropb_rmq/protocol/connection_sm.py:73-76 | the transition, or the error state and an exception |
| ConnectionMachine.ConnectionStateMachine.StartOkSent | src/nuropb_rmq/protocol/connection_sm.py:78-81 | the transition, or the error state and an exception |
| ConnectionMachine.ConnectionStateMachine.ConnectionTune | src/nuropb_rmq/protocol/connection_sm.py:83-86 | the transition, or the error state and an exception |
| ConnectionMachine.ConnectionStateMachine.TuneOkSent | src/nuropb_rmq/protocol/connection_sm.py:88-94 | the transition with its heartbeat check |
| ConnectionMachine.ConnectionStateMachine.OpenSent | src/nuropb_rmq/protocol/connection_sm.py:96-99 | the transition, or the error state and an exception |
| ConnectionMachine.ConnectionStateMachine.OpenOkReceived | src/nuropb_rmq/protocol/connection_sm.py:101-104 | the transition, or the error state and an exception |
| ConnectionMachine.ConnectionStateMachine.StartClosing | src/nuropb_rmq/protocol/connection_sm.py:106-109 | closing from any state but a terminal one |
| ConnectionMachine.ConnectionStateMachine.CloseOkReceived | src/nuropb_rmq/protocol/connection_sm.py:111-112 | closed, from any state |
| ConnectionMachine.ConnectionStateMachine.AssertCanSendMethod | src/nuropb_rmq/protocol/connection_sm.py:114-140 | the check against the table of legal connection methods |
| Watchdog.HeartbeatLoop | src/nuropb_rmq/transport/connection.py:305-327 | for any number of rounds, the loop ends at the first check at which no frame has come for more than two intervals or at the first heartbeat that fails, stays at one that blocks, and otherwise has sent a heartbeat after every check |
| Watchdog.TimestampTells | src/nuropb_rmq/transport/connection.py:302-314 | keeping one timestamp is enough: it is more than two intervals old iff no frame came in the two intervals before |
| Watchdog.LivelyIsNeverLost | src/nuropb_rmq/transport/connection.py:305-316 | a peer whose frames are never more than two intervals apart is never declared lost |
| Watchdog.SilenceIsNoticedIff | src/nuropb_rmq/transport/connection.py:305-327 | a peer that was lively and falls silent is declared lost iff no heartbeat written up to two intervals after its last sign blocks |
| Watchdog.NoticedInTime | src/nuropb_rmq/transport/connection.py:305-327 | with last sign L and interval i, the check that finds it silent comes at c with 2i < c - L <= 2.5i, plus the lag of one sleep and the duration of the heartbeat before it; a heartbeat that fails first fails no later than that window opens |
| Watchdog.BlockedWriteHidesSilence | src/nuropb_rmq/transport/connection.py:320-881 | a peer that neither sends nor reads is never declared lost if the first heartbeat blocks |

## Left out

- FieldTables.DecodeScalar: keeps a single-precision number as its four octets; widening it to a double is floating point and not part of this model.
- FieldTables.EncodeScalar: has no `datetime` or `Decimal` inputs, which decode to another type by design; an unsupported value is an error as in the source.
- FieldTableProofs.DepthBudgetsDiffer: is stated for chains whose encoding stays under the size ceiling, beyond which no budget helps.
- FieldTableCodec.EncodeFieldValue: likewise takes no `datetime` and no `decimal.Decimal`.
- MethodCodec.EncodeMethodPayload: of the methods with an encoder only it has `basic.publish`; the others are one straight line of fields each.
- ReadLoop.ChunksDoNotMatter: has one frame limit throughout, while the source lowers its limit when the connecting task handles tune; how the frames that come in at that moment are split between the two limits is not part of this model.
- RpcServer.Serve: covers a publish refused because the broker blocks, not a channel or connection that closes under the handler, when the broker takes the delivery back anyway.
- Watchdog.NoticedInTime: assumes that each sleep lasts what was asked for plus at most a fixed lag; how long a heartbeat takes to fail is not part of this model.
- ConfirmResults.ResultByHistory: is about runs without a late confirm_select, after which a tag stands for two publishes.
- AnswerWaiters.EndsIff: is about one key; the sending before a wait, which may itself wait, only decides when the wait begins.
- SessionObject.Session.CloseSession: takes the stop of the reply task and the closing of the connection as one step, after the wait for the automatic reconnection.
- SessionObject.Session.RepublishParked: has the replies and refusals of each turn as input, and no loss during the loop; losses there are part of the state machine in `SessionRuns`.
- Methods with a decoder only, beyond what the read loop does with them.
- A method whose argument dictionary does not fit its encoder (a missing or mistyped key).
- JSON text: a request or reply body is what its text decodes to, and error messages and data are left out.
- Authorization: an input that says whether it raises. JWT and the claims checks are not part of this model.
- Sockets, TLS, certificates, the clock and the scheduler: octet chunks, times and the order of steps are inputs.
- Futures are numbers with a result; the session's callers see them through `Correlation`.
- Each confirm channel, content slot and publisher is modelled by itself; the dictionaries that hold one per channel only select it.
- The first `start` of a session: runs begin with a session that has started.
- Requests whose id was used before in the same session: the state machine has fresh ids, and `BeginRequest` says what happens to an outstanding one.
- Timing finer than the steps: where the source leaves open when a confirm, a reply, a redelivery or a loss comes, the state machine allows it at any time, and so has more runs than one scheduler would produce.
- `close` while a caller's own reconnect holds the lock, when it is called or when it goes on, and cancellation of a caller's task.
- A loss between the end of the reconnection that `close` waits for and the next statement of `close`: the reconnection it starts is then no longer tracked by the session.
- A publish on a lost connection that waits for ever: it may stay in its waiting state, and no property here says that it ends.
- User callbacks, logging, queue profiles, consumers' cancellation, secrets, the mesh and the registry.
