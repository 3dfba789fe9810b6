# Industrial data acquisition gateway: verified model

A Dafny model of the gateway's five stages and of the programs at its two ends, with proofs about
every run of the whole pipeline.

- **Sensor clients** build packets; the **acquirer** cuts each connection's byte stream into packets
  and puts them on a bounded queue.
- The **processor** stamps and decodes packets, then offers each frame to the log queue and to the
  telemetry queue, either of which may refuse it.
- The **logger** keeps one file per sensor; the **telemetry daemon** keeps a growable registry that
  an ingest loop, a watchdog and query handlers share under a mutex.
- The **query client** sends commands, reads line-oriented answers and keeps latency statistics.

## How the model is built

`Gateway` is one transition system for all stages. Each critical section, queue operation, clock
sample and clock advance is a step of its own, and every choice the environment has (which thread
moves, what arrives, which send fails, what memory a reallocation returns) is an argument of the
action. `GatewayInvariant` proves the invariant step by step; `GatewayTheorems` and `EndToEnd` state
what follows for every state of every run and between any two states of a run.

The programs themselves are imperative: the registry is an array updated in place
(`TelemetryRegistry`), sockets and files are objects whose scripts say how each transfer is cut,
interrupted or broken (`Transport`), and the read, write, search and shift loops are loops. Each is
proved equal to the function that the transition system or the round-trip theorems use.

| file | what it holds |
|---|---|
| `Bytes.dfy`, `Text.dfy`, `Seqs.dfy` | integer images, printed and scanned numbers, subsequences |
| `Sense.dfy`, `Packet.dfy` | the sensor record, names and paths; the packet codec |
| `Readers.dfy` | how a person reads the gateway's output, without reference to the code that prints it |
| `Transport.dfy`, `Acquirer.dfy` | short transfers; stream framing |
| `Registry.dfy`, `TelemetryRegistry.dfy` | the registry as a value and as the daemon's array |
| `Processing.dfy`, `LogFile.dfy` | forwarding; log files |
| `Commands.dfy`, `Response.dfy`, `Query.dfy`, `Latency.dfy` | the query protocol, the answers, one query through all programs, the latency figures |
| `Gateway*.dfy`, `EndToEnd.dfy` | the whole system, what users see of it, and runs that exist |

## Decisions

- The 12-byte data union is three signed 32-bit words, its largest member; the other members and the
  latency stamp are read from those words. Integers are little-endian and two's-complement.
- Elapsed time is real arithmetic over the two clock fields, and is shown equal to a comparison of
  integer nanoseconds. `%f` is any correct rounding of any quotient a double division may return.
- Local time is a function from instants to texts, or to none where formatting fails; it is part of the
  system's state and never changes. A text is shorter than 50 characters and has no newline, no NUL, no
  `>` and no colon before a blank, as the format has none. The epoch has a text.
- An int64 operation whose result does not fit is undefined in C and is an outcome of its own here.
- The file calls of one log turn are one step: nothing else in the system reads or writes the files,
  and every outcome they can have is an argument of the step.
- History fields of `Gateway.State` record what happened; no step reads them.

## Where the code does less than one might expect

- `GET ID` returns the first sensor registered under an id. A second type with the same id is never
  reached by it, and for id 65000 the answer is another sensor's memory dressed as a latency stamp.
  `IdReachesSlot` and `LatencyShadowed` have the exact condition for every run, `LatencyClash` a run
  that shows it.
- A sensor that has only sent heartbeats shows uninitialised memory as its data and timestamp, for as
  long as it sends no data (`SlotShows` for every run, `HeartbeatShowsGarbage` a run).
- The repository's README says a sensor is offline after 30 seconds without a frame. The code judges
  the stamp the processor put on the frame, and storing any frame shows the sensor online until the
  next pass, however long the frame waited (`StaleSensorOnline`; `WatchdogSound` has the exact
  condition).
- One failed log write stops the logger, and then the telemetry of data: the log queue fills up, and
  data that does not get into it is not offered to telemetry. `FailedLogStarvesTelemetry` has the
  bound, `Starved` a run that reaches it, and `EndlessExactly` the exact condition under which
  telemetry can go on for ever.
- A frame whose time cannot be formatted is such a failed write.
- Unsigned measurements of 2^31 and more are printed as negative numbers (`UnsignedMeasurementText`).
- A latency stamp of (-1, -1) is taken for an old one if it comes first (`OneSamplePerRun`).
- The host's latency arithmetic overflows int64 for stamps that a client can send and that arrive
  unchanged (`AnyStampAnswered`, `StampOverflows`); `SampleDefined` has the exact range.
- So does the sum behind the average, exactly when some partial sum of the window does not fit
  (`AverageLatency`); for samples of one sign, exactly when their total does not (`SumDefinedExact`).
  `SumOverflows` has two polls in range whose samples cannot be added.

## Model

| member | source | states |
|---|---|---|
| GatewayTheorems.Provenance | src/processing_d.c:43-63 | in every run, the data of a slot that ever got a DATA frame is the decoding of a packet of that very type and id that some connection received and the acquire queue accepted, and its timestamp is the wall clock read for that packet |
| GatewayTheorems.JobStamped | src/processing_d.c:112-120 | a frame's last-seen stamp is the monotonic clock of the state in which the processor, holding its packet, made it |
| GatewayTheorems.LastSeenRead | src/sense_utils.c:209-209 | a slot's last-seen is the clock of the state in which the processor held the packet of its latest frame |
| GatewayTheorems.ConnectionOrder | src/acquiring_d.c:120-212 | in every run the packets queued from a connection are an ordered part of what its stream frames to, and all that were offered if no send failed |
| GatewayTheorems.LosslessDrained | src/telemetry_d.c:102-192 | with no failed send and everything drained, a key has data in the registry exactly when some accepted packet carried data for it, and its slot holds the data of the last such packet in acquire-queue order and the wall clock read for it |
| GatewayTheorems.RegistryRefinement | src/telemetry_d.c:102-192 | in every run the array is an ordered map with distinct keys in first-arrival order; data and timestamp are the latest DATA frame's, last-seen, name and kind the latest frame's |
| GatewayTheorems.CapacityAcrossSections | src/telemetry_d.c:105-129 | in every run the multiplier is 1, 2, 4 or 8, the allocation 16 times it and the count within it; no write passes the allocation; memory fails only in growing a full allocation of less than 128; with no frame in hand, the limit exit was taken exactly if the frames received bear more than 128 distinct keys |
| GatewayTheorems.GrowthPreserves | src/telemetry_d.c:107-127 | growing leaves every existing cell and the count unchanged |
| GatewayTheorems.CellHistory | src/sense_utils.c:199-217 | between any two states of a run a cell that was allocated and unused shows its key's latest data, and the memory's old contents exactly as long as there is no data, through heartbeats, growth and watchdog passes |
| GatewayTheorems.SlotShows | src/telemetry_d.c:77-77 | every slot of every reachable registry has such a past, so its data and timestamp are the latest data frame's or, without one, uninitialised memory |
| GatewayTheorems.WatchdogSound | src/telemetry_d.c:784-813 | an offline slot is silent for 30 s by the clock now, although the sample is older; a slot is online exactly when stored to since the last pass or found active by it |
| GatewayTheorems.PassTaken | src/telemetry_d.c:784-813 | the last pass judged by the clock of the state in which the watchdog woke up for it |
| GatewayExample.StaleSensorOnline | src/sense_utils.c:209-212 | a run, for any initial memory, in which a frame waits 30 s and its sensor is then shown online |
| GatewayReach.AllDelivered | src/telemetry_d.c:102-192 | any valid messages bearing at most 128 keys, in any order and number, are what some run from any initial state stores |
| GatewayExample.HeartbeatShowsGarbage | src/sense_utils.c:204-207 | a run, for any initial memory, whose one sensor shows the contents of its cell as allocated |
| GatewayExample.AnyStampAnswered | src/telemetry_d.c:647-654 | for every stamp a run in which the latency query answers with it |
| GatewayExample.LatencyClash | src/sense_utils.c:219-233 | for every torque and stamp a run that holds the stamp and answers the latency query with the torque |
| GatewayTheorems.RunLater | src/telemetry_d.c:102-192 | between any two states of a run slots keep their keys, the allocation does not shrink, no last-seen goes back, and offline stays offline unless a frame for that key was stored |
| GatewayTheorems.TimeOrder | src/processing_d.c:112-120 | last-seen stamps are ordered along the telemetry queue, never ahead of the clock, never behind one in the registry |
| GatewayTheorems.LogBeforeTelemetry | src/processing_d.c:139-165 | under any drops, DATA frames accepted by telemetry are a subsequence of those accepted by the log, which are DATA only; queues hold at most ten; accepted equals consumed then queued |
| GatewayTheorems.SnapshotsStable | src/sense_utils.c:219-233 | a snapshot's keys are a prefix of every later registry's; an id once found resolves to the same slot and type for ever |
| GatewayTheorems.QueriesSplit | src/telemetry_d.c:504-639 | ONLINE and OFFLINE answers are order-preserving and together are ALL without loss or repetition; so are the four type answers |
| GatewayTheorems.LogFilesOfRun | src/logging_d.c:35-65 | in every run each sensor's file is one header and that sensor's rows, in the order the log queue delivered them; after a failed write the file it was for has also a proper beginning of what was due, and all others are whole |
| GatewayTheorems.FailedLogStarvesTelemetry | src/logging_d.c:57-62 | after a failed log write the files never change again, and however long the run goes on at most eleven data frames more than the rows written are accepted by telemetry |
| GatewayTheorems.LosslessLog | src/logging_d.c:35-65 | with no failed send and everything drained, each sensor's file, read back by its own header, is exactly this: for each data packet accepted for it, in acquire-queue order, the local time of the wall clock read for it and its measurements; no data, no file |
| GatewayTheorems.LogReads | src/logging_d.c:35-65 | in every run whose logger runs, each file reads as the times and measurements of the rows written for its sensor, each time being the local time of its frame's timestamp |
| GatewayStarvation.EndlessExactly | src/processing_d.c:139-165 | from any reachable state telemetry can still accept any number of data frames if and only if no log write has failed, the ingest loop runs, no 129th key is on its way to it, and no time without a text on its way to the logger |
| GatewayStarvation.GoesOn | src/processing_d.c:227-240 | in such a state, whatever the queues hold, some continuation drains every stage and has any number of data frames more accepted |
| GatewayStarvation.IsOver | src/processing_d.c:139-165 | otherwise every later state is bounded |
| GatewayStarvation.Starved | src/logging_d.c:57-62 | from any initial state a run that loses its first log write, writes nothing, and has exactly eleven data frames accepted when the log queue is full |
| GatewayInvariant.RunInv | src/processing_d.c:43-63 | the invariant of connections, queues, processor, logger, registry and watchdog holds in every state of every run |
| GatewayInvariant.ConservedStep | src/processing_d.c:227-240 | every step keeps each queue's contents in order, without loss or duplication, and within its limit |
| EndToEnd.AnswerReachesUser | src/telemetry_d.c:610-639 | an answer taken in any reachable state is read by the client as one line per sensor asked for, each telling that sensor's time, type, id and measurements, then END; cut off by a failing connection, as exactly the lines that went out whole |
| EndToEnd.IdAnswerReachesUser | src/telemetry_d.c:359-381 | GET ID typed with any id is answered by one line, of the first sensor with the id or of a zeroed one, whole or cut off |
| EndToEnd.AnswerShowsPacket | src/telemetry_d.c:662-665 | the line of a slot that got data reads as the type, the id and the measurements of a packet the acquire queue accepted and the local time of the wall clock read for it; lossless and drained, of the last such packet |
| EndToEnd.PacketReadings | include/sense.h:14-22 | those measurements are the packet's words in the scales of their units |
| EndToEnd.AnswersSplit | src/telemetry_d.c:504-639 | in every reachable state the ONLINE and OFFLINE answers together are the GET ALL answer, without loss or repetition, and so are the four TYPE answers |
| EndToEnd.LatencyAnswer | src/telemetry_d.c:647-660 | the answer for the latency sensor parses to a stamp that some connection received in a latency packet and the acquire queue accepted |
| EndToEnd.LatestLatencyAnswer | src/telemetry_d.c:647-660 | in lossless drained states it is the stamp of the last latency packet accepted |
| EndToEnd.IdReachesSlot | src/sense_utils.c:219-233 | in every reachable state GET ID reaches a sensor if and only if no earlier slot has its id, and if one has, no later GET ID shows it either |
| EndToEnd.LatencyShadowed | src/telemetry_d.c:647-654 | if any other sensor registered 65000 before the latency sensor, every later latency query reads that sensor's memory as a stamp |
| Query.Ask | tester/dev-interface.c:487-497 | from the typed line to the printed lines through both programs, for any short, interrupted or failing transfers: exactly the lines of the selected sensors that went out whole, each telling its sensor |
| Query.TypedStateAnswers | tester/dev-interface.c:345-365 | GET ALL is answered by every slot, GET ONLINE and GET OFFLINE by exactly the slots in that state, each once and in slot order |
| Query.TypedTypeAnswers | tester/dev-interface.c:388-402 | each of the four types typed is answered by exactly the slots of that type, each once and in slot order |
| Query.TypedIdAnswer | src/sense_utils.c:219-233 | an id typed is answered by the first slot with it, or a zeroed sensor |
| Query.UnknownIdLine | src/sense_utils.c:231-232 | an unknown id is answered by a line with a time and nothing else |
| EndToEnd.SessionAnswered | tester/dev-interface.c:461-498 | each query of a session is read as one line per sensor selected in the state it was answered in, each telling its sensor, as far as they got through |
| EndToEnd.SessionAgrees | src/telemetry_d.c:610-639 | asked again later, GET ALL and GET TYPE list the same sensors first, in the same order, and GET ID shows the same sensor once it has shown one |
| EndToEnd.SessionRevival | src/sense_utils.c:209-212 | a sensor shown after GET OFFLINE is typed and again after a later GET ONLINE has had a frame stored in between |
| Processing.Forwarder.ForwardFrame | src/processing_d.c:139-165 | a DATA frame goes to the log queue first and, only if taken, to telemetry; the exact new queues for every fault and fill level |
| Processing.ForwardInSteps | src/processing_d.c:139-165 | uninterrupted, the transition system's steps for one frame can end with exactly those queues |
| Processing.ForwardInterleaved | src/processing_d.c:139-165 | with any steps of other threads in between, from dispatch to idle the log accepts at most that frame and only data, telemetry at most that frame and data only after the log; with no failed send both accept all they should |
| Packet.CodecBijection | src/processing_d.c:72-137 | decoding a byte string gives a message if and only if the message is valid and encodes to that string |
| Packet.AcceptedPackets | src/sense_utils.c:51-91 | a packet is accepted exactly for a supported type with an empty payload or that type's exact length |
| Packet.MessageLayout | src/processing_d.c:72-137 | what each byte of an accepted packet means: sync, type code, id, length and the little-endian words of the measurements |
| Packet.BuildPacket | sensor-sims/client-sensors.c:96-110 | fills the buffer with exactly the encoded packet and touches nothing beyond it |
| Packet.GenerateFrame | src/processing_d.c:72-137 | accepts exactly the decodable buffers; the frame's timestamp is the wall clock, its last-seen the monotonic clock, its id, type, name, kind and data those of the buffer |
| Packet.FrameFields | src/processing_d.c:112-120 | the frame of a message carries the wall clock as its timestamp and the monotonic clock as last-seen; the rest is the message's |
| Bytes.WordAt | src/sense_utils.c:61-63 | a signed word survives its little-endian image anywhere in a buffer |
| Bytes.WordValue | src/sense_utils.c:61-63 | a word counts its bytes in powers of 256, lowest first, negative from 2^31 |
| Bytes.LongValue | sensor-sims/client-sensors.c:255-261 | so does an eight-byte one |
| Transport.SocketRecv | src/acquiring_d.c:177-203 | delivers the next bytes of the stream, or the kind of its end, whatever the fragmentation and interruptions |
| Transport.SendAll | sensor-sims/client-sensors.c:69-94 | everything goes out once and in order exactly when the peer takes that much, otherwise the beginning it took |
| Transport.TakenShape | sensor-sims/client-sensors.c:69-94 | of several buffers sent in a row, what goes out is the whole ones and a proper beginning of the first that failed |
| Acquirer.HandleConnection | src/acquiring_d.c:120-175 | the packets offered are a function of the stream alone |
| Acquirer.FramingExact | src/acquiring_d.c:126-170 | well-formed packets followed by a truncated one or a bad header are framed to exactly those packets, in order |
| Acquirer.FramingTotal | src/acquiring_d.c:126-170 | every stream is its offered well-formed packets followed by a truncated packet or a bad header |
| Acquirer.NothingAfterBadHeader | src/acquiring_d.c:141-151 | nothing that follows a bad sync byte or an over-long length is offered |
| Acquirer.SendPackets | sensor-sims/client-sensors.c:205-213 | packets are built in one buffer and sent in order up to the first failure; exactly what went out |
| Acquirer.Transfer | src/acquiring_d.c:120-175 | built, sent in any pieces until any failure, and received in any other pieces, exactly the packets that went out whole are offered, in order, byte for byte |
| Registry.StoreRefines | src/sense_utils.c:182-217 | storing extends the ordered map by the frame, never overruns after the growth check, and hits the limit exactly on a new key beyond 128 |
| Registry.LatestPositions | src/sense_utils.c:199-217 | a key's latest frame and latest data frame are the last ones, by position, that bear it |
| Registry.GrowRefines | src/telemetry_d.c:107-127 | growth keeps what is represented and leaves room or the limit; it happens exactly for a full allocation of less than 128 and doubles it |
| Registry.WatchRefines | src/telemetry_d.c:793-802 | a pass changes only states, to offline exactly for slots silent 30 s at the sample |
| Registry.ElapsedIsNanos | src/telemetry_d.c:811-813 | the elapsed-seconds test equals a test on integer nanoseconds |
| Registry.StoreShows | src/sense_utils.c:199-217 | storing a frame changes a cell's data and timestamp only by data for its key |
| Registry.GetByIdReaches | src/sense_utils.c:219-233 | GET ID reaches a sensor if and only if no earlier slot has its id |
| TelemetryRegistry.SensorRegistry.GrowIfFull | src/telemetry_d.c:107-127 | the array after the first critical section is the grown registry with all old cells |
| TelemetryRegistry.SensorRegistry.StoreFrame | src/telemetry_d.c:156-191 | the array after the second critical section is the stored registry, or unchanged at the limit |
| TelemetryRegistry.SensorRegistry.IngestAll | src/telemetry_d.c:102-192 | the loop represents the frames stored and stops early exactly when the frames bear more than 128 keys |
| TelemetryRegistry.SensorRegistry.UpdateRegistry | src/sense_utils.c:199-217 | one slot takes the frame's fields, data and timestamp only from DATA; the others stay |
| TelemetryRegistry.SensorRegistry.WatchdogPass | src/telemetry_d.c:793-802 | the array after the loop is the judged registry |
| TelemetryRegistry.SensorRegistry.SensorExists | src/sense_utils.c:182-197 | the first slot with the key, or the count |
| TelemetryRegistry.SensorRegistry.GetSensorId | src/sense_utils.c:219-233 | the first slot with the id, or the empty sensor |
| TelemetryRegistry.SensorRegistry.Select | src/telemetry_d.c:610-639 | the snapshot's matching sensors in order |
| LogFile.LogFileShape | src/logging_d.c:93-143 | each file is one header then that sensor's rows, nothing of another sensor; no rows, no file |
| LogFile.LogRoundTrip | src/sense_utils.c:119-180 | a log file read back by its own header gives the columns of its type and, row by row, the time and every measured integer, in order |
| LogFile.HeaderReads | src/sense_utils.c:121-164 | the header names what the type measures, in the order and the units of the rows |
| LogFile.Logger.LogFrame | src/logging_d.c:49-64 | a turn succeeds exactly when the file opens, the time can be formatted, the type is supported and the writes take the header due and then the row; the exact files in every case |
| LogFile.Logger.LogAll | src/logging_d.c:35-65 | from an empty directory under arbitrary short writes the loop runs to the first failing turn; without one the files are exactly those of the rows |
| LogFile.SuccessAppends | src/sense_utils.c:93-180 | a turn that succeeds appends exactly the row, after a header in an empty file |
| LogFile.FailureLeaves | src/sense_utils.c:93-180 | one that fails leaves at most a proper beginning of that, in a file created unless it could not be opened |
| LogFile.WriteLine | src/sense_utils.c:119-180 | header when empty, then the row; succeeds exactly if both are taken, and otherwise what was taken is there |
| LogFile.RowFits | src/sense_utils.c:131-177 | a row is one line and fits its 300-byte buffer |
| LogFile.DataStringRoundTrip | src/sense_utils.c:252-289 | reading the text back by the type's units returns every measured integer under its own unit |
| Sense.NamesInjective | src/sense_utils.c:23-49 | names and log paths are equal exactly for equal type and id |
| Response.NameReads | src/sense_utils.c:23-49 | a name tells the type by its letters and the id by its hexadecimal digits |
| Sense.NameFits | src/sense_utils.c:48-48 | every name fits 13 bytes whole, the widest exactly; the path is the directory, the name and the extension, and fits 64 |
| Text.DigitsRoundTrip | src/sense_utils.c:48-48 | printing in base 10 or 16 and reading back is the identity |
| Text.DigitsPlain | src/sense_utils.c:48-48 | the digits printed are lower case and not padded |
| Text.UpperValue | tester/dev-interface.c:372-372 | reading does not tell upper case from lower case |
| Text.FixedPointExact | src/sense_utils.c:333-339 | %f of any real within half a millionth of value/scale prints the exact text if and only if it is not a negative real for zero |
| Text.MeasurementTextExact | src/sense_utils.c:333-339 | for every int32 and any quotient a double division may return the text is exact, reads back to the value and fits 50 bytes |
| Text.UnsignedMeasurementText | src/sense_utils.c:143-155 | an unsigned field's text reads back to it if and only if it is below 2^31 |
| Commands.UserHandler | src/telemetry_d.c:322-433 | the commands answered are a function of the stream alone, cut at the first failed reply |
| Commands.CommandsRoundTrip | src/telemetry_d.c:326-429 | any supported commands after any bytes that are not the sync byte are recovered exactly |
| Commands.ServedTotal | src/telemetry_d.c:326-429 | every stream is the wire of the commands served, each after noise, then noise alone or before a cut-off or refused command |
| Commands.NothingAfterRefusal | src/telemetry_d.c:364-429 | nothing is served from noise or a cut-off command, nor anything after an unsupported selection or type |
| Commands.TypedCommandServed | tester/dev-interface.c:340-410 | every command line the client accepts is served as the command it was parsed to, after any noise |
| Commands.TypedId | tester/dev-interface.c:367-386 | GET ID with a hexadecimal number, after any blanks, sign and prefix and in either case, means the id strtoul makes of it, and is refused when that is no 16-bit id |
| Commands.TypedIdDigits | tester/dev-interface.c:367-386 | the digits of an id mean that id, in lower or upper case, with or without prefix |
| Commands.NoIdTyped | tester/dev-interface.c:374-377 | a GET ID without a digit where the number should be is refused |
| Commands.TypedBytes | tester/dev-interface.c:346-365 | the bytes each state query sends, and the command the server makes of them |
| Commands.TypedTypeBytes | tester/dev-interface.c:388-409 | the bytes each type query sends, and the command the server makes of them |
| Commands.IdBytes | tester/dev-interface.c:109-119 | the bytes a GET ID sends, low byte first, and the command the server makes of them |
| Commands.AcceptedLines | tester/dev-interface.c:340-410 | no other line sends anything |
| Response.LinesArePlain | src/telemetry_d.c:641-670 | no rendered line is END or contains newline or NUL, and with its newline it passes the server's 500-byte test and the client's line limit |
| Response.LineReads | src/telemetry_d.c:662-665 | the line of any sensor but those with the latency sensor's id reads as its time, type, id and every measurement |
| Response.LineLimit | tester/dev-interface.c:274-297 | the client takes a line of up to 4095 characters and gives up at a longer one |
| Response.ReceiveUntilEnd | tester/dev-interface.c:253-300 | the lines handed on and the result are a function of the stream alone |
| Response.ResponseRoundTrip | tester/dev-interface.c:231-300 | the client hands on exactly the lines sent before END, in order, and stops there |
| Response.AnswerRoundTrip | src/telemetry_d.c:202-226 | the same for any sensors and timestamps |
| Response.GiveSensors | src/telemetry_d.c:610-639 | every line passes the length check, and the answer is complete exactly when the client takes every buffer |
| Response.CutAnswer | tester/dev-interface.c:253-300 | an answer cut off at any byte is read as exactly the lines that went out whole, and as ended only if all did |
| Latency.LatencyStampRoundTrip | sensor-sims/client-sensors.c:255-261 | every int64 and int32 stamp packed, decoded, printed and parsed comes back unchanged |
| Latency.ParseLatencyLine | tester/dev-interface.c:131-144 | the parser inverts the printed latency line |
| Latency.LatencyAnswerWords | src/telemetry_d.c:647-654 | the latency answer reads as the words of whichever sensor has the id first |
| Latency.LatencyLog.LogLatency | tester/dev-interface.c:146-172 | a stamp equal to the remembered one adds nothing, any other in range adds its latency; the int64 arithmetic is defined exactly in that range |
| Latency.LatencyLog.LogAll | tester/dev-interface.c:146-172 | the samples of a session are the latencies of the first polls of the runs of equal stamps, all of them exactly if those are in range |
| Latency.OneSamplePerRun | tester/dev-interface.c:148-160 | one sample per run if and only if the first stamp is not the initial memory |
| Latency.LatencyAccurate | tester/dev-interface.c:166-168 | for instants in range, and only for those, there is a sample; it is within 1 microsecond of the truth and not negative when now is not before sent |
| Latency.SampleDefined | tester/dev-interface.c:166-168 | no int64 product, sum or difference overflows if and only if both instants and their distance are within 2^63 microseconds; the result is then the exact number |
| Latency.SampleDefinedAfterEpoch | tester/dev-interface.c:166-168 | for instants after the epoch, if and only if neither is 2^63 microseconds after it |
| Latency.StampOverflows | tester/dev-interface.c:166-166 | the greatest stamp arrives unchanged and overflows, whatever the clock |
| Latency.FileRoundTrip | tester/dev-interface.c:189-203 | the values read from the file are the samples written to it |
| Latency.LineValueForms | tester/dev-interface.c:189-203 | a line gives its number, after any blanks and with either sign, if that is an int64; without a digit there, none |
| Latency.AverageLatency | tester/dev-interface.c:174-229 | the window is the last min(5, n) values; the average is their sum divided towards zero, and undefined exactly if a partial sum does not fit int64 |
| Latency.AverageBetween | tester/dev-interface.c:224-228 | the truncated average lies between the least and the greatest value |
| Latency.Session | tester/dev-interface.c:146-229 | a whole session: the printed average is the truncated mean of the last five latencies of the runs of equal stamps, unless a sample or a partial sum is out of range |
| Latency.WindowSumFits | tester/dev-interface.c:224-226 | values within a fifth of the int64 range cannot overflow any partial sum |
| Latency.SumDefinedExact | tester/dev-interface.c:224-226 | for samples of any sign: defined if what they add and what they take away each fit, and only if the total fits; of one sign, if and only if the total fits |
| Latency.SumOverflows | tester/dev-interface.c:224-226 | two polls in range whose samples are logged and overflow the sum |

## Left out

- Sockets, addresses, accept, fork, signals and syslog: operating-system plumbing; transfers are scripts.
- Shutdown and the exit flag: a stopped telemetry daemon takes no further steps; restarts and leftover queue or file contents are not modelled.
- Failing clock reads in the processor, the watchdog (src/telemetry_d.c:789 ignores the result) and the latency log, and incomplete messages on the queues: assumed not to happen.
- localtime and strftime: their text is an argument.
- Throughput figures and the ten-second measurement: floating point and printing only.
- The client's data-file tokenizer, prompts and command-line handling: no properties of interest.
- Latency.ParseLatencyLine: saturation of out-of-range numbers by sscanf is not modelled; the printed numbers are in range.
- Latency.LatencyLog.LogLatency: what the program does after an overflow, which C leaves undefined, is not modelled; the session ends there.
- Allocation failure for a query's snapshot: the connection is then closed without an answer.
- Packet.GenerateFrame: the bytes of a word are added rather than or-ed; they have no bits in common.
