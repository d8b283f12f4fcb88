# Worker command pipeline and command encoder

A Dafny model of the worker side of an MQTT-based remote command runner
(`sut.py`, the "system under test") and of the command encoder of the
commander (`commander.py`).

The worker is a small sequential state machine over an immutable state:
its configuration, the acknowledgment flag, the stop flag, whether the
command-processing loop is still looping, the command queue (`None` is the
stop sentinel), the results it has published, and how many registration
messages it has sent. Each of its concurrent activities becomes one atomic
transition:

- `Worker.OnMessage`: the bus callback. It handles acknowledgments, decodes
  commands and applies the exact-match admission filter. Uncaught exceptions
  are explicit outcomes: `UnpackMismatch` for a delimited payload without
  `|`, `MissingKey` for a record without `client_id` or `command`, and
  `NotAnObject` for JSON that is not an object. A structured `command`
  field holding `null` is admitted as Python's `None`, which is the queue's
  stop sentinel, so it ends the processing loop.
- `Worker.Step`: one iteration of the processing loop. It checks the stop
  flag, dequeues, runs the command and builds the result. The subprocess
  outcome is a parameter (`ExecOutcome`: stdout/stderr, or an exception
  message), and its timestamps are opaque strings.
- `Worker.Stop`: the stop request.
- `Worker.RegistrationTick`: one iteration of the registration loop.

`WorkerTrace` runs these transitions over arbitrary interleavings and
proves what holds on every run: FIFO results, the acknowledgment flag, the
registration count, and that a stop request is final. The commander's
`SendCommand` normalises any spelling of `all` and encodes the pair in the
delimited form `id|command` or as a two-field record. `Protocol` connects
that encoder to the worker's decoder and filter.

Results go out either as a structured record or as multi-line text.
Only the structured form can be decoded back: an output that contains an
`Error:` line makes two different results print the same text
(`Feedback.TextPayloadNotInjective`).

JSON is an abstract codec, `Json.Codec`, with a pair `dumps`/`loads` over
flat records whose values are strings or `null`. Round trips through it assume `Json.Sound`:
`loads` recovers what `dumps` wrote.

## Model

| member | source | states |
|---|---|---|
| Text.SplitOnce | sut.py:75 | `split('\|', 1)`: one part when there is no separator; otherwise the text before the first separator (which is separator-free) and the rest, which joined around the separator give back the input |
| Text.SplitOnceUnique | sut.py:75 | the split is determined by the first separator, so the second part may itself contain separators |
| Feedback.BuildResult | sut.py:97-136 | a result echoes the worker id and the command and carries the run's timestamps; output is present exactly on success; error is stderr when non-empty and `None` otherwise; after an exception it reads `Failed to execute command: ` followed by the message |
| Feedback.Fields | sut.py:105-130 | the structured result has exactly the fields client_id, command, start_time, end_time, output, error on success and the same without output after an exception, with the record's values |
| Feedback.TextPayload | sut.py:113-136 | the text result is the newline-join of the lines `Client:`, `Command:`, `Start Time:`, `End Time:`, `Output:` (on success only) and `Error:`, each followed by its field's value |
| Feedback.TextPayloadNotInjective | sut.py:113-118 | the text result cannot be parsed back: when an output contains an `Error:` line, two different results print the same text |
| Feedback.StructuredResponseDecodes | sut.py:120 | with a sound codec a structured response decodes to exactly the result's fields: client_id, command, start_time, end_time and error with their values, and output (with its value) exactly on success |
| Feedback.NoErrorSentinelIsAmbiguous | sut.py:111 | an empty stderr and a stderr reading `None` give the same result record |
| Worker.Init | sut.py:39-49 | a new worker has no acknowledgment, no stop request, an empty queue, no results and no registrations, and its processing loop is running |
| Worker.DecodeCommand | sut.py:66-75 | delimited: a command exactly when the payload contains `\|`, split at the first one, otherwise an unpacking fault; structured: a JSON decode error is dropped, a non-object raises, a missing client_id or command raises KeyError (client_id checked first), otherwise the two field values, a `null` becoming `None` |
| Worker.OnMessage | sut.py:59-79 | an ack equal to the own id sets the flag, any other ack changes nothing, acks never touch the queue; a command is appended at the back exactly when it decodes and its target equals the own id, otherwise the queue is unchanged; a raised-exception event occurs exactly when decoding raises and a decode-failure event exactly when JSON decoding fails, a non-own ack is ignored and a well-formed command for another worker is not addressed; nothing else in the state changes |
| Worker.AckIdempotent | sut.py:61-64 | delivering the same acknowledgment twice has the effect of delivering it once |
| Worker.Step | sut.py:88-139 | a raised stop flag or a finished loop ends the loop without dequeuing; an empty queue only times out; the sentinel ends the loop and publishes nothing; a command is dequeued from the front and exactly one result built from it is appended; a raised exception still yields a result and the loop keeps running |
| Worker.Stop | sut.py:149-151 | a stop request raises the stop flag and enqueues the sentinel at the back, changing nothing else |
| Worker.RegistrationTick | sut.py:83-86 | a registration is published exactly when no acknowledgment has been received |
| Worker.RegistrationMessage | sut.py:84 | a registration is the worker id on the registration topic |
| Worker.ResponseMessage | sut.py:120 | a result goes out on the response topic in the configured wire format |
| Worker.ResponseMessageDecodes | sut.py:120 | in the structured format, a sound decoder recovers the result's fields from the response message |
| Worker.RegistrationEchoIsAck | sut.py:61-64 | the registration payload echoed back on the ack topic sets the ack flag, after which the registration loop sends nothing more |
| WorkerTrace.ResultsFollowAdmissionOrder | sut.py:77-139 | on every interleaving, results are only appended and carry the worker id; the commands they answer, followed by the commands still pending, equal the commands pending at the start followed by the admitted commands in delivery order |
| WorkerTrace.FreshWorkerAnswersAdmitted | sut.py:39-139 | from a freshly constructed worker, on every interleaving, the commands answered so far followed by the commands still pending are exactly the commands admitted so far |
| WorkerTrace.DrainInOrder | sut.py:88-139 | draining n queued commands publishes exactly n results, in queue order, each built from its command and its own execution outcome |
| WorkerTrace.SentinelEndsProcessing | sut.py:91-95 | the commands ahead of the sentinel run in order; the sentinel ends the loop; nothing behind it is executed |
| WorkerTrace.NothingPublishedAfterHalt | sut.py:88-95 | once the stop flag is raised or the loop has ended, no further result is published, whatever is delivered later |
| WorkerTrace.HaltedStaysHalted | sut.py:94-95 | a processing loop that has ended never runs again |
| WorkerTrace.HaltedIgnoresProcessing | sut.py:89 | processing iterations of an ended loop leave the whole state unchanged |
| WorkerTrace.StopIsFinal | sut.py:149-151 | after a stop request no result is ever published, even for commands queued before it, and the next processing iteration ends the loop |
| WorkerTrace.AckReceivedExactlyOnOwnAck | sut.py:61-64 | after any run the acknowledgment flag is set exactly when it was set before or the run delivered an ack carrying the own id |
| WorkerTrace.RegistrationsUntilAck | sut.py:81-86 | once acknowledged, no more registrations are sent; without an own ack, every registration-loop iteration sends one |
| Commander.LowerIsAllIffSpellsAll | commander.py:49 | the lower-cased id equals `all` exactly when the id is `all` in some mix of cases |
| Commander.NormalizeTarget | commander.py:49-50 | any case spelling of `all` becomes exactly `all`; every other id is sent unchanged |
| Commander.NormalizeIdempotent | commander.py:49-50 | normalising twice is normalising once |
| Commander.SendCommand | commander.py:48-55 | one call publishes exactly one message, after the earlier ones, on the command-loader topic, carrying the encoding of the normalised target and the command |
| Commander.DelimitedRoundTrip | commander.py:54 | for a target without `\|`, splitting `target\|command` at the first separator recovers exactly target and command, even when the command contains `\|` |
| Commander.DelimitedEncodesEverySplit | commander.py:54 | every payload with a separator is the delimited encoding of its two parts, whose first part is separator-free |
| Commander.SeparatorInTargetBreaksRoundTrip | commander.py:54 | for every target containing `\|`, the round trip fails: the decoded target is the text before the target's first `\|`, and the rest of the target moves in front of the command |
| Commander.StructuredRoundTrip | commander.py:52 | a structured command is a record with exactly the fields client_id and command, which a sound decoder recovers |
| Protocol.CommanderPayloadAdmission | sut.py:66-79 | a worker with the same wire format admits a commander-encoded command exactly when the normalised target equals its id, and then queues the command text unchanged; otherwise the payload is not addressed to it and nothing changes |
| Protocol.BroadcastNotAdmittedByWorker | sut.py:77 | the worker has no `all` handling: a command addressed to `all` leaves every worker whose id is not literally `all` unchanged |
| Protocol.SeparatorInTargetMisroutes | sut.py:75-79 | in the delimited format, a command sent to a target containing `\|` is admitted by the worker named by the text before that `\|`, which queues the rest of the target, `\|` and the command as one shell command |
| Protocol.NullCommandHaltsProcessing | sut.py:66-95 | a structured command with this worker's id and a `null` command is admitted as the stop sentinel: the commands ahead of it run in order, then the processing loop ends for good |

## Left out

- MQTT plumbing (connect, subscribe, `loop_start`/`loop_stop`, the publish transport) in both files. Publishing is modelled as appending to the state; a publish that raises is not modelled.
- What happens after an exception escapes the message callback. `OnMessage` reports it as `CallbackRaised` and leaves the state unchanged. What the MQTT client library then does with its network thread is outside the model.
- Threads, `Event`, `Queue.get` with timeout and the `time.sleep` intervals. Each loop iteration is one atomic transition. So the model excludes one real race: a stop request that lands after the loop's stop-flag check but before `get` lets that iteration run one more queued command.
- The joins in `stop` (sut.py:152-154). In particular, joining the registration thread blocks for as long as no acknowledgment arrives, because the registration loop does not look at the stop flag.
- `subprocess.run` and `datetime`. Each execution's result is an `ExecOutcome` parameter, and its timestamps are opaque strings.
- `json.dumps`/`json.loads`. They are the abstract `Json.Codec`. Records are flat, and their values are strings or `null`. A `null` command is modelled and halts the processing loop for good (`Protocol.NullCommandHaltsProcessing`). A number, boolean, list or object as the `client_id` or `command` value is not modelled.
- `msg.payload.decode()`. Payloads are already strings, so a UTF-8 decode error is not modelled.
- Text.Lower: only ASCII letters are lower-cased, not all of Unicode. For the `== 'all'` test this makes no difference, because no other character lower-cases to `a` or `l`.
- Logging through `color_log`, the commander's feedback printing (`on_message`, commander.py:29-38) and the confirmation `send_command` prints (commander.py:56). All of it is console output only.
- Argument and config parsing and environment overrides (sut.py:157-177, commander.py:59-88).
- The coordinator's registry, quiescence timer and `all` expansion. That code is not part of this model. The commander publishes to the command-loader topic, and `Protocol` relates its payloads to the worker's decoder directly.
