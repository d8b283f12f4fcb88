/**
 The result record a worker builds after running one command, in its two
 wire forms (a structured record and a multi-line text).
 */
module Feedback {
  import opened Common
  import Json

  /**
   What running one command produced. Timestamps are opaque strings (the
   worker formats Unix times it reads from the clock); `Raised` is an
   exception thrown while starting or running the subprocess, with its message.
   */
  datatype ExecOutcome =
    | Completed(stdout: string, stderr: string, startTime: string, endTime: string)
    | Raised(reason: string, startTime: string, endTime: string)

  /** A result record. `output` is absent from the record of a command that raised. */
  datatype Result = Result(
    clientId: string,
    command: string,
    startTime: string,
    endTime: string,
    output: Option<string>,
    error: string)

  /** The error text reported when stderr is empty. */
  const NoError: string := "None"

  /** The prefix of the error text reported when execution raised. */
  const FailurePrefix: string := "Failed to execute command: "

  const SuccessKeys: set<string> := {"client_id", "command", "start_time", "end_time", "output", "error"}
  const FailureKeys: set<string> := {"client_id", "command", "start_time", "end_time", "error"}

  /** The result a worker with identity `id` builds for `command` once it has run. */
  function BuildResult(id: string, command: string, outcome: ExecOutcome): (r: Result)
    ensures r.clientId == id && r.command == command
    ensures r.startTime == outcome.startTime && r.endTime == outcome.endTime
    ensures r.output.Some? <==> outcome.Completed?
    ensures outcome.Completed? ==> r.output.value == outcome.stdout
    ensures outcome.Completed? && outcome.stderr != [] ==> r.error == outcome.stderr
    ensures outcome.Completed? && outcome.stderr == [] ==> r.error == NoError
    ensures outcome.Raised? ==>
              && |FailurePrefix| <= |r.error|
              && r.error[..|FailurePrefix|] == FailurePrefix
              && r.error[|FailurePrefix|..] == outcome.reason
  {
    match outcome
    case Completed(out, err, start, end) =>
      Result(id, command, start, end, Some(out), if err != [] then err else NoError)
    case Raised(reason, start, end) =>
      Result(id, command, start, end, None, FailurePrefix + reason)
  }

  /** The structured form of a result: the record handed to the JSON encoder. */
  function Fields(r: Result): (f: map<string, string>)
    ensures f.Keys == if r.output.Some? then SuccessKeys else FailureKeys
    ensures f[ClientIdKey] == r.clientId && f[CommandKey] == r.command
    ensures f["start_time"] == r.startTime && f["end_time"] == r.endTime
    ensures f["error"] == r.error
    ensures r.output.Some? ==> f["output"] == r.output.value
  {
    var common := map[
      ClientIdKey := r.clientId,
      CommandKey := r.command,
      "start_time" := r.startTime,
      "end_time" := r.endTime,
      "error" := r.error];
    match r.output
    case Some(out) => common["output" := out]
    case None => common
  }

  /** Reference definition of the text form: one `Label: value` line per field, the output line only on success. */
  function Lines(r: Result): seq<string>
  {
    ["Client: " + r.clientId, "Command: " + r.command, "Start Time: " + r.startTime, "End Time: " + r.endTime]
    + (match r.output case Some(out) => ["Output: " + out] case None => [])
    + ["Error: " + r.error]
  }

  /** `"\n".join(lines)`. */
  function JoinLines(lines: seq<string>): string
  {
    if |lines| == 0 then ""
    else if |lines| == 1 then lines[0]
    else lines[0] + "\n" + JoinLines(lines[1..])
  }

  /** The text form of a result, built the way the worker formats it. */
  function TextPayload(r: Result): (t: string)
    ensures t == JoinLines(Lines(r))
  {
    var error := "Error: " + r.error;
    var fromOutput := match r.output case Some(out) => "Output: " + out + "\n" + error case None => error;
    var fromEnd := "End Time: " + r.endTime + "\n" + fromOutput;
    var fromStart := "Start Time: " + r.startTime + "\n" + fromEnd;
    var fromCommand := "Command: " + r.command + "\n" + fromStart;
    JoinLinesOfResult(r, fromOutput);
    "Client: " + r.clientId + "\n" + fromCommand
  }

  lemma JoinLinesOfResult(r: Result, fromOutput: string)
    requires fromOutput == match r.output
      case Some(out) => "Output: " + out + "\n" + ("Error: " + r.error)
      case None => "Error: " + r.error
    ensures JoinLines(Lines(r)) == "Client: " + r.clientId + "\n" + ("Command: " + r.command + "\n" +
      ("Start Time: " + r.startTime + "\n" + ("End Time: " + r.endTime + "\n" + fromOutput)))
  {
    var ls := Lines(r);
    var tail := ls[4..];
    assert JoinLines(tail) == fromOutput by {
      match r.output
      case Some(out) =>
        assert tail == ["Output: " + out, "Error: " + r.error];
        assert tail[1..] == ["Error: " + r.error];
      case None =>
        assert tail == ["Error: " + r.error];
    }
    assert ls[3..][1..] == tail;
    assert JoinLines(ls[3..]) == "End Time: " + r.endTime + "\n" + fromOutput;
    assert ls[2..][1..] == ls[3..];
    assert JoinLines(ls[2..]) == "Start Time: " + r.startTime + "\n" + JoinLines(ls[3..]);
    assert ls[1..][1..] == ls[2..];
    assert JoinLines(ls[1..]) == "Command: " + r.command + "\n" + JoinLines(ls[2..]);
    assert JoinLines(ls) == "Client: " + r.clientId + "\n" + JoinLines(ls[1..]);
  }

  /**
   The text form cannot be parsed back: whenever the output may contain an
   `Error:` line, two different results print the same text.
   */
  lemma TextPayloadNotInjective(id: string, command: string, start: string, end: string, x: string, y: string, z: string)
    ensures var r1 := Result(id, command, start, end, Some(x + "\nError: " + y), z);
      var r2 := Result(id, command, start, end, Some(x), y + "\nError: " + z);
      r1 != r2 && TextPayload(r1) == TextPayload(r2)
  {
    var r1 := Result(id, command, start, end, Some(x + "\nError: " + y), z);
    var r2 := Result(id, command, start, end, Some(x), y + "\nError: " + z);
    assert |r1.output.value| != |r2.output.value|;
    var marker := "\nError: ";
    assert marker == "\n" + "Error: ";
    var head := "Client: " + id + "\n" + ("Command: " + command + "\n" +
      ("Start Time: " + start + "\n" + ("End Time: " + end + "\n")));
    assert TextPayload(r1) == head + ("Output: " + (x + marker + y) + "\n" + ("Error: " + z));
    assert TextPayload(r2) == head + ("Output: " + x + "\n" + ("Error: " + (y + marker + z)));
  }

  /** The payload published on the response topic, in the configured wire format. */
  function ResponsePayload(jsonify: bool, codec: Json.Codec, r: Result): string
  {
    if jsonify then codec.dumps(Json.Strings(Fields(r))) else TextPayload(r)
  }

  /** With a sound codec, a structured response decodes to exactly the result's fields. */
  lemma StructuredResponseDecodes(codec: Json.Codec, r: Result)
    requires Json.Sound(codec)
    ensures codec.loads(ResponsePayload(true, codec, r)) == Json.Object(Json.Strings(Fields(r)))
    ensures var f := codec.loads(ResponsePayload(true, codec, r)).fields;
      && f[ClientIdKey] == Json.Str(r.clientId) && f[CommandKey] == Json.Str(r.command)
      && f["start_time"] == Json.Str(r.startTime) && f["end_time"] == Json.Str(r.endTime)
      && f["error"] == Json.Str(r.error)
      && ("output" in f <==> r.output.Some?)
      && (r.output.Some? ==> f["output"] == Json.Str(r.output.value))
  {
    var f := Json.Strings(Fields(r));
    assert codec.loads(codec.dumps(f)) == Json.Object(f);
  }

  /**
   An empty stderr and a stderr that reads exactly `None` give the same
   error text: the sentinel is not recoverable from the record.
   */
  lemma NoErrorSentinelIsAmbiguous(id: string, command: string, out: string, start: string, end: string)
    ensures BuildResult(id, command, Completed(out, "", start, end))
         == BuildResult(id, command, Completed(out, NoError, start, end))
  {
  }
}
