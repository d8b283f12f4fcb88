/**
 The worker (the system under test) as a sequential state machine. Each bus
 callback, each iteration of the command-processing loop, each iteration of
 the registration loop and a stop request is one atomic transition over an
 immutable state.
 */
module Worker {
  import opened Common
  import Text
  import Json
  import opened Feedback

  /** What a worker is configured with; fixed for its lifetime. */
  datatype Config = Config(
    clientId: string,
    ackTopic: string,
    registrationTopic: string,
    responseTopic: string,
    jsonify: bool)

  /**
   The worker state. `queue` is the command FIFO (`None` is the stop
   sentinel), `published` the results sent on the response topic in order,
   `registrations` how many registration messages were sent, and
   `consumerRunning` whether the command-processing loop is still looping.
   */
  datatype WorkerState = WorkerState(
    cfg: Config,
    ackReceived: bool,
    stopFlag: bool,
    consumerRunning: bool,
    queue: seq<Option<string>>,
    published: seq<Result>,
    registrations: nat)

  /** The state right after construction: both loops running, nothing received or sent. */
  function Init(cfg: Config): (w: WorkerState)
    ensures w.cfg == cfg && w.consumerRunning
    ensures !w.ackReceived && !w.stopFlag
    ensures w.queue == [] && w.published == [] && w.registrations == 0
  {
    WorkerState(cfg, false, false, true, [], [], 0)
  }

  /** An exception the message callback lets escape. */
  datatype Fault =
    | UnpackMismatch          // `split('|', 1)` gave one part; unpacking into two names fails
    | MissingKey(key: string) // the decoded object lacks a field
    | NotAnObject             // the decoded JSON value is not an object, so indexing it by a field name fails

  /**
   How a command payload decodes. A structured field holding `null` decodes
   to `None`. `Dropped` is a JSON decode error, which is logged and swallowed.
   */
  datatype Decoded =
    | Command(target: Option<string>, text: Option<string>)
    | Dropped
    | Failed(fault: Fault)

  /** What the message callback did with one message. */
  datatype Event =
    | AckAccepted
    | AckIgnored
    | Admitted
    | NotAddressed
    | DecodeFailed
    | CallbackRaised(fault: Fault)

  datatype Delivery = Delivery(state: WorkerState, event: Event)

  /** Decoding a payload received on a non-acknowledgment topic. */
  function DecodeCommand(jsonify: bool, codec: Json.Codec, payload: string): (d: Decoded)
    // delimited: split at the first separator; no separator is an unpacking error
    ensures !jsonify ==> !d.Dropped?
    ensures !jsonify ==> (d.Command? <==> Separator in payload)
    ensures !jsonify && d.Command? ==>
              && d.target.Some? && d.text.Some?
              && payload == d.target.value + [Separator] + d.text.value
              && Separator !in d.target.value
    ensures !jsonify && d.Failed? ==> d.fault == UnpackMismatch
    // structured: only a JSON decode error is swallowed
    ensures jsonify ==> (d.Dropped? <==> codec.loads(payload).Malformed?)
    ensures jsonify && codec.loads(payload).NotObject? ==> d == Failed(NotAnObject)
    ensures jsonify && codec.loads(payload).Object? ==>
              var f := codec.loads(payload).fields;
              && (ClientIdKey !in f ==> d == Failed(MissingKey(ClientIdKey)))
              && (ClientIdKey in f && CommandKey !in f ==> d == Failed(MissingKey(CommandKey)))
              && (ClientIdKey in f && CommandKey in f ==>
                    d == Command(Json.AsPython(f[ClientIdKey]), Json.AsPython(f[CommandKey])))
  {
    if jsonify then
      match codec.loads(payload)
      case Malformed => Dropped
      case NotObject => Failed(NotAnObject)
      case Object(f) =>
        if ClientIdKey !in f then Failed(MissingKey(ClientIdKey))
        else if CommandKey !in f then Failed(MissingKey(CommandKey))
        else Command(Json.AsPython(f[ClientIdKey]), Json.AsPython(f[CommandKey]))
    else
      var parts := Text.SplitOnce(payload, Separator);
      if |parts| != 2 then Failed(UnpackMismatch) else Command(Some(parts[0]), Some(parts[1]))
  }

  /**
   The admission filter: a command message addressed exactly to this
   worker's identity (a `null` target never equals it).
   */
  predicate Admits(cfg: Config, codec: Json.Codec, m: Message)
  {
    && m.topic != cfg.ackTopic
    && DecodeCommand(cfg.jsonify, codec, m.payload).Command?
    && DecodeCommand(cfg.jsonify, codec, m.payload).target == Some(cfg.clientId)
  }

  /** The message callback. */
  function OnMessage(w: WorkerState, codec: Json.Codec, m: Message): (r: Delivery)
    // only the acknowledgment flag and the queue can change
    ensures r.state == w.(ackReceived := r.state.ackReceived, queue := r.state.queue)
    // acknowledgments
    ensures m.topic == w.cfg.ackTopic ==> r.state.queue == w.queue
    ensures m.topic == w.cfg.ackTopic ==> (r.state.ackReceived <==> w.ackReceived || m.payload == w.cfg.clientId)
    ensures m.topic == w.cfg.ackTopic ==> (r.event == AckAccepted <==> m.payload == w.cfg.clientId)
    ensures m.topic != w.cfg.ackTopic ==> r.state.ackReceived == w.ackReceived
    // commands: appended at the back exactly when addressed to this worker
    ensures r.event == Admitted <==> Admits(w.cfg, codec, m)
    ensures Admits(w.cfg, codec, m) ==>
              r.state.queue == w.queue + [DecodeCommand(w.cfg.jsonify, codec, m.payload).text]
    ensures !Admits(w.cfg, codec, m) ==> r.state.queue == w.queue
    // failures are reported, never silently dropped
    ensures m.topic != w.cfg.ackTopic && DecodeCommand(w.cfg.jsonify, codec, m.payload).Dropped? ==>
              r.event == DecodeFailed
    ensures m.topic != w.cfg.ackTopic && DecodeCommand(w.cfg.jsonify, codec, m.payload).Failed? ==>
              r.event == CallbackRaised(DecodeCommand(w.cfg.jsonify, codec, m.payload).fault)
    ensures r.event.CallbackRaised? ==>
              m.topic != w.cfg.ackTopic && DecodeCommand(w.cfg.jsonify, codec, m.payload).Failed?
    ensures r.event == DecodeFailed ==>
              m.topic != w.cfg.ackTopic && DecodeCommand(w.cfg.jsonify, codec, m.payload).Dropped?
    ensures m.topic == w.cfg.ackTopic && m.payload != w.cfg.clientId ==> r.event == AckIgnored
    ensures (m.topic != w.cfg.ackTopic && DecodeCommand(w.cfg.jsonify, codec, m.payload).Command?
             && !Admits(w.cfg, codec, m)) ==> r.event == NotAddressed
  {
    if m.topic == w.cfg.ackTopic then
      if m.payload == w.cfg.clientId then Delivery(w.(ackReceived := true), AckAccepted)
      else Delivery(w, AckIgnored)
    else
      match DecodeCommand(w.cfg.jsonify, codec, m.payload)
      case Dropped => Delivery(w, DecodeFailed)
      case Failed(fault) => Delivery(w, CallbackRaised(fault))
      case Command(target, text) =>
        if target == Some(w.cfg.clientId) then Delivery(w.(queue := w.queue + [text]), Admitted)
        else Delivery(w, NotAddressed)
  }

  /**
   One iteration of the command-processing loop: check the stop flag, take
   the head of the queue (an empty queue is a timeout and the loop goes
   round again), stop on the sentinel, otherwise run the command, whose
   result is `outcome`, and publish its result.
   */
  function Step(w: WorkerState, outcome: ExecOutcome): (r: WorkerState)
    ensures r.cfg == w.cfg && r.ackReceived == w.ackReceived && r.stopFlag == w.stopFlag
    ensures r.registrations == w.registrations
    // at most one result, appended after the earlier ones
    ensures |w.published| <= |r.published| <= |w.published| + 1
    ensures r.published[..|w.published|] == w.published
    ensures |r.published| == |w.published| + 1 <==>
              w.consumerRunning && !w.stopFlag && |w.queue| > 0 && w.queue[0].Some?
    ensures |r.published| == |w.published| + 1 ==>
              && r.published[|w.published|] == BuildResult(w.cfg.clientId, w.queue[0].value, outcome)
              && r.queue == w.queue[1..]
              && r.consumerRunning
    // a finished loop, or a raised stop flag, leaves the queue alone
    ensures !w.consumerRunning || w.stopFlag ==> !r.consumerRunning && r.queue == w.queue
    // the sentinel ends the loop
    ensures w.consumerRunning && !w.stopFlag && |w.queue| > 0 && w.queue[0].None? ==>
              !r.consumerRunning && r.queue == w.queue[1..] && r.published == w.published
    // an empty queue only times out
    ensures w.consumerRunning && !w.stopFlag && w.queue == [] ==> r == w
  {
    if !w.consumerRunning then w
    else if w.stopFlag then w.(consumerRunning := false)
    else if |w.queue| == 0 then w
    else match w.queue[0]
      case None => w.(queue := w.queue[1..], consumerRunning := false)
      case Some(command) =>
        w.(queue := w.queue[1..],
           published := w.published + [BuildResult(w.cfg.clientId, command, outcome)])
  }

  /** A stop request: raise the stop flag and enqueue the sentinel. */
  function Stop(w: WorkerState): (r: WorkerState)
    ensures r.stopFlag
    ensures r.queue == w.queue + [None]
    ensures r == w.(stopFlag := true, queue := r.queue)
  {
    w.(stopFlag := true, queue := w.queue + [None])
  }

  /** One iteration of the registration loop: announce the identity while no acknowledgment has been seen. */
  function RegistrationTick(w: WorkerState): (r: WorkerState)
    ensures r == w.(registrations := r.registrations)
    ensures !w.ackReceived ==> r.registrations == w.registrations + 1
    ensures w.ackReceived ==> r.registrations == w.registrations
  {
    if w.ackReceived then w else w.(registrations := w.registrations + 1)
  }

  /** The message a registration tick publishes. */
  function RegistrationMessage(cfg: Config): (m: Message)
    ensures m.topic == cfg.registrationTopic && m.payload == cfg.clientId
  {
    Message(cfg.registrationTopic, cfg.clientId)
  }

  /** The message carrying a result on the response topic. */
  function ResponseMessage(cfg: Config, codec: Json.Codec, r: Result): (m: Message)
    ensures m.topic == cfg.responseTopic
    ensures m.payload == ResponsePayload(cfg.jsonify, codec, r)
  {
    Message(cfg.responseTopic, ResponsePayload(cfg.jsonify, codec, r))
  }

  /** A structured response message decodes, with a sound codec, to exactly the result's fields. */
  lemma ResponseMessageDecodes(cfg: Config, codec: Json.Codec, r: Result)
    requires cfg.jsonify && Json.Sound(codec)
    ensures codec.loads(ResponseMessage(cfg, codec, r).payload) == Json.Object(Json.Strings(Fields(r)))
  {
    StructuredResponseDecodes(codec, r);
  }

  /** The registration payload echoed back on the acknowledgment topic is this worker's acknowledgment. */
  lemma RegistrationEchoIsAck(w: WorkerState, codec: Json.Codec)
    ensures var echo := Message(w.cfg.ackTopic, RegistrationMessage(w.cfg).payload);
      && OnMessage(w, codec, echo).state.ackReceived
      && OnMessage(w, codec, echo).event == AckAccepted
      && RegistrationTick(OnMessage(w, codec, echo).state).registrations == w.registrations
  {
  }

  /** A repeated acknowledgment changes nothing further. */
  lemma AckIdempotent(w: WorkerState, codec: Json.Codec, m: Message)
    requires m.topic == w.cfg.ackTopic
    ensures var once := OnMessage(w, codec, m).state;
      OnMessage(once, codec, m).state == once
  {
  }
}
