/**
 The commander's encoder against the worker's decoder and filter: what a
 worker does with a payload the commander produced.
 */
module Protocol {
  import opened Common
  import Json
  import Text
  import Commander
  import opened Worker
  import opened Feedback
  import opened WorkerTrace

  /**
   A worker that uses the same wire format admits a commander-encoded
   command exactly when the normalised target equals its own identity, and
   then queues the command text unchanged; otherwise it changes nothing.
   */
  lemma CommanderPayloadAdmission(
    w: WorkerState, codec: Json.Codec, c: Commander.CommanderState, id: string, command: string, topic: string)
    requires topic != w.cfg.ackTopic
    requires c.jsonify == w.cfg.jsonify
    requires c.jsonify ==> Json.Sound(codec)
    requires !c.jsonify ==> Separator !in id
    ensures var sent := Commander.SendCommand(c, codec, id, command).sent[|c.sent|];
      var d := OnMessage(w, codec, Message(topic, sent.payload));
      && (d.event == Admitted <==> Commander.NormalizeTarget(id) == w.cfg.clientId)
      && (d.event == Admitted ==> d.state.queue == w.queue + [Some(command)])
      && (d.event != Admitted ==> d.event == NotAddressed && d.state == w)
  {
    var target := Commander.NormalizeTarget(id);
    var payload := Commander.Encode(c.jsonify, codec, target, command);
    if c.jsonify {
      Commander.StructuredRoundTrip(codec, target, command);
    } else {
      Commander.DelimitedRoundTrip(target, command);
    }
    assert DecodeCommand(w.cfg.jsonify, codec, payload) == Command(Some(target), Some(command));
  }

  /**
   Workers do no `all` handling: a command the commander addressed to `all`
   is not admitted by any worker whose identity is not literally `all`.
   */
  lemma BroadcastNotAdmittedByWorker(
    w: WorkerState, codec: Json.Codec, c: Commander.CommanderState, id: string, command: string, topic: string)
    requires topic != w.cfg.ackTopic
    requires c.jsonify == w.cfg.jsonify
    requires c.jsonify ==> Json.Sound(codec)
    requires Commander.SpellsAll(id)
    requires w.cfg.clientId != AllTarget
    ensures var sent := Commander.SendCommand(c, codec, id, command).sent[|c.sent|];
      OnMessage(w, codec, Message(topic, sent.payload)).state == w
  {
    CommanderPayloadAdmission(w, codec, c, id, command, topic);
  }

  /**
   In the delimited format a target containing a separator is misrouted:
   the worker whose identity is the target's text before its first separator
   admits the command, and queues the rest of the target, a separator and the
   command as one shell command.
   */
  lemma SeparatorInTargetMisroutes(
    w: WorkerState, codec: Json.Codec, c: Commander.CommanderState, id: string, command: string, topic: string)
    requires topic != w.cfg.ackTopic
    requires !c.jsonify && !w.cfg.jsonify
    requires Separator in id
    requires w.cfg.clientId == Text.SplitOnce(id, Separator)[0]
    ensures var sent := Commander.SendCommand(c, codec, id, command).sent[|c.sent|];
      var d := OnMessage(w, codec, Message(topic, sent.payload));
      && d.event == Admitted
      && d.state.queue == w.queue + [Some(Text.SplitOnce(id, Separator)[1] + [Separator] + command)]
  {
    assert Commander.NormalizeTarget(id) == id;
    Commander.SeparatorInTargetBreaksRoundTrip(id, command);
  }

  /**
   A structured command whose `command` field is `null` and whose target is
   this worker is admitted as the stop sentinel: the commands queued ahead of
   it still run in order, then the processing loop ends and runs nothing
   again.
   */
  lemma NullCommandHaltsProcessing(
    w: WorkerState, codec: Json.Codec, topic: string, cmds: seq<string>, outs: seq<ExecOutcome>)
    requires w.cfg.jsonify && Json.Sound(codec)
    requires topic != w.cfg.ackTopic
    requires w.consumerRunning && !w.stopFlag
    requires w.queue == Queued(cmds)
    requires |outs| > |cmds|
    ensures var payload := codec.dumps(map[ClientIdKey := Json.Str(w.cfg.clientId), CommandKey := Json.Null]);
      var d := OnMessage(w, codec, Message(topic, payload));
      var r := Run(d.state, codec, Processes(outs));
      && d.event == Admitted
      && d.state.queue == w.queue + [None]
      && r.published == w.published + Results(w.cfg.clientId, cmds, outs[..|cmds|])
      && !r.consumerRunning
  {
    var f := map[ClientIdKey := Json.Str(w.cfg.clientId), CommandKey := Json.Null];
    assert codec.loads(codec.dumps(f)) == Json.Object(f);
    var d := OnMessage(w, codec, Message(topic, codec.dumps(f)));
    assert d.state.queue == Queued(cmds) + [None] + [];
    SentinelEndsProcessing(d.state, codec, cmds, [], outs);
  }
}
