/**
 The commander's command encoder: target normalisation and the delimited or
 structured encoding of one `(target, command)` pair, published on the
 command-loader topic.
 */
module Commander {
  import opened Common
  import Text
  import Json

  /** The commander's configuration and the messages it has published so far. */
  datatype CommanderState = CommanderState(commandLoaderTopic: string, jsonify: bool, sent: seq<Message>)

  /** `id` is `all` in some mix of upper and lower case. */
  predicate SpellsAll(id: string)
  {
    && |id| == 3
    && (id[0] == 'a' || id[0] == 'A')
    && (id[1] == 'l' || id[1] == 'L')
    && (id[2] == 'l' || id[2] == 'L')
  }

  /** The case-insensitive test the commander performs is exactly "spells all". */
  lemma LowerIsAllIffSpellsAll(id: string)
    ensures Text.Lower(id) == AllTarget <==> SpellsAll(id)
  {
    var low := Text.Lower(id);
    if |id| == 3 {
      assert low == [Text.LowerChar(id[0]), Text.LowerChar(id[1]), Text.LowerChar(id[2])];
    } else {
      assert |low| != |AllTarget|;
    }
  }

  /** The target actually sent: any spelling of `all` becomes `all`, every other identity is kept. */
  function NormalizeTarget(id: string): (target: string)
    ensures SpellsAll(id) ==> target == AllTarget
    ensures !SpellsAll(id) ==> target == id
  {
    LowerIsAllIffSpellsAll(id);
    if Text.Lower(id) == AllTarget then AllTarget else id
  }

  lemma NormalizeIdempotent(id: string)
    ensures NormalizeTarget(NormalizeTarget(id)) == NormalizeTarget(id)
  {
  }

  function EncodeDelimited(target: string, command: string): string
  {
    target + [Separator] + command
  }

  function EncodeStructured(codec: Json.Codec, target: string, command: string): string
  {
    codec.dumps(map[ClientIdKey := Json.Str(target), CommandKey := Json.Str(command)])
  }

  function Encode(jsonify: bool, codec: Json.Codec, target: string, command: string): string
  {
    if jsonify then EncodeStructured(codec, target, command) else EncodeDelimited(target, command)
  }

  /** Sending one command publishes exactly one message, on the command-loader topic. */
  function SendCommand(c: CommanderState, codec: Json.Codec, id: string, command: string): (r: CommanderState)
    ensures r.commandLoaderTopic == c.commandLoaderTopic && r.jsonify == c.jsonify
    ensures |r.sent| == |c.sent| + 1 && r.sent[..|c.sent|] == c.sent
    ensures r.sent[|c.sent|].topic == c.commandLoaderTopic
    ensures r.sent[|c.sent|].payload == Encode(c.jsonify, codec, NormalizeTarget(id), command)
  {
    var message := Message(c.commandLoaderTopic, Encode(c.jsonify, codec, NormalizeTarget(id), command));
    c.(sent := c.sent + [message])
  }

  /**
   Delimited round trip: splitting at the first separator recovers the pair,
   even when the command itself contains separators.
   */
  lemma DelimitedRoundTrip(target: string, command: string)
    requires Separator !in target
    ensures Text.SplitOnce(EncodeDelimited(target, command), Separator) == [target, command]
  {
    Text.SplitOnceUnique(target, Separator, command);
  }

  /** The converse: every payload that contains a separator is the encoding of its two parts. */
  lemma DelimitedEncodesEverySplit(payload: string)
    requires Separator in payload
    ensures var parts := Text.SplitOnce(payload, Separator);
      && Separator !in parts[0]
      && EncodeDelimited(parts[0], parts[1]) == payload
  {
  }

  /**
   Without the precondition the round trip fails for every target that
   contains a separator: the decoded target is the target's text before its
   first separator, and the rest of the target moves into the command.
   */
  lemma SeparatorInTargetBreaksRoundTrip(target: string, command: string)
    requires Separator in target
    ensures var head := Text.SplitOnce(target, Separator);
      && Text.SplitOnce(EncodeDelimited(target, command), Separator) == [head[0], head[1] + [Separator] + command]
      && Text.SplitOnce(EncodeDelimited(target, command), Separator)[0] != target
  {
    var head := Text.SplitOnce(target, Separator);
    assert EncodeDelimited(target, command) == head[0] + [Separator] + (head[1] + [Separator] + command);
    Text.SplitOnceUnique(head[0], Separator, head[1] + [Separator] + command);
  }

  /** A structured command is a record with exactly the two fields, which a sound decoder recovers. */
  lemma StructuredRoundTrip(codec: Json.Codec, target: string, command: string)
    requires Json.Sound(codec)
    ensures codec.loads(EncodeStructured(codec, target, command)).Object?
    ensures var f := codec.loads(EncodeStructured(codec, target, command)).fields;
      && f.Keys == {ClientIdKey, CommandKey}
      && f[ClientIdKey] == Json.Str(target)
      && f[CommandKey] == Json.Str(command)
  {
    var f := map[ClientIdKey := Json.Str(target), CommandKey := Json.Str(command)];
    assert codec.loads(codec.dumps(f)) == Json.Object(f);
  }
}
