/**
 * Messages from the trigger board arrive on the serial line as
 * `<TYPE>_<PAYLOAD>`. `BASLER_GUI.parse_message` splits them on `_` and acts
 * only on the type `PONG` (the board answered a ping).
 */
module Serial {
  import opened Wrappers
  import opened Text

  datatype PicoMessage = PicoMessage(mType: string, payload: Option<string>)

  /** The type is the first `_`-piece; the payload is the second piece, or None when there is no `_`. */
  function ParseMessage(message: string): PicoMessage
  {
    var parts := Split(message, '_');
    PicoMessage(parts[0], if |parts| >= 2 then Some(parts[1]) else None)
  }

  /** The only message the window reacts to: the board's answer to a ping. */
  predicate IsPong(m: PicoMessage)
  {
    m.mType == "PONG"
  }

  /**
   * The type is the text up to the first `_` (the whole message when there is
   * none), and there is a payload exactly when the message holds a `_`.
   */
  lemma ParseMessageType(message: string)
    ensures '_' !in ParseMessage(message).mType
    ensures ParseMessage(message).payload.None? <==> '_' !in message
    ensures '_' !in message ==> ParseMessage(message).mType == message
    ensures '_' in message ==>
      var t := ParseMessage(message).mType;
      |t| < |message| && message[..|t|] == t && message[|t|] == '_'
  {
    SplitHead(message, '_');
  }

  /**
   * The payload is only the second segment: it holds no `_`, it starts right
   * after the first `_`, and it ends at the end of the message or at a second `_`.
   */
  lemma ParseMessagePayload(message: string)
    requires '_' in message
    ensures ParseMessage(message).payload.Some?
    ensures
      var t := ParseMessage(message).mType;
      var p := ParseMessage(message).payload.value;
      && '_' !in p
      && |t| + 1 + |p| <= |message|
      && message[|t| + 1..|t| + 1 + |p|] == p
      && (|t| + 1 + |p| == |message| || message[|t| + 1 + |p|] == '_')
  {
    var parts := Split(message, '_');
    SplitHead(message, '_');
    SplitPiecesFree(message, '_');
    JoinSplit(message, '_');
    var t, p := parts[0], parts[1];
    var tail := Join(parts[1..], '_');
    assert message == t + ['_'] + tail;
    SplitTail(message, '_');
    assert Split(tail, '_') == parts[1..];
    SplitHead(tail, '_');
    assert message[|t| + 1..] == tail;
  }

  /** The window reacts exactly to `PONG` alone or to `PONG_` followed by any payload. */
  lemma PongIff(message: string)
    ensures IsPong(ParseMessage(message)) <==>
      message == "PONG" || (|message| >= 5 && message[..5] == "PONG_")
  {
    ParseMessageType(message);
    if |message| >= 5 && message[..5] == "PONG_" {
      assert '_' in message by { assert message[4] == '_'; }
      assert message == "PONG" + ['_'] + message[5..];
      SplitPrefix("PONG", message[5..], '_');
    }
  }
}
