/** The byte-level decoding done by `Midi::State::onMidiData`: a raw MIDI
    message of at most four bytes is split into its status byte's type and
    channel nibbles and its 7-bit data bytes, and classified as Note On, Note
    Off or Control Change, following the channel-voice rows of "Table 1:
    Summary of MIDI Messages" of the MIDI 1.0 Detailed Specification. */
module MidiDecode {
  import opened Wrappers
  import opened ConfigMidi

  /** `unsigned char` / `uint8_t`. */
  type byte = bv8

  /** Status types, as the high nibble of the status byte kept in place. The
      header that defines `midi::NoteOff::u7Type` and its siblings is not part
      of this model; the values are those of the MIDI 1.0 table: Note Off is
      0x8n, Note On 0x9n and Control Change 0xBn, for channel n. */
  const NoteOffType: byte := 0x80
  const NoteOnType: byte := 0x90
  const ControlChangeType: byte := 0xB0

  /** The kinds of `midi::Message::Type` the decoder publishes. */
  datatype MessageType = NoteOn | NoteOff | ControlChange

  /** What decoding one message gives. */
  datatype Decoded =
    | Ignored        // nothing published and nothing logged
    | Recognised(kind: MessageType, channel: byte, data1: byte, data2: byte)
    | OutOfRange     // a `message->at(i)` past the end throws `std::out_of_range`

  /** The channel: the low nibble of the status byte. */
  function ChannelOf(status: byte): (ch: byte)
    ensures ch <= 15
    ensures ch as int == status as int % 16
  {
    status & 0x0F
  }

  /** The message type: the high nibble of the status byte, left in place. */
  function TypeOf(status: byte): (t: byte)
    ensures t as int % 16 == 0
    ensures t as int / 16 == status as int / 16
  {
    status & 0xF0
  }

  /** A data byte with its top bit cleared. */
  function Mask7(b: byte): (v: byte)
    ensures v <= 0x7F
    ensures v as int == b as int % 128
    ensures b <= 0x7F ==> v == b
  {
    b & 0x7F
  }

  /** Whether the decoder handles a status byte under the given settings, stated
      on the numeric value of the status's high nibble: 8 (Note Off), 9 (Note
      On), and 11 (Control Change) only when CC messages are enabled. */
  predicate Handled(cfg: Config, status: byte) {
    var hi := status as int / 16;
    hi == 8 || hi == 9 || (cfg.enableCCMessages && hi == 11)
  }

  /** The decoding of one callback's message; `None` is a null message pointer. */
  function Decode(cfg: Config, message: Option<seq<byte>>): (r: Decoded)
    ensures r.Recognised? <==>
              message.Some? && 3 <= |message.value| <= 4 && Handled(cfg, message.value[0])
    ensures r.OutOfRange? <==>
              message.Some? && |message.value| <= 4 &&
              (|message.value| == 0 || (|message.value| < 3 && Handled(cfg, message.value[0])))
    ensures r.Recognised? ==>
              && r.channel <= 15 && r.data1 <= 0x7F && r.data2 <= 0x7F
              && r.channel as int == message.value[0] as int % 16
              && r.data1 as int == message.value[1] as int % 128
              && r.data2 as int == message.value[2] as int % 128
  {
    match message
    case None => Ignored
    case Some(m) =>
      if |m| > 4 then Ignored
      else if |m| == 0 then OutOfRange
      else
        var channel := ChannelOf(m[0]);
        var kind := TypeOf(m[0]);
        if kind == NoteOnType then
          if |m| < 3 then OutOfRange
          else
            var key, vel := Mask7(m[1]), Mask7(m[2]);
            var published := if cfg.zeroVelocityNoteOnToNoteOff && vel == 0 then NoteOff else NoteOn;
            Recognised(published, channel, key, vel)
        else if kind == NoteOffType then
          if |m| < 3 then OutOfRange
          else Recognised(NoteOff, channel, Mask7(m[1]), Mask7(m[2]))
        else if cfg.enableCCMessages && kind == ControlChangeType then
          if |m| < 3 then OutOfRange
          else Recognised(ControlChange, channel, Mask7(m[1]), Mask7(m[2]))
        else
          Ignored
  }

  /** Whether the callback reads the open port's device record before it
      classifies the message: a non-null message of one to four bytes. */
  predicate ReadsDevice(message: Option<seq<byte>>) {
    message.Some? && 1 <= |message.value| <= 4
  }

  /** A null message, or one of more than four bytes, is ignored. */
  lemma OversizeIgnored(cfg: Config, message: Option<seq<byte>>)
    requires message.None? || |message.value| > 4
    ensures Decode(cfg, message) == Ignored
    ensures !ReadsDevice(message)
  {
  }

  /** A Note On whose masked velocity is 0 is published as Note Off exactly when
      the translation is enabled, and as Note On otherwise; key and velocity are
      the masked data bytes. */
  lemma NoteOnTranslation(cfg: Config, m: seq<byte>)
    requires 3 <= |m| <= 4 && m[0] as int / 16 == 9
    ensures var d := Decode(cfg, Some(m));
      && d.Recognised?
      && (d.kind == NoteOff <==> cfg.zeroVelocityNoteOnToNoteOff && m[2] as int % 128 == 0)
      && (d.kind == NoteOn <==> !(cfg.zeroVelocityNoteOnToNoteOff && m[2] as int % 128 == 0))
      && d.data1 == Mask7(m[1]) && d.data2 == Mask7(m[2])
  {
  }

  /** A Note Off is published as Note Off whatever the settings. */
  lemma NoteOffAlwaysNoteOff(cfg: Config, m: seq<byte>)
    requires 3 <= |m| <= 4 && m[0] as int / 16 == 8
    ensures Decode(cfg, Some(m)) == Recognised(NoteOff, ChannelOf(m[0]), Mask7(m[1]), Mask7(m[2]))
  {
  }

  /** A Control Change is published exactly when CC messages are enabled, and
      is ignored otherwise. */
  lemma ControlChangeGated(cfg: Config, m: seq<byte>)
    requires 3 <= |m| <= 4 && m[0] as int / 16 == 11
    ensures cfg.enableCCMessages ==>
              Decode(cfg, Some(m)) == Recognised(ControlChange, ChannelOf(m[0]), Mask7(m[1]), Mask7(m[2]))
    ensures !cfg.enableCCMessages ==> Decode(cfg, Some(m)) == Ignored
  {
  }

  /** Every other status (Polyphonic Key Pressure, Program Change, Channel
      Pressure, Pitch Bend, system messages, and data bytes in status position)
      is ignored, however long the message is. */
  lemma OtherStatusIgnored(cfg: Config, m: seq<byte>)
    requires 1 <= |m| <= 4
    requires m[0] as int / 16 != 8 && m[0] as int / 16 != 9 && m[0] as int / 16 != 11
    ensures Decode(cfg, Some(m)) == Ignored
  {
  }

  /** Under the default settings a Note On with velocity 0 becomes a Note Off
      and every Control Change is ignored. */
  lemma DefaultConfigDecoding(m: seq<byte>)
    requires 3 <= |m| <= 4
    ensures m[0] as int / 16 == 9 && m[2] as int % 128 == 0 ==>
              Decode(Default(), Some(m)).Recognised? && Decode(Default(), Some(m)).kind == NoteOff
    ensures m[0] as int / 16 == 11 ==> Decode(Default(), Some(m)) == Ignored
  {
  }

  // A reference encoder: the three-byte wire form of a channel message.

  /** The status-type byte each kind is recognised by and encoded with. */
  function TypeByte(kind: MessageType): (t: byte)
    ensures t as int % 16 == 0
  {
    match kind
    case NoteOff => NoteOffType
    case NoteOn => NoteOnType
    case ControlChange => ControlChangeType
  }

  /** A channel message as its three bytes: status, then two data bytes. */
  function Encode(kind: MessageType, channel: byte, data1: byte, data2: byte): (m: seq<byte>)
    requires channel <= 15 && data1 <= 0x7F && data2 <= 0x7F
    ensures |m| == 3 && m[1] == data1 && m[2] == data2
    ensures m[0] as int / 16 == TypeByte(kind) as int / 16 && m[0] as int % 16 == channel as int
  {
    [TypeByte(kind) + channel, data1, data2]
  }

  /** The kind a decoded message is published as: the encoded kind, except that
      a Note On of velocity 0 is a Note Off when the translation is enabled. */
  function Translated(cfg: Config, kind: MessageType, velocity: byte): MessageType {
    if kind == NoteOn && cfg.zeroVelocityNoteOnToNoteOff && velocity == 0 then NoteOff else kind
  }

  /** The encoded status byte splits back into its type and its channel. */
  lemma EncodedStatus(kind: MessageType, channel: byte, data1: byte, data2: byte)
    requires channel <= 15 && data1 <= 0x7F && data2 <= 0x7F
    ensures var status := Encode(kind, channel, data1, data2)[0];
      TypeOf(status) == TypeByte(kind) && ChannelOf(status) == channel
  {
  }

  /** Decoding an encoded message gives back its channel and data bytes, and its
      kind up to the zero-velocity translation. */
  lemma DecodeEncode(cfg: Config, kind: MessageType, channel: byte, data1: byte, data2: byte)
    requires channel <= 15 && data1 <= 0x7F && data2 <= 0x7F
    requires kind == ControlChange ==> cfg.enableCCMessages
    ensures Decode(cfg, Some(Encode(kind, channel, data1, data2)))
         == Recognised(Translated(cfg, kind, data2), channel, data1, data2)
  {
    var m := Encode(kind, channel, data1, data2);
    EncodedStatus(kind, channel, data1, data2);
    assert Mask7(m[1]) == data1 && Mask7(m[2]) == data2;
  }

  /** Conversely, a recognised message decodes exactly as the encoding of what
      it was recognised as: the decoder keeps nothing but the type, the channel
      and the low seven bits of the first two data bytes. */
  lemma EncodeDecode(cfg: Config, m: seq<byte>)
    requires Decode(cfg, Some(m)).Recognised?
    ensures var d := Decode(cfg, Some(m));
      Decode(cfg, Some(Encode(d.kind, d.channel, d.data1, d.data2))) == d
  {
    var d := Decode(cfg, Some(m));
    DecodeEncode(cfg, d.kind, d.channel, d.data1, d.data2);
  }
}
