/** The MIDI settings record read by the decoder (`config::Midi`) and the
    key-binding mode enumeration it holds (`MidiBindMode`). */
module ConfigMidi {
  import opened Wrappers

  /** The C++ `int32_t` of `midiBindSpecificVelocity`. */
  newtype int32 = x: int | -0x8000_0000 <= x < 0x8000_0000

  /** How a MIDI note is bound to a control: take the first key seen, take the
      first key and its velocity, or wait for a key played at one specific
      velocity. */
  datatype MidiBindMode = InitialKey | InitialKeyAndVelocity | WaitForSpecificVelocity

  /** The enumeration's underlying `uint32_t` value. The reflection macro that
      numbers the values is not part of this model; they are taken to be numbered
      from 0 in declaration order, as a C++ enumeration without initialisers is. */
  function BindModeValue(m: MidiBindMode): (v: nat)
    ensures v < 3
  {
    match m
    case InitialKey => 0
    case InitialKeyAndVelocity => 1
    case WaitForSpecificVelocity => 2
  }

  /** The mode with a given underlying value, if there is one. */
  function BindModeFromValue(v: nat): (r: Option<MidiBindMode>)
    ensures r.Some? <==> v < 3
    ensures r.Some? ==> BindModeValue(r.value) == v
  {
    if v == 0 then Some(InitialKey)
    else if v == 1 then Some(InitialKeyAndVelocity)
    else if v == 2 then Some(WaitForSpecificVelocity)
    else None
  }

  /** Every mode is recovered from its value, so the three values are distinct
      and the enumeration has exactly three members, numbered in order. */
  lemma BindModeRoundTrip(m: MidiBindMode)
    ensures BindModeFromValue(BindModeValue(m)) == Some(m)
    ensures BindModeValue(InitialKey) < BindModeValue(InitialKeyAndVelocity) < BindModeValue(WaitForSpecificVelocity)
  {
  }

  /** `config::Midi`. */
  datatype Config = Config(
    midiBindMode: MidiBindMode,
    midiBindSpecificVelocity: int32,
    enableCCMessages: bool,
    zeroVelocityNoteOnToNoteOff: bool)

  /** A default-constructed `config::Midi`, as its member initialisers give it. */
  function Default(): (c: Config)
    ensures c.midiBindMode == InitialKey
    ensures c.midiBindSpecificVelocity == 0
    ensures !c.enableCCMessages
    ensures c.zeroVelocityNoteOnToNoteOff
  {
    Config(InitialKey, 0, false, true)
  }
}
