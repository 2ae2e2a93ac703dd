/** The state of the MIDI input module (`Midi::State`): the settings the
    decoder reads, the single open input port, the recent-message log shown in
    the panel, and the events sent on the application's event bus. The native
    MIDI library is reduced to what it answers: whether an open or a close
    succeeds, and whether a port is open. */
module MidiModule {
  import opened Wrappers
  import opened ConfigMidi
  import opened MidiDecode
  import opened RecentMessages

  /** `uint32_t`, the type of port indices. */
  newtype uint32 = x: int | 0 <= x < 0x1_0000_0000

  /** The callback's `double` time stamp; only passed through. */
  datatype Timestamp = Timestamp(seconds: real)

  /** One enumerated input port: its name and the device identifier derived
      from it (`MidiDevice::getUID`). */
  datatype MidiDevice = MidiDevice(name: string, uid: string)

  /** What the event bus receives (`events::MidiEvent`): the time stamp, the
      kind, the two masked data bytes and the device identifier. */
  datatype MidiEvent = MidiEvent(timeStamp: Timestamp, kind: MessageType, data1: byte, data2: byte, deviceUID: string)

  /** A line of the recent-message log, kept as the values it is formatted from. */
  datatype RecentEntry = RecentEntry(kind: MessageType, channel: byte, data1: byte, data2: byte)

  /** How one call of the MIDI callback ends. */
  datatype CallbackOutcome =
    | Published(event: MidiEvent)   // one event sent and one log line added
    | Dropped                       // returned without doing anything
    | Threw                         // `std::out_of_range` from `message->at(i)`
    | UndefinedDeviceIndex          // the unchecked port-name lookup is out of bounds

  /** The result of one callback, given the settings, the enumerated ports and
      the index of the last port opened. The port's device record is read as
      soon as the status byte has been read, before the message is classified,
      and without a bounds check. */
  function CallbackResult(cfg: Config, ports: seq<MidiDevice>, index: uint32,
                          timeStamp: Timestamp, message: Option<seq<byte>>): (r: CallbackOutcome)
    ensures r.UndefinedDeviceIndex? <==> ReadsDevice(message) && index as int >= |ports|
    ensures r.Published? <==> Decode(cfg, message).Recognised? && index as int < |ports|
    ensures r.Threw? <==> Decode(cfg, message).OutOfRange? && !(ReadsDevice(message) && index as int >= |ports|)
    ensures r.Published? ==>
              var d := Decode(cfg, message);
              r.event == MidiEvent(timeStamp, d.kind, d.data1, d.data2, ports[index].uid)
  {
    if ReadsDevice(message) && index as int >= |ports| then UndefinedDeviceIndex
    else
      match Decode(cfg, message)
      case Ignored => Dropped
      case OutOfRange => Threw
      case Recognised(kind, _, data1, data2) => Published(MidiEvent(timeStamp, kind, data1, data2, ports[index].uid))
  }

  /** The channel is shown in the log but not sent on the bus: two messages
      that differ only in their channel nibble have the same outcome. */
  lemma ChannelNotOnBus(cfg: Config, ports: seq<MidiDevice>, index: uint32, timeStamp: Timestamp,
                        m: seq<byte>, m': seq<byte>)
    requires 1 <= |m| == |m'| && m[0] as int / 16 == m'[0] as int / 16 && m[1..] == m'[1..]
    ensures CallbackResult(cfg, ports, index, timeStamp, Some(m)) == CallbackResult(cfg, ports, index, timeStamp, Some(m'))
  {
    assert TypeOf(m[0]) == TypeOf(m'[0]);
    if |m| >= 3 {
      assert m[1] == m'[1] && m[2] == m'[2];
    }
  }

  /** `std::clamp(v, 0, 127)`. */
  function ClampVelocity(v: int32): (r: int32)
    ensures 0 <= r <= 127
    ensures 0 <= v <= 127 ==> r == v
    ensures v < 0 ==> r == 0
    ensures v > 127 ==> r == 127
  {
    if v < 0 then 0 else if 127 < v then 127 else v
  }

  function Distance(a: int, b: int): nat {
    if a <= b then b - a else a - b
  }

  /** The clamped value is the in-range velocity nearest to the one entered. */
  lemma ClampIsNearest(v: int32, w: int32)
    requires 0 <= w <= 127
    ensures Distance(ClampVelocity(v) as int, v as int) <= Distance(w as int, v as int)
  {
  }

  /** The settings after one frame of the panel's settings block: the
      translation checkbox and the bind-mode combo give their new values, and
      only when the (new) mode waits for a specific velocity is the velocity
      field shown, edited and clamped into 0..127. CC messages have no widget. */
  function PanelSettings(cfg: Config, translate: bool, mode: MidiBindMode, entered: int32): (r: Config)
    ensures r.zeroVelocityNoteOnToNoteOff == translate && r.midiBindMode == mode
    ensures r.enableCCMessages == cfg.enableCCMessages
    ensures mode == WaitForSpecificVelocity ==> r.midiBindSpecificVelocity == ClampVelocity(entered)
    ensures mode != WaitForSpecificVelocity ==> r.midiBindSpecificVelocity == cfg.midiBindSpecificVelocity
  {
    var edited := cfg.(zeroVelocityNoteOnToNoteOff := translate, midiBindMode := mode);
    if mode == WaitForSpecificVelocity then
      edited.(midiBindSpecificVelocity := ClampVelocity(entered))
    else
      edited
  }

  class State {
    var config: Config
    var portNames: seq<MidiDevice>
    var openedIndex: uint32
    var portOpen: bool               // the library's `isPortOpen()`
    var recent: seq<RecentEntry>
    var bus: seq<MidiEvent>
    ghost var logged: seq<RecentEntry>   // every entry added to the log, oldest first

    /** The log is what adding the logged entries one by one to an empty log
        gives; so it holds the ten most recent, newest first. */
    ghost predicate Valid()
      reads this
    {
      recent == History([], logged)
    }

    /** What the invariant means for the log, by the history lemma. */
    lemma RecentIsNewestFirst()
      requires Valid()
      ensures |recent| == Min(|logged|, MaxRecent)
      ensures forall i :: 0 <= i < |recent| ==> recent[i] == logged[|logged| - 1 - i]
    {
      FromEmpty(logged);
    }

    /** The module after start-up, with the ports the library enumerated. */
    constructor (configMidi: Config, ports: seq<MidiDevice>)
      ensures Valid()
      ensures config == configMidi && portNames == ports
      ensures openedIndex == 0 && !portOpen && recent == [] && bus == [] && logged == []
    {
      config := configMidi;
      portNames := ports;
      openedIndex := 0;
      portOpen := false;
      recent := [];
      bus := [];
      logged := [];
    }

    /** `addRecentMessage`: push at the front, then pop from the back while
        there are more than ten. */
    method AddRecentMessage(entry: RecentEntry)
      requires Valid()
      modifies this`recent, this`logged
      ensures Valid()
      ensures recent == PushRecent(old(recent), entry)
      ensures logged == old(logged) + [entry]
    {
      recent := [entry] + recent;
      while |recent| > MaxRecent
        invariant Min(|[entry] + old(recent)|, MaxRecent) <= |recent| <= |[entry] + old(recent)|
        invariant recent == ([entry] + old(recent))[..|recent|]
        invariant logged == old(logged)
        decreases |recent|
      {
        recent := recent[..|recent| - 1];
      }
      logged := logged + [entry];
      assert logged[..|logged| - 1] == old(logged);
    }

    /** `onMidiData`: decode one message and, when it is recognised, log it
        and send it on the bus with the callback's time stamp and the open
        port's device identifier. */
    method OnMidiData(timeStamp: Timestamp, message: Option<seq<byte>>) returns (outcome: CallbackOutcome)
      requires Valid()
      modifies this`recent, this`bus, this`logged
      ensures Valid()
      ensures outcome == CallbackResult(config, portNames, openedIndex, timeStamp, message)
      ensures outcome.Published? ==>
                var d := Decode(config, message);
                && recent == PushRecent(old(recent), RecentEntry(d.kind, d.channel, d.data1, d.data2))
                && logged == old(logged) + [RecentEntry(d.kind, d.channel, d.data1, d.data2)]
                && bus == old(bus) + [outcome.event]
      ensures !outcome.Published? ==> recent == old(recent) && bus == old(bus) && logged == old(logged)
    {
      if message.None? || |message.value| > 4 {
        return Dropped;
      }
      if |message.value| == 0 {
        return Threw;
      }
      if openedIndex as int >= |portNames| {
        return UndefinedDeviceIndex;
      }
      var activeDeviceUID := portNames[openedIndex].uid;
      var decoded := Decode(config, message);
      match decoded {
        case Ignored =>
          outcome := Dropped;
        case OutOfRange =>
          outcome := Threw;
        case Recognised(kind, channel, data1, data2) =>
          var event := MidiEvent(timeStamp, kind, data1, data2, activeDeviceUID);
          AddRecentMessage(RecentEntry(kind, channel, data1, data2));
          bus := bus + [event];
          outcome := Published(event);
      }
    }

    /** `openInputPort`: the index is recorded, and true returned, only when
        the library opens the port. */
    method OpenInputPort(index: uint32, libraryOpens: bool) returns (ok: bool)
      modifies this`openedIndex, this`portOpen
      ensures ok == libraryOpens
      ensures ok ==> openedIndex == index && portOpen
      ensures !ok ==> openedIndex == old(openedIndex) && portOpen == old(portOpen)
    {
      if !libraryOpens {
        return false;
      }
      portOpen := true;
      openedIndex := index;
      return true;
    }

    /** `closeInputPort`: closes the open port if there is one; false only when
        the library fails to close it. The recorded index is kept. */
    method CloseInputPort(libraryCloses: bool) returns (ok: bool)
      modifies this`portOpen
      ensures ok == (!old(portOpen) || libraryCloses)
      ensures portOpen == (old(portOpen) && !libraryCloses)
    {
      if portOpen {
        if !libraryCloses {
          return false;
        }
        portOpen := false;
      }
      return true;
    }

    /** `getOpenPortIndex`: reports the recorded index only while a port is
        open; otherwise the caller's variable keeps its value. */
    method GetOpenPortIndex(result: uint32) returns (isOpen: bool, index: uint32)
      ensures isOpen <==> portOpen
      ensures index == if portOpen then openedIndex else result
    {
      if portOpen {
        return true, openedIndex;
      }
      return false, result;
    }

    /** One frame of the panel's settings block. */
    method EditSettings(translate: bool, mode: MidiBindMode, entered: int32)
      modifies this`config
      ensures config == PanelSettings(old(config), translate, mode, entered)
    {
      config := PanelSettings(config, translate, mode, entered);
    }
  }
}
