/**
 * The bridge object of xr12/xair.go: two bounded outbound queues, one of MIDI short
 * messages and one of SysEx payloads, and the mixer actions that validate their
 * arguments and make one non-blocking enqueue. Where the source calls `log.Fatal`,
 * an action returns `Fail` and leaves both queues as they were.
 */
module XAir {
  import opened Wrappers
  import opened Midi
  import opened Bytes
  import opened Sysex
  import opened Format
  import opened Levels

  /** Bus 0 is the main LR output; channel 0 is the main output for mutes. */
  const BusMain: int := 0
  const ChannelMain: int := 0

  const Mute: bool := true
  const Unmute: bool := false

  datatype Error =
    | BusOutOfRange(bus: int)
    | ChannelOutOfRange(channel: int)
    | UnknownLevelStep(level: int)
    | MidiQueueFull
    | SysExQueueFull

  /**
   * The OSC text `ChannelLevel` sends: the bus is checked first, then the channel,
   * then the level step. Bus 0 addresses the channel's main fader, buses 1..16 its
   * send level.
   */
  function ChannelLevelText(channel: int, bus: int, level: int): (r: Result<string, Error>)
    ensures !(0 <= bus <= 16) ==> r == Failure(BusOutOfRange(bus))
    ensures 0 <= bus <= 16 && !(1 <= channel <= 32) ==> r == Failure(ChannelOutOfRange(channel))
    ensures 0 <= bus <= 16 && 1 <= channel <= 32 && !(1 <= level <= 7) ==>
      r == Failure(UnknownLevelStep(level))
    ensures r.Success? <==> 0 <= bus <= 16 && 1 <= channel <= 32 && 1 <= level <= 7
    ensures r.Success? ==> IsAscii(r.value)
  {
    if bus < 0 || bus > 16 then Failure(BusOutOfRange(bus))
    else if channel < 1 || channel > 32 then Failure(ChannelOutOfRange(channel))
    else match LevelDb(level)
      case None => Failure(UnknownLevelStep(level))
      case Some(db) =>
        if bus == BusMain then Success(ChannelFader(channel, db))
        else Success(ChannelSend(channel, bus, db))
  }

  /** The OSC text `MainLevel` sends; only the level step is checked. */
  function MainLevelText(level: int): (r: Result<string, Error>)
    ensures !(1 <= level <= 7) ==> r == Failure(UnknownLevelStep(level))
    ensures r.Success? <==> 1 <= level <= 7
    ensures r.Success? ==> IsAscii(r.value)
  {
    match LevelDb(level)
    case None => Failure(UnknownLevelStep(level))
    case Some(db) => Success(MainFader(db))
  }

  /** The OSC text `BusLevel` sends: the bus (1..16) is checked before the level step. */
  function BusLevelText(bus: int, level: int): (r: Result<string, Error>)
    ensures !(1 <= bus <= 16) ==> r == Failure(BusOutOfRange(bus))
    ensures 1 <= bus <= 16 && !(1 <= level <= 7) ==> r == Failure(UnknownLevelStep(level))
    ensures r.Success? <==> 1 <= bus <= 16 && 1 <= level <= 7
    ensures r.Success? ==> IsAscii(r.value)
  {
    if bus < 1 || bus > 16 then Failure(BusOutOfRange(bus))
    else match LevelDb(level)
      case None => Failure(UnknownLevelStep(level))
      case Some(db) => Success(BusFader(bus, db))
  }

  lemma ChannelLevelExamples()
    ensures ChannelLevelText(5, 0, 5) == Success("/ch/05/mix/fader 0")
    ensures ChannelLevelText(5, 3, 1) == Success("/ch/05/mix/03/level -35")
    ensures ChannelLevelText(32, 16, 7) == Success("/ch/32/mix/16/level 5")
  {
    LevelTableContents();
    Pad2Examples();
    assert ChannelFader(5, "0") == "/ch/05/mix/fader 0";
    assert ChannelSend(5, 3, "-35") == "/ch/05/mix/03/level -35";
    assert ChannelSend(32, 16, "5") == "/ch/32/mix/16/level 5";
  }

  lemma BusAndMainLevelExamples()
    ensures BusLevelText(16, 7) == Success("/bus/16/mix/fader 5")
    ensures BusLevelText(17, 7) == Failure(BusOutOfRange(17))
    ensures MainLevelText(4) == Success("/main/st/mix/fader -2.4")
  {
    LevelTableContents();
    Pad2Examples();
    assert BusFader(16, "5") == "/bus/16/mix/fader 5";
    assert MainFader("-2.4") == "/main/st/mix/fader -2.4";
  }

  /** Distinct accepted `ChannelLevel` requests send distinct texts. */
  lemma ChannelLevelTextInjective(c1: int, b1: int, l1: int, c2: int, b2: int, l2: int)
    requires ChannelLevelText(c1, b1, l1).Success?
    requires ChannelLevelText(c1, b1, l1) == ChannelLevelText(c2, b2, l2)
    ensures c1 == c2 && b1 == b2 && l1 == l2
  {
    var d1, d2 := LevelDb(l1).value, LevelDb(l2).value;
    if b1 == BusMain && b2 == BusMain {
      ChannelFaderInjective(c1, d1, c2, d2);
    } else if b1 != BusMain && b2 != BusMain {
      ChannelSendInjective(c1, b1, d1, c2, b2, d2);
    } else if b1 == BusMain {
      FormatsDisjoint(c1, 0, c2, b2, d1, d2);
    } else {
      FormatsDisjoint(c2, 0, c1, b1, d2, d1);
    }
    LevelDbInjective(l1, l2);
  }

  /** Distinct accepted `BusLevel` requests send distinct texts. */
  lemma BusLevelTextInjective(b1: int, l1: int, b2: int, l2: int)
    requires BusLevelText(b1, l1).Success?
    requires BusLevelText(b1, l1) == BusLevelText(b2, l2)
    ensures b1 == b2 && l1 == l2
  {
    BusFaderInjective(b1, LevelDb(l1).value, b2, LevelDb(l2).value);
    LevelDbInjective(l1, l2);
  }

  /** Distinct accepted `MainLevel` requests send distinct texts. */
  lemma MainLevelTextInjective(l1: int, l2: int)
    requires MainLevelText(l1).Success?
    requires MainLevelText(l1) == MainLevelText(l2)
    ensures l1 == l2
  {
    MainFaderInjective(LevelDb(l1).value, LevelDb(l2).value);
    LevelDbInjective(l1, l2);
  }

  /**
   * The control change `ChannelMute` builds, then discards: on the mute channel,
   * note 31 for the main output and the zero-indexed channel otherwise, value 127 to
   * mute and 0 to unmute.
   */
  function MuteMessage(channel: int, mute: bool): (m: MidiShort)
    ensures m.status == 0xB1
    ensures m.data1 == (if channel == ChannelMain then 31 else channel - 1)
    ensures m.data2 == (if mute then 127 else 0)
  {
    var value := if mute then 127 else 0;
    if channel == ChannelMain then BuildMidiShort(ControlChange, MuteChannel, 31, value)
    else BuildMidiShort(ControlChange, MuteChannel, channel - 1, value)
  }

  /** The message built for a mute is never the zero message that is sent instead. */
  lemma MuteMessageIsNotSent(channel: int, mute: bool)
    ensures MuteMessage(channel, mute) != Zero
  {
  }

  lemma MuteMessageExamples()
    ensures MuteMessage(0, Mute) == MidiShort(0xB1, 31, 127)
    ensures MuteMessage(4, Unmute) == MidiShort(0xB1, 3, 0)
  {
  }

  /** The "MIDI dump" request: control change 127 = 127 on channel 1, bytes B0 7F 7F. */
  function DumpMessage(): (m: MidiShort)
    ensures m == MidiShort(0xB0, 0x7F, 0x7F)
  {
    BuildMidiShort(ControlChange, 1, 127, 127)
  }

  /** What the outbound writer puts on the wire for one dequeued item. */
  datatype WireMessage = Short(msg: MidiShort) | SysExFrame(bytes: seq<Byte>)

  class XAir {
    var midiQueue: seq<MidiShort>
    var sysExQueue: seq<seq<Byte>>
    /** Buffer sizes of the two channels; 0 models an unallocated (nil) channel. */
    const midiCapacity: nat
    const sysExCapacity: nat

    ghost predicate Valid()
      reads this
    {
      |midiQueue| <= midiCapacity && |sysExQueue| <= sysExCapacity
    }

    constructor (midiCapacity: nat, sysExCapacity: nat)
      ensures Valid()
      ensures this.midiCapacity == midiCapacity && this.sysExCapacity == sysExCapacity
      ensures midiQueue == [] && sysExQueue == []
    {
      this.midiCapacity := midiCapacity;
      this.sysExCapacity := sysExCapacity;
      midiQueue := [];
      sysExQueue := [];
    }

    /** A non-blocking send of `m` on the MIDI queue that held `before`, with result `out`. */
    ghost predicate MidiSent(before: seq<MidiShort>, m: MidiShort, out: Outcome<Error>)
      reads this
    {
      if |before| < midiCapacity then out == Pass && midiQueue == before + [m]
      else out == Fail(MidiQueueFull) && midiQueue == before
    }

    /** A non-blocking send of `p` on the SysEx queue that held `before`, with result `out`. */
    ghost predicate SysExSent(before: seq<seq<Byte>>, p: seq<Byte>, out: Outcome<Error>)
      reads this
    {
      if |before| < sysExCapacity then out == Pass && sysExQueue == before + [p]
      else out == Fail(SysExQueueFull) && sysExQueue == before
    }

    method QueueMidiMessage(m: MidiShort) returns (out: Outcome<Error>)
      requires Valid()
      modifies this
      ensures Valid()
      ensures MidiSent(old(midiQueue), m, out)
      ensures sysExQueue == old(sysExQueue)
    {
      if |midiQueue| < midiCapacity {
        midiQueue := midiQueue + [m];
        out := Pass;
      } else {
        out := Fail(MidiQueueFull);
      }
    }

    method QueueSysExMessage(m: seq<Byte>) returns (out: Outcome<Error>)
      requires Valid()
      modifies this
      ensures Valid()
      ensures SysExSent(old(sysExQueue), m, out)
      ensures midiQueue == old(midiQueue)
    {
      if |sysExQueue| < sysExCapacity {
        sysExQueue := sysExQueue + [m];
        out := Pass;
      } else {
        out := Fail(SysExQueueFull);
      }
    }

    /**
     * Builds the mute control change and drops it; what is enqueued is the zero
     * value of the variable that was meant to hold it, whatever the arguments.
     */
    method ChannelMute(channel: int, mute: bool) returns (out: Outcome<Error>)
      requires Valid()
      modifies this
      ensures Valid()
      ensures MidiSent(old(midiQueue), Zero, out)
      ensures sysExQueue == old(sysExQueue)
    {
      var value: int;
      if mute {
        value := 127;
      } else {
        value := 0;
      }
      var midi := Zero;
      var built: MidiShort;
      if channel == ChannelMain {
        built := BuildMidiShort(ControlChange, MuteChannel, 31, value);
      } else {
        built := BuildMidiShort(ControlChange, MuteChannel, channel - 1, value);
      }
      out := QueueMidiMessage(midi);
    }

    /** The mute action as evidently intended: it enqueues the control change it builds. */
    method ChannelMuteIntended(channel: int, mute: bool) returns (out: Outcome<Error>)
      requires Valid()
      modifies this
      ensures Valid()
      ensures MidiSent(old(midiQueue), MuteMessage(channel, mute), out)
      ensures sysExQueue == old(sysExQueue)
    {
      out := QueueMidiMessage(MuteMessage(channel, mute));
    }

    /** `order` is the order in which `range levels()` visits the stops. */
    method ChannelLevel(channel: int, bus: int, level: int, order: seq<int>) returns (out: Outcome<Error>)
      requires Valid() && IsRangeOrder(order)
      modifies this
      ensures Valid()
      ensures midiQueue == old(midiQueue)
      ensures match ChannelLevelText(channel, bus, level)
        case Failure(e) => out == Fail(e) && sysExQueue == old(sysExQueue)
        case Success(text) => SysExSent(old(sysExQueue), Ascii(text), out)
    {
      if bus < 0 || bus > 16 {
        return Fail(BusOutOfRange(bus));
      }
      if channel < 1 || channel > 32 {
        return Fail(ChannelOutOfRange(channel));
      }
      var db := FindLevel(order, level);
      if db.None? {
        return Fail(UnknownLevelStep(level));
      }
      if bus == BusMain {
        out := QueueSysExMessage(Ascii(ChannelFader(channel, db.value)));
      } else {
        out := QueueSysExMessage(Ascii(ChannelSend(channel, bus, db.value)));
      }
    }

    /** `order` is the order in which `range levels()` visits the stops. */
    method MainLevel(level: int, order: seq<int>) returns (out: Outcome<Error>)
      requires Valid() && IsRangeOrder(order)
      modifies this
      ensures Valid()
      ensures midiQueue == old(midiQueue)
      ensures match MainLevelText(level)
        case Failure(e) => out == Fail(e) && sysExQueue == old(sysExQueue)
        case Success(text) => SysExSent(old(sysExQueue), Ascii(text), out)
    {
      var db := FindLevel(order, level);
      if db.None? {
        return Fail(UnknownLevelStep(level));
      }
      out := QueueSysExMessage(Ascii(MainFader(db.value)));
    }

    /** `order` is the order in which `range levels()` visits the stops. */
    method BusLevel(bus: int, level: int, order: seq<int>) returns (out: Outcome<Error>)
      requires Valid() && IsRangeOrder(order)
      modifies this
      ensures Valid()
      ensures midiQueue == old(midiQueue)
      ensures match BusLevelText(bus, level)
        case Failure(e) => out == Fail(e) && sysExQueue == old(sysExQueue)
        case Success(text) => SysExSent(old(sysExQueue), Ascii(text), out)
    {
      if bus < 1 || bus > 16 {
        return Fail(BusOutOfRange(bus));
      }
      var db := FindLevel(order, level);
      if db.None? {
        return Fail(UnknownLevelStep(level));
      }
      out := QueueSysExMessage(Ascii(BusFader(bus, db.value)));
    }

    method TriggerMidiDump() returns (out: Outcome<Error>)
      requires Valid()
      modifies this
      ensures Valid()
      ensures MidiSent(old(midiQueue), MidiShort(0xB0, 0x7F, 0x7F), out)
      ensures sysExQueue == old(sysExQueue)
    {
      var midi := BuildMidiShort(ControlChange, 1, 127, 127);
      out := QueueMidiMessage(midi);
    }

    /**
     * One receive of the outbound writer's `select`: takes the head of a non-empty
     * queue, choosing by `preferMidi` when both have items (Go leaves that choice
     * open), and gives what is written for it; a SysEx payload goes out wrapped.
     * With both queues empty the writer would block; here it gets None.
     */
    method NextOutbound(preferMidi: bool) returns (w: Option<WireMessage>)
      requires Valid()
      modifies this
      ensures Valid()
      ensures old(midiQueue) != [] && (preferMidi || old(sysExQueue) == []) ==>
        w == Some(Short(old(midiQueue)[0])) &&
        midiQueue == old(midiQueue)[1..] && sysExQueue == old(sysExQueue)
      ensures old(sysExQueue) != [] && (!preferMidi || old(midiQueue) == []) ==>
        w == Some(SysExFrame(Wrap(old(sysExQueue)[0]))) &&
        sysExQueue == old(sysExQueue)[1..] && midiQueue == old(midiQueue)
      ensures old(midiQueue) == [] && old(sysExQueue) == [] ==>
        w == None && midiQueue == [] && sysExQueue == []
    {
      if midiQueue != [] && (preferMidi || sysExQueue == []) {
        w := Some(Short(midiQueue[0]));
        midiQueue := midiQueue[1..];
      } else if sysExQueue != [] {
        w := Some(SysExFrame(Wrap(sysExQueue[0])));
        sysExQueue := sysExQueue[1..];
      } else {
        w := None;
      }
    }
  }
}
