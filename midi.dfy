/**
 * MIDI short messages (xr12/midi.go): a status byte packing a command nibble and a
 * zero-indexed channel nibble, followed by two data values.
 */
module Midi {

  // Channel-voice commands, the high nibble of a status byte.
  const NoteOff: int := 0x8
  const NoteOn: int := 0x9
  const ControlChange: int := 0xB
  const ProgramChange: int := 0xC

  /** The 1-indexed MIDI channel on which the mixer listens for mute control changes. */
  const MuteChannel: int := 2

  /** The three 64-bit integers written with one short-message write. */
  datatype MidiShort = MidiShort(status: int, data1: int, data2: int)

  /** The zero value of the record. */
  const Zero: MidiShort := MidiShort(0, 0, 0)

  /**
   * Packs `cmd` and the 1-indexed `channel` into a status byte.
   * The source computes `(cmd << 4 & 0xF0) | ((channel - 1) & 0xF)` on 64-bit integers.
   * Masking a two's complement value with 2^k - 1 keeps its residue modulo 2^k, which is
   * Dafny's Euclidean `%` (wrap-around of the shift or the subtraction does not touch the
   * kept bits); the shifted command has a zero low nibble, so masking it with 0xF0 keeps
   * it modulo 0x100, and the two masked halves share no bit, so `|` adds them.
   * No argument is range-checked; note and value pass through unchanged.
   */
  function BuildMidiShort(cmd: int, channel: int, note: int, value: int): (m: MidiShort)
    ensures 0 <= m.status < 0x100
    ensures m.status / 0x10 == cmd % 0x10
    ensures m.status % 0x10 == (channel - 1) % 0x10
    ensures m.data1 == note && m.data2 == value
  {
    MidiShort(cmd * 0x10 % 0x100 + (channel - 1) % 0x10, note, value)
  }

  /** The command nibble a receiver reads from a status byte. */
  function Command(m: MidiShort): int
  {
    m.status / 0x10
  }

  /** The 1-indexed channel a receiver reads from a status byte. */
  function Channel(m: MidiShort): int
  {
    m.status % 0x10 + 1
  }

  /** A receiver recovers command, channel, note and value from every in-range message. */
  lemma DecodeBuild(cmd: int, channel: int, note: int, value: int)
    requires 0 <= cmd < 0x10 && 1 <= channel <= 0x10
    ensures var m := BuildMidiShort(cmd, channel, note, value);
      Command(m) == cmd && Channel(m) == channel && m.data1 == note && m.data2 == value
  {
  }

  /** For a channel in [1,16] the low nibble is the zero-indexed channel. */
  lemma LowNibbleIsZeroIndexedChannel(cmd: int, channel: int, note: int, value: int)
    requires 1 <= channel <= 0x10
    ensures BuildMidiShort(cmd, channel, note, value).status % 0x10 == channel - 1
  {
  }

  /** Only the low nibble of the channel survives: channels 16 apart give the same message. */
  lemma ChannelsAlias(cmd: int, channel: int, note: int, value: int)
    ensures BuildMidiShort(cmd, channel, note, value) == BuildMidiShort(cmd, channel + 0x10, note, value)
  {
  }

  /** A control change on channel 1 has status byte 0xB0. */
  lemma ControlChangeOnChannelOne(note: int, value: int)
    ensures BuildMidiShort(ControlChange, 1, note, value).status == 0xB0
  {
  }

  /** Two in-range messages are equal exactly when all four arguments are. */
  lemma BuildInjective(cmd1: int, ch1: int, n1: int, v1: int, cmd2: int, ch2: int, n2: int, v2: int)
    requires 0 <= cmd1 < 0x10 && 1 <= ch1 <= 0x10 && 0 <= cmd2 < 0x10 && 1 <= ch2 <= 0x10
    ensures BuildMidiShort(cmd1, ch1, n1, v1) == BuildMidiShort(cmd2, ch2, n2, v2)
        <==> cmd1 == cmd2 && ch1 == ch2 && n1 == n2 && v1 == v2
  {
    if BuildMidiShort(cmd1, ch1, n1, v1) == BuildMidiShort(cmd2, ch2, n2, v2) {
      DecodeBuild(cmd1, ch1, n1, v1);
      DecodeBuild(cmd2, ch2, n2, v2);
    }
  }
}
