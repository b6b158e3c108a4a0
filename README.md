# X-Air MIDI bridge: command-to-wire translation

A Dafny model of the layer of the `xr12` Go package that turns mixer actions into
wire messages for a Behringer X-Air console. The actions are channel mute, channel
level, main level, bus level and the MIDI dump trigger. The three level actions check
their arguments; channel mute and the dump trigger check nothing. Every action makes
one non-blocking send on one of the bridge's two outbound queues:

- the MIDI queue holds 3-value short messages (status, data1, data2);
- the SysEx queue holds ASCII OSC-style texts such as `/ch/05/mix/fader 0`. The
  outbound writer wraps each text in the envelope `F0 00 20 32 32 … F7` (MIDI 1.0
  System Exclusive framing, manufacturer ID `00 20 32`).

Modules, one per concern of the source:

- `Wrappers`: `Option`, `Result` and `Outcome`.
- `Bytes`: the `Byte` type, Go's `byte`.
- `Midi` (xr12/midi.go): the command constants, the `MidiShort` record and
  `BuildMidiShort`. Go's `(cmd << 4 & 0xF0) | ((channel-1) & 0xF)` on `int64` is written
  arithmetically. A two's-complement mask keeps the value modulo a power of two, which
  is Dafny's Euclidean `%`. The two masked nibbles share no bit, so `|` is `+`.
- `Sysex` (xr12/sysex.go): the envelope (`Wrap`, with its inverse `Unwrap`) and
  `ConcatAppend`. `ConcatAppend` is the source's accumulating loop, proved equal to
  `Flatten`.
- `Format` (xr12/xair.go): Go's `%02d` for the non-negative values the actions format,
  the four `fmt.Sprintf` address formats, and `[]byte(s)` on ASCII text.
- `Levels` (xr12/xair.go): the seven-stop table of `levels()` and `FindLevel`, the
  `for i, value := range levels()` scan. Go leaves map iteration order unspecified, so
  the order is a parameter (any listing of the table's keys). `FindLevel` is proved to
  return the same answer for every order.
- `XAir` (xr12/xair.go): the `XAir` class. Its two queues are `seq` fields, and each
  queue has a buffer size fixed at construction. The module also holds the action
  methods and the pure functions that specify what each action sends.
  - Where the source calls `log.Fatal`/`log.Fatalf`, an action returns `Fail(error)`
    and both queues stay unchanged.
  - A send on a full queue fails and never blocks.
  - A buffer size of 0 models the nil channels that `Open` leaves in the struct
    (xr12/xair.go:71). With a nil channel, every send takes the `default` branch.

The comments in `ChannelMute` (xr12/xair.go:195 and :198) describe the note the
control change carries for the main output and for the other channels, which shows
that the built message is meant to be sent. The code discards it and enqueues the
zero `MidiShort{0,0,0}` (xr12/xair.go:193, :203). The model follows the code (see
Findings).

## Model

| member | source | states |
|---|---|---|
| `Midi.BuildMidiShort` | xr12/midi.go:16-22 | status is a byte whatever the inputs; its high nibble is `cmd mod 16`; its low nibble is `(channel-1) mod 16`; note and value pass through unchanged and unchecked |
| `Midi.DecodeBuild` | xr12/midi.go:16-22 | for cmd in [0,15] and channel in [1,16], a receiver reads back the command, the 1-indexed channel, the note and the value |
| `Midi.LowNibbleIsZeroIndexedChannel` | xr12/midi.go:18 | for channels 1..16 the low nibble is `channel-1` |
| `Midi.ChannelsAlias` | xr12/midi.go:18 | channels 16 apart give the same message |
| `Midi.ControlChangeOnChannelOne` | xr12/midi.go:5-18 | a control change on channel 1 has status `0xB0` |
| `Midi.BuildInjective` | xr12/midi.go:16-22 | on in-range command and channel, two messages are equal if and only if all four arguments are |
| `Sysex.Wrap` | xr12/sysex.go:5-14 | the envelope is 6 bytes longer than the payload, starts `F0 00 20 32 32`, ends `F7`, and holds the payload in between |
| `Sysex.Unwrap` | xr12/sysex.go:9-14 | a payload is recovered exactly when the bytes are a well-formed envelope |
| `Sysex.UnwrapWrap` | xr12/sysex.go:9-14 | stripping the first 5 bytes and the last byte of `Wrap(p)` gives `p` |
| `Sysex.WrapUnwrap` | xr12/sysex.go:9-14 | every well-formed envelope is the wrapping of its own payload |
| `Sysex.WrapInjective` | xr12/sysex.go:9-14 | distinct payloads give distinct envelopes |
| `Sysex.ConcatAppend` | xr12/sysex.go:17-23 | the loop's result is the in-order concatenation of the slices; its length is the sum of their lengths; no slices give an empty result |
| `Sysex.FlattenLength` | xr12/sysex.go:17-23 | the concatenation's length is the sum of the slice lengths |
| `Sysex.FlattenAppend` | xr12/sysex.go:17-23 | concatenating two lists of slices concatenates their concatenations |
| `Sysex.FlattenPlacesSlice` | xr12/sysex.go:17-23 | slice k appears in the result, unchanged, right after the slices before it |
| `Format.Decimal` | xr12/xair.go:219 | `%d` of a non-negative number is a non-empty run of digits, one digit exactly below 10, with no leading zero |
| `Format.ParseDecimalOfDecimal` | xr12/xair.go:219 | the printed digits denote the printed number |
| `Format.Pad2` | xr12/xair.go:219 | `%02d` gives at least two digits, exactly two below 100, starting with `0` exactly below 10, and still denotes the number |
| `Format.Pad2Examples` | xr12/xair.go:219 | `%02d` of 3, 5, 16 and 32 is `03`, `05`, `16` and `32` |
| `Format.Pad2Injective` | xr12/xair.go:219 | different numbers print differently under `%02d` |
| `Format.Ascii` | xr12/xair.go:219 | `[]byte(s)` of ASCII text has one byte per character, holding its code |
| `Format.AsciiInjective` | xr12/xair.go:219 | different ASCII texts give different byte slices |
| `Format.ChannelFader` | xr12/xair.go:219 | the channel fader address is ASCII when the dB string is |
| `Format.ChannelSend` | xr12/xair.go:223 | the channel send-level address is ASCII when the dB string is |
| `Format.MainFader` | xr12/xair.go:235 | the main fader address is ASCII when the dB string is |
| `Format.BusFader` | xr12/xair.go:251 | the bus fader address is ASCII when the dB string is |
| `Format.ChannelFaderInjective` | xr12/xair.go:219 | a channel fader address determines its channel and its dB string |
| `Format.ChannelSendInjective` | xr12/xair.go:223 | a send-level address determines its channel, bus and dB string |
| `Format.BusFaderInjective` | xr12/xair.go:251 | a bus fader address determines its bus and dB string |
| `Format.MainFaderInjective` | xr12/xair.go:235 | a main fader address determines its dB string |
| `Format.DigitRunSplits` | xr12/xair.go:219 | a `%02d` field followed by text that starts with a non-digit can be split off in one way only |
| `Format.FormatsDisjoint` | xr12/xair.go:217-251 | for every channel and bus number, no two of the four address formats produce the same text |
| `Levels.LevelTableContents` | xr12/xair.go:39-51 | the table's keys are exactly 1..7, mapped to `-35`, `-15`, `-5`, `-2.4`, `0`, `2.4`, `5` in that order |
| `Levels.LevelDb` | xr12/xair.go:39-51 | a step has a dB string if and only if it is in [1,7]; every dB string is non-empty ASCII |
| `Levels.LevelDbInjective` | xr12/xair.go:39-51 | distinct steps have distinct dB strings |
| `Levels.FindLevel` | xr12/xair.go:215-227 | the range scan, in any iteration order over the table's keys, finds exactly the table's entry for the step, or nothing when the step is not a key |
| `XAir.ChannelLevelText` | xr12/xair.go:206-230 | the bus error (bus outside [0,16]) wins over the channel error (channel outside [1,32]), which wins over the unknown-step error; the action succeeds exactly when all three arguments are in range, with ASCII text |
| `XAir.MainLevelText` | xr12/xair.go:232-241 | fails with an unknown-step error exactly when the level is outside [1,7] |
| `XAir.BusLevelText` | xr12/xair.go:243-257 | the bus error (outside [1,16]) wins over the unknown-step error; succeeds exactly when both are in range |
| `XAir.ChannelLevelExamples` | xr12/xair.go:215-225 | (5,0,5) sends `/ch/05/mix/fader 0`; (5,3,1) sends `/ch/05/mix/03/level -35`; (32,16,7) sends `/ch/32/mix/16/level 5` |
| `XAir.BusAndMainLevelExamples` | xr12/xair.go:232-256 | `BusLevel(16,7)` sends `/bus/16/mix/fader 5`; `BusLevel(17,7)` fails with a bus error; `MainLevel(4)` sends `/main/st/mix/fader -2.4` |
| `XAir.ChannelLevelTextInjective` | xr12/xair.go:206-230 | distinct accepted channel-level requests send distinct texts |
| `XAir.BusLevelTextInjective` | xr12/xair.go:243-257 | distinct accepted bus-level requests send distinct texts |
| `XAir.MainLevelTextInjective` | xr12/xair.go:232-241 | distinct accepted main-level requests send distinct texts |
| `XAir.MuteMessage` | xr12/xair.go:184-200 | the built mute message has status `0xB1` (control change, channel 2), note 31 for channel 0 and `channel-1` otherwise, value 127 to mute and 0 to unmute |
| `XAir.MuteMessageIsNotSent` | xr12/xair.go:193-203 | the built mute message never equals the zero message that is sent |
| `XAir.MuteMessageExamples` | xr12/xair.go:184-200 | channel 0 muted builds note 31, value 127; channel 4 unmuted builds note 3, value 0 |
| `XAir.DumpMessage` | xr12/xair.go:260-262 | the dump request is `B0 7F 7F` |
| `XAir.XAir.constructor` | xr12/xair.go:12-18 | both queues start empty, with the given buffer sizes |
| `XAir.XAir.QueueMidiMessage` | xr12/xair.go:165-171 | below capacity, appends the message at the MIDI queue's tail; when full, fails with a MIDI-queue-full error and changes nothing; the SysEx queue never changes |
| `XAir.XAir.QueueSysExMessage` | xr12/xair.go:174-180 | the same, for the SysEx queue; the MIDI queue never changes |
| `XAir.XAir.ChannelMute` | xr12/xair.go:184-204 | enqueues the zero message `{0,0,0}` whatever the channel and mute flag; fails only on a full MIDI queue |
| `XAir.XAir.ChannelMuteIntended` | xr12/xair.go:193-203 | enqueues the built mute message (the corrected behaviour) |
| `XAir.XAir.ChannelLevel` | xr12/xair.go:206-230 | for every iteration order: a validation failure returns that error and enqueues nothing; otherwise the ASCII bytes of the channel-level text go on the SysEx queue (or the queue-full error); the MIDI queue never changes |
| `XAir.XAir.MainLevel` | xr12/xair.go:232-241 | the same, for the main-level text |
| `XAir.XAir.BusLevel` | xr12/xair.go:243-257 | the same, for the bus-level text |
| `XAir.XAir.TriggerMidiDump` | xr12/xair.go:260-265 | always enqueues `{0xB0, 127, 127}` (or fails on a full MIDI queue) |
| `XAir.XAir.NextOutbound` | xr12/xair.go:111-139 | one receive of the writer: takes the head of a non-empty queue, by the given choice when both have items; a SysEx payload is handed out wrapped in its envelope; the other queue is unchanged |

## Left out

- `Open`, `discover` and `Close` (xr12/xair.go:54-109): device enumeration and stream handles are calls into the portmidi library. The queues come from the constructor instead.
- `Run` and `runInbound` (xr12/xair.go:101-163): goroutines, 50 ms polling with `time.Sleep`, and blocking reads. `runOutbound` is reduced to a single receive, `XAir.XAir.NextOutbound`, without the blocking `WriteShort`/`WriteSysExBytes` calls or their fatal errors.
- `XAir.XAir.NextOutbound`: Go's `select` blocks when both queues are empty, and picks at random when both are ready. The model returns `None` for the empty case, and the random pick is the `preferMidi` parameter.
- Unbuffered but allocated channels: a send succeeds when a receiver is waiting. The model has no concurrent receiver, so a buffer size of 0 always fails, as a nil channel does.
- `printHex` and every `fmt.Printf` log line: output only.
- Process termination by `log.Fatal`: it becomes a returned `Fail` value. The wording of the log messages is not modelled; only the error kind and the offending value are.
- The fader-curve comments beside the table ("step N of 1024"): annotations only. The dB values are opaque strings.
- `Midi.BuildMidiShort`: arguments are unbounded integers rather than `int64`. The 64-bit wrap-around of the shift and of `channel-1` is not written out, because the masks keep only bits the wrap-around does not change.
- `Format.Pad2`: covers non-negative numbers only. Go's `%02d` of a negative number (a leading `-`) is never reached, because every formatted channel or bus is range-checked first.
- `Format.Ascii`: covers ASCII text only. Go's UTF-8 encoding of other characters is never reached, because every formatted text is ASCII.
- `Sysex.Wrap`: the Go prefix and suffix are package-level slices, and `append` on a full-capacity literal copies them. The model's prefix and suffix are immutable values, so the claim that wrapping never alters them holds by construction rather than by proof.
- The bridge's `inputStream`/`outputStream` fields are not modelled; only the two queue fields are.

## Findings

| source | as written | input that shows it | evidently intended | confidence | as-written member | corrected member |
|---|---|---|---|---|---|---|
| xr12/xair.go:193-203 | `ChannelMute` calls `buildMidiShort` without using its result and enqueues the zero-valued `midi` variable | `ChannelMute(0, true)` enqueues `{0,0,0}` instead of `{0xB1, 31, 127}` (`XAir.MuteMessageIsNotSent`) | the built control change is enqueued | high (from reading the code; not executed) | `XAir.XAir.ChannelMute` | `XAir.XAir.ChannelMuteIntended` |
