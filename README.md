# ICP engine of the SinoWealth 8051 dumper, in Dafny

This project models the In-Circuit-Programming (ICP) engine of the dumper
firmware: the class `ICP` of `dumper/jtag.cpp` and the opcode table of
`dumper/icp_opcodes.h`. The engine bit-bangs four lines (TCK, TDI, TDO, TMS)
to wake a SinoWealth 8051 target, switch it into programming mode, probe it,
and read 16-byte blocks of its flash.

The model has six modules:

- `Wire` (`wire.dfy`) describes the line interface. Every `setBit`, `clrBit`,
  `_delay_us` and `getBit` call becomes an `Event`, and a trace is the list of
  events in order. `Run` gives the levels a trace leaves on the lines.
  `Strobes` gives the levels in force at each clock pulse, one entry per
  `setBit(TCK)` call (see "## Left out" for the calls made while TCK is
  already high). `Samples` gives the TDO levels the trace read, and `Count`
  how often an event occurs.
- `Bits` (`bits.dfy`) covers the two bit orders: MSB-first for what the engine
  sends and LSB-first for what it reads. It also proves the loop masks and the
  accumulation `value |= m`.
- `IcpOpcodes` (`icp_opcodes.dfy`) holds the opcodes, the address masks and
  shifts, and the 8-bit fields cut from a 32-bit address.
- `JtagTraces` (`jtag_traces.dfy`) gives, as a pure function, the exact events
  each routine appends to the trace so far. The routines that change `m_mode`
  also give the new mode.
- `Jtag` (`jtag.dfy`) is the engine itself: class `Icp` with the fields `mode`
  (`m_mode`), `sampled` (how many TDO levels have been read) and a ghost
  `trace`. Every routine of `jtag.cpp` is a method with the same loops and
  branches. Each method is proved to append exactly the events its
  `JtagTraces` function gives, and to set `mode`, `sampled` and the read buffer
  as the source does.
- `JtagProperties` (`jtag_properties.dfy`) says what those traces mean on the
  lines:
  - how many pulses each routine gives;
  - which TDI and TMS levels each pulse carries;
  - which TDO levels are read, and which bytes come back;
  - the `m_mode` transitions;
  - the bytes `readFlash` sends, with a decoder that recovers the address and
    the read kind from them.

The target is not modelled as a device. It is the parameter `tdo: nat -> bool`
of the engine: the level it presents at the n-th read of TDO, for any stream
of levels. `CHIP_TYPE` comes from `config.h`, which is not part of this model.
It is the engine's constant `chipType`, a constructor argument, and it gates
the two `#if` blocks of `readFlash`.

Facts about `dumper/jtag.cpp` the model states:

- `reset()` does nothing only from mode 0 (`dumper/jtag.cpp:104-105`). From
  mode 0xA5 it runs the 35-pulse unwind (`dumper/jtag.cpp:107-121`). From
  every other mode, mode 1 included, it runs the TMS blip
  (`dumper/jtag.cpp:122-130`).
- `switchMode` records the new mode before it sends anything
  (`dumper/jtag.cpp:143`).
- `check` sends 0x40 0x69 0x41 0xFF 0xFF, then the probe byte 0x43
  (`dumper/jtag.cpp:173-179`).
- `readFlash` always repeats the reset and the entry into programming mode,
  even when the engine is already in programming mode. `ReadEntryFromIcpMode`
  states this.

## Model

| member | source | states |
|---|---|---|
| Jtag.Icp.PulseClock | dumper/jtag.cpp:281-287 | appends exactly pulseClock's events: 1 us, TCK high, 1 us, TCK low |
| JtagProperties.PulseClockMeaning | dumper/jtag.cpp:281-287 | pulseClock is one clock pulse with TDI and TMS as they were; TCK ends low; nothing is read |
| Jtag.Icp.PulseClocks | dumper/jtag.cpp:289-293 | the `while (count-- > 0)` loop appends `count` pulseClock calls |
| JtagProperties.PulseClocksMeaning | dumper/jtag.cpp:289-293 | pulseClocks(n) gives exactly n pulses with TDI and TMS unchanged, and leaves TCK low when n > 0 |
| Jtag.Icp.SendData8 | dumper/jtag.cpp:247-262 | the mask loop from 0x80 down drives TDI to each bit and pulses, then TDI low and one more pulse |
| JtagProperties.SendData8Meaning | dumper/jtag.cpp:247-262 | sendData8(v) adds exactly the 9 pulses of `DataFrame(v)` to those before it, reads nothing, and leaves TCK and TDI low |
| JtagProperties.DataFrameBits | dumper/jtag.cpp:247-262 | on pulse i (0..7) of sendData8(v), TDI is bit 7 - i of v; on the 9th, TDI is low |
| JtagProperties.SendBytesMeaning | dumper/jtag.cpp:200-215 | a run of sendData8 calls gives the frames of the bytes in order, 9 pulses each, and reads nothing |
| Jtag.Icp.SendMode | dumper/jtag.cpp:221-245 | the mask loop from 0x80 down drives TDI and pulses by hand, then two more hand pulses |
| JtagProperties.SendModeMeaning | dumper/jtag.cpp:221-245 | sendMode(v) gives exactly 10 pulses: bits 7..0 of v, then two with TDI still at bit 0; TCK ends low |
| Jtag.Icp.ReceiveData8 | dumper/jtag.cpp:264-279 | reads exactly the next 8 TDO levels and returns the byte they form LSB-first; the trace is TDI low, 8 pulse-then-sample steps, one pulse |
| Bits.AssembleBits | dumper/jtag.cpp:268-274 | after k reads with `value \|= m` on each high level, bit i of the accumulator is the i-th level read for i < k, and the bits from k up are still clear |
| JtagProperties.ReceiveMeaning | dumper/jtag.cpp:264-279 | receiveData8 gives 9 pulses with TDI low and reads exactly the 8 given levels; there is no 9th sample |
| JtagProperties.ReceivedByteIff | dumper/jtag.cpp:264-279 | a received byte equals v exactly when TDO presented the bits of v LSB-first |
| Bits.LsbValueThenBits | dumper/jtag.cpp:264-279 | reading 8 levels LSB-first and splitting the byte into bits again gives back the levels |
| Bits.BitsThenLsbValue | dumper/jtag.cpp:264-279 | the bits of v presented LSB-first are received as v |
| JtagProperties.ReceiveBytesMeaning | dumper/jtag.cpp:217-218 | n receiveData8 calls give 9n pulses with TDI low and read the next 8n TDO levels, in order |
| JtagProperties.LowPulsesMeaning | dumper/jtag.cpp:43-73 | n low pulses of one line leave it high and change no other line; only low pulses of TCK are clock pulses, one each |
| Jtag.Icp.Wake | dumper/jtag.cpp:31-65 | line setup, then the 165 TMS, 105 TDI and 90 TCK low-pulse loops, as `WakeTrace` |
| JtagProperties.WakeMeaning | dumper/jtag.cpp:31-65 | the wake-up leaves all three lines high and gives 92 pulses: 2 from the setup and 90 from the TCK loop |
| JtagProperties.WakeLowPulses | dumper/jtag.cpp:31-65 | counted as events, the wake-up lowers TMS exactly 165 times and TDI exactly 105 times |
| Jtag.Icp.Synchronise | dumper/jtag.cpp:67-97 | the 25600 TMS low pulses, sendMode(0x96), the 25600 TCK low pulses and the closing TMS pulse, as `HandshakeTail` |
| JtagProperties.HandshakeTailMeaning | dumper/jtag.cpp:67-97 | after the wake-up: the 10 pulses of sendMode(0x96) with TMS low, then 25601 pulses with TDI and TMS low; TCK ends high, TDI and TMS low |
| JtagProperties.HandshakeTailLowPulses | dumper/jtag.cpp:67-97 | counted as events, the rest of the handshake lowers TMS 25600 times in the synchronisation run plus twice more, and raises it 25600 times plus once |
| Jtag.Icp.constructor | dumper/jtag.cpp:24-100 | the handshake leaves mode 1, no TDO level read, and the trace `HandshakeTrace` |
| JtagProperties.HandshakeMeaning | dumper/jtag.cpp:24-100 | the handshake gives 25703 pulses: the wake-up pulses, the mode byte 0x96 and the long TCK run; TCK ends high and TDI and TMS low |
| Jtag.Icp.Reset | dumper/jtag.cpp:102-133 | mode and trace become those of `ResetStep`: untouched from mode 0, the 35-pulse unwind from 0xA5, the TMS blip otherwise; mode 1 after |
| JtagProperties.ResetMeaning | dumper/jtag.cpp:102-133 | no pulse from mode 0; 36 pulses with TMS high from 0xA5; otherwise one pulse with the levels in force. TCK ends high and TMS low, TDI untouched |
| JtagProperties.AltResetMeaning | dumper/jtag.cpp:107-121 | from 0xA5: 35 hand pulses and the final TCK raise, all with TMS high, then TMS low |
| JtagProperties.ResetNoOpIff | dumper/jtag.cpp:102-133 | reset leaves the lines untouched exactly when the mode is 0; it leaves mode 0 as 0 and every other mode becomes 1 |
| Jtag.Icp.SwitchMode | dumper/jtag.cpp:135-167 | mode and trace become those of `SwitchModeStep`: reset unless in mode 1, TCK low, the mode byte, then the target's entry |
| JtagProperties.SwitchModeMeaning | dumper/jtag.cpp:135-167 | from another mode: the reset pulses exactly when the mode is not 1, then the 10 mode-byte pulses, then the entry pulses of the target; nothing is read |
| JtagProperties.SwitchModeNoOpIff | dumper/jtag.cpp:135-143 | switchMode changes the lines exactly when the target is not the current mode, and always ends in the target mode |
| JtagProperties.SwitchModeIdempotent | dumper/jtag.cpp:135-143 | a second switchMode to the same target changes nothing |
| JtagProperties.IcpEntryMeaning | dumper/jtag.cpp:150-157 | entering 0x96: one pulse after the 800 us pause, then ping's frames 0x49 and 0xFF |
| JtagProperties.AltEntryMeaning | dumper/jtag.cpp:158-166 | entering 0xA5: 6 pulses with TMS high, then 2 with TMS low |
| Jtag.Icp.Ping | dumper/jtag.cpp:186-190 | ping is sendData8(0x49) then sendData8(0xFF) |
| Jtag.Icp.Check | dumper/jtag.cpp:169-184 | reads 16 TDO levels, leaves the mode alone, and returns true exactly when the first byte read is 0x69 |
| JtagProperties.CheckSends | dumper/jtag.cpp:169-181 | check is TCK low, sendData8 of 0x40 0x69 0x41 0xFF 0xFF 0x43, then two receiveData8 calls |
| JtagProperties.CheckMeaning | dumper/jtag.cpp:169-184 | check gives the six command frames and then 18 pulses with TDI low, and reads exactly 16 TDO levels |
| JtagProperties.CheckAcceptsIff | dumper/jtag.cpp:180-183 | check accepts exactly when the first 8 TDO levels are 0x69 LSB-first |
| JtagProperties.CheckIgnoresSecondByte | dumper/jtag.cpp:180-183 | two TDO streams that agree on the first byte get the same verdict, whatever the second byte is |
| Jtag.Icp.ReadFlash | dumper/jtag.cpp:192-219 | ends in mode 0x96, reads 128 TDO levels, buffer[i] is the i-th byte read for i < 16, and nothing else in the buffer changes |
| Jtag.Icp.SendReadCommand | dumper/jtag.cpp:197-215 | the sendData8 calls of readFlash, with the two `#if` blocks gated by the chip type |
| Jtag.Icp.ReceiveBlock | dumper/jtag.cpp:217-218 | 16 receiveData8 calls fill buffer[0..16) in order and leave the rest of the buffer alone |
| JtagProperties.ReadEntryMeaning | dumper/jtag.cpp:194-195 | readFlash starts with the reset pulses of the current mode, the mode byte 0x96, one pulse and ping's frames |
| JtagProperties.ReadEntryFromIcpMode | dumper/jtag.cpp:194-195 | from mode 0x96 readFlash repeats the same reset and entry as from mode 1 |
| JtagProperties.ReadCommandSent | dumper/jtag.cpp:197-215 | readFlash sends exactly the bytes of `ReadCommand`: [0x46 0xFE 0xFF unless chip type 1] 0x40 a[7:0] 0x41 a[15:8] [0x4C a[23:16] for chip types 4 and 7] then 0x4A or 0x44 |
| JtagProperties.ReadCommandRoundTrip | dumper/jtag.cpp:205-215 | the read command decodes back to the address bits the chip type carries (16 or 24) and to the read kind asked for |
| JtagProperties.ReadCommandInjective | dumper/jtag.cpp:205-215 | two read commands of one chip type are equal only for equal carried address bits and the same read kind |
| JtagProperties.ReadFlashMeaning | dumper/jtag.cpp:192-219 | readFlash on the lines: entry pulses, the command frames, 144 pulses with TDI low, and exactly the next 128 TDO levels read |
| JtagProperties.ReadFlashBytes | dumper/jtag.cpp:217-218 | buffer byte i is the i-th group of 8 of those 128 levels, LSB-first |
| IcpOpcodes.MasksAreByteFields | dumper/icp_opcodes.h:4-11 | each mask is 0xFF shifted by its field's shift, so each selects exactly 8 bits; the masks are pairwise disjoint |
| IcpOpcodes.FieldsFitInAByte | dumper/icp_opcodes.h:4-11 | `(a & MASK) >> SHIFT < 256` for each field, so the 8-bit argument of sendData8 keeps the whole field |
| IcpOpcodes.FieldsRecombine | dumper/icp_opcodes.h:4-11 | for every a < 2^24 the three fields shifted back and OR-ed give a |
| IcpOpcodes.OpcodesDistinct | dumper/icp_opcodes.h:3-15 | the six opcodes are pairwise distinct, so ICP_READ and ICP_READ_CUSTOM_BLOCK differ on the wire |

## Left out

- The `DDRD` direction setup (`dumper/jtag.cpp:26-29`) is left out. The
  bodies of `setBit`, `clrBit` and `getBit` live in `jtag.h`, which is not
  part of this model. `Jtag.Icp.SetBit`, `ClrBit` and `GetBit` append one event
  each, and `GetBit` returns the next level of the `tdo` stream.
- `_delay_us` has no timing meaning. Each call is kept as a `Wait(us)` event
  with its microsecond count, and no property depends on it.
- The target's behaviour is not modelled. Every property holds for any TDO
  stream, and whether a chip really echoes 0x69 or returns its flash is not
  stated.
- The unfinished 0xA5 branch (`dumper/jtag.cpp:165`) is modelled only as far
  as the code goes.
- The meaning of the preamble 0x46 0xFE 0xFF is unknown. It is kept as a fixed
  byte sequence.
- The `uint8_t` and `uint16_t` loop counters are unbounded naturals. Every
  bound in the source (at most 25600) fits its type, so nothing wraps.
- `pulseClocks` takes a natural count. The source's `uint8_t` count cannot
  exceed 255, and the engine only passes 6 and 2.
- `readFlash` writes `buffer[0..16)` with no check. `Jtag.Icp.ReadFlash` and
  `Jtag.Icp.ReceiveBlock` require a buffer of at least 16 bytes, the same
  demand the source makes of its callers.
- `Jtag.Icp.Wake`, `Jtag.Icp.Synchronise`, `Jtag.Icp.SendReadCommand`,
  `Jtag.Icp.ReceiveBlock` and `Jtag.Icp.ModeClock` are blocks of the
  constructor, `readFlash` and `sendMode`, pulled out as methods. Their events
  and their order are unchanged.
- A clock pulse in `Strobes` is a `setBit(TCK)` call, not a rising edge on
  the wire. A call made while TCK is already high is counted though the line
  does not change. This happens in two places. After the handshake TCK is
  high (`HandshakeMeaning`), so the first `reset()` from mode 1, the one
  `readFlash` makes after construction, raises an already-high TCK
  (`dumper/jtag.cpp:124`). And `switchMode(0x96)` raises TCK
  (`dumper/jtag.cpp:153`) just before the first `pulseClock` of `ping`
  raises it again (`dumper/jtag.cpp:284`). The counts of `ResetMeaning`,
  `IcpEntryMeaning`, `ReadEntryMeaning` and `ReadFlashMeaning` are
  therefore counts of `setBit(TCK)` calls. The edges the target sees are one
  fewer in those places. The constructor's first `setBit(TCK)`
  (`dumper/jtag.cpp:32`) is an edge only if the line started low, which the
  model leaves open. The low pulses of TCK in the handshake, clear then
  set, count as one pulse each, like the set-then-clear pulses of
  `pulseClock`.
- Low pulses of TMS and TDI leave no trace in `Run` or `Strobes`. They are
  counted as `Clr` events instead (`WakeLowPulses`, `HandshakeTailLowPulses`).
- The host-side dumping loop and file output are not part of the engine and
  are left out.
