/**
  What each routine of the ICP engine does on the lines, as a pure function.
  Each function takes the trace so far and gives the trace once the routine
  has run, appending events in the order the routine performs them; the
  stateful routines give the new mode as well. The methods of `Jtag.Icp`
  are proved to produce exactly these traces; the lemmas of
  `JtagProperties` say what the traces mean on the lines.
 */
module JtagTraces {
  import opened Bits
  import opened Wire
  import opened IcpOpcodes

  /** The mode value reached after construction and after every reset. */
  const RESET_MODE: bv8 := 1
  /** The alternate mode; unlike MODE_ICP it has no name in the opcode table. */
  const ALT_MODE: bv8 := 0xA5

  /** Repetition counts of the entry handshake. */
  const TMS_WAKE_PULSES: nat := 165
  const TDI_WAKE_PULSES: nat := 105
  const TCK_WAKE_PULSES: nat := 90
  const HANDSHAKE_SYNC_PULSES: nat := 25600
  /** Clock pulses that unwind the alternate mode on reset. */
  const ALT_RESET_PULSES: nat := 35
  /** Clock pulses that enter the alternate mode: with TMS high, then with TMS low. */
  const ALT_ENTRY_HIGH_PULSES: nat := 6
  const ALT_ENTRY_LOW_PULSES: nat := 2

  /** The opaque bytes sent before the address on every chip type but 1. */
  const READ_PREAMBLE: seq<bv8> := [0x46, 0xFE, 0xFF]
  /** The bytes `check` sends before reading its two reply bytes. */
  const CHECK_COMMAND: seq<bv8> := [0x40, 0x69, 0x41, 0xFF, 0xFF, 0x43]
  /** The bytes `ping` sends. */
  const PING_COMMAND: seq<bv8> := [0x49, 0xFF]
  /** The reply byte `check` expects first. */
  const CHECK_ECHO: bv8 := 0x69

  /** Bytes a single `readFlash` reads back. */
  const BLOCK_SIZE: nat := 16

  /** pulseClock: raise TCK, then lower it, with 1 us holds. */
  function PulseClockTrace(t: seq<Event>): seq<Event>
  {
    t + [Wait(1)] + [Set(TCK)] + [Wait(1)] + [Clr(TCK)]
  }

  /** The clock pulse `sendMode` and `reset` write out by hand: raise TCK, then lower it, with 2 us holds. */
  function ModeClockTrace(t: seq<Event>): seq<Event>
  {
    t + [Set(TCK)] + [Wait(2)] + [Clr(TCK)] + [Wait(2)]
  }

  /** The two ways a bit is clocked out: by pulseClock, or by the hand-written pulse of sendMode. */
  datatype Clocking = PulseClocked | ModeClocked

  function ClockTrace(t: seq<Event>, clocking: Clocking): seq<Event>
  {
    match clocking
    case PulseClocked => PulseClockTrace(t)
    case ModeClocked => ModeClockTrace(t)
  }

  /** pulseClocks(n): `n` pulseClock calls. */
  function PulseClocksTrace(t: seq<Event>, n: nat): seq<Event>
  {
    if n == 0 then t else PulseClockTrace(PulseClocksTrace(t, n - 1))
  }

  /** `n` hand-written clock pulses. */
  function ModeClocksTrace(t: seq<Event>, n: nat): seq<Event>
  {
    if n == 0 then t else ModeClockTrace(ModeClocksTrace(t, n - 1))
  }

  /** One pulse of `line` from high to low and back, with 2 us holds, as in the handshake loops. */
  function LowPulseTrace(t: seq<Event>, line: Line): seq<Event>
  {
    t + [Clr(line)] + [Wait(2)] + [Set(line)] + [Wait(2)]
  }

  function LowPulsesTrace(t: seq<Event>, line: Line, n: nat): seq<Event>
  {
    if n == 0 then t else LowPulseTrace(LowPulsesTrace(t, line, n - 1), line)
  }

  /** The first `k` bits of `v` MSB-first, each driven on TDI in turn and then clocked. */
  function SerialTrace(t: seq<Event>, v: bv8, k: nat, clocking: Clocking): seq<Event>
    requires k <= 8
  {
    if k == 0 then t else ClockTrace(SerialTrace(t, v, k - 1, clocking) + [Drive(TDI, v & MsbMask(k - 1) != 0)], clocking)
  }

  /** sendData8(v): the bits of `v` MSB-first, then TDI low for one framing pulse. */
  function SendData8Trace(t: seq<Event>, v: bv8): seq<Event>
  {
    PulseClockTrace(SerialTrace(t, v, 8, PulseClocked) + [Clr(TDI)])
  }

  /** sendMode(v): the bits of `v` MSB-first, then two framing pulses with TDI left alone. */
  function SendModeTrace(t: seq<Event>, v: bv8): seq<Event>
  {
    ModeClockTrace(ModeClockTrace(SerialTrace(t, v, 8, ModeClocked)))
  }

  /** The first `k` steps of the bit loop of receiveData8: one pulse, then one sample of TDO reading `bits[i]`. */
  function SampleTrace(t: seq<Event>, bits: seq<bool>, k: nat): seq<Event>
    requires k <= |bits|
  {
    if k == 0 then t else PulseClockTrace(SampleTrace(t, bits, k - 1)) + [Sample(bits[k - 1])]
  }

  /** receiveData8 when TDO reads `bits`: TDI low, eight pulse-and-sample steps, one framing pulse. */
  function ReceiveTrace(t: seq<Event>, bits: seq<bool>): seq<Event>
    requires |bits| == 8
  {
    PulseClockTrace(SampleTrace(t + [Clr(TDI)], bits, |bits|))
  }

  /** sendData8 of each byte in turn. */
  function SendBytesTrace(t: seq<Event>, bytes: seq<bv8>): seq<Event>
  {
    if bytes == [] then t else SendData8Trace(SendBytesTrace(t, bytes[..|bytes| - 1]), bytes[|bytes| - 1])
  }

  /** The `count` levels TDO presents from sample number `start` on. */
  function Window(tdo: nat -> bool, start: nat, count: nat): (bits: seq<bool>)
    ensures |bits| == count
  {
    seq(count, i requires 0 <= i < count => tdo(start + i))
  }

  /** `n` calls of receiveData8, the first one reading TDO from sample number `start` on. */
  function ReceiveBytesTrace(t: seq<Event>, tdo: nat -> bool, start: nat, n: nat): seq<Event>
  {
    if n == 0 then t else ReceiveTrace(ReceiveBytesTrace(t, tdo, start, n - 1), Window(tdo, start + 8 * (n - 1), 8))
  }

  /** The byte the `i`-th of those calls returns. */
  function ReceivedByte(tdo: nat -> bool, start: nat, i: nat): bv8
  {
    LsbValue(Window(tdo, start + 8 * i, 8))
  }

  /** ping(). */
  function PingTrace(t: seq<Event>): seq<Event>
  {
    SendData8Trace(SendData8Trace(t, 0x49), 0xFF)
  }

  /** The mode after an operation, and the trace then. */
  datatype Step = Step(mode: bv8, trace: seq<Event>)

  /** reset(): nothing from mode 0; else unwind the current mode and land in mode 1. */
  function ResetStep(t: seq<Event>, mode: bv8): Step
  {
    if mode == 0 then Step(mode, t)
    else if mode == ALT_MODE then
      Step(RESET_MODE, ModeClocksTrace(t + [Set(TMS)], ALT_RESET_PULSES) + [Set(TCK)] + [Clr(TMS)])
    else
      Step(RESET_MODE, t + [Set(TCK)] + [Set(TMS)] + [Wait(2)] + [Clr(TMS)] + [Wait(2)])
  }

  /** What switchMode does after the mode byte, by target mode. */
  function ModeEntryTail(t: seq<Event>, target: bv8): seq<Event>
  {
    if target == MODE_ICP then IcpEntryTail(t)
    else if target == ALT_MODE then AltEntryTail(t)
    else t
  }

  /** Entering programming mode: a pause, TCK raised, then ping. */
  function IcpEntryTail(t: seq<Event>): seq<Event>
  {
    PingTrace(t + [Wait(800)] + [Set(TCK)] + [Wait(2)])
  }

  /** Entering the alternate mode: clock pulses with TMS high, then with TMS low. */
  function AltEntryTail(t: seq<Event>): seq<Event>
  {
    PulseClocksTrace(PulseClocksTrace(t + [Set(TMS)], ALT_ENTRY_HIGH_PULSES) + [Clr(TMS)], ALT_ENTRY_LOW_PULSES)
  }

  /**
    switchMode(target): nothing when already there; otherwise reset unless in
    mode 1, then lower TCK, send the mode byte and that mode's entry tail.
   */
  function SwitchModeStep(t: seq<Event>, mode: bv8, target: bv8): Step
  {
    if mode == target then Step(mode, t)
    else
      var unwound := if mode != RESET_MODE then ResetStep(t, mode).trace else t;
      Step(target, ModeEntryTail(SendModeTrace(unwound + [Clr(TCK)] + [Wait(2)], target), target))
  }

  /** check() when TDO reads from sample number `start` on: the command bytes, then two bytes read back. */
  function CheckTrace(t: seq<Event>, tdo: nat -> bool, start: nat): seq<Event>
  {
    var sent := SendData8Trace(SendData8Trace(SendData8Trace(SendData8Trace(SendData8Trace(SendData8Trace(
      t + [Clr(TCK)], 0x40), 0x69), 0x41), 0xFF), 0xFF), 0x43);
    ReceiveBytesTrace(sent, tdo, start, 2)
  }

  predicate SendsPreamble(chipType: int)
  {
    chipType != 1
  }

  /** Chip types with more than 15 flash address lines. */
  predicate HasHighAddress(chipType: int)
  {
    chipType == 4 || chipType == 7
  }

  function ReadOpcode(customBlock: bool): bv8
  {
    if customBlock then ICP_READ_CUSTOM_BLOCK else ICP_READ
  }

  /** The bytes readFlash sends once the target is in programming mode. */
  function ReadCommand(chipType: int, address: bv32, customBlock: bool): seq<bv8>
  {
    (if SendsPreamble(chipType) then READ_PREAMBLE else [])
    + [ICP_ADDRESS_7B0, Low(address), ICP_ADDRESS_15B8, Middle(address)]
    + (if HasHighAddress(chipType) then [ICP_ADDRESS_23B16, High(address)] else [])
    + [ReadOpcode(customBlock)]
  }

  /** The sends of readFlash, one sendData8 call at a time. */
  function ReadCommandTrace(t: seq<Event>, chipType: int, address: bv32, customBlock: bool): seq<Event>
  {
    var preamble := if SendsPreamble(chipType) then SendData8Trace(SendData8Trace(SendData8Trace(t, 0x46), 0xFE), 0xFF) else t;
    var low := SendData8Trace(SendData8Trace(SendData8Trace(SendData8Trace(preamble,
      ICP_ADDRESS_7B0), Low(address)), ICP_ADDRESS_15B8), Middle(address));
    var high := if HasHighAddress(chipType) then SendData8Trace(SendData8Trace(low, ICP_ADDRESS_23B16), High(address)) else low;
    SendData8Trace(high, ReadOpcode(customBlock))
  }

  /** The reset and mode entry readFlash starts with. */
  function ReadEntryTrace(t: seq<Event>, mode: bv8): seq<Event>
  {
    var reset := ResetStep(t, mode);
    SwitchModeStep(reset.trace, reset.mode, MODE_ICP).trace
  }

  /**
    readFlash when TDO reads from sample number `start` on: reset, enter
    programming mode, send the command, read 16 bytes.
   */
  function ReadFlashTrace(t: seq<Event>, chipType: int, mode: bv8, address: bv32, customBlock: bool,
                          tdo: nat -> bool, start: nat): seq<Event>
  {
    ReceiveBytesTrace(ReadCommandTrace(ReadEntryTrace(t, mode), chipType, address, customBlock), tdo, start, BLOCK_SIZE)
  }

  /** The line setup and wake-up pulses the constructor starts with. */
  function WakeTrace(t: seq<Event>): seq<Event>
  {
    var idle := t + [Clr(TDO)] + [Set(TCK)] + [Set(TDI)] + [Set(TMS)] + [Wait(500)]
      + [Clr(TCK)] + [Wait(1)] + [Set(TCK)] + [Wait(50)];
    var tms := LowPulsesTrace(idle, TMS, TMS_WAKE_PULSES);
    var tdi := LowPulsesTrace(tms, TDI, TDI_WAKE_PULSES);
    LowPulsesTrace(tdi, TCK, TCK_WAKE_PULSES)
  }

  /** The rest of the entry handshake, once the target is awake. */
  function HandshakeTail(t: seq<Event>): seq<Event>
  {
    var sync := LowPulsesTrace(t, TMS, HANDSHAKE_SYNC_PULSES);
    var moded := SendModeTrace(sync + [Wait(8)] + [Clr(TMS)] + [Clr(TCK)] + [Wait(2)], MODE_ICP);
    var clocked := LowPulsesTrace(moded + [Set(TCK)] + [Wait(2)], TCK, HANDSHAKE_SYNC_PULSES);
    clocked + [Set(TMS)] + [Wait(5)] + [Clr(TMS)] + [Wait(5)]
  }

  /** The entry handshake the constructor performs. */
  function HandshakeTrace(t: seq<Event>): seq<Event>
  {
    HandshakeTail(WakeTrace(t))
  }
}
