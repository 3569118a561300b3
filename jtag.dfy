/**
  The ICP engine: one object that owns the four lines and remembers the
  mode last negotiated with the target. Every routine works step by step
  on the lines; each method is proved to produce exactly the trace that
  `JtagTraces` gives for it.
 */
module Jtag {
  import opened Bits
  import opened Wire
  import opened IcpOpcodes
  import opened JtagTraces

  class Icp {
    /** The CHIP_TYPE the firmware is configured for. */
    const chipType: int
    /** The level the target presents on TDO at each sample, numbered from the first. */
    const tdo: nat -> bool
    /** The mode last negotiated with the target (m_mode). */
    var mode: bv8
    /** How many times TDO has been sampled. */
    var sampled: nat
    /** Everything done on the lines so far, in order. */
    ghost var trace: seq<Event>

    /** setBit */
    method SetBit(line: Line)
      modifies this`trace
      ensures trace == old(trace) + [Set(line)]
    {
      trace := trace + [Set(line)];
    }

    /** clrBit */
    method ClrBit(line: Line)
      modifies this`trace
      ensures trace == old(trace) + [Clr(line)]
    {
      trace := trace + [Clr(line)];
    }

    /** _delay_us */
    method Delay(us: nat)
      modifies this`trace
      ensures trace == old(trace) + [Wait(us)]
    {
      trace := trace + [Wait(us)];
    }

    /** getBit(TDO): the next level the target presents. */
    method GetBit() returns (high: bool)
      modifies this`trace, this`sampled
      ensures high == tdo(old(sampled)) && sampled == old(sampled) + 1
      ensures trace == old(trace) + [Sample(high)]
    {
      high := tdo(sampled);
      sampled := sampled + 1;
      trace := trace + [Sample(high)];
    }

    /** The entry handshake; leaves the engine in mode 1. */
    constructor (chipType: int, tdo: nat -> bool)
      ensures this.chipType == chipType && this.tdo == tdo
      ensures mode == RESET_MODE && sampled == 0
      ensures trace == HandshakeTrace([])
    {
      this.chipType := chipType;
      this.tdo := tdo;
      sampled := 0;
      trace := [];
      new;
      Wake();
      Synchronise();
      mode := 1;
    }

    /** The first part of the constructor: line setup and the three wake-up loops. */
    method Wake()
      modifies this`trace
      ensures trace == WakeTrace(old(trace))
    {
      ClrBit(TDO);
      SetBit(TCK);
      SetBit(TDI);
      SetBit(TMS);
      Delay(500);
      ClrBit(TCK);
      Delay(1);
      SetBit(TCK);
      Delay(50);

      ghost var idle := trace;
      for n := 0 to TMS_WAKE_PULSES
        invariant trace == LowPulsesTrace(idle, TMS, n)
      {
        ClrBit(TMS);
        Delay(2);
        SetBit(TMS);
        Delay(2);
      }

      ghost var tms := trace;
      for n := 0 to TDI_WAKE_PULSES
        invariant trace == LowPulsesTrace(tms, TDI, n)
      {
        ClrBit(TDI);
        Delay(2);
        SetBit(TDI);
        Delay(2);
      }

      ghost var tdi := trace;
      for n := 0 to TCK_WAKE_PULSES
        invariant trace == LowPulsesTrace(tdi, TCK, n)
      {
        ClrBit(TCK);
        Delay(2);
        SetBit(TCK);
        Delay(2);
      }
    }

    /**
      The second part of the constructor: the long TMS run, the programming
      mode byte, the long TCK run and the closing TMS pulse.
     */
    method Synchronise()
      modifies this`trace
      ensures trace == HandshakeTail(old(trace))
    {
      ghost var woken := trace;
      for n := 0 to HANDSHAKE_SYNC_PULSES
        invariant trace == LowPulsesTrace(woken, TMS, n)
      {
        ClrBit(TMS);
        Delay(2);
        SetBit(TMS);
        Delay(2);
      }

      Delay(8);
      ClrBit(TMS);
      ClrBit(TCK);
      Delay(2);
      SendMode(0x96);
      SetBit(TCK);
      Delay(2);

      ghost var entered := trace;
      for n := 0 to HANDSHAKE_SYNC_PULSES
        invariant trace == LowPulsesTrace(entered, TCK, n)
      {
        ClrBit(TCK);
        Delay(2);
        SetBit(TCK);
        Delay(2);
      }

      SetBit(TMS);
      Delay(5);
      ClrBit(TMS);
      Delay(5);
    }

    /** reset(): unwind the current mode, except from mode 0. */
    method Reset()
      modifies this`trace, this`mode
      ensures mode == ResetStep(old(trace), old(mode)).mode
      ensures trace == ResetStep(old(trace), old(mode)).trace
    {
      if mode == 0 {
        return;
      }
      if mode == 0xA5 {
        SetBit(TMS);
        ghost var raised := trace;
        for n := 0 to ALT_RESET_PULSES
          invariant trace == ModeClocksTrace(raised, n)
        {
          SetBit(TCK);
          Delay(2);
          ClrBit(TCK);
          Delay(2);
        }
        SetBit(TCK);
        ClrBit(TMS);
      } else {
        SetBit(TCK);
        SetBit(TMS);
        Delay(2);
        ClrBit(TMS);
        Delay(2);
      }
      mode := 1;
    }

    /** switchMode(target): the mode is recorded before anything is sent. */
    method SwitchMode(target: bv8)
      modifies this`trace, this`mode
      ensures mode == SwitchModeStep(old(trace), old(mode), target).mode
      ensures trace == SwitchModeStep(old(trace), old(mode), target).trace
    {
      if mode == target {
        return;
      }
      if mode != 1 {
        Reset();
      }
      mode := target;
      ClrBit(TCK);
      Delay(2);
      SendMode(mode);
      if mode == 0x96 {
        Delay(800);
        SetBit(TCK);
        Delay(2);
        Ping();
      } else if mode == 0xA5 {
        SetBit(TMS);
        PulseClocks(ALT_ENTRY_HIGH_PULSES);
        ClrBit(TMS);
        PulseClocks(ALT_ENTRY_LOW_PULSES);
      }
    }

    /** check(): true when the first byte read back is the echo 0x69. */
    method Check() returns (ok: bool)
      modifies this`trace, this`sampled
      ensures sampled == old(sampled) + 16
      ensures trace == CheckTrace(old(trace), tdo, old(sampled))
      ensures ok <==> ReceivedByte(tdo, old(sampled), 0) == CHECK_ECHO
    {
      ClrBit(TCK);
      SendData8(0x40);
      SendData8(0x69);
      SendData8(0x41);
      SendData8(0xFF);
      SendData8(0xFF);
      SendData8(0x43);
      ghost var sent := trace;
      var b := ReceiveData8();
      assert trace == ReceiveBytesTrace(sent, tdo, old(sampled), 1);
      var _ := ReceiveData8();
      ok := b == 0x69;
    }

    /** ping(): send 0x49, 0xFF. */
    method Ping()
      modifies this`trace
      ensures trace == PingTrace(old(trace))
    {
      SendData8(0x49);
      SendData8(0xFF);
    }

    /**
      readFlash(buffer, address, customBlock): resynchronise, enter programming
      mode, send the address-framed read command and fill buffer[0..16).
     */
    method ReadFlash(buffer: array<bv8>, address: bv32, customBlock: bool)
      requires buffer.Length >= BLOCK_SIZE
      modifies this`trace, this`sampled, this`mode, buffer
      ensures mode == MODE_ICP
      ensures sampled == old(sampled) + 8 * BLOCK_SIZE
      ensures trace == ReadFlashTrace(old(trace), chipType, old(mode), address, customBlock, tdo, old(sampled))
      ensures forall i :: 0 <= i < BLOCK_SIZE ==> buffer[i] == ReceivedByte(tdo, old(sampled), i)
      ensures forall i :: BLOCK_SIZE <= i < buffer.Length ==> buffer[i] == old(buffer[i])
    {
      Reset();
      SwitchMode(0x96);
      ghost var entered := ReadEntryTrace(old(trace), old(mode));
      assert mode == MODE_ICP && trace == entered;
      SendReadCommand(address, customBlock);

      ReceiveBlock(buffer);
    }

    /** The receive loop of readFlash: one block of bytes into buffer[0..16). */
    method ReceiveBlock(buffer: array<bv8>)
      requires buffer.Length >= BLOCK_SIZE
      modifies this`trace, this`sampled, buffer
      ensures sampled == old(sampled) + 8 * BLOCK_SIZE
      ensures trace == ReceiveBytesTrace(old(trace), tdo, old(sampled), BLOCK_SIZE)
      ensures forall i :: 0 <= i < BLOCK_SIZE ==> buffer[i] == ReceivedByte(tdo, old(sampled), i)
      ensures forall i :: BLOCK_SIZE <= i < buffer.Length ==> buffer[i] == old(buffer[i])
    {
      for n := 0 to BLOCK_SIZE
        invariant sampled == old(sampled) + 8 * n
        invariant trace == ReceiveBytesTrace(old(trace), tdo, old(sampled), n)
        invariant forall i :: 0 <= i < n ==> buffer[i] == ReceivedByte(tdo, old(sampled), i)
        invariant forall i :: BLOCK_SIZE <= i < buffer.Length ==> buffer[i] == old(buffer[i])
      {
        buffer[n] := ReceiveData8();
      }
    }

    /** The sends of readFlash: preamble, address fields, read opcode. */
    method SendReadCommand(address: bv32, customBlock: bool)
      modifies this`trace
      ensures trace == ReadCommandTrace(old(trace), chipType, address, customBlock)
    {
      if chipType != 1 {
        SendData8(0x46);
        SendData8(0xFE);
        SendData8(0xFF);
      }

      SendData8(ICP_ADDRESS_7B0);
      SendData8(Field(address, ICP_ADDRESS_7B0_MASK, ICP_ADDRESS_7B0_SHIFT));
      SendData8(ICP_ADDRESS_15B8);
      SendData8(Field(address, ICP_ADDRESS_15B8_MASK, ICP_ADDRESS_15B8_SHIFT));
      if chipType == 4 || chipType == 7 {
        SendData8(ICP_ADDRESS_23B16);
        SendData8(Field(address, ICP_ADDRESS_23B16_MASK, ICP_ADDRESS_23B16_SHIFT));
      }

      SendData8(if customBlock then ICP_READ_CUSTOM_BLOCK else ICP_READ);
    }

    /** sendMode(value): MSB-first, then two framing pulses. */
    method SendMode(value: bv8)
      modifies this`trace
      ensures trace == SendModeTrace(old(trace), value)
    {
      var m: bv8 := 0x80;
      ghost var k: nat := 0;
      while m != 0
        invariant k <= 8 && m == MsbMask(k) && (m != 0 <==> k < 8)
        invariant trace == SerialTrace(old(trace), value, k, ModeClocked)
        decreases 8 - k
      {
        MsbMaskStep(k);
        if value & m != 0 {
          SetBit(TDI);
        } else {
          ClrBit(TDI);
        }
        ModeClock();
        m := m >> 1;
        k := k + 1;
      }

      ModeClock();
      ModeClock();
    }

    /** sendData8(value): MSB-first, then TDI low for one framing pulse. */
    method SendData8(value: bv8)
      modifies this`trace
      ensures trace == SendData8Trace(old(trace), value)
    {
      var m: bv8 := 0x80;
      ghost var k: nat := 0;
      while m != 0
        invariant k <= 8 && m == MsbMask(k) && (m != 0 <==> k < 8)
        invariant trace == SerialTrace(old(trace), value, k, PulseClocked)
        decreases 8 - k
      {
        MsbMaskStep(k);
        if value & m != 0 {
          SetBit(TDI);
        } else {
          ClrBit(TDI);
        }
        PulseClock();
        m := m >> 1;
        k := k + 1;
      }

      ClrBit(TDI);
      PulseClock();
    }

    /** receiveData8(): pulse, then sample, eight times LSB-first, then one framing pulse. */
    method ReceiveData8() returns (value: bv8)
      modifies this`trace, this`sampled
      ensures sampled == old(sampled) + 8
      ensures trace == ReceiveTrace(old(trace), Window(tdo, old(sampled), 8))
      ensures value == LsbValue(Window(tdo, old(sampled), 8))
    {
      value := 0;
      ClrBit(TDI);
      ghost var bits := Window(tdo, sampled, 8);
      ghost var cleared := trace;
      var m: bv8 := 1;
      ghost var k: nat := 0;
      while m != 0
        invariant k <= 8 && m == LsbMask(k) && (m != 0 <==> k < 8)
        invariant sampled == old(sampled) + k
        invariant trace == SampleTrace(cleared, bits, k)
        invariant value == Assemble(bits, k)
        decreases 8 - k
      {
        LsbMaskStep(k);
        AssembleStep(bits, k, value, m);
        PulseClock();
        var high := GetBit();
        if high {
          value := value | m;
        }
        m := m << 1;
        k := k + 1;
      }

      PulseClock();
    }

    /** pulseClock(): raise and lower TCK. */
    method PulseClock()
      modifies this`trace
      ensures trace == PulseClockTrace(old(trace))
    {
      Delay(1);
      SetBit(TCK);
      Delay(1);
      ClrBit(TCK);
    }

    /** The clock pulse sendMode and reset write out by hand. */
    method ModeClock()
      modifies this`trace
      ensures trace == ModeClockTrace(old(trace))
    {
      SetBit(TCK);
      Delay(2);
      ClrBit(TCK);
      Delay(2);
    }

    /** pulseClocks(count). */
    method PulseClocks(count: nat)
      modifies this`trace
      ensures trace == PulseClocksTrace(old(trace), count)
    {
      var left := count;
      ghost var done := 0;
      while left > 0
        invariant done + left == count
        invariant trace == PulseClocksTrace(old(trace), done)
      {
        left := left - 1;
        PulseClock();
        done := done + 1;
      }
    }
  }
}
