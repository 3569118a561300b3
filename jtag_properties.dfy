/**
  What the traces of `JtagTraces` mean on the lines: the levels the target
  sees at each clock pulse, the TDO levels read, and the levels left behind.
  Every lemma is stated for an arbitrary trace `t` done before the routine
  and arbitrary starting levels `l`: the routine adds its own pulses to
  those of `t` and its own samples to those of `t`.
 */
module JtagProperties {
  import opened Bits
  import opened Wire
  import opened IcpOpcodes
  import opened JtagTraces

  /** The levels the target sees at a clock pulse with TDI at `tdi` and TMS at `tms`. */
  function Strobe(tdi: bool, tms: bool): Levels
  {
    Levels(true, tdi, tms)
  }

  /** The pulses of one sendData8(v): the eight bits MSB-first, then one with TDI low. */
  function DataFrame(v: bv8, tms: bool): (f: seq<Levels>)
    ensures |f| == 9
  {
    seq(9, i requires 0 <= i < 9 => Strobe(i < 8 && MsbFirst(v)[i], tms))
  }

  /** The pulses of one sendMode(v): the eight bits MSB-first, then two with TDI still at bit 0. */
  function ModeFrame(v: bv8, tms: bool): (f: seq<Levels>)
    ensures |f| == 10
  {
    seq(10, i requires 0 <= i < 10 => Strobe(if i < 8 then MsbFirst(v)[i] else Bit(v, 0), tms))
  }

  /** `n` pulses with the same levels. */
  function Pulses(n: nat, tdi: bool, tms: bool): (f: seq<Levels>)
    ensures |f| == n
  {
    seq(n, _ => Strobe(tdi, tms))
  }

  /** The pulses of sendData8 of each byte in turn. */
  function DataFrames(bytes: seq<bv8>, tms: bool): (f: seq<Levels>)
    ensures |f| == 9 * |bytes|
  {
    if bytes == [] then [] else DataFrames(bytes[..|bytes| - 1], tms) + DataFrame(bytes[|bytes| - 1], tms)
  }

  /** The levels once the clock is low again, TDI at `tdi` and TMS at `tms`. */
  function Idle(tdi: bool, tms: bool): Levels
  {
    Levels(false, tdi, tms)
  }

  lemma Associative<T>(a: seq<T>, b: seq<T>, c: seq<T>)
    ensures (a + b) + c == a + (b + c)
  {
  }

  /** One more pulse at the end of a run of equal pulses. */
  lemma PulsesSnoc(s: seq<Levels>, n: nat, tdi: bool, tms: bool)
    ensures s + Pulses(n, tdi, tms) + [Strobe(tdi, tms)] == s + Pulses(n + 1, tdi, tms)
  {
    assert Pulses(n, tdi, tms) + [Strobe(tdi, tms)] == Pulses(n + 1, tdi, tms);
    Associative(s, Pulses(n, tdi, tms), [Strobe(tdi, tms)]);
  }

  /** The samples `s`, then the first `k - 1` of `bits`, then the next one. */
  lemma PrefixSnoc(s: seq<bool>, bits: seq<bool>, k: nat)
    requires 0 < k <= |bits|
    ensures s + bits[..k - 1] + [bits[k - 1]] == s + bits[..k]
  {
    assert bits[..k - 1] + [bits[k - 1]] == bits[..k];
    Associative(s, bits[..k - 1], [bits[k - 1]]);
  }

  /** Driving a line high twice is driving it high once. */
  lemma SetTwice(l: Levels, line: Line)
    ensures Apply(Apply(l, Set(line)), Set(line)) == Apply(l, Set(line))
  {
  }

  /** Driving a line low and then high is driving it high. */
  lemma ClrThenSet(l: Levels, line: Line)
    ensures Apply(Apply(l, Clr(line)), Set(line)) == Apply(l, Set(line))
  {
  }

  /** An event that neither raises the clock nor reads TDO only changes the levels. */
  lemma Quiet(l: Levels, t: seq<Event>, e: Event)
    requires e != Set(TCK) && !e.Sample?
    ensures Run(l, t + [e]) == Apply(Run(l, t), e)
    ensures Strobes(l, t + [e]) == Strobes(l, t)
    ensures Samples(t + [e]) == Samples(t)
  {
    Snoc(l, t, e);
  }

  /** Raising TCK is one clock pulse with the levels in force. */
  lemma Raise(l: Levels, t: seq<Event>)
    ensures Run(l, t + [Set(TCK)]) == Run(l, t).(tck := true)
    ensures Strobes(l, t + [Set(TCK)]) == Strobes(l, t) + [Run(l, t).(tck := true)]
    ensures Samples(t + [Set(TCK)]) == Samples(t)
  {
    Snoc(l, t, Set(TCK));
  }

  /** Reading TDO records the level read and changes no line. */
  lemma Read(l: Levels, t: seq<Event>, b: bool)
    ensures Run(l, t + [Sample(b)]) == Run(l, t)
    ensures Strobes(l, t + [Sample(b)]) == Strobes(l, t)
    ensures Samples(t + [Sample(b)]) == Samples(t) + [b]
  {
    Snoc(l, t, Sample(b));
  }

  // ---------------------------------------------------------------------------
  // Clock pulses

  /** pulseClock gives one pulse with the levels in force and leaves TCK low. */
  lemma PulseClockMeaning(l: Levels, t: seq<Event>)
    ensures Run(l, PulseClockTrace(t)) == Run(l, t).(tck := false)
    ensures Strobes(l, PulseClockTrace(t)) == Strobes(l, t) + [Run(l, t).(tck := true)]
    ensures Samples(PulseClockTrace(t)) == Samples(t)
  {
    Quiet(l, t, Wait(1));
    Raise(l, t + [Wait(1)]);
    Quiet(l, t + [Wait(1)] + [Set(TCK)], Wait(1));
    Quiet(l, t + [Wait(1)] + [Set(TCK)] + [Wait(1)], Clr(TCK));
  }

  /** The hand-written pulse of sendMode and reset: the same as pulseClock on the lines. */
  lemma ModeClockMeaning(l: Levels, t: seq<Event>)
    ensures Run(l, ModeClockTrace(t)) == Run(l, t).(tck := false)
    ensures Strobes(l, ModeClockTrace(t)) == Strobes(l, t) + [Run(l, t).(tck := true)]
    ensures Samples(ModeClockTrace(t)) == Samples(t)
  {
    Raise(l, t);
    Quiet(l, t + [Set(TCK)], Wait(2));
    Quiet(l, t + [Set(TCK)] + [Wait(2)], Clr(TCK));
    Quiet(l, t + [Set(TCK)] + [Wait(2)] + [Clr(TCK)], Wait(2));
  }

  lemma ClockMeaning(l: Levels, t: seq<Event>, clocking: Clocking)
    ensures Run(l, ClockTrace(t, clocking)) == Run(l, t).(tck := false)
    ensures Strobes(l, ClockTrace(t, clocking)) == Strobes(l, t) + [Run(l, t).(tck := true)]
    ensures Samples(ClockTrace(t, clocking)) == Samples(t)
  {
    match clocking
    case PulseClocked => PulseClockMeaning(l, t);
    case ModeClocked => ModeClockMeaning(l, t);
  }

  /** pulseClocks(n) gives exactly `n` pulses with TDI and TMS untouched and, if any, leaves TCK low. */
  lemma {:induction false} PulseClocksMeaning(l: Levels, t: seq<Event>, n: nat)
    ensures Run(l, PulseClocksTrace(t, n)) == if n == 0 then Run(l, t) else Run(l, t).(tck := false)
    ensures Strobes(l, PulseClocksTrace(t, n)) == Strobes(l, t) + Pulses(n, Run(l, t).tdi, Run(l, t).tms)
    ensures Samples(PulseClocksTrace(t, n)) == Samples(t)
    decreases n
  {
    if n > 0 {
      PulseClocksMeaning(l, t, n - 1);
      PulseClockMeaning(l, PulseClocksTrace(t, n - 1));
      PulsesSnoc(Strobes(l, t), n - 1, Run(l, t).tdi, Run(l, t).tms);
    }
  }

  /** `n` hand-written pulses, likewise. */
  lemma {:induction false} ModeClocksMeaning(l: Levels, t: seq<Event>, n: nat)
    ensures Run(l, ModeClocksTrace(t, n)) == if n == 0 then Run(l, t) else Run(l, t).(tck := false)
    ensures Strobes(l, ModeClocksTrace(t, n)) == Strobes(l, t) + Pulses(n, Run(l, t).tdi, Run(l, t).tms)
    ensures Samples(ModeClocksTrace(t, n)) == Samples(t)
    decreases n
  {
    if n > 0 {
      ModeClocksMeaning(l, t, n - 1);
      ModeClockMeaning(l, ModeClocksTrace(t, n - 1));
      PulsesSnoc(Strobes(l, t), n - 1, Run(l, t).tdi, Run(l, t).tms);
    }
  }

  /** One low pulse of `line`. */
  lemma LowPulseMeaning(l: Levels, t: seq<Event>, line: Line)
    requires line != TDO
    ensures Run(l, LowPulseTrace(t, line)) == Apply(Run(l, t), Set(line))
    ensures Strobes(l, LowPulseTrace(t, line))
         == Strobes(l, t) + (if line == TCK then [Run(l, t).(tck := true)] else [])
    ensures Samples(LowPulseTrace(t, line)) == Samples(t)
  {
    var u0 := t + [Clr(line)];
    var u1 := u0 + [Wait(2)];
    var u2 := u1 + [Set(line)];
    Quiet(l, t, Clr(line));
    Quiet(l, u0, Wait(2));
    if line == TCK {
      Raise(l, u1);
    } else {
      Quiet(l, u1, Set(line));
    }
    Quiet(l, u2, Wait(2));
    ClrThenSet(Run(l, t), line);
  }

  /**
    `n` low pulses of `line` leave it high; only pulses of TCK itself are
    clock pulses, each with the other lines as they were.
   */
  lemma {:induction false} LowPulsesMeaning(l: Levels, t: seq<Event>, line: Line, n: nat)
    requires line != TDO
    ensures Run(l, LowPulsesTrace(t, line, n)) == if n == 0 then Run(l, t) else Apply(Run(l, t), Set(line))
    ensures Strobes(l, LowPulsesTrace(t, line, n))
         == Strobes(l, t) + (if line == TCK then Pulses(n, Run(l, t).tdi, Run(l, t).tms) else [])
    ensures Samples(LowPulsesTrace(t, line, n)) == Samples(t)
    decreases n
  {
    if n > 0 {
      LowPulsesMeaning(l, t, line, n - 1);
      LowPulseMeaning(l, LowPulsesTrace(t, line, n - 1), line);
      if n > 1 {
        SetTwice(Run(l, t), line);
      }
      if line == TCK {
        PulsesSnoc(Strobes(l, t), n - 1, Run(l, t).tdi, Run(l, t).tms);
      }
    }
  }

  // ---------------------------------------------------------------------------
  // Bytes

  /** The pulses `s` followed by those of the first `k` bits of `v` sent MSB-first. */
  function SerialStrobes(s: seq<Levels>, v: bv8, k: nat, tms: bool): (r: seq<Levels>)
    requires k <= 8
    ensures |r| == |s| + k
  {
    if k == 0 then s else SerialStrobes(s, v, k - 1, tms) + [Strobe(v & MsbMask(k - 1) != 0, tms)]
  }

  /** Those pulses are the bits of `v` MSB-first, one per pulse. */
  lemma {:induction false} SerialStrobesContent(s: seq<Levels>, v: bv8, k: nat, tms: bool)
    requires k <= 8
    ensures SerialStrobes(s, v, k, tms) == s + seq(k, i requires 0 <= i < k => Strobe(MsbFirst(v)[i], tms))
    decreases k
  {
    if k > 0 {
      SerialStrobesContent(s, v, k - 1, tms);
      MsbFirstAt(v, k - 1);
      var before := seq(k - 1, i requires 0 <= i < k - 1 => Strobe(MsbFirst(v)[i], tms));
      assert before + [Strobe(MsbFirst(v)[k - 1], tms)] == seq(k, i requires 0 <= i < k => Strobe(MsbFirst(v)[i], tms));
      Associative(s, before, [Strobe(MsbFirst(v)[k - 1], tms)]);
    }
  }

  lemma DriveMeaning(l: Levels, t: seq<Event>, b: bool)
    ensures Run(l, t + [Drive(TDI, b)]) == Run(l, t).(tdi := b)
    ensures Strobes(l, t + [Drive(TDI, b)]) == Strobes(l, t)
    ensures Samples(t + [Drive(TDI, b)]) == Samples(t)
  {
    Quiet(l, t, Drive(TDI, b));
  }

  /** One bit: TDI driven to `b`, then one clock pulse. */
  lemma BitMeaning(l: Levels, t: seq<Event>, b: bool, clocking: Clocking)
    ensures Run(l, ClockTrace(t + [Drive(TDI, b)], clocking)) == Idle(b, Run(l, t).tms)
    ensures Strobes(l, ClockTrace(t + [Drive(TDI, b)], clocking)) == Strobes(l, t) + [Strobe(b, Run(l, t).tms)]
    ensures Samples(ClockTrace(t + [Drive(TDI, b)], clocking)) == Samples(t)
  {
    DriveMeaning(l, t, b);
    ClockMeaning(l, t + [Drive(TDI, b)], clocking);
  }

  /** The first `k` bits MSB-first: one pulse per bit with TDI at that bit, TMS untouched, nothing read. */
  lemma {:induction false} SerialMeaning(l: Levels, t: seq<Event>, v: bv8, k: nat, clocking: Clocking)
    requires k <= 8
    ensures Run(l, SerialTrace(t, v, k, clocking))
         == if k == 0 then Run(l, t) else Idle(v & MsbMask(k - 1) != 0, Run(l, t).tms)
    ensures Strobes(l, SerialTrace(t, v, k, clocking)) == SerialStrobes(Strobes(l, t), v, k, Run(l, t).tms)
    ensures Samples(SerialTrace(t, v, k, clocking)) == Samples(t)
    decreases k
  {
    if k > 0 {
      SerialMeaning(l, t, v, k - 1, clocking);
      BitMeaning(l, SerialTrace(t, v, k - 1, clocking), v & MsbMask(k - 1) != 0, clocking);
    }
  }

  /** The pulses of one sendData8(v) are its frame. */
  lemma DataFrameContent(s: seq<Levels>, v: bv8, tms: bool)
    ensures SerialStrobes(s, v, 8, tms) + [Strobe(false, tms)] == s + DataFrame(v, tms)
  {
    SerialStrobesContent(s, v, 8, tms);
    var bits := seq(8, i requires 0 <= i < 8 => Strobe(MsbFirst(v)[i], tms));
    assert bits + [Strobe(false, tms)] == DataFrame(v, tms);
    Associative(s, bits, [Strobe(false, tms)]);
  }

  lemma SendData8Steps(l: Levels, t: seq<Event>, v: bv8)
    ensures Run(l, SendData8Trace(t, v)) == Idle(false, Run(l, t).tms)
    ensures Strobes(l, SendData8Trace(t, v)) == SerialStrobes(Strobes(l, t), v, 8, Run(l, t).tms) + [Strobe(false, Run(l, t).tms)]
    ensures Samples(SendData8Trace(t, v)) == Samples(t)
  {
    var u := SerialTrace(t, v, 8, PulseClocked);
    SerialMeaning(l, t, v, 8, PulseClocked);
    DriveMeaning(l, u, false);
    PulseClockMeaning(l, u + [Clr(TDI)]);
  }

  /** sendData8(v) gives nine pulses: TDI at bit 7 - i of `v` on pulse i, then low on the ninth. */
  lemma SendData8Meaning(l: Levels, t: seq<Event>, v: bv8)
    ensures Run(l, SendData8Trace(t, v)) == Idle(false, Run(l, t).tms)
    ensures Strobes(l, SendData8Trace(t, v)) == Strobes(l, t) + DataFrame(v, Run(l, t).tms)
    ensures Samples(SendData8Trace(t, v)) == Samples(t)
  {
    SendData8Steps(l, t, v);
    DataFrameContent(Strobes(l, t), v, Run(l, t).tms);
  }

  /** The `i`-th pulse of sendData8(v) carries bit 7 - i, for each of the eight data pulses; the ninth has TDI low. */
  lemma DataFrameBits(v: bv8, tms: bool, i: nat)
    requires i < 8
    ensures DataFrame(v, tms)[i].tdi == Bit(v, 7 - i)
    ensures !DataFrame(v, tms)[8].tdi
  {
    assert DataFrame(v, tms)[8] == Strobe(false, tms);
  }

  /** The pulses of one sendMode(v) are its frame. */
  lemma ModeFrameContent(s: seq<Levels>, v: bv8, tms: bool)
    ensures SerialStrobes(s, v, 8, tms) + [Strobe(Bit(v, 0), tms)] + [Strobe(Bit(v, 0), tms)] == s + ModeFrame(v, tms)
  {
    SerialStrobesContent(s, v, 8, tms);
    var bits := seq(8, i requires 0 <= i < 8 => Strobe(MsbFirst(v)[i], tms));
    var last := Strobe(Bit(v, 0), tms);
    assert bits + [last] + [last] == ModeFrame(v, tms);
    Associative(s, bits, [last]);
    Associative(s, bits + [last], [last]);
  }

  lemma SendModeSteps(l: Levels, t: seq<Event>, v: bv8)
    ensures Run(l, SendModeTrace(t, v)) == Idle(Bit(v, 0), Run(l, t).tms)
    ensures Strobes(l, SendModeTrace(t, v))
         == SerialStrobes(Strobes(l, t), v, 8, Run(l, t).tms) + [Strobe(Bit(v, 0), Run(l, t).tms)] + [Strobe(Bit(v, 0), Run(l, t).tms)]
    ensures Samples(SendModeTrace(t, v)) == Samples(t)
  {
    var u := SerialTrace(t, v, 8, ModeClocked);
    SerialMeaning(l, t, v, 8, ModeClocked);
    ModeClockMeaning(l, u);
    ModeClockMeaning(l, ModeClockTrace(u));
  }

  /** sendMode(v) gives ten pulses: the eight bits MSB-first, then two more with TDI still at bit 0. */
  lemma SendModeMeaning(l: Levels, t: seq<Event>, v: bv8)
    ensures Run(l, SendModeTrace(t, v)) == Idle(Bit(v, 0), Run(l, t).tms)
    ensures Strobes(l, SendModeTrace(t, v)) == Strobes(l, t) + ModeFrame(v, Run(l, t).tms)
    ensures Samples(SendModeTrace(t, v)) == Samples(t)
  {
    SendModeSteps(l, t, v);
    ModeFrameContent(Strobes(l, t), v, Run(l, t).tms);
  }

  /** One step of the bit loop of receiveData8: a pulse, then TDO read as `b`. */
  lemma PulseAndReadMeaning(l: Levels, t: seq<Event>, b: bool)
    ensures Run(l, PulseClockTrace(t) + [Sample(b)]) == Run(l, t).(tck := false)
    ensures Strobes(l, PulseClockTrace(t) + [Sample(b)]) == Strobes(l, t) + [Run(l, t).(tck := true)]
    ensures Samples(PulseClockTrace(t) + [Sample(b)]) == Samples(t) + [b]
  {
    PulseClockMeaning(l, t);
    Read(l, PulseClockTrace(t), b);
  }

  /** The first `k` pulse-and-sample steps: `k` pulses with the levels in force, reading `bits[..k]`. */
  lemma {:induction false} SampleMeaning(l: Levels, t: seq<Event>, bits: seq<bool>, k: nat)
    requires k <= |bits|
    ensures Run(l, SampleTrace(t, bits, k)) == if k == 0 then Run(l, t) else Run(l, t).(tck := false)
    ensures Strobes(l, SampleTrace(t, bits, k)) == Strobes(l, t) + Pulses(k, Run(l, t).tdi, Run(l, t).tms)
    ensures Samples(SampleTrace(t, bits, k)) == Samples(t) + bits[..k]
    decreases k
  {
    if k > 0 {
      SampleMeaning(l, t, bits, k - 1);
      PulseAndReadMeaning(l, SampleTrace(t, bits, k - 1), bits[k - 1]);
      PulsesSnoc(Strobes(l, t), k - 1, Run(l, t).tdi, Run(l, t).tms);
      PrefixSnoc(Samples(t), bits, k);
    }
  }

  /** receiveData8 when TDO reads `bits`: nine pulses with TDI low, and exactly `bits` read. */
  lemma ReceiveMeaning(l: Levels, t: seq<Event>, bits: seq<bool>)
    requires |bits| == 8
    ensures Run(l, ReceiveTrace(t, bits)) == Idle(false, Run(l, t).tms)
    ensures Strobes(l, ReceiveTrace(t, bits)) == Strobes(l, t) + Pulses(9, false, Run(l, t).tms)
    ensures Samples(ReceiveTrace(t, bits)) == Samples(t) + bits
  {
    var c := t + [Clr(TDI)];
    DriveMeaning(l, t, false);
    SampleMeaning(l, c, bits, 8);
    PulseClockMeaning(l, SampleTrace(c, bits, 8));
    PulsesSnoc(Strobes(l, t), 8, false, Run(l, t).tms);
    assert bits[..8] == bits;
  }

  /** A byte comes back as `v` exactly when TDO presented the bits of `v` least-significant first. */
  lemma ReceivedByteIff(tdo: nat -> bool, start: nat, i: nat, v: bv8)
    ensures ReceivedByte(tdo, start, i) == v <==> Window(tdo, start + 8 * i, 8) == LsbFirst(v)
  {
    var bits := Window(tdo, start + 8 * i, 8);
    LsbValueThenBits(bits);
    BitsThenLsbValue(v);
  }

  lemma PulsesAppend(s: seq<Levels>, m: nat, n: nat, k: nat, tdi: bool, tms: bool)
    requires m + n == k
    ensures s + Pulses(m, tdi, tms) + Pulses(n, tdi, tms) == s + Pulses(k, tdi, tms)
  {
    assert Pulses(m, tdi, tms) + Pulses(n, tdi, tms) == Pulses(k, tdi, tms);
    Associative(s, Pulses(m, tdi, tms), Pulses(n, tdi, tms));
  }

  lemma WindowAppend(s: seq<bool>, tdo: nat -> bool, start: nat, m: nat, n: nat, k: nat)
    requires m + n == k
    ensures s + Window(tdo, start, m) + Window(tdo, start + m, n) == s + Window(tdo, start, k)
  {
    assert Window(tdo, start, m) + Window(tdo, start + m, n) == Window(tdo, start, k);
    Associative(s, Window(tdo, start, m), Window(tdo, start + m, n));
  }

  /** sendData8 of each byte in turn: their frames one after the other, TMS untouched, nothing read. */
  lemma {:induction false} SendBytesMeaning(l: Levels, t: seq<Event>, bytes: seq<bv8>)
    ensures Run(l, SendBytesTrace(t, bytes)) == if bytes == [] then Run(l, t) else Idle(false, Run(l, t).tms)
    ensures Strobes(l, SendBytesTrace(t, bytes)) == Strobes(l, t) + DataFrames(bytes, Run(l, t).tms)
    ensures Samples(SendBytesTrace(t, bytes)) == Samples(t)
    decreases |bytes|
  {
    if bytes != [] {
      var init := bytes[..|bytes| - 1];
      var tms := Run(l, t).tms;
      SendBytesMeaning(l, t, init);
      SendData8Meaning(l, SendBytesTrace(t, init), bytes[|bytes| - 1]);
      Associative(Strobes(l, t), DataFrames(init, tms), DataFrame(bytes[|bytes| - 1], tms));
    }
  }

  /** The last of `n` receiveData8 calls, on its own: the levels it leaves, */
  lemma ReceiveBytesStepRun(l: Levels, t: seq<Event>, tdo: nat -> bool, start: nat, n: nat)
    requires n > 0
    ensures Run(l, ReceiveBytesTrace(t, tdo, start, n)) == Idle(false, Run(l, ReceiveBytesTrace(t, tdo, start, n - 1)).tms)
  {
    ReceiveMeaning(l, ReceiveBytesTrace(t, tdo, start, n - 1), Window(tdo, start + 8 * (n - 1), 8));
  }

  /** its pulses */
  lemma ReceiveBytesStepStrobes(l: Levels, t: seq<Event>, tdo: nat -> bool, start: nat, n: nat)
    requires n > 0
    ensures var u := ReceiveBytesTrace(t, tdo, start, n - 1);
      Strobes(l, ReceiveBytesTrace(t, tdo, start, n)) == Strobes(l, u) + Pulses(9, false, Run(l, u).tms)
  {
    ReceiveMeaning(l, ReceiveBytesTrace(t, tdo, start, n - 1), Window(tdo, start + 8 * (n - 1), 8));
  }

  /** and the levels it reads. */
  lemma ReceiveBytesStepSamples(l: Levels, t: seq<Event>, tdo: nat -> bool, start: nat, n: nat)
    requires n > 0
    ensures Samples(ReceiveBytesTrace(t, tdo, start, n))
         == Samples(ReceiveBytesTrace(t, tdo, start, n - 1)) + Window(tdo, start + 8 * (n - 1), 8)
  {
    ReceiveMeaning(l, ReceiveBytesTrace(t, tdo, start, n - 1), Window(tdo, start + 8 * (n - 1), 8));
  }

  lemma {:induction false} ReceiveBytesRun(l: Levels, t: seq<Event>, tdo: nat -> bool, start: nat, n: nat)
    ensures Run(l, ReceiveBytesTrace(t, tdo, start, n)) == if n == 0 then Run(l, t) else Idle(false, Run(l, t).tms)
    decreases n
  {
    if n > 0 {
      ReceiveBytesRun(l, t, tdo, start, n - 1);
      ReceiveBytesStepRun(l, t, tdo, start, n);
    }
  }

  lemma {:induction false} ReceiveBytesStrobes(l: Levels, t: seq<Event>, tdo: nat -> bool, start: nat, n: nat)
    ensures Strobes(l, ReceiveBytesTrace(t, tdo, start, n)) == Strobes(l, t) + Pulses(9 * n, false, Run(l, t).tms)
    decreases n
  {
    if n > 0 {
      var u := ReceiveBytesTrace(t, tdo, start, n - 1);
      ReceiveBytesStrobes(l, t, tdo, start, n - 1);
      ReceiveBytesRun(l, t, tdo, start, n - 1);
      ReceiveBytesStepStrobes(l, t, tdo, start, n);
      PulsesAppend(Strobes(l, t), 9 * (n - 1), 9, 9 * n, false, Run(l, t).tms);
    } else {
      assert Strobes(l, t) + Pulses(0, false, Run(l, t).tms) == Strobes(l, t);
    }
  }

  lemma {:induction false} ReceiveBytesSamples(l: Levels, t: seq<Event>, tdo: nat -> bool, start: nat, n: nat)
    ensures Samples(ReceiveBytesTrace(t, tdo, start, n)) == Samples(t) + Window(tdo, start, 8 * n)
    decreases n
  {
    if n > 0 {
      var u := ReceiveBytesTrace(t, tdo, start, n - 1);
      var w := Window(tdo, start + 8 * (n - 1), 8);
      calc {
        Samples(ReceiveBytesTrace(t, tdo, start, n));
        { ReceiveBytesStepSamples(l, t, tdo, start, n); }
        Samples(u) + w;
        { ReceiveBytesSamples(l, t, tdo, start, n - 1); }
        Samples(t) + Window(tdo, start, 8 * (n - 1)) + w;
        { WindowAppend(Samples(t), tdo, start, 8 * (n - 1), 8, 8 * n); }
        Samples(t) + Window(tdo, start, 8 * n);
      }
    } else {
      assert Samples(t) + Window(tdo, start, 0) == Samples(t);
    }
  }

  /** `n` calls of receiveData8: nine pulses each with TDI low, and the next `8 * n` TDO levels read. */
  lemma ReceiveBytesMeaning(l: Levels, t: seq<Event>, tdo: nat -> bool, start: nat, n: nat)
    ensures Run(l, ReceiveBytesTrace(t, tdo, start, n)) == if n == 0 then Run(l, t) else Idle(false, Run(l, t).tms)
    ensures Strobes(l, ReceiveBytesTrace(t, tdo, start, n)) == Strobes(l, t) + Pulses(9 * n, false, Run(l, t).tms)
    ensures Samples(ReceiveBytesTrace(t, tdo, start, n)) == Samples(t) + Window(tdo, start, 8 * n)
  {
    ReceiveBytesRun(l, t, tdo, start, n);
    ReceiveBytesStrobes(l, t, tdo, start, n);
    ReceiveBytesSamples(l, t, tdo, start, n);
  }

  // ---------------------------------------------------------------------------
  // Modes

  /** The pulses reset gives from `mode`, with TDI at `tdi` and TMS at `tms` beforehand. */
  function ResetStrobes(mode: bv8, tdi: bool, tms: bool): seq<Levels>
  {
    if mode == 0 then []
    else if mode == ALT_MODE then Pulses(ALT_RESET_PULSES + 1, tdi, true)
    else [Strobe(tdi, tms)]
  }

  /** Raising TMS and the first of the hand-written pulses reset gives from the alternate mode. */
  lemma AltUnwindMeaning(l: Levels, t: seq<Event>)
    ensures Run(l, ModeClocksTrace(t + [Set(TMS)], ALT_RESET_PULSES)) == Idle(Run(l, t).tdi, true)
    ensures Strobes(l, ModeClocksTrace(t + [Set(TMS)], ALT_RESET_PULSES))
         == Strobes(l, t) + Pulses(ALT_RESET_PULSES, Run(l, t).tdi, true)
    ensures Samples(ModeClocksTrace(t + [Set(TMS)], ALT_RESET_PULSES)) == Samples(t)
  {
    Quiet(l, t, Set(TMS));
    ModeClocksMeaning(l, t + [Set(TMS)], ALT_RESET_PULSES);
  }

  /** reset from the alternate mode. */
  lemma AltResetMeaning(l: Levels, t: seq<Event>)
    ensures Run(l, ResetStep(t, ALT_MODE).trace) == Levels(true, Run(l, t).tdi, false)
    ensures Strobes(l, ResetStep(t, ALT_MODE).trace) == Strobes(l, t) + Pulses(ALT_RESET_PULSES + 1, Run(l, t).tdi, true)
    ensures Samples(ResetStep(t, ALT_MODE).trace) == Samples(t)
  {
    var u := ModeClocksTrace(t + [Set(TMS)], ALT_RESET_PULSES);
    assert ResetStep(t, ALT_MODE).trace == u + [Set(TCK)] + [Clr(TMS)];
    AltUnwindMeaning(l, t);
    Raise(l, u);
    Quiet(l, u + [Set(TCK)], Clr(TMS));
    PulsesSnoc(Strobes(l, t), ALT_RESET_PULSES, Run(l, t).tdi, true);
  }

  /** reset from any mode but 0 and the alternate one. */
  lemma PlainResetMeaning(l: Levels, t: seq<Event>, mode: bv8)
    requires mode != 0 && mode != ALT_MODE
    ensures Run(l, ResetStep(t, mode).trace) == Levels(true, Run(l, t).tdi, false)
    ensures Strobes(l, ResetStep(t, mode).trace) == Strobes(l, t) + [Strobe(Run(l, t).tdi, Run(l, t).tms)]
    ensures Samples(ResetStep(t, mode).trace) == Samples(t)
  {
    var u0 := t + [Set(TCK)];
    var u1 := u0 + [Set(TMS)];
    var u2 := u1 + [Wait(2)];
    var u3 := u2 + [Clr(TMS)];
    assert ResetStep(t, mode).trace == u3 + [Wait(2)];
    Raise(l, t);
    Quiet(l, u0, Set(TMS));
    Quiet(l, u1, Wait(2));
    Quiet(l, u2, Clr(TMS));
    Quiet(l, u3, Wait(2));
  }

  /**
    From any mode but 0, reset leaves TCK high and TMS low with TDI
    untouched: 36 pulses with TMS high from the alternate mode, otherwise one
    pulse with the levels in force.
   */
  lemma ResetMeaning(l: Levels, t: seq<Event>, mode: bv8)
    ensures Run(l, ResetStep(t, mode).trace) == if mode == 0 then Run(l, t) else Levels(true, Run(l, t).tdi, false)
    ensures Strobes(l, ResetStep(t, mode).trace) == Strobes(l, t) + ResetStrobes(mode, Run(l, t).tdi, Run(l, t).tms)
    ensures Samples(ResetStep(t, mode).trace) == Samples(t)
  {
    if mode == 0 {
      assert Strobes(l, t) + [] == Strobes(l, t);
    } else if mode == ALT_MODE {
      AltResetMeaning(l, t);
    } else {
      PlainResetMeaning(l, t, mode);
    }
  }

  /** reset is a no-op exactly from mode 0; from any other mode it lands in mode 1. */
  lemma ResetNoOpIff(t: seq<Event>, mode: bv8)
    ensures ResetStep(t, mode).trace == t <==> mode == 0
    ensures ResetStep(t, mode).mode == if mode == 0 then 0 else RESET_MODE
  {
    var l := Levels(false, false, false);
    ResetMeaning(l, t, mode);
    if mode != 0 {
      assert |Strobes(l, ResetStep(t, mode).trace)| > |Strobes(l, t)|;
    }
  }

  /** The pulses of switchMode after the mode byte, by target, with TDI at `tdi` and TMS at `tms` beforehand. */
  function EntryStrobes(target: bv8, tdi: bool, tms: bool): seq<Levels>
  {
    if target == MODE_ICP then [Strobe(tdi, tms)] + DataFrame(0x49, tms) + DataFrame(0xFF, tms)
    else if target == ALT_MODE then Pulses(ALT_ENTRY_HIGH_PULSES, tdi, true) + Pulses(ALT_ENTRY_LOW_PULSES, tdi, false)
    else []
  }

  /** The levels switchMode leaves after the mode byte, by target. */
  function EntryLevels(target: bv8, tdi: bool, tms: bool): Levels
  {
    if target == MODE_ICP then Idle(false, tms)
    else if target == ALT_MODE then Idle(tdi, false)
    else Idle(tdi, tms)
  }

  /** Entering programming mode: one pulse after the 800 us pause, then ping's two bytes. */
  lemma IcpEntryMeaning(l: Levels, t: seq<Event>)
    ensures Run(l, IcpEntryTail(t)) == Idle(false, Run(l, t).tms)
    ensures Strobes(l, IcpEntryTail(t))
         == Strobes(l, t) + [Strobe(Run(l, t).tdi, Run(l, t).tms)] + DataFrame(0x49, Run(l, t).tms) + DataFrame(0xFF, Run(l, t).tms)
    ensures Samples(IcpEntryTail(t)) == Samples(t)
  {
    var u0 := t + [Wait(800)];
    var u1 := u0 + [Set(TCK)];
    var u2 := u1 + [Wait(2)];
    Quiet(l, t, Wait(800));
    Raise(l, u0);
    Quiet(l, u1, Wait(2));
    SendData8Meaning(l, u2, 0x49);
    SendData8Meaning(l, SendData8Trace(u2, 0x49), 0xFF);
  }

  /** Entering the alternate mode: six pulses with TMS high, then two with TMS low. */
  lemma AltEntryMeaning(l: Levels, t: seq<Event>)
    ensures Run(l, AltEntryTail(t)) == Idle(Run(l, t).tdi, false)
    ensures Strobes(l, AltEntryTail(t))
         == Strobes(l, t) + Pulses(ALT_ENTRY_HIGH_PULSES, Run(l, t).tdi, true) + Pulses(ALT_ENTRY_LOW_PULSES, Run(l, t).tdi, false)
    ensures Samples(AltEntryTail(t)) == Samples(t)
  {
    var u0 := t + [Set(TMS)];
    var u1 := PulseClocksTrace(u0, ALT_ENTRY_HIGH_PULSES);
    Quiet(l, t, Set(TMS));
    PulseClocksMeaning(l, u0, ALT_ENTRY_HIGH_PULSES);
    Quiet(l, u1, Clr(TMS));
    PulseClocksMeaning(l, u1 + [Clr(TMS)], ALT_ENTRY_LOW_PULSES);
  }

  lemma ModeEntryTailMeaning(l: Levels, t: seq<Event>, target: bv8)
    requires !Run(l, t).tck
    ensures Run(l, ModeEntryTail(t, target)) == EntryLevels(target, Run(l, t).tdi, Run(l, t).tms)
    ensures Strobes(l, ModeEntryTail(t, target)) == Strobes(l, t) + EntryStrobes(target, Run(l, t).tdi, Run(l, t).tms)
    ensures Samples(ModeEntryTail(t, target)) == Samples(t)
  {
    var s, tdi, tms := Strobes(l, t), Run(l, t).tdi, Run(l, t).tms;
    if target == MODE_ICP {
      IcpEntryMeaning(l, t);
      Associative(s, [Strobe(tdi, tms)], DataFrame(0x49, tms));
      Associative(s, [Strobe(tdi, tms)] + DataFrame(0x49, tms), DataFrame(0xFF, tms));
    } else if target == ALT_MODE {
      AltEntryMeaning(l, t);
      Associative(s, Pulses(ALT_ENTRY_HIGH_PULSES, tdi, true), Pulses(ALT_ENTRY_LOW_PULSES, tdi, false));
    } else {
      assert s + [] == s;
    }
  }


  /** TMS once switchMode has unwound the mode `mode`: only a real reset lowers it. */
  function UnwoundTms(mode: bv8, tms: bool): bool
  {
    if mode == 0 || mode == RESET_MODE then tms else false
  }

  /** The reset switchMode performs unless in mode 1. */
  lemma UnwindMeaning(l: Levels, t: seq<Event>, mode: bv8)
    ensures var u := if mode != RESET_MODE then ResetStep(t, mode).trace else t;
      && Run(l, u).tms == UnwoundTms(mode, Run(l, t).tms)
      && Strobes(l, u)
         == Strobes(l, t) + (if mode == RESET_MODE then [] else ResetStrobes(mode, Run(l, t).tdi, Run(l, t).tms))
      && Samples(u) == Samples(t)
  {
    if mode != RESET_MODE {
      ResetMeaning(l, t, mode);
    } else {
      assert Strobes(l, t) + [] == Strobes(l, t);
    }
  }

  /** switchMode lowers TCK, then sends the mode byte. */
  lemma ModeByteMeaning(l: Levels, t: seq<Event>, target: bv8)
    ensures Run(l, SendModeTrace(t + [Clr(TCK)] + [Wait(2)], target)) == Idle(Bit(target, 0), Run(l, t).tms)
    ensures Strobes(l, SendModeTrace(t + [Clr(TCK)] + [Wait(2)], target)) == Strobes(l, t) + ModeFrame(target, Run(l, t).tms)
    ensures Samples(SendModeTrace(t + [Clr(TCK)] + [Wait(2)], target)) == Samples(t)
  {
    var x0 := t + [Clr(TCK)];
    Quiet(l, t, Clr(TCK));
    Quiet(l, x0, Wait(2));
    SendModeMeaning(l, x0 + [Wait(2)], target);
  }

  /**
    switchMode to a mode other than the current one: the reset pulses unless
    in mode 0 or 1, then the mode byte, then the target's entry pulses.
   */
  lemma SwitchModeMeaning(l: Levels, t: seq<Event>, mode: bv8, target: bv8)
    requires mode != target
    ensures var tms := UnwoundTms(mode, Run(l, t).tms);
      && Run(l, SwitchModeStep(t, mode, target).trace) == EntryLevels(target, Bit(target, 0), tms)
      && Strobes(l, SwitchModeStep(t, mode, target).trace)
         == Strobes(l, t) + (if mode == RESET_MODE then [] else ResetStrobes(mode, Run(l, t).tdi, Run(l, t).tms))
            + ModeFrame(target, tms) + EntryStrobes(target, Bit(target, 0), tms)
      && Samples(SwitchModeStep(t, mode, target).trace) == Samples(t)
  {
    var u := if mode != RESET_MODE then ResetStep(t, mode).trace else t;
    var x := SendModeTrace(u + [Clr(TCK)] + [Wait(2)], target);
    UnwindMeaning(l, t, mode);
    ModeByteMeaning(l, u, target);
    ModeEntryTailMeaning(l, x, target);
  }

  /** switchMode does nothing on the lines exactly when the target is the current mode, and always lands in the target. */
  lemma SwitchModeNoOpIff(t: seq<Event>, mode: bv8, target: bv8)
    ensures SwitchModeStep(t, mode, target).trace == t <==> mode == target
    ensures SwitchModeStep(t, mode, target).mode == target
  {
    if mode != target {
      var l := Levels(false, false, false);
      SwitchModeMeaning(l, t, mode, target);
      assert |Strobes(l, SwitchModeStep(t, mode, target).trace)| > |Strobes(l, t)|;
    }
  }

  /** A second switchMode to the same target does nothing. */
  lemma SwitchModeIdempotent(t: seq<Event>, mode: bv8, target: bv8)
    ensures var s := SwitchModeStep(t, mode, target); SwitchModeStep(s.trace, s.mode, target) == s
  {
    SwitchModeNoOpIff(t, mode, target);
  }

  // ---------------------------------------------------------------------------
  // readFlash

  /** TMS once readFlash has reset: lowered unless the engine was in mode 0. */
  function ResetTms(mode: bv8, tms: bool): bool
  {
    if mode == 0 then tms else false
  }

  /**
    The reset and mode entry readFlash starts with, from any mode, the
    programming mode included: the reset pulses, the mode byte 0x96, one
    pulse, then ping's two bytes. The remembered mode never spares the entry.
   */
  lemma ReadEntryMeaning(l: Levels, t: seq<Event>, mode: bv8)
    ensures var tms := ResetTms(mode, Run(l, t).tms);
      && Run(l, ReadEntryTrace(t, mode)) == Idle(false, tms)
      && Strobes(l, ReadEntryTrace(t, mode))
         == Strobes(l, t) + ResetStrobes(mode, Run(l, t).tdi, Run(l, t).tms)
            + ModeFrame(MODE_ICP, tms) + EntryStrobes(MODE_ICP, false, tms)
      && Samples(ReadEntryTrace(t, mode)) == Samples(t)
  {
    var r := ResetStep(t, mode);
    ResetMeaning(l, t, mode);
    SwitchModeMeaning(l, r.trace, r.mode, MODE_ICP);
    assert Strobes(l, r.trace) + [] == Strobes(l, r.trace);
    assert !Bit(MODE_ICP, 0);
  }

  /** From programming mode readFlash does exactly what it does from mode 1. */
  lemma ReadEntryFromIcpMode(t: seq<Event>)
    ensures ReadEntryTrace(t, MODE_ICP) == ReadEntryTrace(t, RESET_MODE)
  {
  }

  // ---------------------------------------------------------------------------
  // Byte lists

  lemma SendBytesSnoc(t: seq<Event>, bytes: seq<bv8>, b: bv8)
    ensures SendBytesTrace(t, bytes + [b]) == SendData8Trace(SendBytesTrace(t, bytes), b)
  {
    assert (bytes + [b])[..|bytes|] == bytes;
  }

  /** Sending two lists one after the other is sending their concatenation. */
  lemma {:induction false} SendBytesAppend(t: seq<Event>, a: seq<bv8>, b: seq<bv8>)
    ensures SendBytesTrace(t, a + b) == SendBytesTrace(SendBytesTrace(t, a), b)
    decreases |b|
  {
    if b == [] {
      assert a + b == a;
    } else {
      var init := b[..|b| - 1];
      var last := b[|b| - 1];
      assert a + b == (a + init) + [last];
      assert b == init + [last];
      SendBytesAppend(t, a, init);
      SendBytesSnoc(t, a + init, last);
      SendBytesSnoc(SendBytesTrace(t, a), init, last);
    }
  }

  lemma SendTwo(t: seq<Event>, a: bv8, b: bv8)
    ensures SendBytesTrace(t, [a, b]) == SendData8Trace(SendData8Trace(t, a), b)
  {
    assert [a, b] == [] + [a] + [b];
    SendBytesSnoc(t, [], a);
    SendBytesSnoc(t, [a], b);
  }

  lemma SendThree(t: seq<Event>, a: bv8, b: bv8, c: bv8)
    ensures SendBytesTrace(t, [a, b, c]) == SendData8Trace(SendData8Trace(SendData8Trace(t, a), b), c)
  {
    assert [a, b, c] == [a, b] + [c];
    SendTwo(t, a, b);
    SendBytesSnoc(t, [a, b], c);
  }

  lemma SendFour(t: seq<Event>, a: bv8, b: bv8, c: bv8, d: bv8)
    ensures SendBytesTrace(t, [a, b, c, d])
         == SendData8Trace(SendData8Trace(SendData8Trace(SendData8Trace(t, a), b), c), d)
  {
    assert [a, b, c, d] == [a, b, c] + [d];
    SendThree(t, a, b, c);
    SendBytesSnoc(t, [a, b, c], d);
  }

  /** readFlash's sends are sendData8 of the bytes of its read command, in order. */
  lemma ReadCommandSent(t: seq<Event>, chipType: int, address: bv32, customBlock: bool)
    ensures ReadCommandTrace(t, chipType, address, customBlock) == SendBytesTrace(t, ReadCommand(chipType, address, customBlock))
  {
    var pre := if SendsPreamble(chipType) then READ_PREAMBLE else [];
    var low := [ICP_ADDRESS_7B0, Low(address), ICP_ADDRESS_15B8, Middle(address)];
    var high := if HasHighAddress(chipType) then [ICP_ADDRESS_23B16, High(address)] else [];
    var op := ReadOpcode(customBlock);
    assert ReadCommand(chipType, address, customBlock) == pre + low + high + [op];
    SendBytesSnoc(t, pre + low + high, op);
    SendBytesAppend(t, pre + low, high);
    SendBytesAppend(t, pre, low);
    var t1 := SendBytesTrace(t, pre);
    if SendsPreamble(chipType) {
      SendThree(t, 0x46, 0xFE, 0xFF);
    }
    SendFour(t1, ICP_ADDRESS_7B0, Low(address), ICP_ADDRESS_15B8, Middle(address));
    if HasHighAddress(chipType) {
      SendTwo(SendBytesTrace(t1, low), ICP_ADDRESS_23B16, High(address));
    }
  }

  /** The address bits a read command of this chip type carries. */
  function AddressMask(chipType: int): bv32
  {
    if HasHighAddress(chipType) then 0x00FF_FFFF else 0x0000_FFFF
  }

  /** What a target learns from a read command: the address it carries and which read it asks for. */
  datatype ReadRequest = ReadRequest(address: bv32, customBlock: bool) | Malformed

  /**
    Decodes a read command as a target of this chip type would: the
    preamble when the chip type sends one, each address byte behind its
    selector, and a read opcode last.
   */
  function DecodeReadCommand(chipType: int, c: seq<bv8>): ReadRequest
  {
    var o := if SendsPreamble(chipType) then |READ_PREAMBLE| else 0;
    var n := o + 5 + (if HasHighAddress(chipType) then 2 else 0);
    if |c| != n || c[..o] != (if SendsPreamble(chipType) then READ_PREAMBLE else []) then Malformed
    else if c[o] != ICP_ADDRESS_7B0 || c[o + 2] != ICP_ADDRESS_15B8 then Malformed
    else if HasHighAddress(chipType) && c[o + 4] != ICP_ADDRESS_23B16 then Malformed
    else if c[n - 1] != ICP_READ && c[n - 1] != ICP_READ_CUSTOM_BLOCK then Malformed
    else
      var low := (c[o + 1] as bv32) << ICP_ADDRESS_7B0_SHIFT;
      var middle := (c[o + 3] as bv32) << ICP_ADDRESS_15B8_SHIFT;
      var high := if HasHighAddress(chipType) then (c[o + 5] as bv32) << ICP_ADDRESS_23B16_SHIFT else 0;
      ReadRequest(low | middle | high, c[n - 1] == ICP_READ_CUSTOM_BLOCK)
  }

  lemma LowBitsRecombine(address: bv32)
    ensures (address & ICP_ADDRESS_7B0_MASK) | (address & ICP_ADDRESS_15B8_MASK) == address & 0x0000_FFFF
    ensures (address & ICP_ADDRESS_7B0_MASK) | (address & ICP_ADDRESS_15B8_MASK) | (address & ICP_ADDRESS_23B16_MASK)
         == address & 0x00FF_FFFF
  {
  }

  /** Where each byte of the read command sits. */
  lemma ReadCommandLayout(chipType: int, address: bv32, customBlock: bool)
    ensures var c := ReadCommand(chipType, address, customBlock);
      var o := if SendsPreamble(chipType) then |READ_PREAMBLE| else 0;
      var n := o + 5 + (if HasHighAddress(chipType) then 2 else 0);
      && |c| == n
      && c[..o] == (if SendsPreamble(chipType) then READ_PREAMBLE else [])
      && c[o] == ICP_ADDRESS_7B0 && c[o + 1] == Low(address)
      && c[o + 2] == ICP_ADDRESS_15B8 && c[o + 3] == Middle(address)
      && (HasHighAddress(chipType) ==> c[o + 4] == ICP_ADDRESS_23B16 && c[o + 5] == High(address))
      && c[n - 1] == ReadOpcode(customBlock)
  {
    var c := ReadCommand(chipType, address, customBlock);
    var o := if SendsPreamble(chipType) then 3 else 0;
    assert c[..o] == (if SendsPreamble(chipType) then READ_PREAMBLE else []);
  }

  /** The two low address fields put back in place give the low 16 bits of the address. */
  lemma NarrowFieldsReassemble(address: bv32)
    ensures ((Low(address) as bv32) << ICP_ADDRESS_7B0_SHIFT) | ((Middle(address) as bv32) << ICP_ADDRESS_15B8_SHIFT)
         == address & 0x0000_FFFF
  {
    LowInPlace(address);
    MiddleInPlace(address);
    LowBitsRecombine(address);
  }

  /** The three address fields put back in place give the low 24 bits of the address. */
  lemma WideFieldsReassemble(address: bv32)
    ensures ((Low(address) as bv32) << ICP_ADDRESS_7B0_SHIFT) | ((Middle(address) as bv32) << ICP_ADDRESS_15B8_SHIFT)
          | ((High(address) as bv32) << ICP_ADDRESS_23B16_SHIFT)
         == address & 0x00FF_FFFF
  {
    LowInPlace(address);
    MiddleInPlace(address);
    HighInPlace(address);
    LowBitsRecombine(address);
  }

  /**
    The read command decodes back to the address, cut to the address bits
    of the chip type, and to the read asked for.
   */
  lemma ReadCommandRoundTrip(chipType: int, address: bv32, customBlock: bool)
    ensures DecodeReadCommand(chipType, ReadCommand(chipType, address, customBlock))
         == ReadRequest(address & AddressMask(chipType), customBlock)
  {
    ReadCommandLayout(chipType, address, customBlock);
    if HasHighAddress(chipType) {
      WideFieldsReassemble(address);
    } else {
      NarrowFieldsReassemble(address);
    }
  }

  /** Two read commands of one chip type are equal only for the same address bits and the same read. */
  lemma ReadCommandInjective(chipType: int, a1: bv32, c1: bool, a2: bv32, c2: bool)
    requires ReadCommand(chipType, a1, c1) == ReadCommand(chipType, a2, c2)
    ensures a1 & AddressMask(chipType) == a2 & AddressMask(chipType) && c1 == c2
  {
    ReadCommandRoundTrip(chipType, a1, c1);
    ReadCommandRoundTrip(chipType, a2, c2);
  }

  /**
    readFlash on the lines: its entry, the read command byte by byte, then
    sixteen bytes read with TDI low; the 128 TDO levels it reads are the
    next ones the target presents.
   */
  lemma ReadFlashMeaning(l: Levels, t: seq<Event>, chipType: int, mode: bv8, address: bv32, customBlock: bool,
                         tdo: nat -> bool, start: nat)
    ensures var tms := ResetTms(mode, Run(l, t).tms);
      && Run(l, ReadFlashTrace(t, chipType, mode, address, customBlock, tdo, start)) == Idle(false, tms)
      && Strobes(l, ReadFlashTrace(t, chipType, mode, address, customBlock, tdo, start))
         == Strobes(l, t) + ResetStrobes(mode, Run(l, t).tdi, Run(l, t).tms)
            + ModeFrame(MODE_ICP, tms) + EntryStrobes(MODE_ICP, false, tms)
            + DataFrames(ReadCommand(chipType, address, customBlock), tms)
            + Pulses(9 * BLOCK_SIZE, false, tms)
      && Samples(ReadFlashTrace(t, chipType, mode, address, customBlock, tdo, start))
         == Samples(t) + Window(tdo, start, 8 * BLOCK_SIZE)
  {
    var entered := ReadEntryTrace(t, mode);
    var commanded := ReadCommandTrace(entered, chipType, address, customBlock);
    ReadEntryMeaning(l, t, mode);
    ReadCommandSent(entered, chipType, address, customBlock);
    SendBytesMeaning(l, entered, ReadCommand(chipType, address, customBlock));
    ReceiveBytesMeaning(l, commanded, tdo, start, BLOCK_SIZE);
  }

  /**
    The `i`-th byte readFlash stores is the `i`-th group of eight of the
    TDO levels it reads (`ReadFlashMeaning`), least-significant bit first.
   */
  lemma ReadFlashBytes(tdo: nat -> bool, start: nat, i: nat)
    requires i < BLOCK_SIZE
    ensures LsbFirst(ReceivedByte(tdo, start, i)) == Window(tdo, start, 8 * BLOCK_SIZE)[8 * i..8 * i + 8]
  {
    var w := Window(tdo, start + 8 * i, 8);
    LsbValueThenBits(w);
    assert Window(tdo, start, 8 * BLOCK_SIZE)[8 * i..8 * i + 8] == w;
  }

  // ---------------------------------------------------------------------------
  // check

  /** check sends TCK low, then its six command bytes, then reads two bytes. */
  lemma CheckSends(t: seq<Event>, tdo: nat -> bool, start: nat)
    ensures CheckTrace(t, tdo, start) == ReceiveBytesTrace(SendBytesTrace(t + [Clr(TCK)], CHECK_COMMAND), tdo, start, 2)
  {
    var c := t + [Clr(TCK)];
    assert CHECK_COMMAND == [0x40, 0x69, 0x41] + [0xFF, 0xFF, 0x43];
    SendBytesAppend(c, [0x40, 0x69, 0x41], [0xFF, 0xFF, 0x43]);
    SendThree(c, 0x40, 0x69, 0x41);
    SendThree(SendBytesTrace(c, [0x40, 0x69, 0x41]), 0xFF, 0xFF, 0x43);
  }

  /** check on the lines: the six command frames, eighteen pulses with TDI low, and sixteen TDO levels read. */
  lemma CheckMeaning(l: Levels, t: seq<Event>, tdo: nat -> bool, start: nat)
    ensures Strobes(l, CheckTrace(t, tdo, start))
         == Strobes(l, t) + DataFrames(CHECK_COMMAND, Run(l, t).tms) + Pulses(18, false, Run(l, t).tms)
    ensures Samples(CheckTrace(t, tdo, start)) == Samples(t) + Window(tdo, start, 16)
    ensures Run(l, CheckTrace(t, tdo, start)) == Idle(false, Run(l, t).tms)
  {
    var c := t + [Clr(TCK)];
    CheckSends(t, tdo, start);
    Quiet(l, t, Clr(TCK));
    SendBytesMeaning(l, c, CHECK_COMMAND);
    ReceiveBytesMeaning(l, SendBytesTrace(c, CHECK_COMMAND), tdo, start, 2);
  }

  /** check succeeds exactly when the first eight TDO levels are 0x69 least-significant bit first. */
  lemma CheckAcceptsIff(tdo: nat -> bool, start: nat)
    ensures ReceivedByte(tdo, start, 0) == CHECK_ECHO <==> Window(tdo, start, 8) == LsbFirst(CHECK_ECHO)
  {
    ReceivedByteIff(tdo, start, 0, CHECK_ECHO);
  }

  /** The second byte check reads has no bearing on its verdict. */
  lemma CheckIgnoresSecondByte(tdo1: nat -> bool, tdo2: nat -> bool, start: nat)
    requires forall j :: start <= j < start + 8 ==> tdo1(j) == tdo2(j)
    ensures ReceivedByte(tdo1, start, 0) == ReceivedByte(tdo2, start, 0)
  {
    assert forall i :: 0 <= i < 8 ==> Window(tdo1, start, 8)[i] == tdo1(start + i);
    assert Window(tdo1, start, 8) == Window(tdo2, start, 8);
  }

  // ---------------------------------------------------------------------------
  // The entry handshake

  /** One more equal pulse in front of a run of equal pulses. */
  lemma PulsesCons(s: seq<Levels>, n: nat, tdi: bool, tms: bool)
    ensures s + [Strobe(tdi, tms)] + Pulses(n, tdi, tms) == s + Pulses(n + 1, tdi, tms)
  {
    assert [Strobe(tdi, tms)] + Pulses(n, tdi, tms) == Pulses(n + 1, tdi, tms);
    Associative(s, [Strobe(tdi, tms)], Pulses(n, tdi, tms));
  }

  /** Driving TCK, TDI and TMS high with TCK pulsed low once: two pulses, all lines left high. */
  lemma IdleMeaning(l: Levels, t: seq<Event>)
    ensures var idle := t + [Clr(TDO)] + [Set(TCK)] + [Set(TDI)] + [Set(TMS)] + [Wait(500)]
                          + [Clr(TCK)] + [Wait(1)] + [Set(TCK)] + [Wait(50)];
      && Run(l, idle) == Levels(true, true, true)
      && Strobes(l, idle) == Strobes(l, t) + [Run(l, t).(tck := true)] + [Strobe(true, true)]
      && Samples(idle) == Samples(t)
  {
    var u0 := t + [Clr(TDO)];
    var u1 := u0 + [Set(TCK)];
    var u2 := u1 + [Set(TDI)];
    var u3 := u2 + [Set(TMS)];
    var u4 := u3 + [Wait(500)];
    var u5 := u4 + [Clr(TCK)];
    var u6 := u5 + [Wait(1)];
    var u7 := u6 + [Set(TCK)];
    Quiet(l, t, Clr(TDO));
    Raise(l, u0);
    Quiet(l, u1, Set(TDI));
    Quiet(l, u2, Set(TMS));
    Quiet(l, u3, Wait(500));
    Quiet(l, u4, Clr(TCK));
    Quiet(l, u5, Wait(1));
    Raise(l, u6);
    Quiet(l, u7, Wait(50));
  }

  /** The wake-up pulses of TMS, TDI and TCK, with all three lines high beforehand. */
  lemma WakePulsesMeaning(l: Levels, s: seq<Event>)
    requires Run(l, s) == Levels(true, true, true)
    ensures var woken := LowPulsesTrace(LowPulsesTrace(LowPulsesTrace(s, TMS, TMS_WAKE_PULSES), TDI, TDI_WAKE_PULSES),
                                        TCK, TCK_WAKE_PULSES);
      && Run(l, woken) == Levels(true, true, true)
      && Strobes(l, woken) == Strobes(l, s) + Pulses(TCK_WAKE_PULSES, true, true)
      && Samples(woken) == Samples(s)
  {
    var tms := LowPulsesTrace(s, TMS, TMS_WAKE_PULSES);
    var tdi := LowPulsesTrace(tms, TDI, TDI_WAKE_PULSES);
    LowPulsesMeaning(l, s, TMS, TMS_WAKE_PULSES);
    assert Run(l, tms) == Run(l, s) && Strobes(l, tms) == Strobes(l, s) && Samples(tms) == Samples(s);
    LowPulsesMeaning(l, tms, TDI, TDI_WAKE_PULSES);
    assert Run(l, tdi) == Run(l, s) && Strobes(l, tdi) == Strobes(l, s) && Samples(tdi) == Samples(s);
    LowPulsesMeaning(l, tdi, TCK, TCK_WAKE_PULSES);
  }

  /** The wake-up the constructor starts with: 92 pulses, the last 91 with TDI and TMS high, all lines left high. */
  lemma WakeMeaning(l: Levels, t: seq<Event>)
    ensures Run(l, WakeTrace(t)) == Levels(true, true, true)
    ensures Strobes(l, WakeTrace(t)) == Strobes(l, t) + [Run(l, t).(tck := true)] + Pulses(TCK_WAKE_PULSES + 1, true, true)
    ensures Samples(WakeTrace(t)) == Samples(t)
  {
    var idle := t + [Clr(TDO)] + [Set(TCK)] + [Set(TDI)] + [Set(TMS)] + [Wait(500)]
      + [Clr(TCK)] + [Wait(1)] + [Set(TCK)] + [Wait(50)];
    IdleMeaning(l, t);
    WakePulsesMeaning(l, idle);
    PulsesCons(Strobes(l, t) + [Run(l, t).(tck := true)], TCK_WAKE_PULSES, true, true);
  }

  /** The long TMS run and the lowering of TMS and TCK before the mode byte. */
  lemma SyncMeaning(l: Levels, t: seq<Event>)
    ensures var sync := LowPulsesTrace(t, TMS, HANDSHAKE_SYNC_PULSES) + [Wait(8)] + [Clr(TMS)] + [Clr(TCK)] + [Wait(2)];
      && Run(l, sync) == Idle(Run(l, t).tdi, false)
      && Strobes(l, sync) == Strobes(l, t)
      && Samples(sync) == Samples(t)
  {
    var u0 := LowPulsesTrace(t, TMS, HANDSHAKE_SYNC_PULSES);
    var u1 := u0 + [Wait(8)];
    var u2 := u1 + [Clr(TMS)];
    var u3 := u2 + [Clr(TCK)];
    LowPulsesMeaning(l, t, TMS, HANDSHAKE_SYNC_PULSES);
    Quiet(l, u0, Wait(8));
    Quiet(l, u1, Clr(TMS));
    Quiet(l, u2, Clr(TCK));
    Quiet(l, u3, Wait(2));
  }

  /** The closing TMS pulse of the handshake: TMS raised, then lowered. */
  lemma TmsPulseMeaning(l: Levels, t: seq<Event>)
    ensures Run(l, t + [Set(TMS)] + [Wait(5)] + [Clr(TMS)] + [Wait(5)]) == Run(l, t).(tms := false)
    ensures Strobes(l, t + [Set(TMS)] + [Wait(5)] + [Clr(TMS)] + [Wait(5)]) == Strobes(l, t)
    ensures Samples(t + [Set(TMS)] + [Wait(5)] + [Clr(TMS)] + [Wait(5)]) == Samples(t)
  {
    var u1 := t + [Set(TMS)];
    var u2 := u1 + [Wait(5)];
    var u3 := u2 + [Clr(TMS)];
    Quiet(l, t, Set(TMS));
    Quiet(l, u1, Wait(5));
    Quiet(l, u2, Clr(TMS));
    Quiet(l, u3, Wait(5));
  }

  /** TCK raised, then the long TCK run after the mode byte. */
  lemma ClockRunMeaning(l: Levels, t: seq<Event>)
    ensures Run(l, LowPulsesTrace(t + [Set(TCK)] + [Wait(2)], TCK, HANDSHAKE_SYNC_PULSES)) == Run(l, t).(tck := true)
    ensures Strobes(l, LowPulsesTrace(t + [Set(TCK)] + [Wait(2)], TCK, HANDSHAKE_SYNC_PULSES))
         == Strobes(l, t) + Pulses(HANDSHAKE_SYNC_PULSES + 1, Run(l, t).tdi, Run(l, t).tms)
    ensures Samples(LowPulsesTrace(t + [Set(TCK)] + [Wait(2)], TCK, HANDSHAKE_SYNC_PULSES)) == Samples(t)
  {
    var x0 := t + [Set(TCK)];
    Raise(l, t);
    Quiet(l, x0, Wait(2));
    LowPulsesMeaning(l, x0 + [Wait(2)], TCK, HANDSHAKE_SYNC_PULSES);
    PulsesCons(Strobes(l, t), HANDSHAKE_SYNC_PULSES, Run(l, t).tdi, Run(l, t).tms);
  }

  /** The rest of the handshake: the mode byte 0x96 with TMS low, then 25601 pulses with TDI and TMS low. */
  lemma HandshakeTailMeaning(l: Levels, t: seq<Event>)
    ensures Run(l, HandshakeTail(t)) == Levels(true, false, false)
    ensures Strobes(l, HandshakeTail(t))
         == Strobes(l, t) + ModeFrame(MODE_ICP, false) + Pulses(HANDSHAKE_SYNC_PULSES + 1, false, false)
    ensures Samples(HandshakeTail(t)) == Samples(t)
  {
    var sync := LowPulsesTrace(t, TMS, HANDSHAKE_SYNC_PULSES) + [Wait(8)] + [Clr(TMS)] + [Clr(TCK)] + [Wait(2)];
    SyncMeaning(l, t);
    SendModeMeaning(l, sync, MODE_ICP);
    assert !Bit(MODE_ICP, 0);
    var moded := SendModeTrace(sync, MODE_ICP);
    ClockRunMeaning(l, moded);
    TmsPulseMeaning(l, LowPulsesTrace(moded + [Set(TCK)] + [Wait(2)], TCK, HANDSHAKE_SYNC_PULSES));
  }

  /**
    Whatever the levels before, the constructor's handshake leaves TCK high
    and TDI and TMS low, after 25703 clock pulses: one as TCK is first
    raised, 91 with TDI and TMS high, the ten of the mode byte 0x96 with TMS
    low, and 25601 with TDI and TMS low. It reads nothing.
   */
  lemma HandshakeMeaning(l: Levels, t: seq<Event>)
    ensures Run(l, HandshakeTrace(t)) == Levels(true, false, false)
    ensures Strobes(l, HandshakeTrace(t))
         == Strobes(l, t) + [Run(l, t).(tck := true)] + Pulses(TCK_WAKE_PULSES + 1, true, true)
            + ModeFrame(MODE_ICP, false) + Pulses(HANDSHAKE_SYNC_PULSES + 1, false, false)
    ensures |Strobes(l, HandshakeTrace(t))| == |Strobes(l, t)| + 25703
    ensures Samples(HandshakeTrace(t)) == Samples(t)
  {
    WakeMeaning(l, t);
    HandshakeTailMeaning(l, WakeTrace(t));
  }

  // ---------------------------------------------------------------------------
  // Low pulses counted as events

  /** One low pulse of `line` lowers it once and raises it once. */
  lemma LowPulseCount(t: seq<Event>, line: Line, e: Event)
    requires e != Wait(2)
    ensures Count(LowPulseTrace(t, line), e) == Count(t, e) + (if e == Clr(line) || e == Set(line) then 1 else 0)
  {
    var u0 := t + [Clr(line)];
    var u1 := u0 + [Wait(2)];
    var u2 := u1 + [Set(line)];
    CountSnoc(t, Clr(line), e);
    CountSnoc(u0, Wait(2), e);
    CountSnoc(u1, Set(line), e);
    CountSnoc(u2, Wait(2), e);
  }

  /** `n` low pulses of `line` lower it `n` times and touch no other line. */
  lemma {:induction false} LowPulsesCount(t: seq<Event>, line: Line, n: nat, e: Event)
    requires e != Wait(2)
    ensures Count(LowPulsesTrace(t, line, n), e) == Count(t, e) + (if e == Clr(line) || e == Set(line) then n else 0)
    decreases n
  {
    if n > 0 {
      LowPulsesCount(t, line, n - 1, e);
      LowPulseCount(LowPulsesTrace(t, line, n - 1), line, e);
    }
  }

  /** Clocking the bits of a byte out on TDI never touches TMS. */
  lemma {:induction false} SerialLeavesTms(t: seq<Event>, v: bv8, k: nat, clocking: Clocking, e: Event)
    requires k <= 8
    requires e == Clr(TMS) || e == Set(TMS)
    ensures Count(SerialTrace(t, v, k, clocking), e) == Count(t, e)
    decreases k
  {
    if k > 0 {
      var u := SerialTrace(t, v, k - 1, clocking);
      var d := Drive(TDI, v & MsbMask(k - 1) != 0);
      SerialLeavesTms(t, v, k - 1, clocking, e);
      CountSnoc(u, d, e);
      ClockLeavesTms(u + [d], clocking, e);
    }
  }

  lemma ClockLeavesTms(t: seq<Event>, clocking: Clocking, e: Event)
    requires e == Clr(TMS) || e == Set(TMS)
    ensures Count(ClockTrace(t, clocking), e) == Count(t, e)
  {
    match clocking
    case PulseClocked =>
      CountSnoc(t, Wait(1), e);
      CountSnoc(t + [Wait(1)], Set(TCK), e);
      CountSnoc(t + [Wait(1)] + [Set(TCK)], Wait(1), e);
      CountSnoc(t + [Wait(1)] + [Set(TCK)] + [Wait(1)], Clr(TCK), e);
    case ModeClocked =>
      CountSnoc(t, Set(TCK), e);
      CountSnoc(t + [Set(TCK)], Wait(2), e);
      CountSnoc(t + [Set(TCK)] + [Wait(2)], Clr(TCK), e);
      CountSnoc(t + [Set(TCK)] + [Wait(2)] + [Clr(TCK)], Wait(2), e);
  }

  /**
    The wake-up lowers TMS exactly 165 times and TDI exactly 105 times, each
    time in one of its low pulses: the line setup lowers neither.
   */
  lemma WakeLowPulses(t: seq<Event>)
    ensures Count(WakeTrace(t), Clr(TMS)) == Count(t, Clr(TMS)) + 165
    ensures Count(WakeTrace(t), Clr(TDI)) == Count(t, Clr(TDI)) + 105
  {
    WakeCount(t, Clr(TMS));
    WakeCount(t, Clr(TDI));
  }

  lemma WakeCount(t: seq<Event>, e: Event)
    requires e == Clr(TMS) || e == Clr(TDI)
    ensures Count(WakeTrace(t), e)
         == Count(t, e) + (if e == Clr(TMS) then TMS_WAKE_PULSES else TDI_WAKE_PULSES)
  {
    var u0 := t + [Clr(TDO)];
    var u1 := u0 + [Set(TCK)];
    var u2 := u1 + [Set(TDI)];
    var u3 := u2 + [Set(TMS)];
    var u4 := u3 + [Wait(500)];
    var u5 := u4 + [Clr(TCK)];
    var u6 := u5 + [Wait(1)];
    var u7 := u6 + [Set(TCK)];
    var idle := u7 + [Wait(50)];
    CountSnoc(t, Clr(TDO), e);
    CountSnoc(u0, Set(TCK), e);
    CountSnoc(u1, Set(TDI), e);
    CountSnoc(u2, Set(TMS), e);
    CountSnoc(u3, Wait(500), e);
    CountSnoc(u4, Clr(TCK), e);
    CountSnoc(u5, Wait(1), e);
    CountSnoc(u6, Set(TCK), e);
    CountSnoc(u7, Wait(50), e);
    assert Count(idle, e) == Count(t, e);
    var tms := LowPulsesTrace(idle, TMS, TMS_WAKE_PULSES);
    var tdi := LowPulsesTrace(tms, TDI, TDI_WAKE_PULSES);
    LowPulsesCount(idle, TMS, TMS_WAKE_PULSES, e);
    LowPulsesCount(tms, TDI, TDI_WAKE_PULSES, e);
    LowPulsesCount(tdi, TCK, TCK_WAKE_PULSES, e);
  }

  /**
    The rest of the handshake lowers TMS 25602 times: 25600 in the low pulses
    of the synchronisation run, once before the mode byte and once at the
    close. Only the synchronisation run raises it again, 25600 times, plus
    the closing pulse.
   */
  lemma HandshakeTailLowPulses(t: seq<Event>)
    ensures Count(HandshakeTail(t), Clr(TMS)) == Count(t, Clr(TMS)) + 25600 + 2
    ensures Count(HandshakeTail(t), Set(TMS)) == Count(t, Set(TMS)) + 25600 + 1
  {
    HandshakeTailCount(t, Clr(TMS));
    HandshakeTailCount(t, Set(TMS));
  }

  lemma HandshakeTailCount(t: seq<Event>, e: Event)
    requires e == Clr(TMS) || e == Set(TMS)
    ensures Count(HandshakeTail(t), e) == Count(t, e) + HANDSHAKE_SYNC_PULSES + 1 + (if e == Clr(TMS) then 1 else 0)
  {
    var sync := LowPulsesTrace(t, TMS, HANDSHAKE_SYNC_PULSES);
    LowPulsesCount(t, TMS, HANDSHAKE_SYNC_PULSES, e);
    var s0 := sync + [Wait(8)];
    var s1 := s0 + [Clr(TMS)];
    var s2 := s1 + [Clr(TCK)];
    var s3 := s2 + [Wait(2)];
    CountSnoc(sync, Wait(8), e);
    CountSnoc(s0, Clr(TMS), e);
    CountSnoc(s1, Clr(TCK), e);
    CountSnoc(s2, Wait(2), e);
    var serial := SerialTrace(s3, MODE_ICP, 8, ModeClocked);
    SerialLeavesTms(s3, MODE_ICP, 8, ModeClocked, e);
    ClockLeavesTms(serial, ModeClocked, e);
    ClockLeavesTms(ModeClockTrace(serial), ModeClocked, e);
    var moded := SendModeTrace(s3, MODE_ICP);
    assert Count(moded, e) == Count(s3, e);
    var m0 := moded + [Set(TCK)];
    CountSnoc(moded, Set(TCK), e);
    CountSnoc(m0, Wait(2), e);
    var clocked := LowPulsesTrace(m0 + [Wait(2)], TCK, HANDSHAKE_SYNC_PULSES);
    LowPulsesCount(m0 + [Wait(2)], TCK, HANDSHAKE_SYNC_PULSES, e);
    var c0 := clocked + [Set(TMS)];
    var c1 := c0 + [Wait(5)];
    var c2 := c1 + [Clr(TMS)];
    CountSnoc(clocked, Set(TMS), e);
    CountSnoc(c0, Wait(5), e);
    CountSnoc(c1, Clr(TMS), e);
    CountSnoc(c2, Wait(5), e);
  }
}
