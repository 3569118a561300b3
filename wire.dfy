/**
  The line interface the engine drives: four digital lines set, cleared and
  read one at a time, and a microsecond delay. Each call is recorded as an
  event; a trace is everything the engine did on the lines, in order.
  `Levels` gives the meaning of a trace: the output levels it leaves and,
  at each `setBit(TCK)` call, the levels in force.
 */
module Wire {

  /** Clock, data to the target, data from the target, mode select. */
  datatype Line = TCK | TDI | TDO | TMS

  datatype Event =
    | Set(line: Line)       // drive a line high (setBit)
    | Clr(line: Line)       // drive a line low (clrBit)
    | Wait(us: nat)         // hold for `us` microseconds (_delay_us)
    | Sample(level: bool)   // read TDO (getBit), with the level read

  function Drive(line: Line, high: bool): Event
  {
    if high then Set(line) else Clr(line)
  }

  /** The levels of the three lines the host drives. */
  datatype Levels = Levels(tck: bool, tdi: bool, tms: bool)

  function Apply(l: Levels, e: Event): Levels
  {
    match e
    case Set(TCK) => l.(tck := true)
    case Clr(TCK) => l.(tck := false)
    case Set(TDI) => l.(tdi := true)
    case Clr(TDI) => l.(tdi := false)
    case Set(TMS) => l.(tms := true)
    case Clr(TMS) => l.(tms := false)
    case _ => l
  }

  /** The levels after the trace `t`, starting from `l`. */
  function Run(l: Levels, t: seq<Event>): Levels
  {
    if t == [] then l else Apply(Run(l, t[..|t| - 1]), t[|t| - 1])
  }

  /**
    One entry per clock pulse, in order: the levels in force once TCK is
    driven high. A clock pulse is a `Set(TCK)` event; one issued while TCK
    is already high is counted too, although the line does not change.
   */
  function Strobes(l: Levels, t: seq<Event>): seq<Levels>
  {
    if t == [] then []
    else Strobes(l, t[..|t| - 1]) + (if t[|t| - 1] == Set(TCK) then [Run(l, t)] else [])
  }

  /** The TDO levels the trace read, in order. */
  function Samples(t: seq<Event>): seq<bool>
  {
    if t == [] then []
    else Samples(t[..|t| - 1]) + (if t[|t| - 1].Sample? then [t[|t| - 1].level] else [])
  }

  /** How many times the event `e` occurs in `t`. */
  function Count(t: seq<Event>, e: Event): nat
  {
    if t == [] then 0 else Count(t[..|t| - 1], e) + (if t[|t| - 1] == e then 1 else 0)
  }

  lemma CountSnoc(t: seq<Event>, x: Event, e: Event)
    ensures Count(t + [x], e) == Count(t, e) + (if x == e then 1 else 0)
  {
    assert (t + [x])[..|t|] == t;
  }

  /** What one more event does to the meaning of a trace. */
  lemma Snoc(l: Levels, t: seq<Event>, e: Event)
    ensures Run(l, t + [e]) == Apply(Run(l, t), e)
    ensures Strobes(l, t + [e]) == Strobes(l, t) + (if e == Set(TCK) then [Apply(Run(l, t), e)] else [])
    ensures Samples(t + [e]) == Samples(t) + (if e.Sample? then [e.level] else [])
  {
    assert (t + [e])[..|t|] == t;
  }
}
