/** The pressure and pulse state of src/components/Simulation/SimulationPage.tsx.

    The component's timers become explicit calls: `Tick` is one run of the
    100 ms deflation interval, `Pump` one press of the on-screen button and
    `ButtonPressed` the state part of a device button message. After every
    call that changes `mercury`, the pulse effect runs again, preceded by the
    cleanup of its previous run, as React does for an effect whose dependency
    changed. */
module Simulation {
  import opened Arith

  const DeflateStep := 1
  const Systolic := 120
  const Diastolic := 80
  const PumpStep := 10
  const MaxPressure := 200

  /** The mercury level one pump produces. */
  function PumpLevel(m: int): (r: int)
    ensures r <= MaxPressure
    ensures r == m + PumpStep || r == MaxPressure
    ensures r <= m + PumpStep
    ensures m < MaxPressure ==> m < r
  {
    Min(m + PumpStep, MaxPressure)
  }

  /** The mercury level one deflation tick produces. */
  function TickLevel(m: int): (r: int)
    ensures 0 <= r
    ensures r == 0 || r == m - DeflateStep
    ensures m > 0 ==> r < m
    ensures m > DeflateStep ==> r == m - DeflateStep
  {
    if m - DeflateStep <= 0 then 0 else m - DeflateStep
  }

  /** The fixed pulse window of the page (not the scenario's reading). */
  predicate InPulseWindow(m: int)
  {
    m <= Systolic && m >= Diastolic
  }

  function Pumped(m: int, n: nat): int
    decreases n
  {
    if n == 0 then m else Pumped(PumpLevel(m), n - 1)
  }

  function Deflated(m: int, n: nat): int
    decreases n
  {
    if n == 0 then m else Deflated(TickLevel(m), n - 1)
  }

  /** n pumps from a level in [0, 200] reach min(level + 10n, 200). */
  lemma {:induction false} PumpsAccumulate(m: int, n: nat)
    requires 0 <= m <= MaxPressure
    ensures Pumped(m, n) == Min(m + PumpStep * n, MaxPressure)
    decreases n
  {
    if n > 0 {
      PumpsAccumulate(PumpLevel(m), n - 1);
    }
  }

  /** Twenty pumps from 0 reach exactly 200, and every further pump stays there. */
  lemma TwentyPumpsReachMax(extra: nat)
    ensures Pumped(0, 20) == MaxPressure
    ensures Pumped(MaxPressure, extra) == MaxPressure
  {
    PumpsAccumulate(0, 20);
    PumpsAccumulate(MaxPressure, extra);
  }

  /** From a level p >= 0, n <= p ticks leave p - n; any more leave 0. */
  lemma {:induction false} DeflationCountsDown(p: int, n: nat)
    requires p >= 0
    ensures Deflated(p, n) == Max(p - n, 0)
    decreases n
  {
    if n > 0 {
      DeflationCountsDown(TickLevel(p), n - 1);
    }
  }

  /** The pulse cue's state: `inRangeRef`, whether the pulse interval is set,
      and counters of the start and stop events the edge detection fires. */
  datatype Pulse = Pulse(inRange: bool, intervalSet: bool, starts: nat, stops: nat)

  /** One run of the pulse effect after `mercury` changed to m: the previous
      run's cleanup clears the interval and pauses the audio, then the body
      reacts only to a change of the in-window flag. */
  function OnMercuryChange(p: Pulse, m: int): (r: Pulse)
    ensures r.inRange == InPulseWindow(m)
    ensures r.starts == p.starts + (if !p.inRange && InPulseWindow(m) then 1 else 0)
    ensures r.stops == p.stops + (if p.inRange && !InPulseWindow(m) then 1 else 0)
    ensures r.intervalSet <==> !p.inRange && InPulseWindow(m)
  {
    var cleaned := p.(intervalSet := false);
    var inRange := InPulseWindow(m);
    if inRange && !cleaned.inRange then
      cleaned.(inRange := true, intervalSet := true, starts := cleaned.starts + 1)
    else if !inRange && cleaned.inRange then
      cleaned.(inRange := false, intervalSet := false, stops := cleaned.stops + 1)
    else cleaned
  }

  /** Entries into the window along a run of mercury values. */
  function RisingEdges(wasIn: bool, ms: seq<int>): nat
    decreases ms
  {
    if ms == [] then 0
    else (if !wasIn && InPulseWindow(ms[0]) then 1 else 0) + RisingEdges(InPulseWindow(ms[0]), ms[1..])
  }

  /** Exits from the window along a run of mercury values. */
  function FallingEdges(wasIn: bool, ms: seq<int>): nat
    decreases ms
  {
    if ms == [] then 0
    else (if wasIn && !InPulseWindow(ms[0]) then 1 else 0) + FallingEdges(InPulseWindow(ms[0]), ms[1..])
  }

  function RunPulse(p: Pulse, ms: seq<int>): Pulse
    decreases ms
  {
    if ms == [] then p else RunPulse(OnMercuryChange(p, ms[0]), ms[1..])
  }

  /** Along any run of mercury changes, the cue starts once per entry into
      the window and stops once per exit, and stays in step with the level. */
  lemma {:induction false} PulseCountsEdges(p: Pulse, ms: seq<int>)
    ensures RunPulse(p, ms).starts == p.starts + RisingEdges(p.inRange, ms)
    ensures RunPulse(p, ms).stops == p.stops + FallingEdges(p.inRange, ms)
    ensures ms != [] ==> RunPulse(p, ms).inRange == InPulseWindow(ms[|ms| - 1])
    decreases ms
  {
    if ms != [] {
      PulseCountsEdges(OnMercuryChange(p, ms[0]), ms[1..]);
    }
  }

  /** Staying inside the window fires nothing more. */
  lemma {:induction false} NoRestartInsideWindow(ms: seq<int>)
    requires forall i :: 0 <= i < |ms| ==> InPulseWindow(ms[i])
    ensures RisingEdges(true, ms) == 0 && FallingEdges(true, ms) == 0
  {
    if ms != [] {
      NoRestartInsideWindow(ms[1..]);
    }
  }

  /** Each entry is matched by the next exit: a started cue is stopped once. */
  lemma {:induction false} EdgesAlternate(wasIn: bool, ms: seq<int>)
    ensures var ends := if ms == [] then wasIn else InPulseWindow(ms[|ms| - 1]);
      RisingEdges(wasIn, ms) + (if wasIn then 1 else 0) == FallingEdges(wasIn, ms) + (if ends then 1 else 0)
    decreases ms
  {
    if ms != [] {
      EdgesAlternate(InPulseWindow(ms[0]), ms[1..]);
    }
  }

  /** The cleanup that precedes every re-run clears the pulse interval. Once
      the level moves while staying inside the window, the cue is silent. */
  lemma CueSilencedInsideWindow(p: Pulse, m1: int, m2: int)
    requires !p.inRange && InPulseWindow(m1) && InPulseWindow(m2)
    ensures OnMercuryChange(p, m1).intervalSet
    ensures !OnMercuryChange(OnMercuryChange(p, m1), m2).intervalSet
  {
  }

  /** The page's simulation state. */
  class Simulator {
    var mercury: int
    var deflating: bool
    var pumping: bool
    var sending: bool
    var firstPump: bool
    var pulse: Pulse

    ghost predicate Valid()
      reads this
    {
      0 <= mercury <= MaxPressure &&
      (deflating <==> mercury > 0) &&
      pulse.inRange == InPulseWindow(mercury) &&
      (pulse.intervalSet ==> pulse.inRange) &&
      pulse.starts == pulse.stops + (if pulse.inRange then 1 else 0) &&
      (sending ==> firstPump)
    }

    /** The page as mounted: empty cuff, no timers. */
    constructor ()
      ensures Valid()
      ensures mercury == 0 && !deflating && !pumping && !sending && !firstPump
      ensures pulse == Pulse(false, false, 0, 0)
    {
      mercury := 0;
      deflating := false;
      pumping := false;
      sending := false;
      firstPump := false;
      pulse := Pulse(false, false, 0, 0);
    }

    /** Reruns the pulse effect when the level changed. */
    method AfterMercuryChange(prev: int)
      requires 0 <= mercury <= MaxPressure && (deflating <==> mercury > 0) && (sending ==> firstPump)
      requires pulse.inRange == InPulseWindow(prev) && (pulse.intervalSet ==> pulse.inRange)
      requires pulse.starts == pulse.stops + (if pulse.inRange then 1 else 0)
      modifies this`pulse
      ensures Valid()
      ensures pulse == if mercury != prev then OnMercuryChange(old(pulse), mercury) else old(pulse)
    {
      if mercury != prev {
        pulse := OnMercuryChange(pulse, mercury);
      }
    }

    /** handlePump: +10 up to 200, starts deflation, marks pumping. */
    method Pump()
      requires Valid()
      modifies this
      ensures Valid()
      ensures mercury == PumpLevel(old(mercury))
      ensures deflating && pumping
      ensures sending == old(sending) && firstPump == old(firstPump)
      ensures pulse == if mercury != old(mercury) then OnMercuryChange(old(pulse), mercury) else old(pulse)
    {
      var prev := mercury;
      var next := Min(prev + PumpStep, MaxPressure);
      if !deflating && next > 0 {
        deflating := true;
      }
      pumping := true;
      mercury := next;
      AfterMercuryChange(prev);
    }

    /** One run of the deflation interval; nothing runs while not deflating. */
    method Tick()
      requires Valid()
      modifies this
      ensures Valid()
      ensures !old(deflating) ==> (mercury == old(mercury) && deflating == old(deflating) &&
        pumping == old(pumping) && sending == old(sending) && pulse == old(pulse))
      ensures old(deflating) ==> mercury == TickLevel(old(mercury))
      ensures old(deflating) && mercury > 0 ==> pumping == old(pumping) && sending == old(sending)
      ensures old(deflating) && mercury == 0 ==> !deflating && !pumping && !sending
      ensures firstPump == old(firstPump)
      ensures pulse == if mercury != old(mercury) then OnMercuryChange(old(pulse), mercury) else old(pulse)
    {
      if !deflating {
        return;
      }
      var prev := mercury;
      var next := prev - DeflateStep;
      if next <= 0 {
        deflating := false;
        sending := false;
        pumping := false;
        mercury := 0;
      } else {
        mercury := next;
      }
      AfterMercuryChange(prev);
    }

    /** A device button message: a pump, and the status push starts on the
        first such message only. */
    method ButtonPressed()
      requires Valid()
      modifies this
      ensures Valid()
      ensures mercury == PumpLevel(old(mercury)) && deflating && pumping && firstPump
      ensures sending == (old(sending) || !old(firstPump))
      ensures pulse == if mercury != old(mercury) then OnMercuryChange(old(pulse), mercury) else old(pulse)
    {
      Pump();
      pumping := true;
      if !firstPump {
        firstPump := true;
        sending := true;
      }
    }
  }
}
