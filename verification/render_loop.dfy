/**
 The render loop of `main`: two booleans carried across iterations, one PMIC
 interrupt read and one VBUS read per iteration, and incremental draws.

 Each hardware call the loop unwraps (the interrupt read, the greeting draw,
 the VBUS read and the indicator draw) is an input here: a `Tick` says how each
 of them turned out in one iteration. A failed call halts the firmware, so no
 later command and no state update of that iteration happens. The infinite
 `loop` is modelled by `Run`, a fold over a finite sequence of ticks.
 */
module RenderLoop {
  import opened Geometry
  import opened Draw

  /** `showHello`: the greeting is visible; `previous`: the last VBUS sample acted on. */
  datatype RenderState = RenderState(showHello: bool, previous: bool)

  /** Both flags start cleared before the first iteration. */
  const Start: RenderState := RenderState(false, false)

  /** The commands and the state of one completed iteration. */
  datatype Frame = Frame(next: RenderState, cmds: seq<Command>)

  /** One iteration in which every call it makes succeeds: `irqNonEmpty` is
      "the interrupt read returned some event", `vbus` is "VBUS is present". */
  function Step(s: RenderState, irqNonEmpty: bool, vbus: bool): (f: Frame)
    ensures irqNonEmpty ==> f.next.showHello == !s.showHello
    ensures !irqNonEmpty ==> f.next.showHello == s.showHello
    ensures f.next.previous == vbus
    ensures |f.cmds| >= 1 && f.cmds[0] == GreetingCommand(f.next.showHello)
    ensures |f.cmds| == if vbus != s.previous then 2 else 1
    ensures vbus != s.previous ==> f.cmds[1] == IndicatorCommand(vbus)
  {
    var show := if irqNonEmpty then !s.showHello else s.showHello;
    var greeting := GreetingCommand(show);
    if vbus != s.previous then
      Frame(RenderState(show, vbus), [greeting, IndicatorCommand(vbus)])
    else
      Frame(RenderState(show, s.previous), [greeting])
  }

  /** Per iteration: exactly one greeting command, and one indicator command iff VBUS changed. */
  lemma StepCounts(s: RenderState, irqNonEmpty: bool, vbus: bool)
    ensures Count(Step(s, irqNonEmpty, vbus).cmds, IsGreeting) == 1
    ensures Count(Step(s, irqNonEmpty, vbus).cmds, IsIndicator) == if vbus != s.previous then 1 else 0
  {
  }

  /** The outcome of one fallible hardware call. */
  datatype Read<T> = Got(value: T) | ReadError

  datatype Transfer = Sent | TransferError

  /** How each unwrapped call of one iteration turns out; `indicatorDraw` matters only on a VBUS edge. */
  datatype Tick = Tick(irq: Read<bool>, greetingDraw: Transfer, vbus: Read<bool>, indicatorDraw: Transfer)

  datatype Fault = IrqReadFailed | GreetingDrawFailed | VbusReadFailed | IndicatorDrawFailed

  /** A completed iteration, or a halt with the commands issued before it. */
  datatype Outcome = Continue(frame: Frame) | Halt(cmds: seq<Command>, fault: Fault)

  predicate Healthy(t: Tick) {
    t.irq.Got? && t.greetingDraw.Sent? && t.vbus.Got? && t.indicatorDraw.Sent?
  }

  /** Every call the iteration actually makes from state `s` succeeds: the
      indicator is drawn only when the VBUS sample differs from `previous`. */
  predicate CallsMadeSucceed(s: RenderState, t: Tick) {
    && t.irq.Got? && t.greetingDraw.Sent? && t.vbus.Got?
    && (t.vbus.value != s.previous ==> t.indicatorDraw.Sent?)
  }

  /** One pass of the loop body, with every unwrap able to halt. */
  function Iterate(s: RenderState, t: Tick): (o: Outcome)
    ensures Healthy(t) ==> o == Continue(Step(s, t.irq.value, t.vbus.value))
    ensures o.Continue? <==> CallsMadeSucceed(s, t)
    ensures o.Continue? ==> o.frame == Step(s, t.irq.value, t.vbus.value)
    ensures t.irq.ReadError? ==> o == Halt([], IrqReadFailed)
    ensures t.irq.Got? && t.greetingDraw.TransferError? ==>
              o == Halt(Step(s, t.irq.value, s.previous).cmds, GreetingDrawFailed)
    ensures t.irq.Got? && t.greetingDraw.Sent? && t.vbus.ReadError? ==>
              o == Halt(Step(s, t.irq.value, s.previous).cmds, VbusReadFailed)
    ensures (t.irq.Got? && t.greetingDraw.Sent? && t.vbus.Got? && t.vbus.value != s.previous &&
             t.indicatorDraw.TransferError?) ==>
              o == Halt(Step(s, t.irq.value, t.vbus.value).cmds, IndicatorDrawFailed)
    ensures o.Halt? && t.irq.Got? ==>
              forall v :: (t.vbus.Got? ==> v == t.vbus.value) ==> o.cmds <= Step(s, t.irq.value, v).cmds
    ensures o.Halt? && t.irq.Got? ==> |o.cmds| >= 1
  {
    match t.irq
    case ReadError => Halt([], IrqReadFailed)
    case Got(irq) =>
      var show := if irq then !s.showHello else s.showHello;
      var greeting := GreetingCommand(show);
      if t.greetingDraw.TransferError? then Halt([greeting], GreetingDrawFailed)
      else
        match t.vbus
        case ReadError => Halt([greeting], VbusReadFailed)
        case Got(vbus) =>
          if vbus == s.previous then
            Continue(Frame(RenderState(show, s.previous), [greeting]))
          else if t.indicatorDraw.TransferError? then
            Halt([greeting, IndicatorCommand(vbus)], IndicatorDrawFailed)
          else
            Continue(Frame(RenderState(show, vbus), [greeting, IndicatorCommand(vbus)]))
  }

  datatype Status = Running | Halted(fault: Fault)

  /** All commands issued, the state after each completed iteration, and whether the run halted. */
  datatype Trace = Trace(cmds: seq<Command>, states: seq<RenderState>, status: Status)

  /** The loop over a finite prefix of its iterations. */
  function Run(s: RenderState, ticks: seq<Tick>): (tr: Trace)
    ensures |tr.states| <= |ticks|
    ensures tr.status.Running? <==> |tr.states| == |ticks|
    decreases |ticks|
  {
    if |ticks| == 0 then Trace([], [], Running)
    else
      match Iterate(s, ticks[0])
      case Halt(cmds, fault) => Trace(cmds, [], Halted(fault))
      case Continue(f) =>
        var rest := Run(f.next, ticks[1..]);
        Trace(f.cmds + rest.cmds, [f.next] + rest.states, rest.status)
  }

  /** The state after the last completed iteration. */
  function Final(s: RenderState, tr: Trace): RenderState {
    if |tr.states| == 0 then s else tr.states[|tr.states| - 1]
  }

  /** The trace `first` followed by `second`, unless `first` halted. */
  function Then(first: Trace, second: Trace): Trace {
    if first.status.Halted? then first
    else Trace(first.cmds + second.cmds, first.states + second.states, second.status)
  }

  /** Running two segments of ticks one after the other is running their concatenation. */
  lemma {:induction false} RunAppend(s: RenderState, a: seq<Tick>, b: seq<Tick>)
    ensures Run(s, a + b) == Then(Run(s, a), Run(Final(s, Run(s, a)), b))
    decreases |a|
  {
    if |a| == 0 {
      assert a + b == b;
    } else {
      assert (a + b)[0] == a[0];
      assert (a + b)[1..] == a[1..] + b;
      match Iterate(s, a[0])
      case Halt(_, _) =>
      case Continue(f) =>
        RunAppend(f.next, a[1..], b);
        var rest := Run(f.next, a[1..]);
        assert Final(s, Run(s, a)) == Final(f.next, rest);
        if rest.status.Running? {
          var tail := Run(Final(f.next, rest), b);
          AppendAssoc(f.cmds, rest.cmds, tail.cmds);
          AppendAssoc([f.next], rest.states, tail.states);
        }
    }
  }

  lemma AppendAssoc<T>(x: seq<T>, y: seq<T>, z: seq<T>)
    ensures x + (y + z) == (x + y) + z
  {
  }

  /** A halt is final: whatever iterations would have followed change nothing. */
  lemma HaltIsFinal(s: RenderState, a: seq<Tick>, b: seq<Tick>)
    requires Run(s, a).status.Halted?
    ensures Run(s, a + b) == Run(s, a)
  {
    RunAppend(s, a, b);
  }

  /** Number of interrupt reads that returned an event. */
  function IrqEvents(ticks: seq<Tick>): nat {
    if |ticks| == 0 then 0
    else (if ticks[0].irq == Got(true) then 1 else 0) + IrqEvents(ticks[1..])
  }

  predicate Odd(n: nat) {
    n % 2 == 1
  }

  /** After every completed iteration the greeting is visible iff an odd number of
      events has been read so far, relative to its initial visibility. */
  lemma {:induction false} GreetingParity(s: RenderState, ticks: seq<Tick>)
    ensures forall i :: 0 <= i < |Run(s, ticks).states| ==>
              Run(s, ticks).states[i].showHello == (s.showHello != Odd(IrqEvents(ticks[..i + 1])))
    decreases |ticks|
  {
    if |ticks| > 0 {
      match Iterate(s, ticks[0])
      case Halt(_, _) =>
      case Continue(f) =>
        var tr := Run(s, ticks);
        GreetingParity(f.next, ticks[1..]);
        forall i | 0 <= i < |tr.states|
          ensures tr.states[i].showHello == (s.showHello != Odd(IrqEvents(ticks[..i + 1])))
        {
          var head := if ticks[0].irq == Got(true) then 1 else 0;
          assert ticks[..i + 1][0] == ticks[0];
          assert ticks[..i + 1][1..] == ticks[1..][..i];
          assert IrqEvents(ticks[..i + 1]) == head + IrqEvents(ticks[1..][..i]);
          assert f.next.showHello == (s.showHello != (head == 1));
          if i == 0 {
            assert ticks[1..][..0] == [];
          } else {
            assert tr.states[i] == Run(f.next, ticks[1..]).states[i - 1];
            assert tr.states[i].showHello == (f.next.showHello != Odd(IrqEvents(ticks[1..][..i])));
          }
        }
    }
  }

  /** From the initial state, a run that never faults ends with the greeting
      visible iff an odd number of interrupt events was read. */
  lemma ParityFromStart(ticks: seq<Tick>)
    requires forall i :: 0 <= i < |ticks| ==> Healthy(ticks[i])
    ensures Run(Start, ticks).status.Running?
    ensures Final(Start, Run(Start, ticks)).showHello <==> Odd(IrqEvents(ticks))
  {
    NeverHalts(Start, ticks);
    GreetingParity(Start, ticks);
    if |ticks| > 0 {
      assert ticks[..|ticks|] == ticks;
    }
  }

  /** Healthy hardware never halts the loop. */
  lemma {:induction false} NeverHalts(s: RenderState, ticks: seq<Tick>)
    requires forall i :: 0 <= i < |ticks| ==> Healthy(ticks[i])
    ensures Run(s, ticks).status.Running?
    decreases |ticks|
  {
    if |ticks| > 0 {
      NeverHalts(Step(s, ticks[0].irq.value, ticks[0].vbus.value).next, ticks[1..]);
    }
  }

  /** After every completed iteration `previous` holds that iteration's VBUS sample. */
  lemma {:induction false} PreviousIsLastSample(s: RenderState, ticks: seq<Tick>)
    ensures forall i :: 0 <= i < |Run(s, ticks).states| ==>
              ticks[i].vbus.Got? && Run(s, ticks).states[i].previous == ticks[i].vbus.value
    decreases |ticks|
  {
    if |ticks| > 0 {
      match Iterate(s, ticks[0])
      case Halt(_, _) =>
      case Continue(f) =>
        PreviousIsLastSample(f.next, ticks[1..]);
        var tr := Run(s, ticks);
        forall i | 0 <= i < |tr.states|
          ensures ticks[i].vbus.Got? && tr.states[i].previous == ticks[i].vbus.value
        {
          if i > 0 {
            assert ticks[i] == ticks[1..][i - 1];
          }
        }
    }
  }

  /** A halted iteration has issued its greeting command unless the interrupt read failed. */
  lemma HaltedIterationGreetings(s: RenderState, t: Tick)
    requires Iterate(s, t).Halt?
    ensures Count(Iterate(s, t).cmds, IsGreeting) == if Iterate(s, t).fault != IrqReadFailed then 1 else 0
  {
  }

  /** Every completed iteration issues exactly one greeting command; a halted
      iteration issues one more unless it halted on its interrupt read. */
  lemma {:induction false} OneGreetingPerIteration(s: RenderState, ticks: seq<Tick>)
    ensures Count(Run(s, ticks).cmds, IsGreeting) ==
              |Run(s, ticks).states| + if Run(s, ticks).status.Halted? && Run(s, ticks).status.fault != IrqReadFailed then 1 else 0
    decreases |ticks|
  {
    if |ticks| > 0 {
      match Iterate(s, ticks[0])
      case Halt(_, _) =>
        HaltedIterationGreetings(s, ticks[0]);
      case Continue(f) =>
        OneGreetingPerIteration(f.next, ticks[1..]);
        StepCounts(s, ticks[0].irq.value, ticks[0].vbus.value);
        CountAppend(f.cmds, Run(f.next, ticks[1..]).cmds, IsGreeting);
    }
  }

  /** Every command of a run is a greeting or an indicator command, and every
      erase it issues stays on the panel and covers the text it erases. */
  lemma {:induction false} OnlyGreetingAndIndicator(s: RenderState, ticks: seq<Tick>)
    ensures forall i :: 0 <= i < |Run(s, ticks).cmds| ==>
              (IsGreeting(Run(s, ticks).cmds[i]) || IsIndicator(Run(s, ticks).cmds[i]))
              && ErasesOwnText(Run(s, ticks).cmds[i])
    decreases |ticks|
  {
    if |ticks| > 0 {
      match Iterate(s, ticks[0])
      case Halt(_, _) =>
      case Continue(f) =>
        OnlyGreetingAndIndicator(f.next, ticks[1..]);
        var rest := Run(f.next, ticks[1..]).cmds;
        assert forall i :: |f.cmds| <= i < |f.cmds| + |rest| ==> (f.cmds + rest)[i] == rest[i - |f.cmds|];
    }
  }

  /** Ticks with every call succeeding, from per-iteration interrupt and VBUS samples. */
  function Clean(irqs: seq<bool>, vbus: seq<bool>): (ticks: seq<Tick>)
    requires |irqs| == |vbus|
    ensures |ticks| == |irqs|
    ensures forall i :: 0 <= i < |ticks| ==> Healthy(ticks[i])
    ensures forall i :: 0 <= i < |ticks| ==> ticks[i].irq == Got(irqs[i]) && ticks[i].vbus == Got(vbus[i])
  {
    if |irqs| == 0 then []
    else [Tick(Got(irqs[0]), Sent, Got(vbus[0]), Sent)] + Clean(irqs[1..], vbus[1..])
  }

  /** Number of VBUS samples differing from the sample before them, the first
      one compared with `prev`. */
  function Edges(prev: bool, vbus: seq<bool>): nat
    decreases |vbus|
  {
    if |vbus| == 0 then 0
    else (if vbus[0] != prev then 1 else 0) + Edges(vbus[0], vbus[1..])
  }

  /** With healthy hardware, the number of indicator commands is the number of VBUS edges. */
  lemma {:induction false} IndicatorsCountEdges(s: RenderState, irqs: seq<bool>, vbus: seq<bool>)
    requires |irqs| == |vbus|
    ensures Count(Run(s, Clean(irqs, vbus)).cmds, IsIndicator) == Edges(s.previous, vbus)
    decreases |irqs|
  {
    if |irqs| > 0 {
      var ticks := Clean(irqs, vbus);
      assert ticks[1..] == Clean(irqs[1..], vbus[1..]);
      var f := Step(s, irqs[0], vbus[0]);
      IndicatorsCountEdges(f.next, irqs[1..], vbus[1..]);
      StepCounts(s, irqs[0], vbus[0]);
      CountAppend(f.cmds, Run(f.next, ticks[1..]).cmds, IsIndicator);
    }
  }

  /** A constant stretch of VBUS samples has at most one edge: at its start, if it differs from `prev`. */
  lemma {:induction false} SteadyVbusEdges(prev: bool, v: bool, vbus: seq<bool>)
    requires forall i :: 0 <= i < |vbus| ==> vbus[i] == v
    ensures Edges(prev, vbus) == if |vbus| > 0 && v != prev then 1 else 0
    decreases |vbus|
  {
    if |vbus| > 0 {
      SteadyVbusEdges(v, v, vbus[1..]);
    }
  }

  /** A halted iteration has issued an indicator command iff it halted on that command's draw. */
  lemma HaltedIterationIndicators(s: RenderState, t: Tick)
    requires Iterate(s, t).Halt?
    ensures Count(Iterate(s, t).cmds, IsIndicator) == if Iterate(s, t).fault == IndicatorDrawFailed then 1 else 0
  {
  }

  /** k identical VBUS samples yield at most one indicator command, and none when
      the sample equals the one last acted on, whatever else fails along the way. */
  lemma {:induction false} SteadyVbusAtMostOneIndicator(s: RenderState, ticks: seq<Tick>, v: bool)
    requires forall i :: 0 <= i < |ticks| ==> ticks[i].vbus == Got(v)
    ensures Count(Run(s, ticks).cmds, IsIndicator) <= 1
    ensures v == s.previous ==> Count(Run(s, ticks).cmds, IsIndicator) == 0
    decreases |ticks|
  {
    if |ticks| > 0 {
      match Iterate(s, ticks[0])
      case Halt(_, _) =>
        HaltedIterationIndicators(s, ticks[0]);
      case Continue(f) =>
        SteadyVbusAtMostOneIndicator(f.next, ticks[1..], v);
        StepCounts(s, ticks[0].irq.value, v);
        CountAppend(f.cmds, Run(f.next, ticks[1..]).cmds, IsIndicator);
    }
  }

  /** Interrupts [none, event, none, event] with VBUS [absent, absent, present, present]:
      the greeting is hidden, shown, shown, hidden, and the "*" glyph is drawn once, in iteration 3. */
  lemma SampleTrace()
    ensures var tr := Run(Start, Clean([false, true, false, true], [false, false, true, true]));
      && tr.status == Running
      && |tr.states| == 4
      && tr.states[0].showHello == false && tr.states[1].showHello == true
      && tr.states[2].showHello == true && tr.states[3].showHello == false
      && tr.states[3].previous == true
      && tr.cmds == [ FillBlack(GreetingArea), DrawText(GreetingText, GreetingAnchor)
                    , DrawText(GreetingText, GreetingAnchor), DrawText(IndicatorText, IndicatorAnchor)
                    , FillBlack(GreetingArea) ]
  {
  }

  /** A failed VBUS read in the second iteration: the greeting drawn before it is
      the last command, and the state of that iteration is never recorded. */
  lemma VbusReadErrorHalts()
    ensures var tr := Run(Start, [ Tick(Got(true), Sent, Got(false), Sent)
                                 , Tick(Got(true), Sent, ReadError, Sent)
                                 , Tick(Got(false), Sent, Got(true), Sent) ]);
      && tr.status == Halted(VbusReadFailed)
      && tr.states == [RenderState(true, false)]
      && tr.cmds == [DrawText(GreetingText, GreetingAnchor), FillBlack(GreetingArea)]
  {
  }
}
