/**
 The one-time bring-up of `main`, as an append-only log of the steps it
 attempts. Each call whose result is unwrapped can fail and abort the boot; the
 LDO2 output request discards its result and so never aborts. Which calls
 fail is an input (`BootEnv`), since the hardware is not modelled.
 */
module BringUp {
  import opened Geometry

  function KHz(n: nat): nat {
    n * 1000
  }

  function MHz(n: nat): nat {
    n * 1000000
  }

  /** Clock of the I2C bus to the AXP20x PMIC, and of the SPI bus to the display. */
  const PmicBusClockHz: nat := KHz(10)
  const DisplayBusClockHz: nat := MHz(26)

  datatype Orientation = Portrait | Landscape | PortraitSwapped | LandscapeSwapped

  datatype BootStep =
    | DisableTimerWatchdog                 // timer group 0 watchdog
    | DisableRtcWatchdog                   // RTC watchdog, global enable cleared
    | ConfigurePins                        // output pins set push-pull, backlight driven high
    | InitI2c(clockHz: nat)                // PMIC bus
    | InitPmic                             // AXP20x startup
    | EnableLdo2                           // PMIC LDO2 output, powering the backlight
    | InitSpi(clockHz: nat)                // display bus
    | InitDisplay(width: nat, height: nat) // ST7789 power-on sequence
    | SetOrientation(orientation: Orientation)
    | ClearScreen                          // fill the panel black
    | DrawImage(at: Point, rowWidth: nat)  // the Ferris image, 86 pixels per row

  const PmicBus: BootStep := InitI2c(PmicBusClockHz)
  const DisplayBus: BootStep := InitSpi(DisplayBusClockHz)
  const PanelInit: BootStep := InitDisplay(PanelWidth, PanelHeight)
  const Ferris: BootStep := DrawImage(Point(34, 80), 86)

  /** The steps of a successful boot, in program order. */
  const Plan: seq<BootStep> := [
    DisableTimerWatchdog, DisableRtcWatchdog, ConfigurePins,
    PmicBus, InitPmic, EnableLdo2,
    DisplayBus, PanelInit, SetOrientation(PortraitSwapped), ClearScreen, Ferris
  ]

  /** Whether each fallible call succeeds. */
  datatype BootEnv = BootEnv(i2c: bool, pmic: bool, ldo2: bool, display: bool,
                             orientation: bool, clear: bool, image: bool)

  /** Watchdog, pin and SPI set-up return no error; every other step reads its outcome from `env`. */
  predicate Succeeds(env: BootEnv, step: BootStep) {
    match step
    case InitI2c(_) => env.i2c
    case InitPmic => env.pmic
    case EnableLdo2 => env.ldo2
    case InitDisplay(_, _) => env.display
    case SetOrientation(_) => env.orientation
    case ClearScreen => env.clear
    case DrawImage(_, _) => env.image
    case _ => true
  }

  /** A failure aborts the boot, except for the LDO2 request whose result is discarded. */
  predicate Fatal(step: BootStep) {
    !step.EnableLdo2?
  }

  /** The steps attempted, and the one that aborted the boot if any. */
  datatype BootResult = Booted(log: seq<BootStep>) | Aborted(log: seq<BootStep>, failed: BootStep)

  /** Attempts `steps` in order, stopping at the first fatal failure (which is still logged). */
  function Execute(env: BootEnv, steps: seq<BootStep>): (r: BootResult)
    ensures r.log <= steps
    ensures r.Booted? <==> forall i :: 0 <= i < |steps| ==> Fatal(steps[i]) ==> Succeeds(env, steps[i])
    ensures r.Booted? ==> r.log == steps
    ensures r.Aborted? ==>
              && |r.log| > 0 && r.log[|r.log| - 1] == r.failed
              && Fatal(r.failed) && !Succeeds(env, r.failed)
              && forall i :: 0 <= i < |r.log| - 1 ==> Fatal(r.log[i]) ==> Succeeds(env, r.log[i])
    decreases |steps|
  {
    if |steps| == 0 then Booted([])
    else if Fatal(steps[0]) && !Succeeds(env, steps[0]) then Aborted([steps[0]], steps[0])
    else
      match Execute(env, steps[1..])
      case Booted(log) => Booted([steps[0]] + log)
      case Aborted(log, failed) => Aborted([steps[0]] + log, failed)
  }

  /** The whole bring-up: it completes iff every unwrapped call succeeds, whatever LDO2 does. */
  function Boot(env: BootEnv): (r: BootResult)
    ensures r.log <= Plan
    ensures r.Booted? <==> env.i2c && env.pmic && env.display && env.orientation && env.clear && env.image
    ensures r.Booted? ==> r.log == Plan
  {
    var r := Execute(env, Plan);
    assert r.Booted? <== env.i2c && env.pmic && env.display && env.orientation && env.clear && env.image;
    assert !env.i2c ==> Fatal(Plan[3]) && !Succeeds(env, Plan[3]);
    assert !env.pmic ==> Fatal(Plan[4]) && !Succeeds(env, Plan[4]);
    assert !env.display ==> Fatal(Plan[7]) && !Succeeds(env, Plan[7]);
    assert !env.orientation ==> Fatal(Plan[8]) && !Succeeds(env, Plan[8]);
    assert !env.clear ==> Fatal(Plan[9]) && !Succeeds(env, Plan[9]);
    assert !env.image ==> Fatal(Plan[10]) && !Succeeds(env, Plan[10]);
    r
  }

  /** Every occurrence of `b` in `log` comes after an occurrence of `a`. */
  predicate Precedes(log: seq<BootStep>, a: BootStep, b: BootStep) {
    forall j :: 0 <= j < |log| && log[j] == b ==> a in log[..j]
  }

  /** An ordering of the plan holds of every log that is a prefix of it. */
  lemma PrecedesInPrefix(log: seq<BootStep>, plan: seq<BootStep>, a: BootStep, b: BootStep)
    requires log <= plan && Precedes(plan, a, b)
    ensures Precedes(log, a, b)
  {
  }

  /** Index of each step in the plan: every step occurs exactly once. */
  lemma PlanIndices()
    ensures forall j :: 0 <= j < |Plan| && Plan[j] == PmicBus ==> j == 3
    ensures forall j :: 0 <= j < |Plan| && Plan[j] == InitPmic ==> j == 4
    ensures forall j :: 0 <= j < |Plan| && Plan[j] == PanelInit ==> j == 7
    ensures forall j :: 0 <= j < |Plan| && Plan[j] == Ferris ==> j == 10
  {
  }

  /** Both watchdogs are disabled before the PMIC bus is set up and before the PMIC is initialised. */
  lemma WatchdogsDisabledFirst(env: BootEnv)
    ensures Precedes(Boot(env).log, DisableTimerWatchdog, PmicBus)
    ensures Precedes(Boot(env).log, DisableRtcWatchdog, PmicBus)
    ensures Precedes(Boot(env).log, DisableTimerWatchdog, InitPmic)
    ensures Precedes(Boot(env).log, DisableRtcWatchdog, InitPmic)
  {
  }

  /** The PMIC is set up, LDO2 requested on and the display bus set up before the panel is initialised. */
  lemma PowerBeforeDisplay(env: BootEnv)
    ensures Precedes(Boot(env).log, EnableLdo2, PanelInit)
    ensures Precedes(Boot(env).log, InitPmic, PanelInit)
    ensures Precedes(Boot(env).log, DisplayBus, PanelInit)
  {
    PlanIndices();
    assert Plan[..7][5] == EnableLdo2 && Plan[..7][4] == InitPmic && Plan[..7][6] == DisplayBus;
    PrecedesInPrefix(Boot(env).log, Plan, EnableLdo2, PanelInit);
    PrecedesInPrefix(Boot(env).log, Plan, InitPmic, PanelInit);
    PrecedesInPrefix(Boot(env).log, Plan, DisplayBus, PanelInit);
  }

  /** The orientation is set and the screen cleared before the image is drawn. */
  lemma OrientationAndClearBeforeImage(env: BootEnv)
    ensures Precedes(Boot(env).log, SetOrientation(PortraitSwapped), Ferris)
    ensures Precedes(Boot(env).log, ClearScreen, Ferris)
    ensures Precedes(Boot(env).log, PanelInit, Ferris)
  {
    PlanIndices();
    assert Plan[..10][8] == SetOrientation(PortraitSwapped) && Plan[..10][9] == ClearScreen;
    assert Plan[..10][7] == PanelInit;
    PrecedesInPrefix(Boot(env).log, Plan, SetOrientation(PortraitSwapped), Ferris);
    PrecedesInPrefix(Boot(env).log, Plan, ClearScreen, Ferris);
    PrecedesInPrefix(Boot(env).log, Plan, PanelInit, Ferris);
  }

  /** Two environments that agree on every call but the LDO2 request execute alike. */
  lemma {:induction false} Ldo2Irrelevant(env: BootEnv, steps: seq<BootStep>)
    ensures Execute(env.(ldo2 := false), steps) == Execute(env.(ldo2 := true), steps)
    decreases |steps|
  {
    if |steps| > 0 {
      Ldo2Irrelevant(env, steps[1..]);
    }
  }

  /** A failed LDO2 request is ignored: the boot goes on and logs the same steps either way. */
  lemma Ldo2FailureIgnored(env: BootEnv)
    ensures Boot(env.(ldo2 := false)) == Boot(env.(ldo2 := true))
    ensures Boot(env).Booted? ==> EnableLdo2 in Boot(env).log
  {
    assert Boot(env.(ldo2 := false)) == Execute(env.(ldo2 := false), Plan);
    assert Boot(env.(ldo2 := true)) == Execute(env.(ldo2 := true), Plan);
    Ldo2Irrelevant(env, Plan);
    assert Plan[5] == EnableLdo2;
  }

  /** The display bus is clocked faster than the PMIC bus: 26 MHz against 10 kHz. */
  lemma DisplayBusFaster(env: BootEnv)
    ensures PmicBusClockHz == 10000 && DisplayBusClockHz == 26000000
    ensures forall i, j ::
              (0 <= i < |Boot(env).log| && 0 <= j < |Boot(env).log| &&
               Boot(env).log[i].InitI2c? && Boot(env).log[j].InitSpi?) ==>
              Boot(env).log[i].clockHz < Boot(env).log[j].clockHz
  {
    var log := Boot(env).log;
    forall i, j | 0 <= i < |log| && 0 <= j < |log| && log[i].InitI2c? && log[j].InitSpi?
      ensures log[i].clockHz < log[j].clockHz
    {
      assert log[i] == Plan[i] && log[j] == Plan[j];
    }
  }
}
