/**
 `main` as a whole: the bring-up, then the render loop from its initial state.
 A bring-up that aborts never reaches the loop, so nothing is drawn by it.
 */
module Firmware {
  import opened Draw
  import opened BringUp
  import opened RenderLoop

  /** A boot that stopped, or a completed boot followed by a finite stretch of the loop. */
  datatype Session =
    | BootFailed(boot: BootResult)
    | Rendering(boot: BootResult, render: Trace)

  function PowerOn(env: BootEnv, ticks: seq<Tick>): (r: Session)
    ensures r.boot == Boot(env)
    ensures r.Rendering? <==> Boot(env).Booted?
    ensures r.Rendering? ==> r.render == Run(Start, ticks)
  {
    match Boot(env)
    case Booted(log) => Rendering(Booted(log), Run(Start, ticks))
    case Aborted(log, failed) => BootFailed(Aborted(log, failed))
  }

  /** What `main` does, in order: the bring-up steps attempted, then the loop's draws. */
  datatype Event = Booting(step: BootStep) | Drawing(cmd: Command)

  function Events(r: Session): (es: seq<Event>)
    ensures |es| == |r.boot.log| + if r.Rendering? then |r.render.cmds| else 0
    ensures forall i :: 0 <= i < |r.boot.log| ==> es[i] == Booting(r.boot.log[i])
    ensures r.Rendering? ==>
              forall i :: |r.boot.log| <= i < |es| ==> es[i] == Drawing(r.render.cmds[i - |r.boot.log|])
  {
    var boot := seq(|r.boot.log|, i requires 0 <= i < |r.boot.log| => Booting(r.boot.log[i]));
    if r.Rendering? then
      boot + seq(|r.render.cmds|, i requires 0 <= i < |r.render.cmds| => Drawing(r.render.cmds[i]))
    else boot
  }

  /** Every draw of the loop comes after the LDO2 request, the panel initialisation,
      the orientation, the clear and the image. */
  lemma LoopDrawsFollowBringUp(env: BootEnv, ticks: seq<Tick>)
    ensures var es := Events(PowerOn(env, ticks));
      forall j :: 0 <= j < |es| && es[j].Drawing? ==>
        && Booting(EnableLdo2) in es[..j]
        && Booting(PanelInit) in es[..j]
        && Booting(SetOrientation(PortraitSwapped)) in es[..j]
        && Booting(ClearScreen) in es[..j]
        && Booting(Ferris) in es[..j]
  {
    var r := PowerOn(env, ticks);
    var es := Events(r);
    forall j | 0 <= j < |es| && es[j].Drawing?
      ensures Booting(EnableLdo2) in es[..j] && Booting(PanelInit) in es[..j]
      ensures Booting(SetOrientation(PortraitSwapped)) in es[..j]
      ensures Booting(ClearScreen) in es[..j] && Booting(Ferris) in es[..j]
    {
      assert r.Rendering? && r.boot.log == Plan && 11 <= j;
      assert es[..j][5] == Booting(EnableLdo2) && es[..j][7] == Booting(PanelInit);
      assert es[..j][8] == Booting(SetOrientation(PortraitSwapped));
      assert es[..j][9] == Booting(ClearScreen) && es[..j][10] == Booting(Ferris);
    }
  }
}
