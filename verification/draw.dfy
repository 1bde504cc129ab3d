/**
 The draw operations the render loop issues, as opaque command values. Text is
 drawn white in the 6x10 mono font; erasing fills a rectangle black (fill and
 stroke both black). Neither font rasterisation nor pixels are modelled: a
 command is only its text and anchor, or its rectangle.
 */
module Draw {
  import opened Geometry

  datatype Command =
    | DrawText(text: string, at: Point)
    | FillBlack(area: Rect)

  /** The greeting shown while `show_hello` is set, and the region that erases it. */
  const GreetingText: string := "Hello Rust!"
  const GreetingAnchor: Point := Point(30, 180)
  const GreetingArea: Rect := Rect(Point(0, 170), Size(100, 30))

  /** The glyph shown while VBUS is present, and the region that erases it. */
  const IndicatorText: string := "*"
  const IndicatorAnchor: Point := Point(30, 220)
  const IndicatorArea: Rect := Rect(Point(20, 210), Size(30, 30))

  /** The two commands that draw or erase the greeting. */
  predicate IsGreeting(c: Command) {
    c == DrawText(GreetingText, GreetingAnchor) || c == FillBlack(GreetingArea)
  }

  /** The two commands that draw or erase the VBUS indicator. */
  predicate IsIndicator(c: Command) {
    c == DrawText(IndicatorText, IndicatorAnchor) || c == FillBlack(IndicatorArea)
  }

  /** An erase stays on the panel and covers the anchor of the text it erases. */
  predicate ErasesOwnText(c: Command) {
    c.FillBlack? ==>
      && WithinPanel(c.area)
      && (IsGreeting(c) ==> Contains(c.area, GreetingAnchor))
      && (IsIndicator(c) ==> Contains(c.area, IndicatorAnchor))
  }

  /** The greeting command of one iteration: the text when visible, its erase otherwise. */
  function GreetingCommand(visible: bool): (c: Command)
    ensures IsGreeting(c) && !IsIndicator(c)
    ensures c.DrawText? <==> visible
    ensures ErasesOwnText(c)
  {
    if visible then DrawText(GreetingText, GreetingAnchor) else FillBlack(GreetingArea)
  }

  /** The indicator command issued on a VBUS edge: the glyph when present, its erase otherwise. */
  function IndicatorCommand(present: bool): (c: Command)
    ensures IsIndicator(c) && !IsGreeting(c)
    ensures c.DrawText? <==> present
    ensures ErasesOwnText(c)
  {
    if present then DrawText(IndicatorText, IndicatorAnchor) else FillBlack(IndicatorArea)
  }

  /** Erasing the greeting never touches the indicator, and the other way round. */
  lemma EraseAreasDisjoint()
    ensures Disjoint(GreetingArea, IndicatorArea)
    ensures !Contains(GreetingArea, IndicatorAnchor) && !Contains(IndicatorArea, GreetingAnchor)
  {
  }

  /** Number of commands of `cmds` satisfying `p`. */
  function Count(cmds: seq<Command>, p: Command -> bool): (n: nat)
    ensures n <= |cmds|
    ensures n == 0 <==> forall i :: 0 <= i < |cmds| ==> !p(cmds[i])
    ensures n == |cmds| <==> forall i :: 0 <= i < |cmds| ==> p(cmds[i])
  {
    if |cmds| == 0 then 0
    else
      var rest := Count(cmds[1..], p);
      assert forall i :: 1 <= i < |cmds| ==> cmds[i] == cmds[1..][i - 1];
      (if p(cmds[0]) then 1 else 0) + rest
  }

  /** Counting distributes over concatenation of command streams. */
  lemma {:induction false} CountAppend(a: seq<Command>, b: seq<Command>, p: Command -> bool)
    ensures Count(a + b, p) == Count(a, p) + Count(b, p)
  {
    if |a| == 0 {
      assert a + b == b;
    } else {
      assert (a + b)[1..] == a[1..] + b;
      CountAppend(a[1..], b, p);
    }
  }
}
