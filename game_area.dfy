/** The two video slots of the game area: their CSS class and the click on a player. */
module GameArea {
  import opened Layout

  /** `getSlotClass`: the class of `player`'s slot under the current layout. */
  function SlotClass(mode: LayoutMode, target: Player, player: Player): (r: string)
    ensures r == "" <==> mode == Grid
    ensures r == "maximized" <==> mode != Grid && target == player
    ensures r == "hidden" <==> mode == Fullscreen && target != player
    ensures r == "minimized" <==> mode == Boxed && target != player
  {
    assert "minimized"[1] != "maximized"[1];
    match mode
    case Grid => ""
    case Fullscreen => if target == player then "maximized" else "hidden"
    case Boxed => if target == player then "maximized" else "minimized"
  }

  /** Outside grid mode exactly one of the two slots is maximized. */
  lemma ExactlyOneMaximized(mode: LayoutMode, target: Player)
    requires mode != Grid
    ensures (SlotClass(mode, target, Self) == "maximized") != (SlotClass(mode, target, Opponent) == "maximized")
  {
  }

  /** `handlePlayerClick`: spotlight the clicked player; grid becomes fullscreen. */
  method PlayerClick(ctx: LayoutContext, clicked: Player)
    modifies ctx`spotlightTarget, ctx`layoutMode
    ensures ctx.spotlightTarget == clicked
    ensures ctx.layoutMode == if old(ctx.layoutMode) == Grid then Fullscreen else old(ctx.layoutMode)
    ensures SlotClass(ctx.layoutMode, ctx.spotlightTarget, clicked) == "maximized"
  {
    ctx.spotlightTarget := clicked;
    if ctx.layoutMode == Grid {
      ctx.layoutMode := Fullscreen;
    }
  }
}
