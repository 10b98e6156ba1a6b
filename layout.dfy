/**
 * The shared layout state of `LayoutContext`: layout mode, spotlight
 * target, sidebar collapse, the current view and room. Setters become
 * field assignments in the handlers that call them.
 */
module Layout {
  import opened Wrappers

  /** grid = 50/50, fullscreen = 100/0, boxed = picture in picture. */
  datatype LayoutMode = Grid | Fullscreen | Boxed

  /** `'self' | 'opponent'`. */
  datatype Player = Self | Opponent

  datatype AppView = LobbyView | GameView

  function Other(p: Player): (q: Player)
    ensures q != p
  {
    if p == Self then Opponent else Self
  }

  class LayoutContext {
    var layoutMode: LayoutMode
    var spotlightTarget: Player
    var isSidebarCollapsed: bool
    var appView: AppView
    var currentRoomId: Option<string>

    /** The provider's initial state. */
    constructor ()
      ensures layoutMode == Grid && spotlightTarget == Opponent && !isSidebarCollapsed
      ensures appView == LobbyView && currentRoomId == None
    {
      layoutMode, spotlightTarget, isSidebarCollapsed := Grid, Opponent, false;
      appView, currentRoomId := LobbyView, None;
    }
  }
}
