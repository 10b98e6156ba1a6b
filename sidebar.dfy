/**
 * The sidebar's game controls: the per-game phase table, the phase-advance
 * button, the pass-turn button, and the spotlight and layout buttons.
 *
 * `currentTurn` and `gameType` come from outside as inputs; `switchTurn`,
 * `sendPhase` and `sendPassTurn` are implemented elsewhere, so the model
 * records each call as an `Effect`.
 */
module Sidebar {
  import opened Layout

  const GAME_PHASES: map<string, seq<string>> := map[
    "Yugioh" := ["Draw Phase", "Standby Phase", "Main Phase 1", "Battle Phase", "Main Phase 2", "End Phase"],
    "Magic" := ["Beginning Phase", "Main Phase 1", "Combat Phase", "Main Phase 2", "Ending Phase"],
    "Pokemon" := ["Draw Phase", "Main Phase", "Attack/End Phase"],
    "One Piece" := ["Refresh Phase", "Draw Phase", "DON!! Phase", "Main Phase", "End Phase"],
    "Dragon Ball" := ["Charge Phase", "Main Phase", "End Phase"],
    "Riftbound" := ["Awaken Phase", "Beginning Phase", "Channel Phase", "Draw Phase", "Action Phase", "End Phase"]
  ]

  ghost predicate Distinct(s: seq<string>)
  {
    forall i, j :: 0 <= i < j < |s| ==> s[i] != s[j]
  }

  /** `GAME_PHASES[gameType] || GAME_PHASES['Yugioh']`: never empty, names never repeat. */
  function PhasesFor(gameType: string): (phases: seq<string>)
    ensures gameType in GAME_PHASES ==> phases == GAME_PHASES[gameType]
    ensures gameType !in GAME_PHASES ==> phases == GAME_PHASES["Yugioh"]
    ensures |phases| > 0 && Distinct(phases)
    ensures forall i :: 0 <= i < |phases| ==> phases[i] != ""
  {
    if gameType in GAME_PHASES then GAME_PHASES[gameType] else GAME_PHASES["Yugioh"]
  }

  /** `Array.prototype.indexOf`: the first position of `x`, or -1. */
  function IndexOf(s: seq<string>, x: string): (r: int)
    ensures -1 <= r < |s|
    ensures r == -1 <==> x !in s
    ensures r >= 0 ==> s[r] == x && x !in s[..r]
  {
    if s == [] then -1
    else if s[0] == x then 0
    else
      var k := IndexOf(s[1..], x);
      if k == -1 then -1 else k + 1
  }

  lemma IndexOfDistinct(s: seq<string>, k: nat)
    requires Distinct(s) && k < |s|
    ensures IndexOf(s, s[k]) == k
  {
    assert s[k] in s[..k + 1];
  }

  /** The outcome of one click on the phase button during one's own turn. */
  datatype Step =
    | Next(phase: string)     // a listed phase that is not last: its successor
    | PassTurn                // the last listed phase: the turn passes
    | Reset(phase: string)    // a phase that is not listed: back to the first

  function AdvanceStep(phases: seq<string>, current: string): (r: Step)
    requires |phases| > 0
    ensures r.PassTurn? <==> IndexOf(phases, current) == |phases| - 1
    ensures r.Reset? <==> current !in phases
    ensures r.Reset? ==> r.phase == phases[0]
    ensures r.Next? ==> exists i :: 0 <= i < |phases| - 1 && phases[i] == current && r.phase == phases[i + 1]
    ensures r.Next? <==> 0 <= IndexOf(phases, current) < |phases| - 1
    ensures r.Next? ==> r.phase == phases[IndexOf(phases, current) + 1]
  {
    var i := IndexOf(phases, current);
    if i != -1 && i < |phases| - 1 then Next(phases[i + 1])
    else if i == |phases| - 1 then PassTurn
    else Reset(phases[0])
  }

  lemma AdvanceFromListed(phases: seq<string>, k: nat)
    requires Distinct(phases) && k < |phases|
    ensures k < |phases| - 1 ==> AdvanceStep(phases, phases[k]) == Next(phases[k + 1])
    ensures k == |phases| - 1 ==> AdvanceStep(phases, phases[k]) == PassTurn
  {
    IndexOfDistinct(phases, k);
  }

  /** The phase after `n` clicks during one's own turn; None once the turn has passed. */
  function AdvanceN(phases: seq<string>, current: string, n: nat): Wrappers.Option<string>
    requires |phases| > 0
  {
    if n == 0 then Wrappers.Some(current)
    else match AdvanceN(phases, current, n - 1)
      case None => Wrappers.None
      case Some(p) =>
        match AdvanceStep(phases, p)
        case PassTurn => Wrappers.None
        case Next(q) => Wrappers.Some(q)
        case Reset(q) => Wrappers.Some(q)
  }

  /** One more click from a reached phase takes the step that phase prescribes. */
  lemma AdvanceNThen(phases: seq<string>, start: string, n: nat, p: string)
    requires |phases| > 0 && AdvanceN(phases, start, n) == Wrappers.Some(p)
    ensures AdvanceStep(phases, p).PassTurn? ==> AdvanceN(phases, start, n + 1) == Wrappers.None
    ensures AdvanceStep(phases, p).Next? ==> AdvanceN(phases, start, n + 1) == Wrappers.Some(AdvanceStep(phases, p).phase)
  {
  }

  /** Starting from the first phase, `k` clicks reach the `k`-th phase for every `k < |phases|`. */
  lemma {:induction false} AdvanceVisitsInOrder(phases: seq<string>, k: nat)
    requires Distinct(phases) && k < |phases|
    ensures AdvanceN(phases, phases[0], k) == Wrappers.Some(phases[k])
  {
    if k > 0 {
      AdvanceVisitsInOrder(phases, k - 1);
      IndexOfDistinct(phases, k - 1);
      AdvanceOneMore(phases, k);
    }
  }

  /** Having reached the phase before the `k`-th, one click reaches the `k`-th. */
  lemma AdvanceOneMore(phases: seq<string>, k: nat)
    requires 0 < k < |phases| && IndexOf(phases, phases[k - 1]) == k - 1
    requires AdvanceN(phases, phases[0], k - 1) == Wrappers.Some(phases[k - 1])
    ensures AdvanceN(phases, phases[0], k) == Wrappers.Some(phases[k])
  {
    assert AdvanceStep(phases, phases[k - 1]) == Next(phases[k]);
    AdvanceNThen(phases, phases[0], k - 1, phases[k - 1]);
  }

  /** The click after the last phase passes the turn. */
  lemma AdvancePassesAfterLast(phases: seq<string>)
    requires Distinct(phases) && |phases| > 0
    ensures AdvanceN(phases, phases[0], |phases|) == Wrappers.None
  {
    var last := |phases| - 1;
    AdvanceVisitsInOrder(phases, last);
    AdvanceFromListed(phases, last);
    AdvanceNThen(phases, phases[0], last, phases[last]);
  }

  /** Every game's phase button passes the turn after exactly `|phases| - 1` steps past the first. */
  lemma GameTurnLength(gameType: string)
    ensures var phases := PhasesFor(gameType);
      && AdvanceN(phases, phases[0], |phases| - 1) == Wrappers.Some(phases[|phases| - 1])
      && AdvanceN(phases, phases[0], |phases|) == Wrappers.None
  {
    var phases := PhasesFor(gameType);
    AdvanceVisitsInOrder(phases, |phases| - 1);
    AdvancePassesAfterLast(phases);
  }

  /** The calls the sidebar makes into the turn machinery, in order. */
  datatype Effect = SwitchTurn | SendPassTurn | SendPhase(phase: string)

  /** The game state the sidebar reads and writes besides the layout. */
  class TurnContext {
    var currentPhase: string
    var effects: seq<Effect>

    constructor (phase: string)
      ensures currentPhase == phase && effects == []
    {
      currentPhase, effects := phase, [];
    }

    /** The phase button's `onClick`. */
    method AdvancePhase(currentTurn: Player, gameType: string)
      modifies this
      ensures currentTurn != Self ==> currentPhase == old(currentPhase) && effects == old(effects)
      ensures currentTurn == Self ==>
        match AdvanceStep(PhasesFor(gameType), old(currentPhase))
        case PassTurn => currentPhase == old(currentPhase) && effects == old(effects) + [SwitchTurn, SendPassTurn]
        case Next(p) => currentPhase == p && effects == old(effects) + [SendPhase(p)]
        case Reset(p) => currentPhase == p && effects == old(effects) + [SendPhase(p)]
    {
      if currentTurn != Self {
        return;
      }
      var phases := PhasesFor(gameType);
      var currentIndex := IndexOf(phases, currentPhase);
      var nextPhase := "";
      if currentIndex != -1 && currentIndex < |phases| - 1 {
        nextPhase := phases[currentIndex + 1];
      } else if currentIndex == |phases| - 1 {
        effects := effects + [SwitchTurn];
        effects := effects + [SendPassTurn];
        return;
      } else {
        nextPhase := phases[0];
      }
      if nextPhase != "" {
        currentPhase := nextPhase;
        effects := effects + [SendPhase(nextPhase)];
      }
    }

    /** The pass-turn button: no check of whose turn it is. */
    method PassTurnButton()
      modifies this`effects
      ensures effects == old(effects) + [SwitchTurn, SendPassTurn]
    {
      effects := effects + [SwitchTurn];
      effects := effects + [SendPassTurn];
    }
  }

  /** `handleSpotlightClick`: toggle the target in fullscreen, otherwise enter fullscreen on the opponent. */
  method SpotlightClick(ctx: LayoutContext)
    modifies ctx`layoutMode, ctx`spotlightTarget
    ensures old(ctx.layoutMode) == Fullscreen ==>
      ctx.layoutMode == Fullscreen && ctx.spotlightTarget == Other(old(ctx.spotlightTarget))
    ensures old(ctx.layoutMode) != Fullscreen ==>
      ctx.layoutMode == Fullscreen && ctx.spotlightTarget == Opponent
  {
    if ctx.layoutMode == Fullscreen {
      ctx.spotlightTarget := if ctx.spotlightTarget == Opponent then Self else Opponent;
    } else {
      ctx.layoutMode := Fullscreen;
      ctx.spotlightTarget := Opponent;
    }
  }

  /** The fullscreen button: the spotlight always ends on the opponent. */
  method FullscreenButton(ctx: LayoutContext)
    modifies ctx`layoutMode, ctx`spotlightTarget
    ensures ctx.layoutMode == Fullscreen && ctx.spotlightTarget == Opponent
  {
    ctx.layoutMode := Fullscreen;
    if ctx.spotlightTarget == Self {
      ctx.spotlightTarget := Opponent;
    }
  }

  /** The grid button: the spotlight target is kept. */
  method GridButton(ctx: LayoutContext)
    modifies ctx`layoutMode
    ensures ctx.layoutMode == Grid
  {
    ctx.layoutMode := Grid;
  }

  /** The boxed button. */
  method BoxedButton(ctx: LayoutContext)
    modifies ctx`layoutMode, ctx`spotlightTarget
    ensures ctx.layoutMode == Boxed && ctx.spotlightTarget == Opponent
  {
    ctx.layoutMode := Boxed;
    ctx.spotlightTarget := Opponent;
  }

  /** The collapse button. */
  method CollapseButton(ctx: LayoutContext)
    modifies ctx`isSidebarCollapsed
    ensures ctx.isSidebarCollapsed == !old(ctx.isSidebarCollapsed)
  {
    ctx.isSidebarCollapsed := !ctx.isSidebarCollapsed;
  }
}
