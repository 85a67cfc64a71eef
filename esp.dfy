/**
 * The ESP overlay: which listed players are drawn, in which colour, and
 * the boxes, lines, bars and labels drawn for each of them.
 */
module Esp {
  import opened Structs
  import opened Draw
  import opened Game

  datatype ESPConfig = ESPConfig(
    boxEnabled: bool, boxFilled: bool, boxThickness: real,
    skeletonEnabled: bool, skeletonThickness: real,
    healthBarEnabled: bool, healthBarWidth: int, healthBarHeight: int,
    nameEnabled: bool, distanceEnabled: bool,
    snaplineEnabled: bool, snaplinePosition: int,          // 0 top, 1 centre, 2 bottom
    enemyColor: Color, teamColor: Color, visibleColor: Color,
    healthColorHigh: Color, healthColorLow: Color,
    maxDistance: real, showTeam: bool, showDead: bool, visibleOnly: bool)

  const RED := Color(1.0, 0.0, 0.0, 1.0)
  const GREEN := Color(0.0, 1.0, 0.0, 1.0)
  const YELLOW := Color(1.0, 1.0, 0.0, 1.0)

  /** The configuration a renderer starts with. */
  const DefaultConfig := ESPConfig(
    true, false, 2.0,
    true, 2.0,
    true, 4, 50,
    true, true,
    false, 2,
    RED, GREEN, YELLOW,
    GREEN, RED,
    500.0, false, false, false)

  // ---------------------------------------------------------------------
  // Decisions
  // ---------------------------------------------------------------------

  /** `Render` calls a player a teammate when its team id equals the local player's, team 0 included. */
  predicate SameTeam(p: PlayerEntity, local: PlayerEntity): (same: bool)
    ensures p.teamId != 0 ==> (same <==> !p.IsEnemy(local.teamId))
  {
    p.teamId == local.teamId
  }

  /** The five filters, applied in order; the distance filter rejects `distance > max_distance`. */
  function ShouldRenderPlayer(cfg: ESPConfig, p: PlayerEntity, isLocalTeam: bool): (show: bool)
    ensures show <==> && (cfg.showTeam || !isLocalTeam)
                      && (cfg.showDead || p.isAlive)
                      && (!cfg.visibleOnly || p.isVisible)
                      && AtMost(p.distance, cfg.maxDistance)
                      && p.screenPos.IsValid()
  {
    if !cfg.showTeam && isLocalTeam then false
    else if !cfg.showDead && !p.isAlive then false
    else if cfg.visibleOnly && !p.isVisible then false
    else if !AtMost(p.distance, cfg.maxDistance) then false
    else if !p.screenPos.IsValid() then false
    else true
  }

  /** The visible colour overrides the team colours, but only in visible-only mode. */
  function PlayerColor(cfg: ESPConfig, p: PlayerEntity, isLocalTeam: bool): (c: Color)
    ensures c == cfg.visibleColor || c == cfg.teamColor || c == cfg.enemyColor
    ensures cfg.visibleOnly && p.isVisible ==> c == cfg.visibleColor
    ensures !(cfg.visibleOnly && p.isVisible) ==> c == (if isLocalTeam then cfg.teamColor else cfg.enemyColor)
  {
    if cfg.visibleOnly && p.isVisible then cfg.visibleColor
    else if isLocalTeam then cfg.teamColor
    else cfg.enemyColor
  }

  /** Linear interpolation from `a` (at t = 0) to `b` (at t = 1). */
  function Mix(a: real, b: real, t: real): real {
    a * (1.0 - t) + b * t
  }

  lemma MixBetween(a: real, b: real, t: real)
    requires 0.0 <= t <= 1.0
    ensures a <= b ==> a <= Mix(a, b, t) <= b
    ensures b <= a ==> b <= Mix(a, b, t) <= a
  {
    var d := b - a;
    var part, rest := d * t, d * (1.0 - t);
    assert Mix(a, b, t) == a + part;
    assert part + rest == d;
    if a <= b {
      assert part >= 0.0 && rest >= 0.0 by { ProductNonNegative(d, t); ProductNonNegative(d, 1.0 - t); }
    } else {
      assert -part >= 0.0 && -rest >= 0.0 by { ProductNonNegative(-d, t); ProductNonNegative(-d, 1.0 - t); }
    }
  }

  lemma ProductNonNegative(x: real, y: real)
    requires x >= 0.0 && y >= 0.0
    ensures x * y >= 0.0
  {
  }

  /** The health bar's colour for a percentage: the low colour at 0, the high colour at 100, always opaque. */
  function HealthColor(cfg: ESPConfig, pct: real): (c: Color)
    ensures c.w == 1.0
    ensures pct == 0.0 ==> c == cfg.healthColorLow.(w := 1.0)
    ensures pct == 100.0 ==> c == cfg.healthColorHigh.(w := 1.0)
  {
    var t := pct / 100.0;
    Color(Mix(cfg.healthColorLow.x, cfg.healthColorHigh.x, t),
          Mix(cfg.healthColorLow.y, cfg.healthColorHigh.y, t),
          Mix(cfg.healthColorLow.z, cfg.healthColorHigh.z, t),
          1.0)
  }

  /** Between 0 and 100 percent every channel stays between its low and its high value. */
  lemma HealthColorBetween(cfg: ESPConfig, pct: real)
    requires 0.0 <= pct <= 100.0
    ensures var c, lo, hi := HealthColor(cfg, pct), cfg.healthColorLow, cfg.healthColorHigh;
      && (lo.x <= hi.x ==> lo.x <= c.x <= hi.x) && (hi.x <= lo.x ==> hi.x <= c.x <= lo.x)
      && (lo.y <= hi.y ==> lo.y <= c.y <= hi.y) && (hi.y <= lo.y ==> hi.y <= c.y <= lo.y)
      && (lo.z <= hi.z ==> lo.z <= c.z <= hi.z) && (hi.z <= lo.z ==> hi.z <= c.z <= lo.z)
  {
    var t := pct / 100.0;
    MixBetween(cfg.healthColorLow.x, cfg.healthColorHigh.x, t);
    MixBetween(cfg.healthColorLow.y, cfg.healthColorHigh.y, t);
    MixBetween(cfg.healthColorLow.z, cfg.healthColorHigh.z, t);
  }

  /** The label template; there is no label when both names and distances are off. */
  function EspLabel(cfg: ESPConfig, p: PlayerEntity): (l: Option<Label>)
    ensures l.None? <==> !cfg.nameEnabled && !cfg.distanceEnabled
    ensures l.Some? && cfg.nameEnabled ==> l.value.NameAndDistance? || l.value.NameOnly?
    ensures l.Some? && cfg.distanceEnabled ==> l.value.NameAndDistance? || l.value.BracketedDistance?
    ensures l.Some? && !l.value.BracketedDistance? ==> l.value.name == CString(p.name)
    ensures l.Some? && !l.value.NameOnly? ==> l.value.distance == p.distance
    ensures l.Some? && l.value.NameAndDistance? ==> cfg.nameEnabled && cfg.distanceEnabled
    ensures l.Some? && l.value.NameOnly? ==> !cfg.distanceEnabled
    ensures l.Some? && l.value.BracketedDistance? ==> !cfg.nameEnabled
  {
    if cfg.nameEnabled && cfg.distanceEnabled then Some(NameAndDistance(CString(p.name), p.distance))
    else if cfg.nameEnabled then Some(NameOnly(CString(p.name)))
    else if cfg.distanceEnabled then Some(BracketedDistance(p.distance))
    else None
  }

  /** Where the snapline starts on a display of size `display`. */
  function SnaplineAnchor(position: int, display: Vector2): (a: Vector2)
    ensures a.x == display.x / 2.0
    ensures position == 0 ==> a.y == 0.0
    ensures position == 1 ==> a.y == display.y / 2.0
    ensures position != 0 && position != 1 ==> a.y == display.y
  {
    var centre := Vector2(display.x / 2.0, display.y / 2.0);
    if position == 0 then Vector2(centre.x, 0.0)
    else if position == 1 then centre
    else Vector2(centre.x, display.y)
  }

  // ---------------------------------------------------------------------
  // What is drawn for one player
  // ---------------------------------------------------------------------

  /** Feet and head both on screen: the precondition of box, skeleton and health bar. */
  predicate BothOnScreen(p: PlayerEntity) {
    p.screenPos.IsValid() && p.headScreenPos.IsValid()
  }

  /** `DrawBox`: a filled or an outlined rectangle. */
  function BoxCall(topLeft: Vector2, bottomRight: Vector2, color: Color, thickness: real, filled: bool): Primitive {
    if filled then RectFilled(topLeft, bottomRight, color) else RectOutline(topLeft, bottomRight, color, thickness)
  }

  /** The box: from head height to feet height, 0.4 times as wide as it is high, centred on the head. */
  function BoxPrims(cfg: ESPConfig, p: PlayerEntity, color: Color): (r: seq<Primitive>)
    ensures !BothOnScreen(p) ==> r == []
    ensures BothOnScreen(p) ==>
      && |r| == 1 && (r[0].RectFilled? || r[0].RectOutline?)
      && r[0].topLeft.y == p.headScreenPos.y && r[0].bottomRight.y == p.screenPos.y
      && r[0].bottomRight.x - r[0].topLeft.x == 0.4 * (p.screenPos.y - p.headScreenPos.y)
      && r[0].topLeft.x + r[0].bottomRight.x == 2.0 * p.headScreenPos.x
      && r[0].color == color
      && (if cfg.boxFilled then r[0].RectFilled? else r[0].RectOutline? && r[0].thickness == cfg.boxThickness)
  {
    if !p.screenPos.IsValid() || !p.headScreenPos.IsValid() then []
    else
      var height := p.screenPos.y - p.headScreenPos.y;
      var width := height * 0.4;
      var topLeft := Vector2(p.headScreenPos.x - width / 2.0, p.headScreenPos.y);
      var bottomRight := Vector2(p.headScreenPos.x + width / 2.0, p.screenPos.y);
      [BoxCall(topLeft, bottomRight, color, cfg.boxThickness, cfg.boxFilled)]
  }

  /** The skeleton stand-in: one line from the head to the feet. */
  function SkeletonPrims(cfg: ESPConfig, p: PlayerEntity, color: Color): (r: seq<Primitive>)
    ensures !BothOnScreen(p) ==> r == []
    ensures BothOnScreen(p) ==>
      r == [Line(p.headScreenPos, p.screenPos, color, cfg.skeletonThickness)]
  {
    if !p.screenPos.IsValid() || !p.headScreenPos.IsValid() then []
    else [Line(Vector2(p.headScreenPos.x, p.headScreenPos.y), Vector2(p.screenPos.x, p.screenPos.y),
               color, cfg.skeletonThickness)]
  }

  const BAR_BACKGROUND := Color(0.0, 0.0, 0.0, 0.5)

  /**
   * The health bar: a half-transparent black background as high as the box,
   * two pixels left of it, and over it a bar of the health colour filled
   * from the bottom in proportion to the health percentage.
   */
  function HealthBarPrims(cfg: ESPConfig, p: PlayerEntity): (r: seq<Primitive>)
    ensures !BothOnScreen(p) ==> r == []
    ensures BothOnScreen(p) ==>
      var height, pct := p.screenPos.y - p.headScreenPos.y, p.HealthPercent();
      && |r| == 2 && r[0].RectFilled? && r[1].RectFilled?
      && r[0].color == BAR_BACKGROUND && r[1].color == HealthColor(cfg, pct)
      && r[0].topLeft.y == p.headScreenPos.y && r[0].bottomRight.y == p.screenPos.y
      && r[1].bottomRight.y == p.screenPos.y
      && r[1].bottomRight.y - r[1].topLeft.y == height * (pct / 100.0)
      && r[0].topLeft.x == r[1].topLeft.x && r[0].bottomRight.x == r[1].bottomRight.x
      && r[0].bottomRight.x - r[0].topLeft.x == cfg.healthBarWidth as real
      && r[0].bottomRight.x == BoxPrims(cfg, p, BAR_BACKGROUND)[0].topLeft.x - 2.0
  {
    if !p.screenPos.IsValid() || !p.headScreenPos.IsValid() then []
    else
      var pct := p.HealthPercent();
      var color := HealthColor(cfg, pct);
      var height := p.screenPos.y - p.headScreenPos.y;
      var width := height * 0.4;
      var barX := p.headScreenPos.x - width / 2.0 - cfg.healthBarWidth as real - 2.0;
      var barY := p.headScreenPos.y;
      var barHeight := height * (pct / 100.0);
      [BoxCall(Vector2(barX, barY), Vector2(barX + cfg.healthBarWidth as real, barY + height), BAR_BACKGROUND, 1.0, true),
       BoxCall(Vector2(barX, barY + height - barHeight), Vector2(barX + cfg.healthBarWidth as real, barY + height),
               color, 1.0, true)]
  }

  /** At full health the coloured bar covers the whole background. */
  lemma FullHealthFillsBar(cfg: ESPConfig, p: PlayerEntity)
    requires BothOnScreen(p) && p.maxHealth > 0.0 && p.health == p.maxHealth
    ensures HealthBarPrims(cfg, p)[1].topLeft == HealthBarPrims(cfg, p)[0].topLeft
    ensures HealthBarPrims(cfg, p)[1].bottomRight == HealthBarPrims(cfg, p)[0].bottomRight
  {
    assert p.HealthPercent() == 100.0;
  }

  /** The label, 15 pixels above the head, when the head is on screen and a template applies. */
  function NamePrims(cfg: ESPConfig, p: PlayerEntity, color: Color): (r: seq<Primitive>)
    ensures |r| <= 1
    ensures r != [] <==> p.headScreenPos.IsValid() && (cfg.nameEnabled || cfg.distanceEnabled)
    ensures r != [] ==> r[0] == Text(Vector2(p.headScreenPos.x, p.headScreenPos.y - 15.0),
                                     EspLabel(cfg, p).value, color)
  {
    if !p.headScreenPos.IsValid() then []
    else
      match EspLabel(cfg, p)
      case None => []
      case Some(l) => [Text(Vector2(p.headScreenPos.x, p.headScreenPos.y - 15.0), l, color)]
  }

  /** The snapline from the configured anchor to the feet, one pixel thick. */
  function SnaplinePrims(cfg: ESPConfig, p: PlayerEntity, color: Color, display: Vector2): (r: seq<Primitive>)
    ensures !p.screenPos.IsValid() ==> r == []
    ensures p.screenPos.IsValid() ==> r == [Line(SnaplineAnchor(cfg.snaplinePosition, display), p.screenPos, color, 1.0)]
  {
    if !p.screenPos.IsValid() then []
    else [Line(SnaplineAnchor(cfg.snaplinePosition, display), Vector2(p.screenPos.x, p.screenPos.y), color, 1.0)]
  }

  /**
   * `RenderPlayer`: snapline first (behind everything), then box,
   * skeleton, health bar and label, each only when enabled.
   */
  function PlayerPrims(cfg: ESPConfig, p: PlayerEntity, isLocalTeam: bool, display: Vector2): (r: seq<Primitive>)
    ensures |r| <= 6
    ensures !p.screenPos.IsValid() && !p.headScreenPos.IsValid() ==> r == []
  {
    var color := PlayerColor(cfg, p, isLocalTeam);
    var snapline := if cfg.snaplineEnabled then SnaplinePrims(cfg, p, color, display) else [];
    var box := if cfg.boxEnabled then BoxPrims(cfg, p, color) else [];
    var skeleton := if cfg.skeletonEnabled then SkeletonPrims(cfg, p, color) else [];
    var bar := if cfg.healthBarEnabled then HealthBarPrims(cfg, p) else [];
    var caption := if cfg.nameEnabled || cfg.distanceEnabled then NamePrims(cfg, p, color) else [];
    snapline + box + skeleton + bar + caption
  }

  /** With snaplines on and the feet on screen, the snapline is drawn first, so everything else covers it. */
  lemma SnaplineDrawnFirst(cfg: ESPConfig, p: PlayerEntity, isLocalTeam: bool, display: Vector2)
    requires cfg.snaplineEnabled && p.screenPos.IsValid()
    ensures var r := PlayerPrims(cfg, p, isLocalTeam, display);
      |r| > 0 && r[0] == Line(SnaplineAnchor(cfg.snaplinePosition, display), p.screenPos,
                              PlayerColor(cfg, p, isLocalTeam), 1.0)
  {
    var color := PlayerColor(cfg, p, isLocalTeam);
    var snapline := SnaplinePrims(cfg, p, color, display);
    assert snapline == [Line(SnaplineAnchor(cfg.snaplinePosition, display), p.screenPos, color, 1.0)];
  }

  /**
   * Everything `RenderPlayer` draws is in the player's colour, except the
   * two filled health-bar rectangles, which use the bar background and the
   * health colour.
   */
  lemma PlayerColours(cfg: ESPConfig, p: PlayerEntity, isLocalTeam: bool, display: Vector2)
    ensures forall q | q in PlayerPrims(cfg, p, isLocalTeam, display) ::
      || q.color == PlayerColor(cfg, p, isLocalTeam)
      || (q.RectFilled? && cfg.healthBarEnabled
          && (q.color == BAR_BACKGROUND || q.color == HealthColor(cfg, p.HealthPercent())))
  {
    var color := PlayerColor(cfg, p, isLocalTeam);
    var snapline := if cfg.snaplineEnabled then SnaplinePrims(cfg, p, color, display) else [];
    var box := if cfg.boxEnabled then BoxPrims(cfg, p, color) else [];
    var skeleton := if cfg.skeletonEnabled then SkeletonPrims(cfg, p, color) else [];
    var bar := if cfg.healthBarEnabled then HealthBarPrims(cfg, p) else [];
    var caption := if cfg.nameEnabled || cfg.distanceEnabled then NamePrims(cfg, p, color) else [];
    assert forall q: Primitive | q in snapline :: q.color == color;
    assert forall q: Primitive | q in box :: q.color == color;
    assert forall q: Primitive | q in skeleton :: q.color == color;
    assert forall q: Primitive | q in caption :: q.color == color;
    assert forall q: Primitive | q in bar ::
      q.RectFilled? && (q.color == BAR_BACKGROUND || q.color == HealthColor(cfg, p.HealthPercent()));
    var all := snapline + box + skeleton + bar + caption;
    assert forall q: Primitive | q in all :: q in snapline || q in box || q in skeleton || q in bar || q in caption;
  }

  // ---------------------------------------------------------------------
  // One frame
  // ---------------------------------------------------------------------

  /** The players `Render` draws, in list order. */
  function Rendered(cfg: ESPConfig, local: PlayerEntity, ps: seq<PlayerEntity>): (r: seq<PlayerEntity>)
    ensures |r| <= |ps|
  {
    if ps == [] then []
    else
      var last := ps[|ps| - 1];
      Rendered(cfg, local, ps[..|ps| - 1])
      + (if ShouldRenderPlayer(cfg, last, SameTeam(last, local)) then [last] else [])
  }

  /** The primitives of every player of `ps`, in order, unfiltered. */
  function PrimsOf(cfg: ESPConfig, local: PlayerEntity, ps: seq<PlayerEntity>, display: Vector2): seq<Primitive>
  {
    if ps == [] then []
    else
      var last := ps[|ps| - 1];
      PrimsOf(cfg, local, ps[..|ps| - 1], display) + PlayerPrims(cfg, last, SameTeam(last, local), display)
  }

  /** The frame as `Render`'s loop builds it: each player's primitives when it passes the filters. */
  function DrawAll(cfg: ESPConfig, local: PlayerEntity, ps: seq<PlayerEntity>, display: Vector2): seq<Primitive>
  {
    if ps == [] then []
    else
      var last := ps[|ps| - 1];
      var isLocalTeam := SameTeam(last, local);
      DrawAll(cfg, local, ps[..|ps| - 1], display)
      + (if ShouldRenderPlayer(cfg, last, isLocalTeam) then PlayerPrims(cfg, last, isLocalTeam, display) else [])
  }

  /** A player is drawn iff it is listed and passes the filters against the local player's team. */
  lemma {:induction false} RenderedMembers(cfg: ESPConfig, local: PlayerEntity, ps: seq<PlayerEntity>, p: PlayerEntity)
    ensures p in Rendered(cfg, local, ps) <==> p in ps && ShouldRenderPlayer(cfg, p, SameTeam(p, local))
    decreases |ps|
  {
    if ps != [] {
      var init := ps[..|ps| - 1];
      RenderedMembers(cfg, local, init, p);
      assert ps == init + [ps[|ps| - 1]];
    }
  }

  /** Filtering keeps list order: it distributes over concatenation. */
  lemma {:induction false} RenderedAppend(cfg: ESPConfig, local: PlayerEntity, ps: seq<PlayerEntity>, qs: seq<PlayerEntity>)
    ensures Rendered(cfg, local, ps + qs) == Rendered(cfg, local, ps) + Rendered(cfg, local, qs)
    decreases |qs|
  {
    if qs == [] {
      assert ps + qs == ps;
    } else {
      var init := qs[..|qs| - 1];
      RenderedAppend(cfg, local, ps, init);
      assert (ps + qs)[..|ps + qs| - 1] == ps + init;
    }
  }

  /** The frame is the drawing of exactly the filtered players, in list order. */
  lemma {:induction false} FrameDrawsRendered(cfg: ESPConfig, local: PlayerEntity, ps: seq<PlayerEntity>, display: Vector2)
    ensures DrawAll(cfg, local, ps, display) == PrimsOf(cfg, local, Rendered(cfg, local, ps), display)
    decreases |ps|
  {
    if ps != [] {
      var init := ps[..|ps| - 1];
      var last := ps[|ps| - 1];
      FrameDrawsRendered(cfg, local, init, display);
      var r := Rendered(cfg, local, init);
      if ShouldRenderPlayer(cfg, last, SameTeam(last, local)) {
        var shown := r + [last];
        assert Rendered(cfg, local, ps) == shown;
        assert shown[..|shown| - 1] == r && shown[|shown| - 1] == last;
        assert PrimsOf(cfg, local, shown, display)
            == PrimsOf(cfg, local, r, display) + PlayerPrims(cfg, last, SameTeam(last, local), display);
      } else {
        assert Rendered(cfg, local, ps) == r;
      }
    }
  }

  /**
   * Under the default configuration the drawn players are exactly the
   * listed ones of another team id, alive, within 500 m, with their feet
   * on screen.
   */
  lemma DefaultRendered(local: PlayerEntity, ps: seq<PlayerEntity>, p: PlayerEntity)
    ensures p in Rendered(DefaultConfig, local, ps) <==>
      && p in ps && p.teamId != local.teamId && p.isAlive
      && AtMost(p.distance, 500.0) && p.screenPos.IsValid()
  {
    RenderedMembers(DefaultConfig, local, ps, p);
  }

  /**
   * Team 0 is neutral for `IsEnemy`, but the ESP compares raw team ids:
   * with team ids hidden, a neutral entity is hidden next to a neutral
   * local player and treated as an enemy next to any other.
   */
  lemma NeutralEntityIsTeammateOfNeutralLocal(cfg: ESPConfig, p: PlayerEntity, local: PlayerEntity)
    requires p.teamId == 0 && !cfg.showTeam
    ensures !p.IsEnemy(local.teamId)
    ensures local.teamId == 0 ==> !ShouldRenderPlayer(cfg, p, SameTeam(p, local))
    ensures local.teamId != 0 && !cfg.visibleOnly ==> PlayerColor(cfg, p, SameTeam(p, local)) == cfg.enemyColor
  {
  }

  /** In visible-only mode every drawn player is visible and drawn in the visible colour. */
  lemma VisibleOnlyColour(cfg: ESPConfig, local: PlayerEntity, ps: seq<PlayerEntity>, p: PlayerEntity)
    requires cfg.visibleOnly && p in Rendered(cfg, local, ps)
    ensures p.isVisible && PlayerColor(cfg, p, SameTeam(p, local)) == cfg.visibleColor
  {
    RenderedMembers(cfg, local, ps, p);
  }

  // ---------------------------------------------------------------------
  // The renderer
  // ---------------------------------------------------------------------

  class ESPRenderer {
    /** The shared snapshot builder; it may be null. */
    const gameData: GameData?
    var config: ESPConfig

    constructor (gameData: GameData?)
      ensures this.gameData == gameData && config == DefaultConfig
    {
      this.gameData := gameData;
      config := DefaultConfig;
    }

    method SetConfig(c: ESPConfig)
      modifies this`config
      ensures config == c
    {
      config := c;
    }

    /**
     * One frame on a display of size `display`: nothing without an
     * initialised snapshot builder, otherwise every listed player that
     * passes the filters, in list order.
     */
    method Render(display: Vector2) returns (drawn: seq<Primitive>)
      ensures gameData == null || !gameData.initialized ==> drawn == []
      ensures gameData != null && gameData.initialized ==>
        drawn == PrimsOf(config, gameData.localPlayer, Rendered(config, gameData.localPlayer, gameData.players), display)
    {
      drawn := [];
      if gameData == null || !gameData.initialized {
        return;
      }
      var local := gameData.localPlayer;
      var players := gameData.players;
      var i := 0;
      while i < |players|
        invariant 0 <= i <= |players|
        invariant drawn == DrawAll(config, local, players[..i], display)
      {
        var player := players[i];
        var isLocalTeam := player.teamId == local.teamId;
        if ShouldRenderPlayer(config, player, isLocalTeam) {
          drawn := drawn + PlayerPrims(config, player, isLocalTeam, display);
        }
        assert players[..i + 1][..i] == players[..i];
        i := i + 1;
      }
      assert players[..i] == players;
      FrameDrawsRendered(config, local, players, display);
    }
  }
}
