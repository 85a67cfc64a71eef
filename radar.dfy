/**
 * The radar overlay: a square minimap centred on the local player, with an
 * optional grid, one dot per listed player that passes the radar's own
 * filters, and the local player's marker on top.
 */
module Radar {
  import opened Structs
  import opened Draw
  import opened Game

  datatype RadarConfig = RadarConfig(
    enabled: bool,
    posX: real, posY: real, size: real,
    zoom: real, maxRange: real,
    backgroundAlpha: real, borderThickness: real, showGrid: bool, gridLines: int,
    dotSize: real, showNames: bool, showDistance: bool, showDirection: bool,
    backgroundColor: Color, borderColor: Color, gridColor: Color,
    localPlayerColor: Color, enemyColor: Color, teamColor: Color,
    showTeam: bool, showDead: bool)

  /** The configuration a renderer starts with. */
  const DefaultConfig := RadarConfig(
    true,
    50.0, 50.0, 250.0,
    1.0, 200.0,
    0.7, 2.0, true, 4,
    6.0, false, true, true,
    Color(0.0, 0.0, 0.0, 0.7), Color(1.0, 1.0, 1.0, 1.0), Color(0.5, 0.5, 0.5, 0.3),
    Color(0.0, 1.0, 0.0, 1.0), Color(1.0, 0.0, 0.0, 1.0), Color(0.0, 0.5, 1.0, 1.0),
    true, false)

  /** With the default configuration every living player within 200 m horizontally gets a dot, at 0.625 px per metre. */
  lemma DefaultRadarShows(local: PlayerEntity, p: PlayerEntity)
    ensures RadarShows(DefaultConfig, local, p) <==> p.isAlive && InRadarRange(DefaultConfig, p.position, local.position)
    ensures Scale(DefaultConfig) == 0.625
  {
  }

  /** The centre of the radar square on the screen. */
  function Centre(cfg: RadarConfig): Vector2 {
    Vector2(cfg.posX + cfg.size / 2.0, cfg.posY + cfg.size / 2.0)
  }

  // ---------------------------------------------------------------------
  // Range and mapping
  // ---------------------------------------------------------------------

  /** The horizontal distance between two positions; height plays no part. */
  function HorizontalLength(world: Vector3, local: Vector3): Length {
    var dx := world.x - local.x;
    var dy := world.y - local.y;
    Root(SumOfSquares(dx, dy, 0.0))
  }

  /** `IsInRadarRange`: `sqrtf(dx*dx + dy*dy) <= max_range`. */
  function InRadarRange(cfg: RadarConfig, world: Vector3, local: Vector3): (inRange: bool)
    ensures inRange ==> cfg.maxRange >= 0.0
    ensures world.x == local.x && world.y == local.y ==> (inRange <==> cfg.maxRange >= 0.0)
  {
    AtMost(HorizontalLength(world, local), cfg.maxRange)
  }

  /** Only the horizontal offset counts: the heights of both positions never change the answer. */
  lemma InRangeIgnoresHeight(cfg: RadarConfig, world: Vector3, local: Vector3, worldZ: real, localZ: real)
    ensures InRadarRange(cfg, world.(z := worldZ), local.(z := localZ)) == InRadarRange(cfg, world, local)
  {
  }

  /** For the root `d` of the horizontal squared distance, the test is `d <= max_range`. */
  lemma InRangeMeansHorizontalDistance(cfg: RadarConfig, world: Vector3, local: Vector3, d: real)
    requires d >= 0.0
    requires d * d == (world.x - local.x) * (world.x - local.x) + (world.y - local.y) * (world.y - local.y)
    ensures InRadarRange(cfg, world, local) <==> d <= cfg.maxRange
  {
    AtMostMeansRootBound(HorizontalLength(world, local), d, cfg.maxRange);
  }

  /** Radar pixels per metre: half the radar size over the zoomed range. */
  function Scale(cfg: RadarConfig): (s: real)
    requires cfg.maxRange * cfg.zoom != 0.0
    ensures s * (cfg.maxRange * cfg.zoom) == cfg.size / 2.0
    ensures cfg.size > 0.0 && cfg.maxRange * cfg.zoom > 0.0 ==> s > 0.0
  {
    (cfg.size / 2.0) / (cfg.maxRange * cfg.zoom)
  }

  /**
   * `WorldToRadar` with the yaw the renderer always passes, 0: the offset
   * from the local player is rotated by an angle of 0 (cos 1, sin 0),
   * scaled, and its y axis inverted for the screen.
   */
  function WorldToRadar(cfg: RadarConfig, world: Vector3, local: Vector3): (r: Vector2)
    requires cfg.maxRange * cfg.zoom != 0.0
    ensures r == Vector2((world.x - local.x) * Scale(cfg), -((world.y - local.y) * Scale(cfg)))
    ensures world.x == local.x && world.y == local.y ==> r == ScreenOrigin
  {
    var dx := world.x - local.x;
    var dy := world.y - local.y;
    var cosYaw, sinYaw := 1.0, 0.0;
    var rotatedX := dx * cosYaw - dy * sinYaw;
    var rotatedY := dx * sinYaw + dy * cosYaw;
    var scale := (cfg.size / 2.0) / (cfg.maxRange * cfg.zoom);
    assert rotatedX == dx && rotatedY == dy && scale == Scale(cfg);
    Vector2(rotatedX * scale, -rotatedY * scale)
  }

  /** `RadarToScreen`: radar coordinates are offsets from the radar centre. */
  function RadarToScreen(cfg: RadarConfig, radar: Vector2): (s: Vector2)
    ensures s.x - Centre(cfg).x == radar.x && s.y - Centre(cfg).y == radar.y
    ensures radar == ScreenOrigin <==> s == Centre(cfg)
  {
    var centerX := cfg.posX + cfg.size / 2.0;
    var centerY := cfg.posY + cfg.size / 2.0;
    Vector2(centerX + radar.x, centerY + radar.y)
  }

  lemma ScaledBound(s: real, q: real, m: real)
    requires 0.0 <= q <= m * m
    ensures s * s * q <= s * s * m * m
  {
    var ss := s * s;
    SquareNonNegative(s);
    assert ss * (m * m) - ss * q == ss * (m * m - q);
    assert ss * (m * m - q) >= 0.0;
  }

  /** With zoom 1 and a positive range, every in-range player lands within half the radar size of its centre. */
  lemma InRangeStaysInsideRadar(cfg: RadarConfig, world: Vector3, local: Vector3)
    requires cfg.zoom == 1.0 && cfg.maxRange > 0.0
    requires InRadarRange(cfg, world, local)
    ensures var r := RadarToScreen(cfg, WorldToRadar(cfg, world, local));
      var ox, oy := r.x - Centre(cfg).x, r.y - Centre(cfg).y;
      ox * ox + oy * oy <= (cfg.size / 2.0) * (cfg.size / 2.0)
  {
    var dx, dy := world.x - local.x, world.y - local.y;
    var s := Scale(cfg);
    var q := dx * dx + dy * dy;
    var half := cfg.size / 2.0;
    var r := WorldToRadar(cfg, world, local);
    assert s * cfg.maxRange == half;
    assert r.x * r.x + r.y * r.y == s * s * q by {
      assert r.x == dx * s && r.y == -(dy * s);
    }
    ScaledBound(s, q, cfg.maxRange);
    assert s * s * cfg.maxRange * cfg.maxRange == half * half by {
      assert s * s * cfg.maxRange * cfg.maxRange == (s * cfg.maxRange) * (s * cfg.maxRange);
    }
  }

  // ---------------------------------------------------------------------
  // Players
  // ---------------------------------------------------------------------

  /** The radar's own filters: team, alive and range; it has no visibility or on-screen filter. */
  function RadarShows(cfg: RadarConfig, local: PlayerEntity, p: PlayerEntity): (shown: bool)
    ensures shown <==> && (cfg.showTeam || p.teamId != local.teamId)
                       && (cfg.showDead || p.isAlive)
                       && InRadarRange(cfg, p.position, local.position)
  {
    var isLocalTeam := p.teamId == local.teamId;
    if !cfg.showTeam && isLocalTeam then false
    else if !cfg.showDead && !p.isAlive then false
    else if !InRadarRange(cfg, p.position, local.position) then false
    else true
  }

  /** Unlike the ESP, the radar shows players whether or not they are visible or on screen. */
  lemma RadarIgnoresVisibility(cfg: RadarConfig, local: PlayerEntity, p: PlayerEntity, visible: bool, feet: Vector2)
    ensures RadarShows(cfg, local, p.(isVisible := visible, screenPos := feet)) == RadarShows(cfg, local, p)
  {
  }

  function RadarColor(cfg: RadarConfig, isLocalTeam: bool): (c: Color)
    ensures c == (if isLocalTeam then cfg.teamColor else cfg.enemyColor)
  {
    if isLocalTeam then cfg.teamColor else cfg.enemyColor
  }

  /** The label template; unlike the ESP's, the distance-only label has no brackets. */
  function RadarLabel(cfg: RadarConfig, p: PlayerEntity): (l: Option<Label>)
    ensures l.None? <==> !cfg.showNames && !cfg.showDistance
    ensures l.Some? && cfg.showNames ==> l.value.NameAndDistance? || l.value.NameOnly?
    ensures l.Some? && cfg.showDistance ==> l.value.NameAndDistance? || l.value.PlainDistance?
    ensures l.Some? && !l.value.PlainDistance? ==> l.value.name == CString(p.name)
    ensures l.Some? && !l.value.NameOnly? ==> l.value.distance == p.distance
    ensures l.Some? && l.value.NameAndDistance? ==> cfg.showNames && cfg.showDistance
    ensures l.Some? && l.value.NameOnly? ==> !cfg.showDistance
    ensures l.Some? && l.value.PlainDistance? ==> !cfg.showNames
  {
    if !cfg.showNames && !cfg.showDistance then None
    else if cfg.showNames && cfg.showDistance then Some(NameAndDistance(CString(p.name), p.distance))
    else if cfg.showNames then Some(NameOnly(CString(p.name)))
    else Some(PlainDistance(p.distance))
  }

  /** Where a player's dot goes. */
  function DotPosition(cfg: RadarConfig, local: PlayerEntity, p: PlayerEntity): (d: Vector2)
    requires cfg.maxRange * cfg.zoom != 0.0
    ensures d.x - Centre(cfg).x == (p.position.x - local.position.x) * Scale(cfg)
    ensures d.y - Centre(cfg).y == -((p.position.y - local.position.y) * Scale(cfg))
    ensures p.position.x == local.position.x && p.position.y == local.position.y ==> d == Centre(cfg)
  {
    RadarToScreen(cfg, WorldToRadar(cfg, p.position, local.position))
  }

  /**
   * `RenderPlayer`: a filled dot, then (if enabled) a direction line for
   * facing angle 0, i.e. pointing right, then (if a template applies) the
   * label just below the dot, all in the player's team colour.
   */
  function PlayerPrims(cfg: RadarConfig, local: PlayerEntity, p: PlayerEntity): (r: seq<Primitive>)
    requires cfg.maxRange * cfg.zoom != 0.0
    ensures var pos, color := DotPosition(cfg, local, p), RadarColor(cfg, p.teamId == local.teamId);
      && |r| == 1 + (if cfg.showDirection then 1 else 0) + (if cfg.showNames || cfg.showDistance then 1 else 0)
      && r[0] == Circle(pos, cfg.dotSize, color, true)
      && (cfg.showDirection ==> r[1] == Line(pos, Vector2(pos.x + cfg.dotSize + 5.0, pos.y), color, 2.0))
      && ((cfg.showNames || cfg.showDistance) ==>
            r[|r| - 1] == Text(Vector2(pos.x, pos.y + cfg.dotSize + 2.0), RadarLabel(cfg, p).value, color))
      && forall q | q in r :: q.color == color
  {
    var screenPos := DotPosition(cfg, local, p);
    var color := RadarColor(cfg, p.teamId == local.teamId);
    var dot := [Circle(screenPos, cfg.dotSize, color, true)];
    var angle := 0.0;
    var cosAngle, sinAngle := 1.0, 0.0;
    var lineLength := cfg.dotSize + 5.0;
    var dirEnd := Vector2(screenPos.x + cosAngle * lineLength, screenPos.y + sinAngle * lineLength);
    var direction := if cfg.showDirection then [Line(screenPos, dirEnd, color, 2.0)] else [];
    var text := match RadarLabel(cfg, p)
      case None => []
      case Some(l) => [Text(Vector2(screenPos.x, screenPos.y + cfg.dotSize + 2.0), l, color)];
    dot + direction + text
  }

  /** The players the radar draws, in list order. */
  function Shown(cfg: RadarConfig, local: PlayerEntity, ps: seq<PlayerEntity>): (r: seq<PlayerEntity>)
    ensures |r| <= |ps|
  {
    if ps == [] then []
    else
      var last := ps[|ps| - 1];
      Shown(cfg, local, ps[..|ps| - 1]) + (if RadarShows(cfg, local, last) then [last] else [])
  }

  /** The primitives of every player of `ps`, in order, unfiltered. */
  function PrimsOf(cfg: RadarConfig, local: PlayerEntity, ps: seq<PlayerEntity>): seq<Primitive>
    requires cfg.maxRange * cfg.zoom != 0.0
  {
    if ps == [] then []
    else PrimsOf(cfg, local, ps[..|ps| - 1]) + PlayerPrims(cfg, local, ps[|ps| - 1])
  }

  /** What the loop of `RenderPlayers` draws over `ps`. */
  function PlayersPrims(cfg: RadarConfig, local: PlayerEntity, ps: seq<PlayerEntity>): seq<Primitive>
    requires cfg.maxRange * cfg.zoom != 0.0
  {
    if ps == [] then []
    else
      var last := ps[|ps| - 1];
      PlayersPrims(cfg, local, ps[..|ps| - 1]) + (if RadarShows(cfg, local, last) then PlayerPrims(cfg, local, last) else [])
  }

  /** A player gets a dot iff it is listed and passes the radar's filters. */
  lemma {:induction false} ShownMembers(cfg: RadarConfig, local: PlayerEntity, ps: seq<PlayerEntity>, p: PlayerEntity)
    ensures p in Shown(cfg, local, ps) <==> p in ps && RadarShows(cfg, local, p)
    decreases |ps|
  {
    if ps != [] {
      var init := ps[..|ps| - 1];
      ShownMembers(cfg, local, init, p);
      assert ps == init + [ps[|ps| - 1]];
    }
  }

  /** The loop draws exactly the shown players, in list order. */
  lemma {:induction false} PlayersDrawShown(cfg: RadarConfig, local: PlayerEntity, ps: seq<PlayerEntity>)
    requires cfg.maxRange * cfg.zoom != 0.0
    ensures PlayersPrims(cfg, local, ps) == PrimsOf(cfg, local, Shown(cfg, local, ps))
    decreases |ps|
  {
    if ps != [] {
      var init := ps[..|ps| - 1];
      var last := ps[|ps| - 1];
      PlayersDrawShown(cfg, local, init);
      var r := Shown(cfg, local, init);
      if RadarShows(cfg, local, last) {
        var shown := r + [last];
        assert Shown(cfg, local, ps) == shown;
        assert shown[..|shown| - 1] == r && shown[|shown| - 1] == last;
        assert PrimsOf(cfg, local, shown) == PrimsOf(cfg, local, r) + PlayerPrims(cfg, local, last);
      } else {
        assert Shown(cfg, local, ps) == r;
      }
    }
  }

  // ---------------------------------------------------------------------
  // Background, grid and local player
  // ---------------------------------------------------------------------

  /** `RenderBackground`: the filled square, then its border. */
  function BackgroundPrims(cfg: RadarConfig): (r: seq<Primitive>)
    ensures |r| == 2 && r[0].RectFilled? && r[1].RectOutline?
    ensures r[1].topLeft == r[0].topLeft && r[1].bottomRight == r[0].bottomRight
    ensures r[0].bottomRight.x - r[0].topLeft.x == cfg.size == r[0].bottomRight.y - r[0].topLeft.y
    ensures (r[0].topLeft.x + r[0].bottomRight.x) / 2.0 == Centre(cfg).x
    ensures (r[0].topLeft.y + r[0].bottomRight.y) / 2.0 == Centre(cfg).y
    ensures r[0].color == cfg.backgroundColor && r[1].color == cfg.borderColor && r[1].thickness == cfg.borderThickness
  {
    var topLeft := Vector2(cfg.posX, cfg.posY);
    var bottomRight := Vector2(cfg.posX + cfg.size, cfg.posY + cfg.size);
    [RectFilled(topLeft, bottomRight, cfg.backgroundColor),
     RectOutline(topLeft, bottomRight, cfg.borderColor, cfg.borderThickness)]
  }

  /** Distance between grid lines; only used when there are at least two cells. */
  function GridStep(cfg: RadarConfig): real {
    if cfg.gridLines == 0 then 0.0 else cfg.size / cfg.gridLines as real
  }

  function VerticalGridLine(cfg: RadarConfig, i: int): Primitive {
    var x := cfg.posX + i as real * GridStep(cfg);
    Line(Vector2(x, cfg.posY), Vector2(x, cfg.posY + cfg.size), cfg.gridColor, 1.0)
  }

  function HorizontalGridLine(cfg: RadarConfig, i: int): Primitive {
    var y := cfg.posY + i as real * GridStep(cfg);
    Line(Vector2(cfg.posX, y), Vector2(cfg.posX + cfg.size, y), cfg.gridColor, 1.0)
  }

  /** Lines `1 .. gridLines - 1` of each direction; none for fewer than two cells. */
  function InnerLineCount(cfg: RadarConfig): nat {
    if cfg.gridLines > 1 then cfg.gridLines - 1 else 0
  }

  /** The centre crosshair: two 10-pixel strokes, 2 pixels thick. */
  function CrosshairPrims(cfg: RadarConfig): seq<Primitive> {
    var c := Centre(cfg);
    var arm := 5.0;
    [Line(Vector2(c.x - arm, c.y), Vector2(c.x + arm, c.y), cfg.gridColor, 2.0),
     Line(Vector2(c.x, c.y - arm), Vector2(c.x, c.y + arm), cfg.gridColor, 2.0)]
  }

  /** `RenderGrid`: the vertical lines left to right, the horizontal lines top to bottom, then the crosshair. */
  function GridPrims(cfg: RadarConfig): seq<Primitive> {
    seq(InnerLineCount(cfg), k => VerticalGridLine(cfg, k + 1))
    + seq(InnerLineCount(cfg), k => HorizontalGridLine(cfg, k + 1))
    + CrosshairPrims(cfg)
  }

  /** Every primitive of the grid is a line in the grid colour, and the crosshair's strokes cross at the centre. */
  lemma GridStyle(cfg: RadarConfig)
    ensures forall q | q in GridPrims(cfg) :: q.Line? && q.color == cfg.gridColor
    ensures var r := GridPrims(cfg);
      |r| >= 2 &&
      var c, h, v := Centre(cfg), r[|r| - 2], r[|r| - 1];
      && h.from.y == h.to.y == c.y && (h.from.x + h.to.x) / 2.0 == c.x
      && v.from.x == v.to.x == c.x && (v.from.y + v.to.y) / 2.0 == c.y
  {
  }

  lemma StepWithinSize(size: real, n: int, i: int)
    requires 1 <= i < n && size >= 0.0
    ensures 0.0 <= i as real * (size / n as real) <= size
  {
    var step := size / n as real;
    assert step * n as real == size;
    assert step >= 0.0;
    var ri, rn := i as real, n as real;
    assert ri * step <= rn * step by { assert rn * step - ri * step == (rn - ri) * step; }
    assert 0.0 <= ri * step;
  }

  /**
   * The grid has `gridLines - 1` lines each way plus the crosshair, and
   * for a non-negative size every line lies inside the radar square.
   */
  lemma GridInsideRadar(cfg: RadarConfig)
    requires cfg.size >= 0.0
    ensures |GridPrims(cfg)| == 2 * InnerLineCount(cfg) + 2
    ensures forall k | 0 <= k < 2 * InnerLineCount(cfg) ::
      && GridPrims(cfg)[k].Line?
      && cfg.posX <= GridPrims(cfg)[k].from.x <= GridPrims(cfg)[k].to.x <= cfg.posX + cfg.size
      && cfg.posY <= GridPrims(cfg)[k].from.y <= GridPrims(cfg)[k].to.y <= cfg.posY + cfg.size
  {
    var n := InnerLineCount(cfg);
    var g := GridPrims(cfg);
    forall k | 0 <= k < 2 * n
      ensures g[k].Line?
      ensures cfg.posX <= g[k].from.x <= g[k].to.x <= cfg.posX + cfg.size
      ensures cfg.posY <= g[k].from.y <= g[k].to.y <= cfg.posY + cfg.size
    {
      var i := if k < n then k + 1 else k - n + 1;
      StepWithinSize(cfg.size, cfg.gridLines, i);
      if k < n {
        assert g[k] == VerticalGridLine(cfg, i);
      } else {
        assert g[k] == HorizontalGridLine(cfg, i);
      }
    }
  }

  /** `RenderLocalPlayer`: a dot at the centre with a line pointing up (forward). */
  function LocalPrims(cfg: RadarConfig): (r: seq<Primitive>)
    ensures |r| == 2 && forall q | q in r :: q.color == cfg.localPlayerColor
    ensures r[0] == Circle(Centre(cfg), cfg.dotSize, cfg.localPlayerColor, true)
    ensures r[1] == Line(Centre(cfg), Vector2(Centre(cfg).x, Centre(cfg).y - (cfg.dotSize + 8.0)), cfg.localPlayerColor, 3.0)
    ensures cfg.dotSize > -8.0 ==> r[1].to.y < Centre(cfg).y
  {
    var c := Centre(cfg);
    var lineLength := cfg.dotSize + 8.0;
    [Circle(c, cfg.dotSize, cfg.localPlayerColor, true),
     Line(c, Vector2(c.x, c.y - lineLength), cfg.localPlayerColor, 3.0)]
  }

  /** The local player's own position maps exactly onto the marker `RenderLocalPlayer` draws. */
  lemma LocalPlayerAtCentre(cfg: RadarConfig, local: PlayerEntity)
    requires cfg.maxRange * cfg.zoom != 0.0
    ensures DotPosition(cfg, local, local) == Centre(cfg) == LocalPrims(cfg)[0].center
  {
  }

  /** A whole frame: background, grid when enabled, players, and the local marker last. */
  function Frame(cfg: RadarConfig, local: PlayerEntity, players: seq<PlayerEntity>): (r: seq<Primitive>)
    requires cfg.maxRange * cfg.zoom != 0.0
    ensures |r| == 2 + (if cfg.showGrid then |GridPrims(cfg)| else 0) + |PlayersPrims(cfg, local, players)| + 2
    ensures r[..2] == BackgroundPrims(cfg) && r[|r| - 2..] == LocalPrims(cfg)
    ensures cfg.showGrid ==> r[2..2 + |GridPrims(cfg)|] == GridPrims(cfg)
  {
    BackgroundPrims(cfg)
    + (if cfg.showGrid then GridPrims(cfg) else [])
    + PlayersPrims(cfg, local, players)
    + LocalPrims(cfg)
  }

  // ---------------------------------------------------------------------
  // The renderer
  // ---------------------------------------------------------------------

  class RadarRenderer {
    /** The shared snapshot builder; it may be null. */
    const gameData: GameData?
    var config: RadarConfig

    constructor (gameData: GameData?)
      ensures this.gameData == gameData && config == DefaultConfig
    {
      this.gameData := gameData;
      config := DefaultConfig;
    }

    method SetConfig(c: RadarConfig)
      modifies this`config
      ensures config == c
    {
      config := c;
    }

    /**
     * One frame: nothing when the radar is disabled or there is no
     * initialised snapshot builder; otherwise the background first and
     * the local player's marker last, over the shown players.
     */
    method Render() returns (drawn: seq<Primitive>)
      requires config.enabled && gameData != null && gameData.initialized ==> config.maxRange * config.zoom != 0.0
      ensures !config.enabled || gameData == null || !gameData.initialized ==> drawn == []
      ensures config.enabled && gameData != null && gameData.initialized ==>
        && drawn == Frame(config, gameData.localPlayer, gameData.players)
        && drawn[..2] == BackgroundPrims(config)
        && drawn[|drawn| - 2..] == LocalPrims(config)
    {
      if !config.enabled || gameData == null || !gameData.initialized {
        return [];
      }
      drawn := BackgroundPrims(config);
      if config.showGrid {
        var grid := RenderGrid();
        drawn := drawn + grid;
      }
      var dots := RenderPlayers();
      drawn := drawn + dots + LocalPrims(config);
    }

    /** The two counted loops and the crosshair of `RenderGrid`. */
    method RenderGrid() returns (lines: seq<Primitive>)
      ensures lines == GridPrims(config)
    {
      var cfg := config;
      var n := InnerLineCount(cfg);
      var vertical := [];
      var i := 1;
      while i < cfg.gridLines
        invariant 1 <= i <= (if cfg.gridLines > 1 then cfg.gridLines else 1)
        invariant |vertical| == i - 1
        invariant forall k | 0 <= k < i - 1 :: vertical[k] == VerticalGridLine(cfg, k + 1)
      {
        vertical := vertical + [VerticalGridLine(cfg, i)];
        i := i + 1;
      }
      assert |vertical| == n;
      var horizontal := [];
      i := 1;
      while i < cfg.gridLines
        invariant 1 <= i <= (if cfg.gridLines > 1 then cfg.gridLines else 1)
        invariant |horizontal| == i - 1
        invariant forall k | 0 <= k < i - 1 :: horizontal[k] == HorizontalGridLine(cfg, k + 1)
      {
        horizontal := horizontal + [HorizontalGridLine(cfg, i)];
        i := i + 1;
      }
      assert |horizontal| == n;
      assert vertical == seq(n, k => VerticalGridLine(cfg, k + 1));
      assert horizontal == seq(n, k => HorizontalGridLine(cfg, k + 1));
      lines := vertical + horizontal + CrosshairPrims(cfg);
    }

    /** The loop of `RenderPlayers` over the snapshot's list, in list order. */
    method RenderPlayers() returns (drawn: seq<Primitive>)
      requires gameData != null && config.maxRange * config.zoom != 0.0
      ensures drawn == PlayersPrims(config, gameData.localPlayer, gameData.players)
      ensures drawn == PrimsOf(config, gameData.localPlayer, Shown(config, gameData.localPlayer, gameData.players))
    {
      var local := gameData.localPlayer;
      var players := gameData.players;
      drawn := [];
      var i := 0;
      while i < |players|
        invariant 0 <= i <= |players|
        invariant drawn == PlayersPrims(config, local, players[..i])
      {
        var player := players[i];
        var isLocalTeam := player.teamId == local.teamId;
        if (config.showTeam || !isLocalTeam) && (config.showDead || player.isAlive)
           && InRadarRange(config, player.position, local.position) {
          drawn := drawn + PlayerPrims(config, local, player);
        }
        assert players[..i + 1][..i] == players[..i];
        i := i + 1;
      }
      assert players[..i] == players;
      PlayersDrawShown(config, local, players);
    }
  }
}
