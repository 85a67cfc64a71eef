/**
 * Value types shared by the snapshot builder and the two overlays:
 * world and screen vectors, the view matrix, the player record and the
 * closed-form rules on them. Single-precision floats are modelled as
 * `real`; unsigned and signed machine integers as bounded subset types.
 */
module Structs {

  const TWO_POW_32: int := 0x1_0000_0000
  const TWO_POW_64: int := 0x1_0000_0000_0000_0000

  type U32 = x: int | 0 <= x < TWO_POW_32
  type U64 = x: int | 0 <= x < TWO_POW_64
  type I32 = x: int | -0x8000_0000 <= x < 0x8000_0000
  type NonNegReal = r: real | r >= 0.0

  // ---------------------------------------------------------------------
  // Lengths
  // ---------------------------------------------------------------------

  /**
   * A non-negative length kept as its square. The program compares
   * results of `sqrtf` with each other or with a bound, or carries them
   * as values (stored in the record, shown in a label); the square root
   * is monotone on non-negative reals, so every comparison can be
   * decided on the squares.
   */
  datatype Length = Root(sq: NonNegReal)

  /** `a < b` on the lengths themselves. */
  predicate Shorter(a: Length, b: Length) {
    a.sq < b.sq
  }

  /** `a <= bound` for a length `a` and an arbitrary real bound. */
  predicate AtMost(a: Length, bound: real) {
    bound >= 0.0 && a.sq <= bound * bound
  }

  lemma MulNonNegative(a: real, b: real)
    requires 0.0 <= a && 0.0 <= b
    ensures 0.0 <= a * b
  {
  }

  lemma MulPositive(a: real, b: real)
    requires 0.0 < a && 0.0 < b
    ensures 0.0 < a * b
  {
  }

  /** A part of a positive whole is between none and all of it. */
  lemma RatioBetweenZeroAndOne(part: real, whole: real)
    requires whole > 0.0
    ensures 0.0 <= part <= whole ==> 0.0 <= part / whole <= 1.0
  {
    if 0.0 <= part <= whole {
      var q := part / whole;
      assert q * whole == part;
      if q < 0.0 {
        MulPositive(-q, whole);
      }
      if q > 1.0 {
        MulPositive(q - 1.0, whole);
      }
    }
  }

  lemma SquareMonotone(r: real, m: real)
    requires 0.0 <= r <= m
    ensures r * r <= m * m
  {
    MulNonNegative(r, m - r);
    MulNonNegative(m, m - r);
    assert m * m - r * r == r * (m - r) + m * (m - r);
  }

  lemma SquareStrictMonotone(r: real, m: real)
    requires 0.0 <= r < m
    ensures r * r < m * m
  {
    var d := m - r;
    MulNonNegative(r, d);
    MulPositive(m, d);
    assert m * m == (r + d) * (r + d) == r * r + r * d + d * (r + d);
    assert d * (r + d) == m * d;
  }

  /**
   * `AtMost` is exactly the comparison `sqrtf(sq) <= bound` of the
   * program: for the non-negative root `r` of `a.sq`, `AtMost(a, m)`
   * holds iff `r <= m`.
   */
  lemma AtMostMeansRootBound(a: Length, r: real, m: real)
    requires r >= 0.0 && r * r == a.sq
    ensures AtMost(a, m) <==> r <= m
  {
    if r <= m {
      SquareMonotone(r, m);
    }
    if AtMost(a, m) && r > m {
      SquareStrictMonotone(m, r);
    }
  }

  /** Likewise `Shorter(a, b)` is `ra < rb` for the roots of the squares. */
  lemma ShorterMeansRootLess(a: Length, b: Length, ra: real, rb: real)
    requires ra >= 0.0 && ra * ra == a.sq
    requires rb >= 0.0 && rb * rb == b.sq
    ensures Shorter(a, b) <==> ra < rb
  {
    if ra < rb {
      SquareStrictMonotone(ra, rb);
    }
    if Shorter(a, b) && rb <= ra {
      SquareMonotone(rb, ra);
    }
  }

  // ---------------------------------------------------------------------
  // Vectors
  // ---------------------------------------------------------------------

  lemma SquareNonNegative(d: real)
    ensures d * d >= 0.0
  {
    if d < 0.0 {
      assert d * d == (-d) * (-d);
    }
  }

  function SumOfSquares(dx: real, dy: real, dz: real): (s: NonNegReal)
  {
    SquareNonNegative(dx);
    SquareNonNegative(dy);
    SquareNonNegative(dz);
    dx * dx + dy * dy + dz * dz
  }

  lemma SquareZero(d: real)
    requires d * d == 0.0
    ensures d == 0.0
  {
    if d > 0.0 {
      SquareStrictMonotone(0.0, d);
    } else if d < 0.0 {
      SquareStrictMonotone(0.0, -d);
    }
  }

  /** A sum of three squares vanishes exactly when all three terms do. */
  lemma SumOfSquaresZero(dx: real, dy: real, dz: real)
    ensures SumOfSquares(dx, dy, dz) == 0.0 <==> dx == 0.0 && dy == 0.0 && dz == 0.0
  {
    SquareNonNegative(dx);
    SquareNonNegative(dy);
    SquareNonNegative(dz);
    if SumOfSquares(dx, dy, dz) == 0.0 {
      assert dx * dx == 0.0 && dy * dy == 0.0 && dz * dz == 0.0;
      SquareZero(dx);
      SquareZero(dy);
      SquareZero(dz);
    }
  }

  /** World-space position in metres. */
  datatype Vector3 = Vector3(x: real, y: real, z: real) {

    /** Euclidean distance to `other`: zero exactly when the two points coincide. */
    function Distance(other: Vector3): (d: Length)
      ensures d.sq == 0.0 <==> this == other
    {
      SumOfSquaresZero(x - other.x, y - other.y, z - other.z);
      Root(SumOfSquares(x - other.x, y - other.y, z - other.z))
    }
  }

  const Origin: Vector3 := Vector3(0.0, 0.0, 0.0)

  lemma {:induction false} DistanceSymmetric(a: Vector3, b: Vector3)
    ensures a.Distance(b) == b.Distance(a)
  {
    assert (a.x - b.x) * (a.x - b.x) == (b.x - a.x) * (b.x - a.x);
    assert (a.y - b.y) * (a.y - b.y) == (b.y - a.y) * (b.y - a.y);
    assert (a.z - b.z) * (a.z - b.z) == (b.z - a.z) * (b.z - a.z);
  }

  /** A 2-D point: pixel coordinates on screen (also used for draw points). */
  datatype Vector2 = Vector2(x: real, y: real) {

    /** The coarse sanity bound used for "on screen". */
    predicate IsValid() {
      x > 0.0 && y > 0.0 && x < 10000.0 && y < 10000.0
    }
  }

  const ScreenOrigin: Vector2 := Vector2(0.0, 0.0)

  /**
   * The screen bound is an open box: every point on its edges, and the
   * default (0, 0) position in particular, is invalid.
   */
  lemma ScreenBoundIsOpenBox(v: Vector2)
    ensures v.IsValid() <==> 0.0 < v.x < 10000.0 && 0.0 < v.y < 10000.0
    ensures v.x == 0.0 || v.y == 0.0 || v.x == 10000.0 || v.y == 10000.0 ==> !v.IsValid()
    ensures !ScreenOrigin.IsValid()
  {
  }

  // ---------------------------------------------------------------------
  // View matrix
  // ---------------------------------------------------------------------

  /** One row of the 4x4 matrix, applied to the homogeneous point [p, 1]. */
  datatype Row = Row(c0: real, c1: real, c2: real, c3: real) {
    function Apply(p: Vector3): real {
      c0 * p.x + c1 * p.y + c2 * p.z + c3
    }
  }

  /** Smallest clip-space `w` still projected. */
  const W_MIN: real := 0.01

  datatype ViewMatrix = ViewMatrix(r0: Row, r1: Row, r2: Row, r3: Row) {

    /**
     * Projects `world` to pixel space for a `width` x `height` viewport.
     * `screen` is the caller's output variable before the call: it is
     * returned untouched when the point is behind the camera; otherwise it
     * is overwritten, and the boolean reports whether the new point passes
     * the screen bound.
     */
    function WorldToScreen(world: Vector3, screen: Vector2, width: int, height: int): (r: (bool, Vector2))
      ensures r3.Apply(world) < W_MIN ==> !r.0 && r.1 == screen
      ensures r3.Apply(world) >= W_MIN ==>
        var w, hw, hh := r3.Apply(world), width as real / 2.0, height as real / 2.0;
        r.1 == Vector2(hw + hw * r0.Apply(world) / w, hh - hh * r1.Apply(world) / w) &&
        r.0 == r.1.IsValid()
    {
      var w := r3.Apply(world);
      if w < W_MIN then
        (false, screen)
      else
        var x := r0.Apply(world);
        var y := r1.Apply(world);
        var s := Vector2((width as real / 2.0) + (width as real / 2.0) * x / w,
                         (height as real / 2.0) - (height as real / 2.0) * y / w);
        (s.IsValid(), s)
    }
  }

  const ZeroRow: Row := Row(0.0, 0.0, 0.0, 0.0)
  const ZeroMatrix: ViewMatrix := ViewMatrix(ZeroRow, ZeroRow, ZeroRow, ZeroRow)

  /** A successful projection always lands inside the screen bound, in front of the camera. */
  lemma ProjectionSuccessMeansOnScreen(m: ViewMatrix, world: Vector3, screen: Vector2, width: int, height: int)
    ensures m.WorldToScreen(world, screen, width, height).0 ==>
              m.r3.Apply(world) >= W_MIN && m.WorldToScreen(world, screen, width, height).1.IsValid()
  {
  }

  /** A point straight ahead on the camera axis (clip x = y = 0) lands on the viewport centre. */
  lemma {:induction false} AxisPointHitsCentre(m: ViewMatrix, world: Vector3, screen: Vector2, width: int, height: int)
    requires m.r3.Apply(world) >= W_MIN
    requires m.r0.Apply(world) == 0.0 && m.r1.Apply(world) == 0.0
    ensures m.WorldToScreen(world, screen, width, height).1 == Vector2(width as real / 2.0, height as real / 2.0)
  {
    var w := m.r3.Apply(world);
    assert (width as real / 2.0) * 0.0 / w == 0.0;
    assert (height as real / 2.0) * 0.0 / w == 0.0;
  }

  /** The fixture: a camera looking down +z, the point (0, 0, 5), a 1920x1080 viewport. */
  lemma CentreFixture(screen: Vector2)
    ensures
      var m := ViewMatrix(Row(1.0, 0.0, 0.0, 0.0), Row(0.0, 1.0, 0.0, 0.0), ZeroRow, Row(0.0, 0.0, 1.0, 0.0));
      m.WorldToScreen(Vector3(0.0, 0.0, 5.0), screen, 1920, 1080) == (true, Vector2(960.0, 540.0))
  {
    var m := ViewMatrix(Row(1.0, 0.0, 0.0, 0.0), Row(0.0, 1.0, 0.0, 0.0), ZeroRow, Row(0.0, 0.0, 1.0, 0.0));
    AxisPointHitsCentre(m, Vector3(0.0, 0.0, 5.0), screen, 1920, 1080);
  }

  // ---------------------------------------------------------------------
  // Player records
  // ---------------------------------------------------------------------

  /** Size of the fixed `char name[64]` buffer. */
  const NAME_SIZE: nat := 64

  datatype PlayerEntity = PlayerEntity(
    address: U64,
    teamId: U32,
    health: real,
    maxHealth: real,
    position: Vector3,
    velocity: Vector3,
    name: seq<char>,
    isAlive: bool,
    isVisible: bool,
    isLocal: bool,
    distance: Length,
    screenPos: Vector2,
    headScreenPos: Vector2)
  {
    predicate IsValid() {
      address != 0 && isAlive && health > 0.0
    }

    predicate IsEnemy(localTeam: U32) {
      teamId != localTeam && teamId != 0
    }

    function HealthPercent(): (pct: real)
      ensures maxHealth <= 0.0 ==> pct == 0.0
      ensures maxHealth > 0.0 && health == maxHealth ==> pct == 100.0
      ensures maxHealth > 0.0 && 0.0 <= health <= maxHealth ==> 0.0 <= pct <= 100.0
    {
      if maxHealth <= 0.0 then 0.0
      else
        RatioBetweenZeroAndOne(health, maxHealth);
        (health / maxHealth) * 100.0
    }

    /** The name buffer has its fixed size and its terminating NUL. */
    predicate NameTerminated() {
      |name| == NAME_SIZE && name[NAME_SIZE - 1] == '\0'
    }
  }

  /** The record as the default constructor leaves it. */
  function NewPlayer(): (p: PlayerEntity)
  {
    PlayerEntity(0, 0, 0.0, 100.0, Origin, Origin, seq(NAME_SIZE, _ => '\0'),
                 false, false, false, Root(0.0), ScreenOrigin, ScreenOrigin)
  }

  /** A default-constructed record: null address, full-scale health, empty name, and not valid. */
  lemma NewPlayerFacts()
    ensures NewPlayer().address == 0 && NewPlayer().maxHealth == 100.0
    ensures forall i :: 0 <= i < |NewPlayer().name| ==> NewPlayer().name[i] == '\0'
    ensures |NewPlayer().name| == NAME_SIZE && NewPlayer().NameTerminated()
    ensures !NewPlayer().IsValid()
  {
  }

  /** Validity is the conjunction of a non-null address, the alive flag and positive health. */
  lemma ValidityCharacterised(p: PlayerEntity)
    ensures p.IsValid() <==> p.address != 0 && p.isAlive && p.health > 0.0
    ensures p.health <= 0.0 ==> !p.IsValid()
  {
  }

  /** Team 0 is neutral: never an enemy; any other team is an enemy of every other team. */
  lemma EnemyCharacterised(p: PlayerEntity, localTeam: U32)
    ensures p.teamId == 0 || p.teamId == localTeam ==> !p.IsEnemy(localTeam)
    ensures p.teamId != 0 && p.teamId != localTeam ==> p.IsEnemy(localTeam)
  {
  }

  /** One skeleton bone as read from the bone array. */
  datatype Bone = Bone(position: Vector3, parentIndex: int)
}
