/**
 * What one update cycle of the snapshot builder computes, as functions of
 * the remote memory and the previous snapshot, and the properties of a
 * snapshot those functions guarantee. The class `Game.GameData` is proved
 * against these definitions.
 */
module GameSpec {
  import opened Structs
  import opened Driver

  /** Offsets into the target's memory; they change with every build of the target. */
  datatype Layout = Layout(
    gameContext: U64, entityList: U64, localPlayer: U64, viewMatrix: U64,  // from the base address
    health: U64, maxHealth: U64, teamId: U64, position: U64, velocity: U64,
    name: U64, isAlive: U64, isVisible: U64,                                // inside an entity
    boneArray: U64, boneCount: U64)                                         // inside a bone component

  /** Where the entity count sits after the entity-list pointer, and the size of one slot. */
  const COUNT_OFFSET: nat := 0x8
  const SLOT_SIZE: nat := 0x8
  const MAX_ENTITIES: nat := 128
  /** sizeof(Vector3): stride of the bone array. */
  const BONE_STRIDE: nat := 12
  const MAX_BONES: nat := 256

  /** The viewport size that screen positions are computed for. */
  const SCREEN_WIDTH: int := 1920
  const SCREEN_HEIGHT: int := 1080
  /** Height added to the position to approximate the head. */
  const HEAD_HEIGHT: real := 1.8

  // ---------------------------------------------------------------------
  // Reading one entity
  // ---------------------------------------------------------------------

  /**
   * Every field read of `ReadPlayerEntity`, applied to the caller's record
   * `player`: scalar fields take the read value (zero on failure), the
   * vectors and the name keep their old value when their read fails, and
   * the name read copies at most NAME_SIZE - 1 characters, so the last
   * character of the buffer is never written.
   */
  function ReadFields(mem: Process, lay: Layout, address: U64, player: PlayerEntity): (p: PlayerEntity)
    requires |player.name| == NAME_SIZE
    ensures p.address == address
    ensures |p.name| == NAME_SIZE && p.name[NAME_SIZE - 1] == player.name[NAME_SIZE - 1]
    ensures player.NameTerminated() ==> p.NameTerminated()
    ensures p.isLocal == player.isLocal && p.distance == player.distance
    ensures p.screenPos == player.screenPos && p.headScreenPos == player.headScreenPos
  {
    var namePtr := ReadU64(mem, Plus(address, lay.name));
    player.(
      address := address,
      health := ReadF32(mem, Plus(address, lay.health)),
      maxHealth := ReadF32(mem, Plus(address, lay.maxHealth)),
      teamId := ReadU32(mem, Plus(address, lay.teamId)),
      isAlive := ReadBool(mem, Plus(address, lay.isAlive)),
      isVisible := ReadBool(mem, Plus(address, lay.isVisible)),
      position := ReadMemory(mem.attached, mem.vectors, Plus(address, lay.position), player.position).1,
      velocity := ReadMemory(mem.attached, mem.vectors, Plus(address, lay.velocity), player.velocity).1,
      name := if namePtr != 0 then ReadBytes(mem, namePtr, NAME_SIZE - 1, player.name).1 else player.name)
  }

  /** The distance line of `ReadPlayerEntity`: only set while the local player's address is known. */
  function WithDistance(p: PlayerEntity, localAddress: U64, localPosition: Vector3): (r: PlayerEntity)
    ensures r.(distance := p.distance) == p
    ensures localAddress == 0 ==> r.distance == p.distance
    ensures localAddress != 0 ==> r.distance == p.position.Distance(localPosition)
  {
    if localAddress != 0 then p.(distance := p.position.Distance(localPosition)) else p
  }

  // ---------------------------------------------------------------------
  // The three steps of a cycle
  // ---------------------------------------------------------------------

  /** `UpdateViewMatrix`: the matrix read straight into the stored one. */
  function ViewMatrixStep(mem: Process, matrixAddr: U64, matrix: ViewMatrix): (r: (bool, ViewMatrix))
    ensures r.0 <==> mem.attached && matrixAddr != 0 && matrixAddr in mem.matrices
    ensures r.0 ==> r.1 == mem.matrices[matrixAddr]
    ensures !r.0 ==> r.1 == matrix
  {
    ReadMemory(mem.attached, mem.matrices, matrixAddr, matrix)
  }

  /**
   * `UpdateLocalPlayer`: follows the local-player pointer and re-reads the
   * stored record in place. The record is its own out-parameter, so the
   * distance line compares the freshly read position with itself.
   */
  function LocalPlayerStep(mem: Process, lay: Layout, localAddr: U64, local: PlayerEntity): (r: (bool, PlayerEntity))
    requires |local.name| == NAME_SIZE
    ensures ReadU64(mem, localAddr) == 0 ==> !r.0 && r.1 == local
    ensures ReadU64(mem, localAddr) != 0 ==>
      && r.1.address == ReadU64(mem, localAddr) && r.1.isLocal && r.1.distance.sq == 0.0
      && (r.0 <==> r.1.IsValid())
  {
    var ptr := ReadU64(mem, localAddr);
    if ptr == 0 then
      (false, local)
    else
      var p := ReadFields(mem, lay, ptr, local.(address := ptr, isLocal := true));
      var q := WithDistance(p, p.address, p.position);
      (q.IsValid(), q)
  }

  /** The record `ReadPlayerEntity` builds for list slot `address` from a fresh record. */
  function EntityRecord(mem: Process, lay: Layout, address: U64, local: PlayerEntity): PlayerEntity
  {
    WithDistance(ReadFields(mem, lay, address, NewPlayer()), local.address, local.position)
  }

  /** Address of slot `i` of the entity array. */
  function SlotAddress(entityArray: U64, i: nat): U64
  {
    Plus(entityArray, i * SLOT_SIZE)
  }

  /**
   * What the loop of `UpdatePlayers` appends for slot `i`: nothing for a
   * null slot or the local player's own address, otherwise the entity read
   * there when it is valid and within `maxDistance`.
   */
  function SlotEntries(mem: Process, lay: Layout, entityArray: U64, i: nat, local: PlayerEntity, maxDistance: real)
    : (r: seq<PlayerEntity>)
    ensures |r| <= 1
  {
    var addr := ReadU64(mem, SlotAddress(entityArray, i));
    if addr == 0 || addr == local.address then []
    else
      var p := EntityRecord(mem, lay, addr, local);
      // ReadPlayerEntity reports p.IsValid(); the caller then tests distance and validity again
      if p.IsValid() && AtMost(p.distance, maxDistance) && p.IsValid() then [p] else []
  }

  /** The entities the loop appends over its first `n` slots, in slot order. */
  function Accepted(mem: Process, lay: Layout, entityArray: U64, n: nat, local: PlayerEntity, maxDistance: real)
    : (ps: seq<PlayerEntity>)
    ensures |ps| <= n
  {
    if n == 0 then []
    else Accepted(mem, lay, entityArray, n - 1, local, maxDistance) + SlotEntries(mem, lay, entityArray, n - 1, local, maxDistance)
  }

  /**
   * Every accepted entity has a non-null address other than the local
   * player's, is valid, lies within `maxDistance`, has its terminated name
   * buffer, is not flagged local, has no screen position yet, and has its
   * distance measured from the local position once that is known.
   */
  lemma {:induction false} AcceptedEntries(mem: Process, lay: Layout, entityArray: U64, n: nat, local: PlayerEntity,
                                           maxDistance: real)
    ensures forall p | p in Accepted(mem, lay, entityArray, n, local, maxDistance) ::
      && p.address != 0 && p.address != local.address
      && p.IsValid() && AtMost(p.distance, maxDistance)
      && p.NameTerminated() && !p.isLocal
      && p.screenPos == ScreenOrigin && p.headScreenPos == ScreenOrigin
      && (local.address != 0 ==> p.distance == p.position.Distance(local.position))
  {
    if n > 0 {
      AcceptedEntries(mem, lay, entityArray, n - 1, local, maxDistance);
      var addr := ReadU64(mem, SlotAddress(entityArray, n - 1));
      if addr != 0 && addr != local.address {
        NewPlayerFacts();
      }
    }
  }

  /** The sort key of the player list (squared distance orders like the root). */
  function DistanceKey(p: PlayerEntity): real {
    p.distance.sq
  }

  /** `ps` is in non-decreasing order of `key`. */
  ghost predicate SortedBy<T>(ps: seq<T>, key: T -> real) {
    forall i, j :: 0 <= i < j < |ps| ==> key(ps[i]) <= key(ps[j])
  }

  /** The order `UpdatePlayers` leaves the list in: ascending distance. */
  ghost predicate SortedByDistance(ps: seq<PlayerEntity>) {
    SortedBy(ps, DistanceKey)
  }

  /**
   * A list sorted by distance is what `std::sort` with the comparator
   * `a.distance < b.distance` promises: no later entry is `Shorter` than
   * an earlier one.
   */
  lemma SortedMeansNoInversion(ps: seq<PlayerEntity>)
    ensures SortedByDistance(ps) <==>
      forall i, j | 0 <= i < j < |ps| :: !Shorter(ps[j].distance, ps[i].distance)
  {
  }

  /**
   * `UpdatePlayers` produced `ps` and reported `ok`: it fails (with an empty
   * list) on a null list pointer, a count outside 1..128 or a null array;
   * otherwise `ps` is the accepted entities in some order sorted by distance.
   * Which of several equally distant entities comes first is left open.
   */
  ghost predicate PlayersOutcome(mem: Process, lay: Layout, listAddr: U64, local: PlayerEntity, maxDistance: real,
                                 ok: bool, ps: seq<PlayerEntity>)
  {
    var listPtr := ReadU64(mem, listAddr);
    var count := ReadU32(mem, Plus(listPtr, COUNT_OFFSET));
    var entityArray := ReadU64(mem, listPtr);
    && ok == (listPtr != 0 && 1 <= count <= MAX_ENTITIES && entityArray != 0)
    && (!ok ==> ps == [])
    && (ok ==> SortedByDistance(ps) && multiset(ps) == multiset(Accepted(mem, lay, entityArray, count, local, maxDistance)))
  }

  /** `CalculateScreenPositions` for one record: feet at the position, head 1.8 above it. */
  function Project(p: PlayerEntity, m: ViewMatrix): (r: PlayerEntity)
    ensures r.(screenPos := p.screenPos, headScreenPos := p.headScreenPos) == p
    ensures r.screenPos == m.WorldToScreen(p.position, p.screenPos, SCREEN_WIDTH, SCREEN_HEIGHT).1
    ensures r.headScreenPos == m.WorldToScreen(Vector3(p.position.x, p.position.y, p.position.z + 1.8),
                                               p.headScreenPos, SCREEN_WIDTH, SCREEN_HEIGHT).1
  {
    var head := p.position.(z := p.position.z + HEAD_HEIGHT);
    p.(screenPos := m.WorldToScreen(p.position, p.screenPos, SCREEN_WIDTH, SCREEN_HEIGHT).1,
       headScreenPos := m.WorldToScreen(head, p.headScreenPos, SCREEN_WIDTH, SCREEN_HEIGHT).1)
  }

  /** Projection of a whole list: only the two screen positions of each record change. */
  function ProjectAll(ps: seq<PlayerEntity>, m: ViewMatrix): (r: seq<PlayerEntity>)
    ensures |r| == |ps|
    ensures forall i :: 0 <= i < |ps| ==>
      r[i] == Project(ps[i], m) &&
      r[i].(screenPos := ps[i].screenPos, headScreenPos := ps[i].headScreenPos) == ps[i]
  {
    seq(|ps|, i requires 0 <= i < |ps| => Project(ps[i], m))
  }

  // ---------------------------------------------------------------------
  // One whole cycle
  // ---------------------------------------------------------------------

  /** The state one call of `Update` may change. */
  datatype Snapshot = Snapshot(players: seq<PlayerEntity>, local: PlayerEntity, matrix: ViewMatrix, lastUpdate: U32)

  /** The state `Update` reads but never changes. */
  datatype Setup = Setup(initialized: bool, layout: Layout, entityList: U64, localPlayerAddr: U64,
                         viewMatrixAddr: U64, maxDistance: real, updateRateMs: I32)

  /**
   * The rate limit: fewer than `rate` milliseconds since the last cycle.
   * The difference of the two tick counts is taken modulo 2^32 and the
   * signed rate is converted to unsigned, as 32-bit C arithmetic does.
   */
  predicate Throttled(now: U32, last: U32, rate: I32): (throttled: bool)
    ensures rate == 0 ==> !throttled
    ensures now == last && rate != 0 ==> throttled
  {
    (now - last) % TWO_POW_32 < rate % TWO_POW_32
  }

  /**
   * One call of `Update` at tick `now` turned `s` into `s2` and returned `ok`.
   * Uninitialised: failure, no change. Throttled: success, no change.
   * Otherwise the tick is recorded first and the rest is `RefreshOutcome`.
   */
  ghost predicate UpdateOutcome(setup: Setup, mem: Process, now: U32, s: Snapshot, ok: bool, s2: Snapshot)
    requires |s.local.name| == NAME_SIZE
  {
    if !setup.initialized then !ok && s2 == s
    else if Throttled(now, s.lastUpdate, setup.updateRateMs) then ok && s2 == s
    else RefreshOutcome(setup, mem, s.(lastUpdate := now), ok, s2)
  }

  /**
   * The part of a cycle that runs under the snapshot lock turned `s` into
   * `s2`: the view matrix, the local player and the player list are read
   * in that order, stopping at the first failure; screen positions are
   * computed only after all three. The tick is not touched.
   */
  ghost predicate RefreshOutcome(setup: Setup, mem: Process, s: Snapshot, ok: bool, s2: Snapshot)
    requires |s.local.name| == NAME_SIZE
  {
    var matrixStep := ViewMatrixStep(mem, setup.viewMatrixAddr, s.matrix);
    var m := matrixStep.1;
    if !matrixStep.0 then !ok && s2 == s
    else
      var localStep := LocalPlayerStep(mem, setup.layout, setup.localPlayerAddr, s.local);
      var l := localStep.1;
      if !localStep.0 then !ok && s2 == s.(matrix := m, local := l)
      else
        && s2.lastUpdate == s.lastUpdate && s2.matrix == m && s2.local == l
        && exists ps :: PlayersOutcome(mem, setup.layout, setup.entityList, l, setup.maxDistance, ok, ps)
                        && s2.players == (if ok then ProjectAll(ps, m) else ps)
  }

  /** The last step of a cycle that got past the matrix and the local player: the list, projected on success. */
  lemma RefreshReachesPlayers(setup: Setup, mem: Process, s: Snapshot, m: ViewMatrix, l: PlayerEntity,
                              ok: bool, ps: seq<PlayerEntity>)
    requires |s.local.name| == NAME_SIZE
    requires ViewMatrixStep(mem, setup.viewMatrixAddr, s.matrix) == (true, m)
    requires LocalPlayerStep(mem, setup.layout, setup.localPlayerAddr, s.local) == (true, l)
    requires PlayersOutcome(mem, setup.layout, setup.entityList, l, setup.maxDistance, ok, ps)
    ensures RefreshOutcome(setup, mem, s, ok, Snapshot(if ok then ProjectAll(ps, m) else ps, l, m, s.lastUpdate))
  {
  }

  /** Projection keeps every name buffer's terminating NUL. */
  lemma ProjectAllKeepsNames(ps: seq<PlayerEntity>, m: ViewMatrix)
    requires forall p | p in ps :: p.NameTerminated()
    ensures forall p | p in ProjectAll(ps, m) :: p.NameTerminated()
  {
    var r := ProjectAll(ps, m);
    forall p | p in r ensures p.NameTerminated() {
      var k :| 0 <= k < |r| && r[k] == p;
      assert ps[k] in ps;
    }
  }

  // ---------------------------------------------------------------------
  // Properties
  // ---------------------------------------------------------------------

  /** The local-player step keeps the name buffer's terminating NUL, whether or not it succeeds. */
  lemma LocalPlayerStepFacts(mem: Process, lay: Layout, localAddr: U64, local: PlayerEntity)
    requires local.NameTerminated()
    ensures LocalPlayerStep(mem, lay, localAddr, local).1.NameTerminated()
  {
  }

  /** Sorting cannot lose entries: a permutation has the same members. */
  lemma PermutationMembers(ps: seq<PlayerEntity>, qs: seq<PlayerEntity>)
    requires multiset(ps) == multiset(qs)
    ensures |ps| == |qs|
    ensures forall p :: p in ps <==> p in qs
  {
    assert |ps| == |multiset(ps)| == |multiset(qs)| == |qs|;
    forall p ensures p in ps <==> p in qs {
      assert p in ps <==> p in multiset(ps);
      assert p in qs <==> p in multiset(qs);
    }
  }

  /** Sorting by distance survives projection, which changes only screen positions. */
  lemma ProjectAllKeepsOrder(ps: seq<PlayerEntity>, m: ViewMatrix)
    requires SortedByDistance(ps)
    ensures SortedByDistance(ProjectAll(ps, m))
  {
    var r := ProjectAll(ps, m);
    forall i, j | 0 <= i < j < |r| ensures r[i].distance.sq <= r[j].distance.sq {
      assert r[i].distance == ps[i].distance && r[j].distance == ps[j].distance;
    }
  }

  /** What projection does to entries fresh from the entity loop: screen positions from the matrix. */
  lemma ProjectedEntries(ps: seq<PlayerEntity>, m: ViewMatrix, local: PlayerEntity, maxDistance: real)
    requires forall p | p in ps ::
      && p.address != 0 && p.address != local.address
      && p.IsValid() && AtMost(p.distance, maxDistance) && p.NameTerminated()
      && p.screenPos == ScreenOrigin && p.headScreenPos == ScreenOrigin
      && p.distance == p.position.Distance(local.position)
    ensures forall p | p in ProjectAll(ps, m) ::
      && p.address != 0 && p.address != local.address
      && p.IsValid() && AtMost(p.distance, maxDistance) && p.NameTerminated()
      && p.distance == p.position.Distance(local.position)
      && p.screenPos == m.WorldToScreen(p.position, ScreenOrigin, SCREEN_WIDTH, SCREEN_HEIGHT).1
      && p.headScreenPos == m.WorldToScreen(p.position.(z := p.position.z + HEAD_HEIGHT), ScreenOrigin,
                                            SCREEN_WIDTH, SCREEN_HEIGHT).1
  {
    var r := ProjectAll(ps, m);
    forall p | p in r
      ensures p.address != 0 && p.address != local.address
      ensures p.IsValid() && AtMost(p.distance, maxDistance) && p.NameTerminated()
      ensures p.distance == p.position.Distance(local.position)
      ensures p.screenPos == m.WorldToScreen(p.position, ScreenOrigin, SCREEN_WIDTH, SCREEN_HEIGHT).1
      ensures p.headScreenPos == m.WorldToScreen(p.position.(z := p.position.z + HEAD_HEIGHT), ScreenOrigin,
                                                 SCREEN_WIDTH, SCREEN_HEIGHT).1
    {
      var i :| 0 <= i < |r| && r[i] == p;
      assert ps[i] in ps;
    }
  }

  /**
   * The player list of the step: empty on failure; on success sorted by
   * distance, at most 128 entries, each with a non-null address other than
   * the local player's, valid, within the builder's maximum distance,
   * measured from the local position, and with screen positions not yet set.
   */
  lemma PlayersOutcomeEntries(mem: Process, lay: Layout, listAddr: U64, local: PlayerEntity, maxDistance: real,
                              ok: bool, ps: seq<PlayerEntity>)
    requires PlayersOutcome(mem, lay, listAddr, local, maxDistance, ok, ps)
    ensures !ok ==> ps == []
    ensures ok ==> SortedByDistance(ps) && |ps| <= MAX_ENTITIES
    ensures forall p | p in ps ::
      && p.address != 0 && p.address != local.address
      && p.IsValid() && AtMost(p.distance, maxDistance) && p.NameTerminated()
      && p.screenPos == ScreenOrigin && p.headScreenPos == ScreenOrigin
      && (local.address != 0 ==> p.distance == p.position.Distance(local.position))
  {
    if ok {
      var listPtr := ReadU64(mem, listAddr);
      var count := ReadU32(mem, Plus(listPtr, COUNT_OFFSET));
      var entityArray := ReadU64(mem, listPtr);
      PermutationMembers(ps, Accepted(mem, lay, entityArray, count, local, maxDistance));
      AcceptedEntries(mem, lay, entityArray, count, local, maxDistance);
    }
  }

  /**
   * The snapshot after a full, successful cycle: the new tick is recorded;
   * the local player is valid and flagged local; the player list is sorted
   * by distance, holds at most 128 valid entries, none of them null or the
   * local player, all within the maximum distance and measured from the new
   * local position; each entry's screen positions come from this cycle's
   * matrix (from a fresh (0, 0) start); the local player's screen positions
   * are not recomputed.
   */
  lemma CycleSnapshotInvariant(setup: Setup, mem: Process, now: U32, s: Snapshot, ok: bool, s2: Snapshot)
    requires s.local.NameTerminated()
    requires UpdateOutcome(setup, mem, now, s, ok, s2)
    requires setup.initialized && !Throttled(now, s.lastUpdate, setup.updateRateMs) && ok
    ensures s2.lastUpdate == now
    ensures s2.local.IsValid() && s2.local.isLocal && s2.local.NameTerminated()
    ensures s2.local.screenPos == s.local.screenPos && s2.local.headScreenPos == s.local.headScreenPos
    ensures SortedByDistance(s2.players) && |s2.players| <= MAX_ENTITIES
    ensures forall p | p in s2.players ::
      && p.address != 0 && p.address != s2.local.address
      && p.IsValid() && AtMost(p.distance, setup.maxDistance) && p.NameTerminated()
      && p.distance == p.position.Distance(s2.local.position)
      && p.screenPos == s2.matrix.WorldToScreen(p.position, ScreenOrigin, SCREEN_WIDTH, SCREEN_HEIGHT).1
      && p.headScreenPos == s2.matrix.WorldToScreen(p.position.(z := p.position.z + HEAD_HEIGHT), ScreenOrigin,
                                                    SCREEN_WIDTH, SCREEN_HEIGHT).1
  {
    var m := ViewMatrixStep(mem, setup.viewMatrixAddr, s.matrix).1;
    var l := LocalPlayerStep(mem, setup.layout, setup.localPlayerAddr, s.local).1;
    LocalPlayerStepFacts(mem, setup.layout, setup.localPlayerAddr, s.local);
    var ps :| PlayersOutcome(mem, setup.layout, setup.entityList, l, setup.maxDistance, ok, ps)
              && s2.players == ProjectAll(ps, m);
    PlayersOutcomeEntries(mem, setup.layout, setup.entityList, l, setup.maxDistance, ok, ps);
    ProjectAllKeepsOrder(ps, m);
    ProjectedEntries(ps, m, l, setup.maxDistance);
  }

  /**
   * A second call within the rate-limit window is a no-op: it succeeds and
   * leaves the snapshot as the first call left it, whatever the remote
   * memory holds by then, so it performs no read.
   */
  lemma RepeatWithinWindowIsNoOp(setup: Setup, mem: Process, mem2: Process, now: U32, now2: U32,
                                 s: Snapshot, ok: bool, s2: Snapshot, ok2: bool, s3: Snapshot)
    requires s.local.NameTerminated()
    requires UpdateOutcome(setup, mem, now, s, ok, s2)
    requires setup.initialized && !Throttled(now, s.lastUpdate, setup.updateRateMs)
    requires (now2 - now) % TWO_POW_32 < setup.updateRateMs % TWO_POW_32
    requires s2.local.NameTerminated()
    requires UpdateOutcome(setup, mem2, now2, s2, ok2, s3)
    ensures s2.lastUpdate == now
    ensures ok2 && s3 == s2
  {
    var (mOk, m) := ViewMatrixStep(mem, setup.viewMatrixAddr, s.matrix);
    if mOk {
      var (lOk, l) := LocalPlayerStep(mem, setup.layout, setup.localPlayerAddr, s.local);
    }
  }

  /**
   * The tick count wraps after 2^32 ms; the unsigned difference still
   * measures elapsed time, so a non-negative rate throttles exactly the
   * calls fewer than `rate` ms after the last cycle, across the wrap too.
   */
  lemma {:induction false} ThrottleAcrossWrap(last: U32, elapsed: nat, rate: I32)
    requires elapsed < TWO_POW_32 && rate >= 0
    ensures Throttled((last + elapsed) % TWO_POW_32, last, rate) <==> elapsed < rate
  {
    var now := (last + elapsed) % TWO_POW_32;
    if last + elapsed < TWO_POW_32 {
      assert now - last == elapsed;
    } else {
      assert now == last + elapsed - TWO_POW_32;
      assert now - last == elapsed - TWO_POW_32;
    }
    assert (now - last) % TWO_POW_32 == elapsed;
  }

  /**
   * A negative update rate becomes a huge unsigned one (2^32 + rate): a call
   * is throttled unless at least that many milliseconds have passed, so with
   * rate -1 only an elapsed time of 2^32 - 1 ms lets a cycle run.
   */
  lemma NegativeRateThrottlesAlmostAlways(now: U32, last: U32, rate: I32)
    requires rate < 0
    ensures Throttled(now, last, rate) <==> (now - last) % TWO_POW_32 < TWO_POW_32 + rate
    ensures rate == -1 ==> (Throttled(now, last, rate) <==> (now - last) % TWO_POW_32 != TWO_POW_32 - 1)
  {
  }
}
