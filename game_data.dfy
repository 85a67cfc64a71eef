/**
 * The snapshot builder: a long-lived object that resolves the target's
 * fixed addresses once and then, on each throttled call of `Update`,
 * re-reads the view matrix, the local player and the player list. Its
 * methods are proved against the cycle functions of `GameSpec`.
 */
module Game {
  import opened Structs
  import opened Driver
  import opened GameSpec

  // ---------------------------------------------------------------------
  // Sorting the player list (std::sort by ascending distance)
  // ---------------------------------------------------------------------

  /** Inserts `x` before the first entry of `ps` whose key is larger than its own. */
  function InsertBy<T>(x: T, ps: seq<T>, key: T -> real): (r: seq<T>)
    ensures multiset(r) == multiset(ps) + multiset{x}
    decreases |ps|
  {
    if ps == [] || key(x) <= key(ps[0]) then
      [x] + ps
    else
      assert ps == [ps[0]] + ps[1..];
      [ps[0]] + InsertBy(x, ps[1..], key)
  }

  /** Entries that all lie at or above a bound still do after a rearrangement. */
  lemma BoundSurvivesPermutation<T>(lo: real, xs: seq<T>, ys: seq<T>, key: T -> real)
    requires multiset(xs) == multiset(ys)
    requires forall q | q in ys :: lo <= key(q)
    ensures forall q | q in xs :: lo <= key(q)
  {
    forall q | q in xs ensures lo <= key(q) {
      assert q in multiset(xs);
      assert q in multiset(ys);
    }
  }

  /** A sorted list stays sorted under a new head no larger than any of its entries. */
  lemma PrependKeepsSorted<T>(h: T, rest: seq<T>, key: T -> real)
    requires SortedBy(rest, key)
    requires forall q | q in rest :: key(h) <= key(q)
    ensures SortedBy([h] + rest, key)
  {
    var r := [h] + rest;
    forall i, j | 0 <= i < j < |r| ensures key(r[i]) <= key(r[j]) {
      if i == 0 {
        assert r[j] in rest;
      } else {
        assert r[i] == rest[i - 1] && r[j] == rest[j - 1];
      }
    }
  }

  /** Every entry of a sorted list is at least its head. */
  lemma HeadIsLeast<T>(ps: seq<T>, key: T -> real)
    requires SortedBy(ps, key) && ps != []
    ensures forall q | q in ps[1..] :: key(ps[0]) <= key(q)
  {
    forall q | q in ps[1..] ensures key(ps[0]) <= key(q) {
      var k :| 0 <= k < |ps[1..]| && ps[1..][k] == q;
      assert q == ps[k + 1];
    }
  }

  /** Insertion keeps a list sorted. */
  lemma {:induction false} InsertByKeepsSorted<T>(x: T, ps: seq<T>, key: T -> real)
    requires SortedBy(ps, key)
    ensures SortedBy(InsertBy(x, ps, key), key)
    decreases |ps|
  {
    if ps == [] || key(x) <= key(ps[0]) {
      if ps != [] {
        HeadIsLeast(ps, key);
        assert forall q | q in ps :: key(x) <= key(q) by {
          assert ps == [ps[0]] + ps[1..];
        }
      }
      PrependKeepsSorted(x, ps, key);
    } else {
      var tail := ps[1..];
      var rest := InsertBy(x, tail, key);
      InsertByKeepsSorted(x, tail, key);
      HeadIsLeast(ps, key);
      assert forall q | q in tail + [x] :: key(ps[0]) <= key(q);
      BoundSurvivesPermutation(key(ps[0]), rest, tail + [x], key);
      PrependKeepsSorted(ps[0], rest, key);
    }
  }

  /**
   * Sorts by ascending distance. Only the order of the distances is
   * promised: the result is some sorted permutation, as with `std::sort`,
   * which is not stable.
   */
  method SortByDistance(ps: seq<PlayerEntity>) returns (r: seq<PlayerEntity>)
    ensures SortedByDistance(r)
    ensures multiset(r) == multiset(ps)
  {
    r := [];
    var i := 0;
    while i < |ps|
      invariant 0 <= i <= |ps|
      invariant SortedBy(r, DistanceKey)
      invariant multiset(r) == multiset(ps[..i])
    {
      assert ps[..i + 1] == ps[..i] + [ps[i]];
      InsertByKeepsSorted(ps[i], r, DistanceKey);
      r := InsertBy(ps[i], r, DistanceKey);
      i := i + 1;
    }
    assert ps[..i] == ps;
  }

  // ---------------------------------------------------------------------
  // The builder
  // ---------------------------------------------------------------------

  class GameData {
    // the snapshot
    var players: seq<PlayerEntity>
    var localPlayer: PlayerEntity
    var viewMatrix: ViewMatrix
    // addresses resolved once from the base address
    var gameContext: U64
    var entityList: U64
    var localPlayerAddr: U64
    var viewMatrixAddr: U64
    // configuration
    var maxDistance: real
    var updateRateMs: I32
    var lastUpdate: U32
    var initialized: bool
    const layout: Layout

    /** Every stored record keeps its 64-character, NUL-terminated name buffer. */
    ghost predicate Valid()
      reads this
    {
      localPlayer.NameTerminated() && forall p | p in players :: p.NameTerminated()
    }

    ghost function Snap(): Snapshot
      reads this
    {
      Snapshot(players, localPlayer, viewMatrix, lastUpdate)
    }

    ghost function Config(): Setup
      reads this
    {
      Setup(initialized, layout, entityList, localPlayerAddr, viewMatrixAddr, maxDistance, updateRateMs)
    }

    /**
     * Constructs the builder and initialises it from `base`, the target's
     * base address (0 when it cannot be resolved). The view matrix is not
     * initialised by the constructor; its value is left unspecified.
     */
    constructor (base: U64, layout: Layout)
      ensures Valid()
      ensures this.layout == layout
      ensures players == [] && localPlayer == NewPlayer()
      ensures maxDistance == 500.0 && updateRateMs == 10 && lastUpdate == 0
      ensures initialized <==> base != 0
      ensures base != 0 ==> entityList == Plus(base, layout.entityList) && gameContext == Plus(base, layout.gameContext)
                            && localPlayerAddr == Plus(base, layout.localPlayer)
                            && viewMatrixAddr == Plus(base, layout.viewMatrix)
      ensures base == 0 ==> gameContext == 0 && entityList == 0 && localPlayerAddr == 0 && viewMatrixAddr == 0
    {
      this.layout := layout;
      players := [];
      localPlayer := NewPlayer();
      viewMatrix := ZeroMatrix;
      gameContext, entityList, localPlayerAddr, viewMatrixAddr := 0, 0, 0, 0;
      maxDistance := 500.0;
      updateRateMs := 10;
      lastUpdate := 0;
      initialized := false;
      new;
      var _ := Initialize(base);
    }

    /** Marks the builder initialised once the base addresses are found; a failure never un-initialises it. */
    method Initialize(base: U64) returns (ok: bool)
      modifies this`initialized, this`gameContext, this`entityList, this`localPlayerAddr, this`viewMatrixAddr
      ensures ok <==> base != 0
      ensures initialized == (old(initialized) || ok)
      ensures ok ==> entityList == Plus(base, layout.entityList) && gameContext == Plus(base, layout.gameContext)
                     && localPlayerAddr == Plus(base, layout.localPlayer)
                     && viewMatrixAddr == Plus(base, layout.viewMatrix)
      ensures !ok ==> unchanged(this`gameContext, this`entityList, this`localPlayerAddr, this`viewMatrixAddr)
    {
      ok := FindBaseAddresses(base);
      if !ok {
        return;
      }
      initialized := true;
    }

    /** Derives the four fixed addresses by adding their offsets to a non-null base. */
    method FindBaseAddresses(base: U64) returns (ok: bool)
      modifies this`gameContext, this`entityList, this`localPlayerAddr, this`viewMatrixAddr
      ensures ok <==> base != 0
      ensures ok ==> entityList == Plus(base, layout.entityList) && gameContext == Plus(base, layout.gameContext)
                     && localPlayerAddr == Plus(base, layout.localPlayer)
                     && viewMatrixAddr == Plus(base, layout.viewMatrix)
      ensures !ok ==> unchanged(this`gameContext, this`entityList, this`localPlayerAddr, this`viewMatrixAddr)
    {
      if base == 0 {
        return false;
      }
      gameContext := Plus(base, layout.gameContext);
      entityList := Plus(base, layout.entityList);
      localPlayerAddr := Plus(base, layout.localPlayer);
      viewMatrixAddr := Plus(base, layout.viewMatrix);
      ok := true;
    }

    method SetMaxDistance(distance: real)
      modifies this`maxDistance
      ensures maxDistance == distance
    {
      maxDistance := distance;
    }

    method SetUpdateRate(ms: I32)
      modifies this`updateRateMs
      ensures updateRateMs == ms
    {
      updateRateMs := ms;
    }

    /**
     * One frame's update at tick `now`, against the remote memory `mem`.
     * Only the snapshot (players, local player, matrix, last tick) may
     * change, as `UpdateOutcome` describes; configuration and addresses
     * are kept.
     */
    method Update(mem: Process, now: U32) returns (ok: bool)
      requires Valid()
      modifies this`players, this`localPlayer, this`viewMatrix, this`lastUpdate
      ensures Valid()
      ensures Config() == old(Config()) && gameContext == old(gameContext)
      ensures UpdateOutcome(old(Config()), mem, now, old(Snap()), ok, Snap())
    {
      if !initialized {
        return false;
      }
      if Throttled(now, lastUpdate, updateRateMs) {
        return true;
      }
      lastUpdate := now;
      ok := Refresh(mem);
    }

    /** The statements of `Update` that run while it holds the snapshot mutex. */
    method Refresh(mem: Process) returns (ok: bool)
      requires Valid()
      modifies this`players, this`localPlayer, this`viewMatrix
      ensures Valid()
      ensures RefreshOutcome(Config(), mem, old(Snap()), ok, Snap())
    {
      ghost var s0 := Snap();
      ok := UpdateViewMatrix(mem);
      ghost var m := viewMatrix;
      if !ok {
        return;
      }
      ok := UpdateLocalPlayer(mem);
      ghost var l := localPlayer;
      assert LocalPlayerStep(mem, layout, localPlayerAddr, s0.local) == (ok, l);
      if !ok {
        assert Snap() == s0.(matrix := m, local := l);
        return;
      }
      ok := UpdatePlayers(mem);
      ghost var ps := players;
      if ok {
        CalculateScreenPositions();
      }
      RefreshReachesPlayers(Config(), mem, s0, m, l, ok, ps);
    }

    method UpdateViewMatrix(mem: Process) returns (ok: bool)
      modifies this`viewMatrix
      ensures (ok, viewMatrix) == ViewMatrixStep(mem, viewMatrixAddr, old(viewMatrix))
    {
      var read := ReadMemory(mem.attached, mem.matrices, viewMatrixAddr, viewMatrix);
      ok, viewMatrix := read.0, read.1;
    }

    method UpdateLocalPlayer(mem: Process) returns (ok: bool)
      requires Valid()
      modifies this`localPlayer
      ensures Valid()
      ensures (ok, localPlayer) == LocalPlayerStep(mem, layout, localPlayerAddr, old(localPlayer))
    {
      var ptr := ReadU64(mem, localPlayerAddr);
      if ptr == 0 {
        return false;
      }
      localPlayer := localPlayer.(address := ptr, isLocal := true);
      ok, localPlayer := ReadPlayerEntity(mem, ptr, localPlayer, true);
    }

    /**
     * Rebuilds the player list. The list is emptied before any guard, so
     * every failure leaves it empty.
     */
    method UpdatePlayers(mem: Process) returns (ok: bool)
      requires Valid()
      modifies this`players
      ensures Valid()
      ensures PlayersOutcome(mem, layout, entityList, localPlayer, maxDistance, ok, players)
    {
      players := [];

      var listPtr := ReadU64(mem, entityList);
      if listPtr == 0 {
        return false;
      }
      var count := ReadU32(mem, Plus(listPtr, COUNT_OFFSET));
      if count == 0 || count > MAX_ENTITIES {
        return false;
      }
      var entityArray := ReadU64(mem, listPtr);
      if entityArray == 0 {
        return false;
      }

      players := ScanEntities(mem, entityArray, count);

      ghost var accepted := players;
      players := SortByDistance(players);
      PermutationMembers(players, accepted);
      AcceptedEntries(mem, layout, entityArray, count, localPlayer, maxDistance);
      ok := true;
    }

    /**
     * The loop of `UpdatePlayers` over the `count` slots of the entity
     * array, appending each accepted entity in slot order.
     */
    method ScanEntities(mem: Process, entityArray: U64, count: nat) returns (found: seq<PlayerEntity>)
      ensures found == Accepted(mem, layout, entityArray, count, localPlayer, maxDistance)
    {
      found := [];
      var i := 0;
      while i < count
        invariant 0 <= i <= count
        invariant found == Accepted(mem, layout, entityArray, i, localPlayer, maxDistance)
      {
        ghost var before := found;
        var entityAddr := ReadU64(mem, SlotAddress(entityArray, i));
        if entityAddr != 0 && entityAddr != localPlayer.address {
          var read, player := ReadPlayerEntity(mem, entityAddr, NewPlayer(), false);
          if read && AtMost(player.distance, maxDistance) && player.IsValid() {
            found := found + [player];
          }
        }
        assert found == before + SlotEntries(mem, layout, entityArray, i, localPlayer, maxDistance);
        i := i + 1;
      }
    }

    /**
     * Reads the entity at `address` into the caller's record `player` and
     * reports whether the result is valid. `aliasesLocal` says that the
     * caller's record is the stored local player itself, so that the
     * distance line sees the position just read rather than the old one.
     */
    method ReadPlayerEntity(mem: Process, address: U64, player: PlayerEntity, aliasesLocal: bool)
      returns (ok: bool, p: PlayerEntity)
      requires |player.name| == NAME_SIZE
      ensures !aliasesLocal ==> p == WithDistance(ReadFields(mem, layout, address, player),
                                                  localPlayer.address, localPlayer.position)
      ensures aliasesLocal ==> p == WithDistance(ReadFields(mem, layout, address, player),
                                                 address, ReadFields(mem, layout, address, player).position)
      ensures ok <==> p.IsValid()
    {
      p := player.(address := address);
      p := p.(health := ReadF32(mem, Plus(address, layout.health)));
      p := p.(maxHealth := ReadF32(mem, Plus(address, layout.maxHealth)));
      p := p.(teamId := ReadU32(mem, Plus(address, layout.teamId)));
      p := p.(isAlive := ReadBool(mem, Plus(address, layout.isAlive)));
      p := p.(isVisible := ReadBool(mem, Plus(address, layout.isVisible)));
      p := p.(position := ReadMemory(mem.attached, mem.vectors, Plus(address, layout.position), p.position).1);
      p := p.(velocity := ReadMemory(mem.attached, mem.vectors, Plus(address, layout.velocity), p.velocity).1);

      var namePtr := ReadU64(mem, Plus(address, layout.name));
      if namePtr != 0 {
        p := p.(name := ReadBytes(mem, namePtr, NAME_SIZE - 1, p.name).1);
      }

      var referenceAddr := if aliasesLocal then p.address else localPlayer.address;
      var referencePos := if aliasesLocal then p.position else localPlayer.position;
      if referenceAddr != 0 {
        p := p.(distance := p.position.Distance(referencePos));
      }
      ok := p.IsValid();
    }

    /**
     * Reads the bones of a bone component into `bones`. Fails, leaving
     * `bones` as it was, for a null component, a null bone array or a bone
     * count outside 1..256. Otherwise `bones` is resized to the count (new
     * slots zero), each position is read over the old one (kept when its
     * read fails) and every parent index is set to -1.
     */
    method ReadBones(mem: Process, boneComponent: U64, bones: seq<Bone>) returns (ok: bool, result: seq<Bone>)
      ensures ok <==> boneComponent != 0
                      && ReadU64(mem, Plus(boneComponent, layout.boneArray)) != 0
                      && 1 <= ReadU32(mem, Plus(boneComponent, layout.boneCount)) <= MAX_BONES
      ensures !ok ==> result == bones
      ensures ok ==> |result| == ReadU32(mem, Plus(boneComponent, layout.boneCount))
      ensures ok ==> forall i :: 0 <= i < |result| ==>
        && result[i].parentIndex == -1
        && result[i].position == ReadMemory(mem.attached, mem.vectors,
                                            Plus(ReadU64(mem, Plus(boneComponent, layout.boneArray)), i * BONE_STRIDE),
                                            Resized(bones, |result|)[i].position).1
    {
      result := bones;
      if boneComponent == 0 {
        return false, result;
      }
      var boneArray := ReadU64(mem, Plus(boneComponent, layout.boneArray));
      if boneArray == 0 {
        return false, result;
      }
      var boneCount := ReadU32(mem, Plus(boneComponent, layout.boneCount));
      if boneCount == 0 || boneCount > MAX_BONES {
        return false, result;
      }

      result := Resized(bones, boneCount);
      ghost var resized := result;
      var i := 0;
      while i < boneCount
        invariant 0 <= i <= boneCount && |result| == boneCount
        invariant forall k :: 0 <= k < i ==>
          && result[k].parentIndex == -1
          && result[k].position == ReadMemory(mem.attached, mem.vectors, Plus(boneArray, k * BONE_STRIDE),
                                              resized[k].position).1
        invariant forall k :: i <= k < boneCount ==> result[k] == resized[k]
      {
        var position := ReadMemory(mem.attached, mem.vectors, Plus(boneArray, i * BONE_STRIDE), result[i].position).1;
        result := result[i := Bone(position, -1)];
        i := i + 1;
      }
      ok := true;
    }

    /** Projects feet and head of every listed player; the local player is left alone. */
    method CalculateScreenPositions()
      requires Valid()
      modifies this`players
      ensures Valid()
      ensures players == ProjectAll(old(players), viewMatrix)
    {
      ProjectAllKeepsNames(players, viewMatrix);
      var i := 0;
      while i < |players|
        invariant 0 <= i <= |players| == |old(players)|
        invariant forall k :: 0 <= k < i ==> players[k] == Project(old(players)[k], viewMatrix)
        invariant forall k :: i <= k < |players| ==> players[k] == old(players)[k]
      {
        var player := players[i];
        var head := player.position.(z := player.position.z + HEAD_HEIGHT);
        var feetScreen := viewMatrix.WorldToScreen(player.position, player.screenPos, SCREEN_WIDTH, SCREEN_HEIGHT).1;
        var headScreen := viewMatrix.WorldToScreen(head, player.headScreenPos, SCREEN_WIDTH, SCREEN_HEIGHT).1;
        players := players[i := player.(screenPos := feetScreen, headScreenPos := headScreen)];
        i := i + 1;
      }
    }
  }

  /** `std::vector::resize`: truncates, or pads with zero-valued bones. */
  function Resized(bones: seq<Bone>, n: nat): (r: seq<Bone>)
    ensures |r| == n
    ensures forall i :: 0 <= i < n && i < |bones| ==> r[i] == bones[i]
    ensures forall i :: |bones| <= i < n ==> r[i] == Bone(Origin, 0)
  {
    if n <= |bones| then bones[..n] else bones + seq(n - |bones|, _ => Bone(Origin, 0))
  }
}
