/**
 * The gun that fires a bullet pattern (Gun).
 *
 * The gun keeps a cursor into its pattern. Each Fire spawns definitions
 * from the cursor onward, wrapping to the start of the list, until one with
 * a reload time; that one is spawned too and starts the reload. A pattern
 * without any reload entry is discarded in Start, which is what makes the
 * firing loop terminate.
 *
 * The camera projection is the parameter `viewPos`, the bullet pool is a
 * flag and the reload coroutine is the explicit step `ReloadFinished`.
 */
module Guns {
  import opened Wrappers
  import opened Geometry
  import opened Patterns

  /** The bullet fields InitializeBullet copies from a spawn definition, plus the spawn angle. */
  datatype SpawnedBullet = SpawnedBullet(speed: real, damage: int, movePattern: MovePattern,
                                         frequency: real, amplitude: real, angle: real)

  function SpawnOf(d: BulletSpawnDefinition): (b: SpawnedBullet)
    ensures b.speed == d.bulletDefinition.speed && b.damage == d.bulletDefinition.damage
    ensures b.movePattern == d.movePattern && b.frequency == d.frequency && b.amplitude == d.amplitude
    ensures b.angle == d.angle
  {
    SpawnedBullet(d.bulletDefinition.speed, d.bulletDefinition.damage, d.movePattern, d.frequency, d.amplitude, d.angle)
  }

  function SpawnsOf(defs: seq<BulletSpawnDefinition>): (s: seq<SpawnedBullet>)
    ensures |s| == |defs| && forall i :: 0 <= i < |defs| ==> s[i] == SpawnOf(defs[i])
  {
    seq(|defs|, i requires 0 <= i < |defs| => SpawnOf(defs[i]))
  }

  /** The position `j` steps after `c` in a list of `count` entries read cyclically. */
  function Wrap(c: nat, j: nat, count: nat): (p: nat)
    requires c < count && j <= count
    ensures p < count
  {
    if c + j < count then c + j else c + j - count
  }

  /** The pattern read cyclically from position `c`. */
  function Rotation(defs: seq<BulletSpawnDefinition>, c: nat): (r: seq<BulletSpawnDefinition>)
    requires c < |defs|
    ensures |r| == |defs| && multiset(r) == multiset(defs)
    ensures forall n :: 0 <= n < |defs| ==> r[n] == defs[Wrap(c, n, |defs|)]
  {
    assert defs == defs[..c] + defs[c..];
    defs[c..] + defs[..c]
  }

  /** The position of the first definition that makes the gun reload. */
  function FirstReload(defs: seq<BulletSpawnDefinition>): (k: nat)
    requires IsPatternValid(defs)
    ensures k < |defs| && Reloads(defs[k])
    ensures forall j :: 0 <= j < k ==> !Reloads(defs[j])
    decreases |defs|
  {
    if Reloads(defs[0]) then 0
    else
      assert IsPatternValid(defs[1..]) by {
        var i :| 0 <= i < |defs| && Reloads(defs[i]);
        assert defs[1..][i - 1] == defs[i];
      }
      1 + FirstReload(defs[1..])
  }

  /**
   * The effect of a Fire that passes its guards, from cursor `c`: the
   * bullets spawned, the new cursor and the reload time that was started.
   */
  datatype Volley = Volley(spawned: seq<SpawnedBullet>, cursor: nat, reloadTime: real)

  function FireFrom(defs: seq<BulletSpawnDefinition>, c: nat): (v: Volley)
    requires IsPatternValid(defs) && c < |defs|
    ensures 1 <= |v.spawned| <= |defs| && v.cursor < |defs|
    ensures v.reloadTime > 0.0
  {
    ValidityIgnoresOrder(Rotation(defs, c), defs);
    var rot := Rotation(defs, c);
    var k := FirstReload(rot);
    Volley(SpawnsOf(rot[..k + 1]), Wrap(c, k + 1, |defs|), rot[k].reloadTime)
  }

  /** Whether the guards of Fire let it shoot. */
  predicate MayFire(active: bool, hasBulletPool: bool, viewPos: Vec2, hasPattern: bool, isReloading: bool)
  {
    && active && hasBulletPool
    && 0.0 <= viewPos.x <= 1.0 && 0.0 <= viewPos.y <= 1.0
    && hasPattern && !isReloading
  }

  class Gun {
    /** The pattern in use: absent when none was assigned or when Start discarded an invalid one. */
    var pattern: Option<seq<BulletSpawnDefinition>>
    const hasBulletPool: bool
    /** m_CurrentBulletID */
    var cursor: int
    var isReloading: bool
    /** The duration of the reload started last (the coroutine's argument). */
    var pendingReload: real

    ghost predicate Valid()
      reads this
    {
      pattern.Some? ==> IsPatternValid(pattern.value) && 0 <= cursor < |pattern.value|
    }

    /** Start: an invalid pattern is replaced by none. */
    constructor (pattern: Option<seq<BulletSpawnDefinition>>, hasBulletPool: bool)
      ensures this.pattern == (if pattern.Some? && !IsPatternValid(pattern.value) then None else pattern)
      ensures this.hasBulletPool == hasBulletPool
      ensures cursor == 0 && !isReloading
      ensures Valid()
    {
      this.hasBulletPool := hasBulletPool;
      cursor := 0;
      isReloading := false;
      pendingReload := 0.0;
      if pattern.Some? && !IsPatternValid(pattern.value) {
        this.pattern := None;
      } else {
        this.pattern := pattern;
      }
    }

    /**
     * Fire, with `active` the game object's activeSelf and `viewPos` the
     * gun's position projected into the viewport.
     */
    method Fire(active: bool, viewPos: Vec2) returns (spawned: seq<SpawnedBullet>)
      requires Valid()
      modifies this`cursor, this`isReloading, this`pendingReload
      ensures Valid()
      ensures !MayFire(active, hasBulletPool, viewPos, pattern.Some?, old(isReloading)) ==>
        spawned == [] && cursor == old(cursor) && isReloading == old(isReloading) && pendingReload == old(pendingReload)
      ensures MayFire(active, hasBulletPool, viewPos, pattern.Some?, old(isReloading)) ==>
        var v := FireFrom(pattern.value, old(cursor));
        spawned == v.spawned && cursor == v.cursor && isReloading && pendingReload == v.reloadTime
    {
      spawned := [];
      if !active || !hasBulletPool {
        return;
      }
      if viewPos.x < 0.0 || viewPos.x > 1.0 || viewPos.y < 0.0 || viewPos.y > 1.0 {
        return;
      }
      if pattern.None? || isReloading {
        return;
      }
      var defs := pattern.value;
      var count := |defs|;
      ghost var c0 := cursor;
      ghost var rot := Rotation(defs, c0);
      ValidityIgnoresOrder(rot, defs);
      ghost var k := FirstReload(rot);

      while !isReloading
        invariant 0 <= cursor < count
        invariant |spawned| <= k + 1
        invariant forall j :: 0 <= j < |spawned| ==> spawned[j] == SpawnOf(rot[j])
        invariant cursor == c0 + |spawned| || cursor + count == c0 + |spawned|
        invariant isReloading <==> |spawned| == k + 1
        invariant isReloading ==> pendingReload == rot[k].reloadTime
        decreases count - |spawned|
      {
        spawned := SpawnPass(defs, rot, k, c0, spawned);
        if cursor >= count {
          cursor := 0;
        }
      }
      assert spawned == SpawnsOf(rot[..k + 1]);
    }

    /**
     * The `for` loop of Fire: spawn from the cursor to the end of the list,
     * stopping after the first definition with a reload time. `rot` is the
     * pattern read cyclically from where the volley began, `k` the position
     * in it of the first reload entry and `c0` the cursor the volley began at.
     */
    method SpawnPass(defs: seq<BulletSpawnDefinition>, ghost rot: seq<BulletSpawnDefinition>, ghost k: nat, ghost c0: nat,
                     spawned0: seq<SpawnedBullet>) returns (spawned: seq<SpawnedBullet>)
      requires |rot| == |defs| && k < |defs| && c0 < |defs| && Reloads(rot[k])
      requires forall j :: 0 <= j < k ==> !Reloads(rot[j])
      requires forall n :: 0 <= n < |defs| ==> rot[n] == defs[Wrap(c0, n, |defs|)]
      requires !isReloading && 0 <= cursor < |defs| && |spawned0| <= k
      requires cursor == c0 + |spawned0| || cursor + |defs| == c0 + |spawned0|
      requires forall j :: 0 <= j < |spawned0| ==> spawned0[j] == SpawnOf(rot[j])
      modifies this`cursor, this`isReloading, this`pendingReload
      ensures |spawned0| < |spawned| <= k + 1 && spawned[..|spawned0|] == spawned0
      ensures forall j :: 0 <= j < |spawned| ==> spawned[j] == SpawnOf(rot[j])
      ensures 0 <= cursor <= |defs| && (cursor == c0 + |spawned| || cursor + |defs| == c0 + |spawned|)
      ensures cursor < |defs| ==> isReloading
      ensures isReloading <==> |spawned| == k + 1
      ensures isReloading ==> pendingReload == rot[k].reloadTime
      ensures !isReloading ==> pendingReload == old(pendingReload)
    {
      spawned := spawned0;
      var i := cursor;
      while i < |defs|
        invariant old(cursor) <= i <= |defs| && cursor == i
        invariant !isReloading && |spawned| <= k
        invariant forall j :: 0 <= j < |spawned| ==> spawned[j] == SpawnOf(rot[j])
        invariant i == c0 + |spawned| || i + |defs| == c0 + |spawned|
        invariant |spawned| - |spawned0| == i - old(cursor) && spawned[..|spawned0|] == spawned0
        invariant pendingReload == old(pendingReload)
        decreases |defs| - i
      {
        cursor := i + 1;
        assert defs[i] == rot[|spawned|];
        spawned := spawned + [SpawnOf(defs[i])];
        if defs[i].reloadTime > 0.0 {
          isReloading := true;
          pendingReload := defs[i].reloadTime;
          return;
        }
        i := i + 1;
      }
    }

    /** The end of the reload coroutine. */
    method ReloadFinished()
      modifies this`isReloading
      ensures !isReloading
    {
      isReloading := false;
    }

    method OnGameReset()
      requires Valid()
      modifies this`cursor, this`isReloading
      ensures Valid()
      ensures cursor == 0 && !isReloading
    {
      cursor := 0;
      isReloading := false;
    }
  }

  /** A volley spawns its definitions in pattern order, ending with the first reload entry met from the cursor. */
  lemma VolleyEndsAtFirstReload(defs: seq<BulletSpawnDefinition>, c: nat)
    requires IsPatternValid(defs) && c < |defs|
    ensures var v := FireFrom(defs, c); var n := |v.spawned|;
      && (forall j :: 0 <= j < n ==> v.spawned[j] == SpawnOf(defs[Wrap(c, j, |defs|)]))
      && (forall j :: 0 <= j < n - 1 ==> !Reloads(defs[Wrap(c, j, |defs|)]))
      && Reloads(defs[Wrap(c, n - 1, |defs|)])
      && v.reloadTime == defs[Wrap(c, n - 1, |defs|)].reloadTime
      && v.cursor == Wrap(c, n, |defs|)
  {
    ValidityIgnoresOrder(Rotation(defs, c), defs);
    var rot := Rotation(defs, c);
    var k := FirstReload(rot);
    assert FireFrom(defs, c).spawned == SpawnsOf(rot[..k + 1]);
  }

  /**
   * A pattern with a single reload entry, at its end: Fire from the first
   * definition spawns the whole pattern and returns the cursor to 0.
   */
  lemma SingleReloadAtEndFiresWholePattern(defs: seq<BulletSpawnDefinition>)
    requires |defs| >= 1 && Reloads(defs[|defs| - 1])
    requires forall j :: 0 <= j < |defs| - 1 ==> !Reloads(defs[j])
    ensures IsPatternValid(defs)
    ensures FireFrom(defs, 0).spawned == SpawnsOf(defs) && FireFrom(defs, 0).cursor == 0
  {
    var rot := Rotation(defs, 0);
    assert rot == defs;
    var k := FirstReload(rot);
    assert k == |defs| - 1;
    assert rot[..k + 1] == defs;
  }
}
