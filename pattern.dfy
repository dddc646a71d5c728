/**
 * Bullet patterns (Pattern, BulletSpawnDefinition, BulletDefinition).
 *
 * A pattern is a list of spawn definitions. It is valid when at least one
 * definition carries a reload time: the gun fires definitions in a cycle
 * until it reaches one that makes it reload, so a pattern without such an
 * entry would make the gun loop forever.
 */
module Patterns {

  datatype MovePattern = Linear | Sinus | Cosinus | MinSinus | MinCosinus

  /** The bullet asset: its speed and the damage it deals (the sprite is not modelled). */
  datatype BulletDefinition = BulletDefinition(speed: real, damage: int)

  datatype BulletSpawnDefinition = BulletSpawnDefinition(
    bulletDefinition: BulletDefinition,
    reloadTime: real,
    movePattern: MovePattern,
    frequency: real,
    amplitude: real,
    angle: real)

  /** Whether firing definition `d` makes the gun reload. */
  predicate Reloads(d: BulletSpawnDefinition)
  {
    d.reloadTime > 0.0
  }

  /** IsPatternValid: a search from the front that stops at the first definition with a reload time. */
  function IsPatternValid(defs: seq<BulletSpawnDefinition>): (valid: bool)
    ensures valid <==> exists i :: 0 <= i < |defs| && Reloads(defs[i])
    ensures defs == [] ==> !valid
    decreases |defs|
  {
    if defs == [] then false
    else if Reloads(defs[0]) then true
    else
      var rest := IsPatternValid(defs[1..]);
      assert forall i :: 1 <= i < |defs| ==> defs[i] == defs[1..][i - 1];
      rest
  }

  /**
   * Validity depends only on which definitions the pattern holds, not on
   * their order or position.
   */
  lemma ValidityIgnoresOrder(a: seq<BulletSpawnDefinition>, b: seq<BulletSpawnDefinition>)
    requires multiset(a) == multiset(b)
    ensures IsPatternValid(a) == IsPatternValid(b)
  {
    if IsPatternValid(a) {
      var i :| 0 <= i < |a| && Reloads(a[i]);
      assert a[i] in multiset(b);
      var j :| 0 <= j < |b| && b[j] == a[i];
    }
    if IsPatternValid(b) {
      var j :| 0 <= j < |b| && Reloads(b[j]);
      assert b[j] in multiset(a);
      var i :| 0 <= i < |a| && a[i] == b[j];
    }
  }

  /** Appending definitions to a valid pattern keeps it valid, and a concatenation is valid when either part is. */
  lemma ValidConcatenation(a: seq<BulletSpawnDefinition>, b: seq<BulletSpawnDefinition>)
    ensures IsPatternValid(a + b) <==> IsPatternValid(a) || IsPatternValid(b)
  {
    if IsPatternValid(a + b) {
      var i :| 0 <= i < |a + b| && Reloads((a + b)[i]);
      if i >= |a| {
        assert b[i - |a|] == (a + b)[i];
      } else {
        assert a[i] == (a + b)[i];
      }
    }
    if IsPatternValid(a) {
      var i :| 0 <= i < |a| && Reloads(a[i]);
      assert (a + b)[i] == a[i];
    }
    if IsPatternValid(b) {
      var j :| 0 <= j < |b| && Reloads(b[j]);
      assert (a + b)[|a| + j] == b[j];
    }
  }
}
