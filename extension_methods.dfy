/**
 * The extension methods (ExtentionMethods): an in-place Fisher-Yates
 * shuffle and the vector and quaternion copies.
 *
 * The shuffle's random numbers are the parameter `picks`: `picks[n]` is
 * the value rand.Next(n + 1) returns on the iteration that fills position
 * `n`, so it lies in [0, n].
 */
module Extensions {
  import opened Geometry

  predicate ValidPicks(picks: seq<int>, count: int)
  {
    |picks| >= count && forall n :: 0 <= n < count ==> 0 <= picks[n] <= n
  }

  /** The sequence with positions `i` and `j` exchanged. */
  function Swap<T>(s: seq<T>, i: nat, j: nat): (r: seq<T>)
    requires i < |s| && j < |s|
    ensures |r| == |s| && r[i] == s[j] && r[j] == s[i]
    ensures forall m :: 0 <= m < |s| && m != i && m != j ==> r[m] == s[m]
    ensures multiset(r) == multiset(s)
  {
    s[i := s[j]][j := s[i]]
  }

  /**
   * The swaps still to do when the first `n` positions are not yet
   * final: position n - 1 with picks[n - 1], then downward to position 1.
   */
  function ShuffledPrefix<T>(s: seq<T>, picks: seq<int>, n: nat): seq<T>
    requires n <= |s| && ValidPicks(picks, n)
    decreases n
  {
    if n <= 1 then s else ShuffledPrefix(Swap(s, picks[n - 1], n - 1), picks, n - 1)
  }

  /** The shuffle is a permutation: the same elements with the same multiplicities. */
  lemma {:induction false} ShuffleIsPermutation<T>(s: seq<T>, picks: seq<int>, n: nat)
    requires n <= |s| && ValidPicks(picks, n)
    ensures |ShuffledPrefix(s, picks, n)| == |s|
    ensures multiset(ShuffledPrefix(s, picks, n)) == multiset(s)
    decreases n
  {
    if n > 1 {
      ShuffleIsPermutation(Swap(s, picks[n - 1], n - 1), picks, n - 1);
    }
  }

  /** Positions from `n` on are never touched again: the suffix placed so far is final. */
  lemma {:induction false} ShuffleKeepsSuffix<T>(s: seq<T>, picks: seq<int>, n: nat, i: nat)
    requires n <= i < |s| && ValidPicks(picks, n)
    ensures |ShuffledPrefix(s, picks, n)| == |s| && ShuffledPrefix(s, picks, n)[i] == s[i]
    decreases n
  {
    ShuffleIsPermutation(s, picks, n);
    if n > 1 {
      ShuffleKeepsSuffix(Swap(s, picks[n - 1], n - 1), picks, n - 1, i);
    }
  }

  /** Shuffle: for n from Count - 1 down to 1, swap position n with a random position in [0, n]. */
  method Shuffle<T>(a: array<T>, picks: seq<int>)
    requires ValidPicks(picks, a.Length)
    modifies a
    ensures a[..] == ShuffledPrefix(old(a[..]), picks, a.Length)
    ensures multiset(a[..]) == multiset(old(a[..]))
    ensures a.Length < 2 ==> a[..] == old(a[..])
  {
    var n := a.Length;
    while n > 1
      invariant 0 <= n <= a.Length
      invariant ShuffledPrefix(a[..], picks, n) == ShuffledPrefix(old(a[..]), picks, a.Length)
      invariant multiset(a[..]) == multiset(old(a[..]))
      decreases n
    {
      n := n - 1;
      var k := picks[n];
      ghost var before := a[..];
      var value := a[k];
      a[k] := a[n];
      a[n] := value;
      assert a[..] == Swap(before, k, n);
    }
  }

  /** Copy of a Vector2: an equal value. */
  function CopyVec2(v: Vec2): (c: Vec2)
    ensures c == v
  {
    Vec2(v.x, v.y)
  }

  /** Copy of a Vector3: an equal value. */
  function CopyVec3(v: Vec3): (c: Vec3)
    ensures c == v
  {
    Vec3(v.x, v.y, v.z)
  }

  /** Copy of a Quaternion: an equal value. */
  function CopyQuaternion(q: Quaternion): (c: Quaternion)
    ensures c == q
  {
    Quaternion(q.x, q.y, q.z, q.w)
  }
}
