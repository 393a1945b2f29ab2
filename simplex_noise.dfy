/** The table side of the 4D simplex noise library: the seeded shuffle of
    the permutation table, the doubled `perm` table and the gradient table
    derived from it, the rank bookkeeping that picks the simplex corners,
    and the cheap curl built from three noise samples. The noise value
    itself is taken as a parameter. */
module SimplexNoise {
  import opened Common

  const Multiplier := 16807
  const Modulus := 2147483647

  /** A 4D gradient vector. */
  datatype Grad = Grad(x: int, y: int, z: int, w: int)

  function Component(g: Grad, k: nat): int
    requires k < 4
  {
    if k == 0 then g.x else if k == 1 then g.y else if k == 2 then g.z else g.w
  }

  /** The 32 gradients of the 4D simplex noise: the midpoints of the edges
      of the 4D hypercube. */
  const Grad4: seq<Grad> := [
    Grad(0, 1, 1, 1), Grad(0, 1, 1, -1), Grad(0, 1, -1, 1), Grad(0, 1, -1, -1),
    Grad(0, -1, 1, 1), Grad(0, -1, 1, -1), Grad(0, -1, -1, 1), Grad(0, -1, -1, -1),
    Grad(1, 0, 1, 1), Grad(1, 0, 1, -1), Grad(1, 0, -1, 1), Grad(1, 0, -1, -1),
    Grad(-1, 0, 1, 1), Grad(-1, 0, 1, -1), Grad(-1, 0, -1, 1), Grad(-1, 0, -1, -1),
    Grad(1, 1, 0, 1), Grad(1, 1, 0, -1), Grad(1, -1, 0, 1), Grad(1, -1, 0, -1),
    Grad(-1, 1, 0, 1), Grad(-1, 1, 0, -1), Grad(-1, -1, 0, 1), Grad(-1, -1, 0, -1),
    Grad(1, 1, 1, 0), Grad(1, 1, -1, 0), Grad(1, -1, 1, 0), Grad(1, -1, -1, 0),
    Grad(-1, 1, 1, 0), Grad(-1, 1, -1, 0), Grad(-1, -1, 1, 0), Grad(-1, -1, -1, 0)
  ]

  function Identity(n: nat): (q: seq<int>)
    ensures |q| == n && forall k :: 0 <= k < n ==> q[k] == k
  {
    seq(n, k => k)
  }

  /** A fresh array holding k at position k, filled by a counting loop. */
  method NewIdentity(n: nat) returns (p: array<int>)
    ensures fresh(p) && p[..] == Identity(n)
  {
    p := new int[n];
    var i := 0;
    while i < n
      invariant 0 <= i <= n
      invariant forall k :: 0 <= k < i ==> p[k] == k
    {
      p[i] := i;
      i := i + 1;
    }
  }

  /** A permutation of 0..n-1. */
  predicate IsPermutation(q: seq<int>, n: nat) {
    |q| == n && multiset(q) == multiset(Identity(n))
  }

  /** Exchange two entries. */
  function Swap(p: seq<int>, i: nat, j: nat): (q: seq<int>)
    requires i < |p| && j < |p|
    ensures |q| == |p|
    ensures q[i] == p[j] && q[j] == p[i]
    ensures forall k :: 0 <= k < |p| && k != i && k != j ==> q[k] == p[k]
  {
    p[i := p[j]][j := p[i]]
  }

  /** A swap keeps the multiset of entries. */
  lemma SwapPermutes(p: seq<int>, i: nat, j: nat)
    requires i < |p| && j < |p|
    ensures multiset(Swap(p, i, j)) == multiset(p)
  {
  }

  /** The seed the shuffle starts from: a zero seed is replaced by a random
      one, a seed below 1 is scaled by 65536, and the result is floored.
      `draw` is the `Math.random()` value in [0, 1). */
  function SeedValue(s: real, draw: real): (v: int)
    requires s >= 0.0 && 0.0 <= draw < 1.0
    ensures v >= 0
    ensures 0.0 < s < 1.0 ==> v == (s * 65536.0).Floor
    ensures s >= 1.0 ==> v == s.Floor
    ensures s == 0.0 ==> v == (if draw * 65536.0 < 1.0 then draw * 65536.0 * 65536.0 else draw * 65536.0).Floor
  {
    var s1 := if s == 0.0 then draw * 65536.0 else s;
    var s2 := if s1 < 1.0 then s1 * 65536.0 else s1;
    s2.Floor
  }

  /** One step of the Park–Miller generator. */
  function NextSeed(s: int): (r: int)
    requires s >= 0
    ensures 0 <= r < Modulus
  {
    (s * Multiplier) % Modulus
  }

  /** The shuffle from position i down to 1: each step advances the
      generator and swaps position i with position (seed mod (i + 1)),
      which is always in [0, i]. */
  function Shuffle(p: seq<int>, s: int, i: nat): (q: seq<int>)
    requires s >= 0 && i < |p|
    ensures |q| == |p|
    decreases i
  {
    if i == 0 then p
    else
      var s1 := NextSeed(s);
      Shuffle(Swap(p, i, s1 % (i + 1)), s1, i - 1)
  }

  /** The shuffle only rearranges entries. */
  lemma {:induction false} ShufflePermutes(p: seq<int>, s: int, i: nat)
    requires s >= 0 && i < |p|
    ensures multiset(Shuffle(p, s, i)) == multiset(p)
    decreases i
  {
    if i > 0 {
      var s1 := NextSeed(s);
      var q := Swap(p, i, s1 % (i + 1));
      SwapPermutes(p, i, s1 % (i + 1));
      ShufflePermutes(q, s1, i - 1);
    }
  }

  /** The table `seed` builds from a seed value. */
  function SeededTable(v: int): seq<int>
    requires v >= 0
  {
    Shuffle(Identity(256), v, 255)
  }

  /** Every non-negative seed yields a permutation of 0..255, and the same
      seed always yields the same table. */
  lemma SeededTableIsPermutation(v: int, w: int)
    requires v >= 0 && w >= 0
    ensures IsPermutation(SeededTable(v), 256)
    ensures v == w ==> SeededTable(v) == SeededTable(w)
  {
    ShufflePermutes(Identity(256), v, 255);
  }

  /** The entries of a permutation of 0..n-1 lie in [0, n). */
  lemma PermutationRange(q: seq<int>, n: nat)
    requires IsPermutation(q, n)
    ensures forall k :: 0 <= k < n ==> 0 <= q[k] < n
  {
    forall k | 0 <= k < n
      ensures 0 <= q[k] < n
    {
      assert q[k] in multiset(q);
      assert q[k] in multiset(Identity(n));
      assert q[k] in Identity(n);
    }
  }

  /** `perm[i] = p[i & 255]` for i in [0, 512); for non-negative i the mask
      is i mod 256. */
  function PermTable(p: seq<int>): (perm: seq<int>)
    requires |p| == 256
    ensures |perm| == 512
  {
    seq(512, i requires 0 <= i < 512 => p[i % 256])
  }

  /** The doubled table repeats with period 256, so lookups of the form
      perm[a + perm[b]] with a, b < 256 never leave it. */
  lemma {:induction false} PermPeriodic(p: seq<int>)
    requires |p| == 256
    ensures forall i :: 0 <= i < 256 ==> PermTable(p)[i] == PermTable(p)[i + 256] == p[i]
  {
    forall i | 0 <= i < 256
      ensures PermTable(p)[i] == PermTable(p)[i + 256] == p[i]
    {
      assert (i + 256) % 256 == i;
    }
  }

  /** The module-level tables `perm` (512 bytes) and `gradP` (4 entries per
      perm entry). */
  class NoiseTables {
    var perm: array<int>
    var gradP: array<int>

    ghost predicate Valid()
      reads this
    {
      perm.Length == 512 && gradP.Length == 2048 && perm != gradP
    }

    constructor ()
      ensures Valid() && fresh(perm) && fresh(gradP)
    {
      perm := new int[512](_ => 0);
      gradP := new int[2048](_ => 0);
    }

    /** `seed(s)`: shuffle the identity table in place with the seeded
        generator, then fill `perm` and `gradP`. */
    method Seed(s: real, draw: real)
      requires Valid() && s >= 0.0 && 0.0 <= draw < 1.0
      modifies perm, gradP
      ensures Valid()
      ensures perm[..] == PermTable(SeededTable(SeedValue(s, draw)))
      ensures forall j :: 0 <= j < 2048 ==> gradP[j] == Component(Grad4[perm[j / 4] % 32], j % 4)
    {
      var v := SeedValue(s, draw);
      var p := NewIdentity(256);
      ShuffleInPlace(p, v);
      FillTables(p);
    }

    /** Fill `perm` from the shuffled table and `gradP` from `perm`. */
    method FillTables(p: array<int>)
      requires Valid() && p.Length == 256
      modifies perm, gradP
      ensures Valid()
      ensures perm[..] == PermTable(p[..])
      ensures forall j :: 0 <= j < 2048 ==> gradP[j] == Component(Grad4[perm[j / 4] % 32], j % 4)
    {
      var i := 0;
      while i < 512
        invariant 0 <= i <= 512
        invariant forall k :: 0 <= k < i ==> perm[k] == p[k % 256]
        invariant forall j :: 0 <= j < 4 * i ==> gradP[j] == Component(Grad4[perm[j / 4] % 32], j % 4)
      {
        perm[i] := p[i % 256];
        var g := Grad4[perm[i] % 32];
        gradP[i * 4] := g.x;
        gradP[i * 4 + 1] := g.y;
        gradP[i * 4 + 2] := g.z;
        gradP[i * 4 + 3] := g.w;
        i := i + 1;
      }
      assert perm[..] == PermTable(p[..]);
    }
  }

  /** The in-place shuffle loop of `seed`, from position 255 down to 1. */
  method ShuffleInPlace(p: array<int>, v: int)
    requires p.Length == 256 && v >= 0
    modifies p
    ensures p[..] == Shuffle(old(p[..]), v, 255)
  {
    var cur := v;
    var i := 255;
    while i > 0
      invariant 0 <= i <= 255 && cur >= 0
      invariant Shuffle(p[..], cur, i) == Shuffle(old(p[..]), v, 255)
      decreases i
    {
      ghost var before := p[..];
      cur := (cur * 16807) % 2147483647;
      var j := cur % (i + 1);
      p[i], p[j] := p[j], p[i];
      assert p[..] == Swap(before, i, j);
      i := i - 1;
    }
  }

  /** The four rank counters of `noise4D`. */
  datatype Rank4 = Rank4(x: int, y: int, z: int, w: int)

  /** Each of the six pairwise comparisons of the offsets gives one point to
      the larger coordinate (to the later one on a tie). */
  function Ranks(x0: real, y0: real, z0: real, w0: real): (r: Rank4)
    ensures r.x + r.y + r.z + r.w == 6
    ensures 0 <= r.x <= 3 && 0 <= r.y <= 3 && 0 <= r.z <= 3 && 0 <= r.w <= 3
    ensures r.x != r.y && r.x != r.z && r.x != r.w && r.y != r.z && r.y != r.w && r.z != r.w
  {
    var a := if x0 > y0 then Rank4(1, 0, 0, 0) else Rank4(0, 1, 0, 0);
    var b := if x0 > z0 then a.(x := a.x + 1) else a.(z := a.z + 1);
    var c := if x0 > w0 then b.(x := b.x + 1) else b.(w := b.w + 1);
    var d := if y0 > z0 then c.(y := c.y + 1) else c.(z := c.z + 1);
    var e := if y0 > w0 then d.(y := d.y + 1) else d.(w := d.w + 1);
    if z0 > w0 then e.(z := e.z + 1) else e.(w := e.w + 1)
  }

  /** The offset flag of one coordinate for a corner level. */
  function Flag(rank: int, level: int): int {
    if rank >= level then 1 else 0
  }

  function FlagCount(r: Rank4, level: int): int {
    Flag(r.x, level) + Flag(r.y, level) + Flag(r.z, level) + Flag(r.w, level)
  }

  /** The second, third and fourth corners step by exactly one, two and
      three unit offsets (i1.., i2.., i3..), each along the coordinates with
      the largest offsets, so the corners walk one simplex edge at a time. */
  lemma CornerOffsets(x0: real, y0: real, z0: real, w0: real)
    ensures var r := Ranks(x0, y0, z0, w0);
      FlagCount(r, 3) == 1 && FlagCount(r, 2) == 2 && FlagCount(r, 1) == 3
      && Flag(r.x, 3) <= Flag(r.x, 2) <= Flag(r.x, 1)
      && Flag(r.y, 3) <= Flag(r.y, 2) <= Flag(r.y, 1)
      && Flag(r.z, 3) <= Flag(r.z, 2) <= Flag(r.z, 1)
      && Flag(r.w, 3) <= Flag(r.w, 2) <= Flag(r.w, 1)
  {
  }

  /** The cheap curl: three samples of the noise field at shifted points,
      combined as differences. Any noise function gives components that
      sum to zero. */
  function CurlFast(noise: (real, real, real, real) -> real, x: real, y: real, z: real, w: real): (v: Vec3)
    ensures v.x + v.y + v.z == 0.0
    ensures noise(x, y, z, w) == noise(x + 100.0, y + 100.0, z + 100.0, w) == noise(x + 200.0, y + 200.0, z + 200.0, w)
            ==> v == Origin
  {
    var n1 := noise(x, y, z, w);
    var n2 := noise(x + 100.0, y + 100.0, z + 100.0, w);
    var n3 := noise(x + 200.0, y + 200.0, z + 200.0, w);
    Vec3(n2 - n3, n3 - n1, n1 - n2)
  }
}
