/** The Merkle commitment of core/rollup.py. SHA-256 is a free constructor: equal digests have equal
    preimages. */
module Merkle {
  import opened Bits
  import opened Common

  datatype Material = Material(cid: string, event: string, wall: real, cpu: real, bytes: int)

  /** A hash field: a digest, some other 64-digit hexadecimal text, or text that is not a hash at all. */
  datatype Hash = Sha(pre: Preimage) | Hex(text: string) | Malformed(text: string)

  /** What the rollup code hashes. */
  datatype Preimage =
    | EmptyRollup
    | Leaf(material: Material)
    | Inner(left: Hash, right: Hash)
    | Token(wall: real, cpu: real, bytes: int)
    | Target(prev: Hash, root: Hash, mask: set<nat>, token: Hash, first: int, last: int, count: int)
    | Proof(prev: Hash, target: Hash, mask: set<nat>, token: Hash)

  /** Duplicate the last hash of an odd level. */
  function Padded(level: seq<Hash>): (r: seq<Hash>)
    ensures |r| % 2 == 0 && |level| <= |r| <= |level| + 1
  {
    if |level| % 2 == 1 then level + [level[|level| - 1]] else level
  }

  function Parents(level: seq<Hash>): (r: seq<Hash>)
    requires |level| % 2 == 0
    ensures |r| == |level| / 2
  {
    seq(|level| / 2, i requires 0 <= i < |level| / 2 => Sha(Inner(level[2 * i], level[2 * i + 1])))
  }

  function Root(level: seq<Hash>): Hash
    requires level != []
    decreases |level|
  {
    if |level| == 1 then level[0] else Root(Parents(Padded(level)))
  }

  /** The inner loop of `merkle_root_from_transactions`: hash neighbours pairwise. */
  method ParentLevel(level: seq<Hash>) returns (parents: seq<Hash>)
    requires |level| % 2 == 0
    ensures parents == Parents(level)
  {
    parents := [];
    for k := 0 to |level| / 2
      invariant |parents| == k && forall i :: 0 <= i < k ==> parents[i] == Sha(Inner(level[2 * i], level[2 * i + 1]))
    {
      parents := parents + [Sha(Inner(level[2 * k], level[2 * k + 1]))];
    }
  }

  /** The outer loop. */
  method RootOfLevel(leaves: seq<Hash>) returns (root: Hash)
    requires leaves != []
    ensures root == Root(leaves)
  {
    var level := leaves;
    while |level| > 1
      invariant level != [] && Root(level) == Root(leaves)
      decreases |level|
    {
      ghost var before := level;
      if |level| % 2 == 1 {
        level := level + [level[|level| - 1]];
      }
      assert level == Padded(before);
      level := ParentLevel(level);
    }
    return level[0];
  }

  lemma ParentsInjective(a: seq<Hash>, b: seq<Hash>)
    requires |a| % 2 == 0 && |a| == |b| && Parents(a) == Parents(b)
    ensures a == b
  {
    forall i | 0 <= i < |a| ensures a[i] == b[i] {
      assert Parents(a)[i / 2] == Parents(b)[i / 2];
      assert i == 2 * (i / 2) || i == 2 * (i / 2) + 1;
    }
  }

  /** For equal counts, equal roots force equal leaves, in spite of the duplicated last hash. */
  lemma {:induction false} RootBinds(a: seq<Hash>, b: seq<Hash>)
    requires |a| == |b| > 0 && Root(a) == Root(b)
    ensures a == b
    decreases |a|
  {
    if |a| > 1 {
      RootBinds(Parents(Padded(a)), Parents(Padded(b)));
      ParentsInjective(Padded(a), Padded(b));
      assert a == Padded(a)[..|a|] && b == Padded(b)[..|b|];
    }
  }

  function Leaves(ms: seq<Material>): (r: seq<Hash>)
    ensures |r| == |ms|
  {
    seq(|ms|, i requires 0 <= i < |ms| => Sha(Leaf(ms[i])))
  }

  lemma LeavesInjective(a: seq<Material>, b: seq<Material>)
    requires Leaves(a) == Leaves(b)
    ensures a == b
  {
    assert |a| == |b|;
    forall i | 0 <= i < |a| ensures a[i] == b[i] {
      assert Leaves(a)[i] == Leaves(b)[i];
    }
  }

  // ---------------------------------------------------------------- lists of different lengths

  /** How many times a level of `n` hashes is halved on the way to the root. */
  function Depth(n: nat): nat
    requires n > 0
  {
    if n == 1 then 0 else 1 + Depth((n + 1) / 2)
  }

  lemma {:induction false} DepthFits(n: nat)
    requires n > 0
    ensures n <= Pow2(Depth(n))
  {
    if n > 1 {
      DepthFits((n + 1) / 2);
    }
  }

  /** The tree from its root downwards: the left half of a tree of depth d covers the first 2^(d-1) leaves, and
      where no leaf is left for the right half, it repeats the left one. */
  function Tree(leaves: seq<Hash>, depth: nat): Hash
    requires leaves != [] && |leaves| <= Pow2(depth)
    decreases depth
  {
    if depth == 0 then leaves[0]
    else
      var half := Pow2(depth - 1);
      if |leaves| <= half then Sha(Inner(Tree(leaves, depth - 1), Tree(leaves, depth - 1)))
      else Sha(Inner(Tree(leaves[..half], depth - 1), Tree(leaves[half..], depth - 1)))
  }

  lemma PaddedSplit(level: seq<Hash>, k: nat)
    requires 2 * k < |level|
    ensures Padded(level[..2 * k]) == level[..2 * k] && Padded(level) == level[..2 * k] + Padded(level[2 * k..])
  {
  }

  lemma ParentsConcat(a: seq<Hash>, b: seq<Hash>)
    requires |a| % 2 == 0 && |b| % 2 == 0
    ensures Parents(a + b) == Parents(a) + Parents(b)
  {
    var k := |a| / 2;
    forall i | k <= i < |a + b| / 2 ensures Parents(a + b)[i] == Parents(b)[i - k] {
      assert (a + b)[2 * i] == b[2 * (i - k)] && (a + b)[2 * i + 1] == b[2 * (i - k) + 1];
    }
  }

  lemma ParentsSplit(level: seq<Hash>, k: nat)
    requires 2 * k < |level|
    ensures Parents(Padded(level)) == Parents(Padded(level[..2 * k])) + Parents(Padded(level[2 * k..]))
  {
    PaddedSplit(level, k);
    ParentsConcat(level[..2 * k], Padded(level[2 * k..]));
  }

  lemma TreeSplits(leaves: seq<Hash>, depth: nat, half: nat)
    requires depth > 0 && half == Pow2(depth - 1) && half < |leaves| <= Pow2(depth)
    ensures Tree(leaves, depth) == Sha(Inner(Tree(leaves[..half], depth - 1), Tree(leaves[half..], depth - 1)))
  {
  }

  lemma TreeRepeats(leaves: seq<Hash>, depth: nat)
    requires depth > 0 && leaves != [] && |leaves| <= Pow2(depth - 1)
    ensures Tree(leaves, depth) == Sha(Inner(Tree(leaves, depth - 1), Tree(leaves, depth - 1)))
  {
  }

  lemma TreeOfTwo(leaves: seq<Hash>)
    requires 0 < |leaves| <= 2
    ensures |leaves| <= Pow2(1) && |Parents(Padded(leaves))| == 1
    ensures Tree(leaves, 1) == Parents(Padded(leaves))[0]
  {
    assert Pow2(0) == 1;
    if |leaves| == 1 {
      TreeRepeats(leaves, 1);
    } else {
      TreeSplits(leaves, 1, 1);
    }
  }

  /** `ps` stands one level above `leaves`: their trees are the same. */
  ghost predicate OneUp(leaves: seq<Hash>, ps: seq<Hash>, depth: nat) {
    && leaves != [] && ps != [] && |leaves| <= Pow2(depth + 1) && |ps| <= Pow2(depth)
    && Tree(leaves, depth + 1) == Tree(ps, depth)
  }

  lemma OneUpRepeats(leaves: seq<Hash>, ps: seq<Hash>, depth: nat)
    requires depth > 0 && OneUp(leaves, ps, depth - 1)
    ensures OneUp(leaves, ps, depth)
  {
    TreeRepeats(leaves, depth + 1);
    TreeRepeats(ps, depth);
  }

  lemma OneUpSplits(leaves: seq<Hash>, ps: seq<Hash>, depth: nat, q: nat)
    requires depth > 0 && q == Pow2(depth - 1) && 2 * q < |leaves| <= 4 * q && q < |ps| <= 2 * q
    requires OneUp(leaves[..2 * q], ps[..q], depth - 1) && OneUp(leaves[2 * q..], ps[q..], depth - 1)
    ensures OneUp(leaves, ps, depth)
  {
    TreeSplits(leaves, depth + 1, 2 * q);
    TreeSplits(ps, depth, q);
  }

  /** One level up the leaves are the parents. */
  lemma {:induction false} TreeOfParents(leaves: seq<Hash>, depth: nat)
    requires leaves != [] && |leaves| <= Pow2(depth + 1)
    ensures OneUp(leaves, Parents(Padded(leaves)), depth)
    decreases depth
  {
    ParentsCount(leaves);
    var ps := Parents(Padded(leaves));
    if depth == 0 {
      TreeOfTwo(leaves);
    } else if |leaves| <= Pow2(depth) {
      TreeOfParents(leaves, depth - 1);
      OneUpRepeats(leaves, ps, depth);
    } else {
      var q := Pow2(depth - 1);
      TreeOfParents(leaves[..2 * q], depth - 1);
      TreeOfParents(leaves[2 * q..], depth - 1);
      HalvesOfParents(leaves, depth);
      OneUpSplits(leaves, ps, depth, q);
    }
  }

  lemma HalvesOfParents(leaves: seq<Hash>, depth: nat)
    requires depth > 0 && Pow2(depth) < |leaves|
    ensures var ps, half := Parents(Padded(leaves)), Pow2(depth - 1);
      && |ps| > half && ps[..half] == Parents(Padded(leaves[..2 * half])) && ps[half..] == Parents(Padded(leaves[2 * half..]))
  {
    ParentsSplit(leaves, Pow2(depth - 1));
  }

  lemma OneLevelUp(level: seq<Hash>)
    requires |level| > 1
    ensures var up := Parents(Padded(level));
      0 < |up| < |level| && Root(level) == Root(up) && Depth(|level|) == Depth(|up|) + 1
  {
    ParentsCount(level);
    DepthHalves(|level|);
  }

  lemma ParentsCount(level: seq<Hash>)
    ensures |Parents(Padded(level))| == (|level| + 1) / 2
  {
  }

  lemma DepthHalves(n: nat)
    requires n > 1
    ensures 0 < (n + 1) / 2 < n && Depth(n) == Depth((n + 1) / 2) + 1
  {
  }

  /** Hashing level by level gives that tree. */
  lemma {:induction false} RootIsTree(level: seq<Hash>)
    requires level != []
    ensures |level| <= Pow2(Depth(|level|)) && Root(level) == Tree(level, Depth(|level|))
    decreases |level|
  {
    DepthFits(|level|);
    if |level| > 1 {
      var up := Parents(Padded(level));
      OneLevelUp(level);
      TreeOfParents(level, Depth(|up|));
      RootIsTree(up);
    }
  }

  /** How many inner digests lie above the leftmost leaf. */
  function Height(h: Hash): nat {
    if h.Sha? && h.pre.Inner? then 1 + Height(h.pre.left) else 0
  }

  lemma ParentsHeight(level: seq<Hash>, h: nat)
    requires forall i :: 0 <= i < |level| ==> Height(level[i]) == h
    ensures |Parents(Padded(level))| == (|level| + 1) / 2
    ensures forall i :: 0 <= i < |Parents(Padded(level))| ==> Height(Parents(Padded(level))[i]) == h + 1
  {
    var up := Parents(Padded(level));
    forall i | 0 <= i < |up| ensures Height(up[i]) == h + 1 {
      var left := Padded(level)[2 * i];
      assert up[i] == Sha(Inner(left, Padded(level)[2 * i + 1])) && left == level[2 * i];
    }
  }

  /** Leaves and inner nodes are hashed under different tags, so a root shows how deep its tree is. */
  lemma {:induction false} RootHeight(level: seq<Hash>, h: nat)
    requires level != [] && forall i :: 0 <= i < |level| ==> Height(level[i]) == h
    ensures Height(Root(level)) == Depth(|level|) + h
    decreases |level|
  {
    if |level| > 1 {
      ParentsHeight(level, h);
      RootHeight(Parents(Padded(level)), h + 1);
    }
  }

  /** A tree of that depth whose leaves are all the same. */
  function Tower(h: Hash, depth: nat): Hash
    decreases depth
  {
    if depth == 0 then h else Tower(Sha(Inner(h, h)), depth - 1)
  }

  lemma ConstantParents(level: seq<Hash>, h: Hash)
    requires forall i :: 0 <= i < |level| ==> level[i] == h
    ensures |Parents(Padded(level))| == (|level| + 1) / 2
    ensures forall i :: 0 <= i < |Parents(Padded(level))| ==> Parents(Padded(level))[i] == Sha(Inner(h, h))
  {
    var p := Padded(level);
    assert forall i :: 0 <= i < |p| ==> p[i] == h;
  }

  lemma {:induction false} ConstantRoot(level: seq<Hash>, h: Hash)
    requires level != [] && forall i :: 0 <= i < |level| ==> level[i] == h
    ensures Root(level) == Tower(h, Depth(|level|))
    decreases |level|
  {
    if |level| > 1 {
      ConstantParents(level, h);
      ConstantRoot(Parents(Padded(level)), Sha(Inner(h, h)));
    }
  }

  function Copies(m: Material, n: nat): (r: seq<Material>)
    ensures |r| == n && forall i :: 0 <= i < n ==> r[i] == m
  {
    seq(n, i => m)
  }

  /** No two different lists of `m` and of `n` transactions share a root. */
  ghost predicate CountsBind(m: nat, n: nat)
    requires m > 0 && n > 0
  {
    forall a: seq<Material>, b: seq<Material> :: |a| == m && |b| == n && Root(Leaves(a)) == Root(Leaves(b)) ==> a == b
  }

  lemma DepthSeparates(a: seq<Material>, b: seq<Material>)
    requires a != [] && b != [] && Depth(|a|) != Depth(|b|)
    ensures Root(Leaves(a)) != Root(Leaves(b))
  {
    RootHeight(Leaves(a), 0);
    RootHeight(Leaves(b), 0);
  }

  lemma CopiesCollide(x: Material, m: nat, n: nat)
    requires m > 0 && n > 0 && Depth(m) == Depth(n)
    ensures Root(Leaves(Copies(x, m))) == Root(Leaves(Copies(x, n)))
  {
    ConstantRoot(Leaves(Copies(x, m)), Sha(Leaf(x)));
    ConstantRoot(Leaves(Copies(x, n)), Sha(Leaf(x)));
  }

  /** Which counts bind: the duplicated last hash lets two different counts collide exactly when their
      trees are equally deep. */
  lemma CountsBindIff(m: nat, n: nat)
    requires m > 0 && n > 0
    ensures CountsBind(m, n) <==> m == n || Depth(m) != Depth(n)
  {
    if m == n {
      forall a: seq<Material>, b: seq<Material> | |a| == m && |b| == n && Root(Leaves(a)) == Root(Leaves(b))
        ensures a == b
      {
        RootBinds(Leaves(a), Leaves(b));
        LeavesInjective(a, b);
      }
    } else if Depth(m) != Depth(n) {
      forall a: seq<Material>, b: seq<Material> | |a| == m && |b| == n ensures Root(Leaves(a)) != Root(Leaves(b)) {
        DepthSeparates(a, b);
      }
    } else {
      var x := Material("", "", 0.0, 0.0, 0);
      CopiesCollide(x, m, n);
      assert |Copies(x, m)| != |Copies(x, n)|;
    }
  }
}
