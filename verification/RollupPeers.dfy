/** Which peers accept a rollup payload (core/rollup.py, `verify_rollup_payload`): those whose journals
    show the same transactions in its range and list the ones that tie in the sort key in the same order. */
module RollupPeers {
  import opened Common
  import opened Sorting
  import opened Merkle
  import opened Rollup

  // ---------------------------------------------------------------- the coarse sort in front

  /** What the finer key cannot tell apart the coarser one cannot either. */
  lemma FineTiesAreCoarse(x: Material, a: Transaction, b: Transaction)
    requires Ties(FineLeq, x, a.material) && Ties(FineLeq, x, b.material)
    ensures CoarseLeq(a, b) && CoarseLeq(b, a)
  {
    StringLessTotal(x.cid, a.material.cid);
    StringLessTotal(x.cid, b.material.cid);
    StringLessTotal(x.event, a.material.event);
    StringLessTotal(x.event, b.material.event);
  }

  lemma MaterialsConcat(a: seq<Transaction>, b: seq<Transaction>)
    ensures Materials(a + b) == Materials(a) + Materials(b)
  {
  }

  lemma TiedAppend(s: seq<Transaction>, t: Transaction, x: Material)
    ensures Tied(FineLeq, x, Materials(s + [t])) == Tied(FineLeq, x, Materials(s)) + TieOf(FineLeq, x)(t.material)
  {
    MaterialsConcat(s, [t]);
    assert Materials([t]) == [t.material];
    TiedLast(FineLeq, x, Materials(s), t.material);
  }

  lemma {:induction false} CoarseInsertStable(s: seq<Transaction>, z: Transaction, x: Material)
    ensures Tied(FineLeq, x, Materials(Insert(CoarseLeq, s, z))) == Tied(FineLeq, x, Materials(s)) + TieOf(FineLeq, x)(z.material)
  {
    if s == [] || CoarseLeq(s[|s| - 1], z) {
      assert Insert(CoarseLeq, s, z) == s + [z];
      TiedAppend(s, z, x);
    } else {
      var n, f := |s| - 1, TieOf(FineLeq, x);
      CoarseInsertStable(s[..n], z, x);
      TiedAppend(Insert(CoarseLeq, s[..n], z), s[n], x);
      TiedAppend(s[..n], s[n], x);
      assert s == s[..n] + [s[n]];
      if f(z.material) != [] && f(s[n].material) != [] {
        FineTiesAreCoarse(x, s[n], z);
      }
      SwapEmpty(Tied(FineLeq, x, Materials(s[..n])), f(z.material), f(s[n].material));
    }
  }

  /** Sorting by the coarser key keeps the order of transactions that tie in the finer one. */
  lemma {:induction false} CoarseSortStable(s: seq<Transaction>, x: Material)
    ensures Tied(FineLeq, x, Materials(Sort(CoarseLeq, s))) == Tied(FineLeq, x, Materials(s))
  {
    if s != [] {
      var n := |s| - 1;
      CoarseSortStable(s[..n], x);
      CoarseInsertStable(Sort(CoarseLeq, s[..n]), s[n], x);
      assert Materials(s)[..n] == Materials(s[..n]);
    }
  }

  lemma CoarseSortTies(a: seq<Transaction>, b: seq<Transaction>)
    ensures SameTies(FineLeq, Materials(Sort(CoarseLeq, a)), Materials(Sort(CoarseLeq, b)))
      <==> SameTies(FineLeq, Materials(a), Materials(b))
  {
    forall x: Material
      ensures Tied(FineLeq, x, Materials(Sort(CoarseLeq, a))) == Tied(FineLeq, x, Materials(a))
      ensures Tied(FineLeq, x, Materials(Sort(CoarseLeq, b))) == Tied(FineLeq, x, Materials(b))
    {
      CoarseSortStable(a, x);
      CoarseSortStable(b, x);
    }
  }

  // ---------------------------------------------------------------- commitments that ignore the order

  lemma SameMaterials(a: seq<Transaction>, b: seq<Transaction>)
    requires SameTies(FineLeq, Materials(a), Materials(b))
    ensures multiset(Materials(a)) == multiset(Materials(b)) && |a| == |b|
  {
    FineOrder();
    SortSameIff(FineLeq, Materials(a), Materials(b));
    SortPermutes(FineLeq, Materials(a));
    SortPermutes(FineLeq, Materials(b));
    assert |Materials(a)| == |Materials(b)|;
  }

  function Sum(f: Material -> real, ms: seq<Material>): real {
    if ms == [] then 0.0 else Sum(f, ms[..|ms| - 1]) + f(ms[|ms| - 1])
  }

  lemma {:induction false} SumConcat(f: Material -> real, a: seq<Material>, b: seq<Material>)
    ensures Sum(f, a + b) == Sum(f, a) + Sum(f, b)
    decreases |b|
  {
    if b == [] {
      assert a + b == a;
    } else {
      ConcatInit(a, b);
      SumConcat(f, a, b[..|b| - 1]);
    }
  }

  lemma SumWithout(f: Material -> real, b: seq<Material>, j: nat)
    requires j < |b|
    ensures Sum(f, b) == Sum(f, b[..j] + b[j + 1..]) + f(b[j])
  {
    SplitAt(b, j);
    SumConcat(f, b[..j + 1], b[j + 1..]);
    SumConcat(f, b[..j], b[j + 1..]);
    PrefixStep(b, j);
    SumLast(f, b[..j], b[j]);
  }

  lemma SumLast(f: Material -> real, s: seq<Material>, x: Material)
    ensures Sum(f, s + [x]) == Sum(f, s) + f(x)
  {
    assert (s + [x])[..|s|] == s;
  }

  lemma {:induction false} SumPermute(f: Material -> real, a: seq<Material>, b: seq<Material>)
    requires multiset(a) == multiset(b)
    ensures Sum(f, a) == Sum(f, b)
    decreases |a|
  {
    assert |a| == |multiset(a)| == |multiset(b)| == |b|;
    if a != [] {
      var j := Removed(a, b);
      SumPermute(f, a[..|a| - 1], b[..j] + b[j + 1..]);
      SumWithout(f, b, j);
    }
  }

  function Wall(m: Material): real { m.wall }

  function Cpu(m: Material): real { m.cpu }

  function Bytes(m: Material): real { m.bytes as real }

  lemma {:induction false} TotalsAreSums(txs: seq<Transaction>)
    ensures TotalWall(txs) == Sum(Wall, Materials(txs)) && TotalCpu(txs) == Sum(Cpu, Materials(txs))
    ensures TotalBytes(txs) as real == Sum(Bytes, Materials(txs))
  {
    if txs != [] {
      TotalsAreSums(txs[..|txs| - 1]);
      assert Materials(txs)[..|txs| - 1] == Materials(txs[..|txs| - 1]);
    }
  }

  lemma SameTokens(a: seq<Transaction>, b: seq<Transaction>)
    requires multiset(Materials(a)) == multiset(Materials(b))
    ensures TokenHash(a) == TokenHash(b)
  {
    TotalsAreSums(a);
    TotalsAreSums(b);
    SumPermute(Wall, Materials(a), Materials(b));
    SumPermute(Cpu, Materials(a), Materials(b));
    SumPermute(Bytes, Materials(a), Materials(b));
  }

  lemma MaskWithin(bit: string -> nat, a: seq<Transaction>, b: seq<Transaction>)
    requires multiset(Materials(a)) == multiset(Materials(b))
    ensures Mask(bit, a) <= Mask(bit, b)
  {
    forall k | k in Mask(bit, a) ensures k in Mask(bit, b) {
      var t :| t in a && k == bit(t.material.cid) % 256;
      var i :| 0 <= i < |a| && a[i] == t;
      assert Materials(a)[i] in multiset(Materials(b));
      var j :| 0 <= j < |b| && Materials(b)[j] == t.material;
      assert b[j] in b && bit(b[j].material.cid) % 256 == k;
    }
  }

  lemma SortedMaterials(a: seq<Transaction>)
    ensures multiset(Materials(Sort(CoarseLeq, a))) == multiset(Materials(a)) && |Sort(CoarseLeq, a)| == |a|
  {
    SortPermutes(CoarseLeq, a);
    MaterialsPermute(Sort(CoarseLeq, a), a);
  }

  // ---------------------------------------------------------------- acceptance

  /** The two batches lead to the same commitments. */
  predicate SameCommitments(bit: string -> nat, a: seq<Transaction>, b: seq<Transaction>) {
    var x, y := Sort(CoarseLeq, a), Sort(CoarseLeq, b);
    |a| == |b| && MerkleRoot(Materials(x)) == MerkleRoot(Materials(y)) && Mask(bit, x) == Mask(bit, y) && TokenHash(x) == TokenHash(y)
  }

  /** ... exactly when they have the same ties: mask and token add nothing to count and root. */
  lemma CommitmentsIff(bit: string -> nat, a: seq<Transaction>, b: seq<Transaction>)
    ensures SameCommitments(bit, a, b) <==> SameTies(FineLeq, Materials(a), Materials(b))
    ensures SameCommitments(bit, a, b) <==>
      |a| == |b| && MerkleRoot(Materials(Sort(CoarseLeq, a))) == MerkleRoot(Materials(Sort(CoarseLeq, b)))
  {
    var x, y := Sort(CoarseLeq, a), Sort(CoarseLeq, b);
    FineOrder();
    SortedMaterials(a);
    SortedMaterials(b);
    CoarseSortTies(a, b);
    SortSameIff(FineLeq, Materials(x), Materials(y));
    if |a| == |b| && MerkleRoot(Materials(x)) == MerkleRoot(Materials(y)) {
      SameRootSameOrder(Materials(x), Materials(y));
    }
    if SameTies(FineLeq, Materials(a), Materials(b)) {
      SameMaterials(x, y);
      SameTokens(x, y);
      MaskWithin(bit, x, y);
      MaskWithin(bit, y, x);
    }
  }

  lemma VerdictOnBuilt(bit: string -> nat, txs: seq<Transaction>, first: int, last: int, prev: Hash,
                       journal: seq<Transaction>, expected: Hash)
    requires txs != [] && 0 < first <= last && !prev.Malformed?
    ensures Verify(bit, Build(bit, txs, first, last, prev), journal, expected).Accepted?
      <==> expected == prev && SameCommitments(bit, txs, InRange(journal, first, last))
  {
    SortPermutes(CoarseLeq, txs);
    MerkleRootIsDigest(Materials(Sort(CoarseLeq, txs)));
    var p := Build(bit, txs, first, last, prev);
    if expected == prev {
      assert Verify(bit, p, journal, expected) == VerifyBatch(bit, p, p.mask.value, p.proof.value, InRange(journal, first, last));
    }
  }

  /** A peer accepts a payload built from `txs` if and only if it expects the same previous root and its
      own records in the range are the same transactions, tied ones in the same order. */
  lemma PeerAcceptsIff(bit: string -> nat, txs: seq<Transaction>, first: int, last: int, prev: Hash,
                       journal: seq<Transaction>, expected: Hash)
    requires txs != [] && 0 < first <= last && !prev.Malformed?
    ensures Verify(bit, Build(bit, txs, first, last, prev), journal, expected).Accepted?
      <==> expected == prev && SameTies(FineLeq, Materials(txs), Materials(InRange(journal, first, last)))
  {
    VerdictOnBuilt(bit, txs, first, last, prev, journal, expected);
    CommitmentsIff(bit, txs, InRange(journal, first, last));
  }

  // ---------------------------------------------------------------- any payload

  /** The fields of a payload that commits to the records `txs` on top of the root `prev`. */
  ghost predicate CommitsTo(bit: string -> nat, p: Payload, txs: seq<Transaction>, prev: Hash) {
    var ms := Materials(txs);
    && p.kind == "ROLLUP_BLOCK" && p.algo == "sha256/merkle:v1" && 0 < p.first <= p.last
    && p.count == |txs| > 0 && p.prev == prev && !prev.Malformed? && p.root == MerkleRoot(ms)
    && p.mask.Some? && (forall k :: k in p.mask.value <==> exists i :: 0 <= i < |ms| && k == bit(ms[i].cid) % 256)
    && p.token == Sha(Token(Sum(Wall, ms), Sum(Cpu, ms), Sum(Bytes, ms).Floor))
    && p.target == Sha(Target(prev, p.root, p.mask.value, p.token, p.first, p.last, p.count))
    && p.proof == Some(ZkProof(prev, p.target, p.mask, p.token, Sha(Proof(prev, p.target, p.mask.value, p.token))))
  }

  /** The sort in front does not matter to the commitments. */
  lemma CoarseSortIrrelevant(bit: string -> nat, txs: seq<Transaction>)
    ensures var x := Sort(CoarseLeq, txs);
      && MerkleRoot(Materials(x)) == MerkleRoot(Materials(txs)) && Mask(bit, x) == Mask(bit, txs)
      && TokenHash(x) == TokenHash(txs)
  {
    var x := Sort(CoarseLeq, txs);
    FineOrder();
    SortedMaterials(txs);
    forall m: Material ensures Tied(FineLeq, m, Materials(x)) == Tied(FineLeq, m, Materials(txs)) {
      CoarseSortStable(txs, m);
    }
    SortSameIff(FineLeq, Materials(x), Materials(txs));
    SameTokens(x, txs);
    MaskWithin(bit, x, txs);
    MaskWithin(bit, txs, x);
  }

  lemma TokenOfSums(txs: seq<Transaction>)
    ensures TokenHash(txs)
      == Sha(Token(Sum(Wall, Materials(txs)), Sum(Cpu, Materials(txs)), Sum(Bytes, Materials(txs)).Floor))
  {
    TotalsAreSums(txs);
  }

  lemma MaskBits(bit: string -> nat, txs: seq<Transaction>, k: nat)
    ensures k in Mask(bit, txs) <==> exists i :: 0 <= i < |Materials(txs)| && k == bit(Materials(txs)[i].cid) % 256
  {
    if i :| 0 <= i < |Materials(txs)| && k == bit(Materials(txs)[i].cid) % 256 {
      assert txs[i] in txs;
    }
    if t :| t in txs && k == bit(t.material.cid) % 256 {
      var i :| 0 <= i < |txs| && txs[i] == t;
      assert Materials(txs)[i] == t.material;
    }
  }

  lemma MaskIs(bit: string -> nat, txs: seq<Transaction>, mask: set<nat>)
    ensures mask == Mask(bit, txs) <==>
      forall k :: k in mask <==> exists i :: 0 <= i < |Materials(txs)| && k == bit(Materials(txs)[i].cid) % 256
  {
    forall k: nat ensures k in Mask(bit, txs) <==> exists i :: 0 <= i < |Materials(txs)| && k == bit(Materials(txs)[i].cid) % 256 {
      MaskBits(bit, txs, k);
    }
  }

  /** A journal and a previous root accept exactly the payloads that commit to the records in their range: each
      field, and each field of the proof, is determined by them. */
  lemma AcceptedIff(bit: string -> nat, p: Payload, journal: seq<Transaction>, prev: Hash)
    ensures Verify(bit, p, journal, prev).Accepted? <==> CommitsTo(bit, p, InRange(journal, p.first, p.last), prev)
  {
    var txs := InRange(journal, p.first, p.last);
    VerifyIff(bit, p, journal, prev);
    if p.mask.Some? && p.proof.Some? {
      BatchIff(bit, p, p.mask.value, p.proof.value, txs);
      RecordsIff(bit, p, p.mask.value, txs);
      MerkleRootIsDigest(Materials(txs));
    }
  }

  /** The checks before the journal is read. */
  predicate Formed(p: Payload, prev: Hash) {
    && p.kind == "ROLLUP_BLOCK" && p.algo == "sha256/merkle:v1" && 0 < p.first <= p.last && 0 < p.count
    && p.prev == prev && !p.prev.Malformed? && !p.root.Malformed? && !p.token.Malformed? && !p.target.Malformed?
    && p.mask.Some? && p.proof.Some?
  }

  lemma VerifyIff(bit: string -> nat, p: Payload, journal: seq<Transaction>, prev: Hash)
    ensures Verify(bit, p, journal, prev).Accepted? <==>
      Formed(p, prev) && VerifyBatch(bit, p, p.mask.value, p.proof.value, InRange(journal, p.first, p.last)).Accepted?
  {
  }

  /** What the records determine. */
  lemma RecordsIff(bit: string -> nat, p: Payload, mask: set<nat>, txs: seq<Transaction>)
    ensures var x, ms := Sort(CoarseLeq, txs), Materials(txs);
      && MerkleRoot(Materials(x)) == MerkleRoot(ms)
      && (Mask(bit, x) == mask <==> forall k :: k in mask <==> exists i :: 0 <= i < |ms| && k == bit(ms[i].cid) % 256)
      && TokenHash(x) == Sha(Token(Sum(Wall, ms), Sum(Cpu, ms), Sum(Bytes, ms).Floor))
  {
    CoarseSortIrrelevant(bit, txs);
    TokenOfSums(txs);
    MaskIs(bit, txs, mask);
  }

  lemma BatchIff(bit: string -> nat, p: Payload, mask: set<nat>, z: ZkProof, txs: seq<Transaction>)
    ensures VerifyBatch(bit, p, mask, z, txs).Accepted? <==>
      && |txs| == p.count && MerkleRoot(Materials(Sort(CoarseLeq, txs))) == p.root
      && Mask(bit, Sort(CoarseLeq, txs)) == mask && TokenHash(Sort(CoarseLeq, txs)) == p.token
      && p.target == Sha(Target(p.prev, p.root, mask, p.token, p.first, p.last, p.count))
      && z == ZkProof(p.prev, p.target, Some(mask), p.token, Sha(Proof(p.prev, p.target, mask, p.token)))
  {
  }

  /** What an engine builds from a batch commits to it. */
  lemma BuiltCommits(bit: string -> nat, txs: seq<Transaction>, first: int, last: int, prev: Hash)
    requires txs != [] && 0 < first <= last && !prev.Malformed?
    ensures CommitsTo(bit, Build(bit, txs, first, last, prev), txs, prev)
  {
    var p := Build(bit, txs, first, last, prev);
    SortPermutes(CoarseLeq, txs);
    RecordsIff(bit, p, p.mask.value, txs);
  }

  /** So a range leaves no choice: two accepted payloads with the same bounds are equal. */
  lemma AcceptedOnce(bit: string -> nat, p: Payload, q: Payload, journal: seq<Transaction>, prev: Hash)
    requires p.first == q.first && p.last == q.last
    requires Verify(bit, p, journal, prev).Accepted? && Verify(bit, q, journal, prev).Accepted?
    ensures p == q
  {
    var txs := InRange(journal, p.first, p.last);
    AcceptedIff(bit, p, journal, prev);
    AcceptedIff(bit, q, journal, prev);
    MaskIs(bit, txs, p.mask.value);
    MaskIs(bit, txs, q.mask.value);
  }

  // ---------------------------------------------------------------- peers that recorded another order

  /** Every peer that holds the same transactions in the range accepts, however it recorded them. */
  ghost predicate AnyOrderAccepted(bit: string -> nat, txs: seq<Transaction>, first: int, last: int, prev: Hash) {
    forall journal: seq<Transaction> ::
      multiset(Materials(InRange(journal, first, last))) == multiset(Materials(txs))
        ==> Verify(bit, Build(bit, txs, first, last, prev), journal, prev).Accepted?
  }

  function Recorded(ms: seq<Material>, at: int): (journal: seq<Transaction>)
    ensures |journal| == |ms| && forall i :: 0 <= i < |ms| ==> journal[i] == Transaction(at, ms[i])
  {
    seq(|ms|, i requires 0 <= i < |ms| => Transaction(at, ms[i]))
  }

  lemma RecordedShown(ms: seq<Material>, first: int, last: int)
    requires 0 < first <= last && forall i :: 0 <= i < |ms| ==> ms[i].cid != "" && ms[i].event != ""
    ensures Materials(InRange(Recorded(ms, first), first, last)) == ms
  {
    InRangeWhole(Recorded(ms, first), first, last);
  }

  /** A peer that recorded `ms` accepts the payload exactly when `ms` has the ties of the batch. */
  lemma RecordedAccepts(bit: string -> nat, txs: seq<Transaction>, first: int, last: int, prev: Hash, ms: seq<Material>)
    requires txs != [] && AllLegible(txs) && 0 < first <= last && !prev.Malformed?
    requires multiset(ms) == multiset(Materials(txs)) && AnyOrderAccepted(bit, txs, first, last, prev)
    ensures SameTies(FineLeq, Materials(txs), ms)
  {
    forall i | 0 <= i < |ms| ensures ms[i].cid != "" && ms[i].event != "" {
      assert ms[i] in multiset(Materials(txs));
      var j :| 0 <= j < |txs| && Materials(txs)[j] == ms[i];
      assert Legible(txs[j]);
    }
    RecordedShown(ms, first, last);
    PeerAcceptsIff(bit, txs, first, last, prev, Recorded(ms, first), prev);
  }

  lemma TieRejects(bit: string -> nat, txs: seq<Transaction>, first: int, last: int, prev: Hash, x: Material, y: Material)
    requires txs != [] && AllLegible(txs) && 0 < first <= last && !prev.Malformed?
    requires x in Materials(txs) && y in Materials(txs) && x != y && Ties(FineLeq, x, y)
    ensures !AnyOrderAccepted(bit, txs, first, last, prev)
  {
    if AnyOrderAccepted(bit, txs, first, last, prev) {
      var rest := BringToFront(Materials(txs), x, y);
      RecordedAccepts(bit, txs, first, last, prev, [x, y] + rest);
      RecordedAccepts(bit, txs, first, last, prev, [y, x] + rest);
      FineOrder();
      SortSameIff(FineLeq, Materials(txs), [x, y] + rest);
      SortSameIff(FineLeq, Materials(txs), [y, x] + rest);
      TiesKeepOrder(FineLeq, x, y, rest);
    }
  }

  lemma TieFreeAccepted(bit: string -> nat, txs: seq<Transaction>, first: int, last: int, prev: Hash, journal: seq<Transaction>)
    requires txs != [] && 0 < first <= last && !prev.Malformed? && TieFree(FineLeq, Materials(txs))
    requires multiset(Materials(InRange(journal, first, last))) == multiset(Materials(txs))
    ensures Verify(bit, Build(bit, txs, first, last, prev), journal, prev).Accepted?
  {
    var a, b := Materials(txs), Materials(InRange(journal, first, last));
    FineOrder();
    TieFreeSame(a, b);
    SortSameIff(FineLeq, a, b);
    PeerAcceptsIff(bit, txs, first, last, prev, journal, prev);
  }

  lemma TieFreeSame(a: seq<Material>, b: seq<Material>)
    requires TotalPreorder(FineLeq) && TieFree(FineLeq, a) && multiset(a) == multiset(b)
    ensures Sort(FineLeq, a) == Sort(FineLeq, b)
  {
    MerkleIgnoresOrder(a, b);
    assert |a| == |multiset(a)| == |multiset(b)| == |b|;
    SameRootSameOrder(a, b);
  }

  /** A payload is accepted by every peer that holds its transactions, in whatever order, if and only if no
      two different transactions of it tie. */
  lemma AnyOrderAcceptedIff(bit: string -> nat, txs: seq<Transaction>, first: int, last: int, prev: Hash)
    requires txs != [] && AllLegible(txs) && 0 < first <= last && !prev.Malformed?
    ensures AnyOrderAccepted(bit, txs, first, last, prev) <==> TieFree(FineLeq, Materials(txs))
  {
    if TieFree(FineLeq, Materials(txs)) {
      forall journal: seq<Transaction>
        | multiset(Materials(InRange(journal, first, last))) == multiset(Materials(txs))
        ensures Verify(bit, Build(bit, txs, first, last, prev), journal, prev).Accepted?
      {
        TieFreeAccepted(bit, txs, first, last, prev, journal);
      }
    } else {
      FineOrder();
      var x, y :| x in Materials(txs) && y in Materials(txs) && FineLeq(x, y) && FineLeq(y, x) && x != y;
      TieRejects(bit, txs, first, last, prev, x, y);
    }
  }
}
