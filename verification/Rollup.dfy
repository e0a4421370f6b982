/** core/rollup.py: batching transactions, committing to a batch, and checking a rollup payload against
    a local mirror journal. Durations are reals. */
module Rollup {
  import opened Bits
  import opened Common
  import opened Sorting
  import opened Merkle

  datatype Transaction = Transaction(seqNo: int, material: Material)

  /** The sort key of `_flush_batch` and `verify_rollup_payload`. */
  predicate CoarseLeq(a: Transaction, b: Transaction) {
    var x, y := a.material, b.material;
    || StringLess(x.cid, y.cid)
    || (x.cid == y.cid && (StringLess(x.event, y.event) || (x.event == y.event && x.bytes <= y.bytes)))
  }

  /** `int(x * 1_000_000)`: truncation toward zero. */
  function Micros(x: real): int {
    if x >= 0.0 then (x * 1000000.0).Floor else -((-x * 1000000.0).Floor)
  }

  /** The whole microseconds in `x` seconds, without the fraction. */
  predicate WholeMicros(x: real, n: int) {
    var us := x * 1000000.0;
    if us >= 0.0 then n as real <= us < (n + 1) as real else (n - 1) as real < us <= n as real
  }

  lemma MicrosTruncates(x: real, n: int)
    ensures Micros(x) == n <==> WholeMicros(x, n)
  {
  }

  /** `_stable_key` of `merkle_root_from_transactions`. */
  predicate FineLeq(x: Material, y: Material) {
    || StringLess(x.cid, y.cid)
    || (x.cid == y.cid &&
       (|| StringLess(x.event, y.event)
        || (x.event == y.event &&
           (|| x.bytes < y.bytes
            || (x.bytes == y.bytes &&
               (Micros(x.wall) < Micros(y.wall) || (Micros(x.wall) == Micros(y.wall) && Micros(x.cpu) <= Micros(y.cpu))))))))
  }

  ghost predicate SameMicros(x: real, y: real) {
    exists n :: WholeMicros(x, n) && WholeMicros(y, n)
  }

  /** Two records tie exactly if they agree in everything but fractions of a microsecond. */
  lemma FineTiesIff(x: Material, y: Material)
    ensures FineLeq(x, y) && FineLeq(y, x) <==>
      x.cid == y.cid && x.event == y.event && x.bytes == y.bytes && SameMicros(x.wall, y.wall) && SameMicros(x.cpu, y.cpu)
  {
    StringLessTotal(x.cid, y.cid);
    StringLessTotal(x.event, y.event);
    MicrosTruncates(x.wall, Micros(x.wall));
    MicrosTruncates(x.cpu, Micros(x.cpu));
    MicrosTruncates(y.wall, Micros(x.wall));
    MicrosTruncates(y.cpu, Micros(x.cpu));
    if n :| WholeMicros(x.wall, n) && WholeMicros(y.wall, n) {
      MicrosTruncates(x.wall, n);
    }
    if n :| WholeMicros(x.cpu, n) && WholeMicros(y.cpu, n) {
      MicrosTruncates(x.cpu, n);
    }
  }

  /** The key ascends: first correlation id, then event, bytes, wall time and processor time. */
  lemma FineAscends(x: Material, y: Material)
    ensures StringLess(x.cid, y.cid) ==> !FineLeq(y, x)
    ensures x.cid == y.cid && StringLess(x.event, y.event) ==> !FineLeq(y, x)
    ensures x.cid == y.cid && x.event == y.event && x.bytes < y.bytes ==> !FineLeq(y, x)
    ensures x.cid == y.cid && x.event == y.event && x.bytes == y.bytes && Micros(x.wall) < Micros(y.wall) ==> !FineLeq(y, x)
    ensures x.(wall := 0.0, cpu := 0.0) == y.(wall := 0.0, cpu := 0.0) && Micros(x.wall) == Micros(y.wall) ==>
      (Micros(x.cpu) < Micros(y.cpu) ==> !FineLeq(y, x))
  {
    StringLessTotal(x.cid, y.cid);
    StringLessTotal(x.event, y.event);
  }

  lemma FineOrder()
    ensures TotalPreorder(FineLeq)
  {
    forall x: Material, y: Material ensures FineLeq(x, y) || FineLeq(y, x) {
      StringLessTotal(x.cid, y.cid);
      StringLessTotal(x.event, y.event);
    }
    forall x: Material, y: Material, z: Material | FineLeq(x, y) && FineLeq(y, z) ensures FineLeq(x, z) {
      FineTransitive(x, y, z);
    }
  }

  lemma FineTransitive(x: Material, y: Material, z: Material)
    requires FineLeq(x, y) && FineLeq(y, z)
    ensures FineLeq(x, z)
  {
    if StringLess(x.cid, y.cid) && StringLess(y.cid, z.cid) {
      StringLessTransitive(x.cid, y.cid, z.cid);
    }
    if StringLess(x.event, y.event) && StringLess(y.event, z.event) {
      StringLessTransitive(x.event, y.event, z.event);
    }
  }

  function Materials(txs: seq<Transaction>): (r: seq<Material>)
    ensures |r| == |txs| && forall i :: 0 <= i < |txs| ==> r[i] == txs[i].material
  {
    seq(|txs|, i requires 0 <= i < |txs| => txs[i].material)
  }

  /** `merkle_root_from_transactions` */
  function MerkleRoot(ms: seq<Material>): Hash {
    if ms == [] then Sha(EmptyRollup)
    else
      SortPermutes(FineLeq, ms);
      Root(Leaves(Sort(FineLeq, ms)))
  }

  /** The root is that of the tree over the leaves of the sorted records. */
  lemma MerkleRootIsTree(ms: seq<Material>)
    requires ms != []
    ensures var s := Sort(FineLeq, ms);
      && |s| == |ms| && multiset(s) == multiset(ms) && |ms| <= Pow2(Depth(|ms|))
      && MerkleRoot(ms) == Tree(seq(|s|, i requires 0 <= i < |s| => Sha(Leaf(s[i]))), Depth(|ms|))
    ensures forall i, j :: 0 <= i < j < |ms| ==> FineLeq(Sort(FineLeq, ms)[i], Sort(FineLeq, ms)[j])
  {
    FineOrder();
    SortPermutes(FineLeq, ms);
    SortSorts(FineLeq, ms);
    RootIsTree(Leaves(Sort(FineLeq, ms)));
  }

  /** Its loop form. */
  method MerkleRootFromTransactions(ms: seq<Material>) returns (root: Hash)
    ensures root == MerkleRoot(ms)
  {
    if ms == [] {
      return Sha(EmptyRollup);
    }
    SortPermutes(FineLeq, ms);
    root := RootOfLevel(Leaves(Sort(FineLeq, ms)));
  }

  /** For equal counts, equal roots mean equal multisets of transactions. */
  lemma MerkleBinds(a: seq<Material>, b: seq<Material>)
    requires |a| == |b| && MerkleRoot(a) == MerkleRoot(b)
    ensures multiset(a) == multiset(b)
  {
    if a != [] {
      SortPermutes(FineLeq, a);
      SortPermutes(FineLeq, b);
      RootBinds(Leaves(Sort(FineLeq, a)), Leaves(Sort(FineLeq, b)));
      LeavesInjective(Sort(FineLeq, a), Sort(FineLeq, b));
    }
  }

  /** Roots of `m` and of `n` transactions never agree unless the transactions do. */
  ghost predicate RootsBind(m: nat, n: nat) {
    forall a: seq<Material>, b: seq<Material> :: |a| == m && |b| == n && MerkleRoot(a) == MerkleRoot(b) ==> multiset(a) == multiset(b)
  }

  lemma RootsSeparate(a: seq<Material>, b: seq<Material>)
    requires |a| != |b| && (a == [] || b == [] || Depth(|a|) != Depth(|b|))
    ensures MerkleRoot(a) != MerkleRoot(b)
  {
    SortPermutes(FineLeq, a);
    SortPermutes(FineLeq, b);
    if a != [] {
      RootHeight(Leaves(Sort(FineLeq, a)), 0);
      RootNotEmpty(Leaves(Sort(FineLeq, a)));
    }
    if b != [] {
      RootHeight(Leaves(Sort(FineLeq, b)), 0);
      RootNotEmpty(Leaves(Sort(FineLeq, b)));
    }
  }

  lemma {:induction false} RootNotEmpty(level: seq<Hash>)
    requires level != [] && forall i :: 0 <= i < |level| ==> level[i] != Sha(EmptyRollup)
    ensures Root(level) != Sha(EmptyRollup)
    decreases |level|
  {
    if |level| > 1 {
      RootNotEmpty(Parents(Padded(level)));
    }
  }

  lemma RootsCollide(m: nat, n: nat)
    requires m > 0 && n > 0 && m != n && Depth(m) == Depth(n)
    ensures !RootsBind(m, n)
  {
    var x := Material("", "", 0.0, 0.0, 0);
    CopiesShareRoot(x, m, n);
    DifferentSizes(Copies(x, m), Copies(x, n));
  }

  lemma CopiesShareRoot(x: Material, m: nat, n: nat)
    requires m > 0 && n > 0 && Depth(m) == Depth(n)
    ensures MerkleRoot(Copies(x, m)) == MerkleRoot(Copies(x, n))
  {
    SortConstant(Copies(x, m), x);
    SortConstant(Copies(x, n), x);
    CopiesCollide(x, m, n);
  }

  lemma DifferentSizes<T>(a: seq<T>, b: seq<T>)
    requires |a| != |b|
    ensures multiset(a) != multiset(b)
  {
    assert |multiset(a)| == |a| && |multiset(b)| == |b|;
  }

  lemma SortConstant(ms: seq<Material>, x: Material)
    requires forall i :: 0 <= i < |ms| ==> ms[i] == x
    ensures Sort(FineLeq, ms) == ms
  {
    SortPermutes(FineLeq, ms);
    var s := Sort(FineLeq, ms);
    forall i | 0 <= i < |s| ensures s[i] == ms[i] {
      assert s[i] in multiset(s);
    }
  }

  /** The verifier's count check is needed exactly where two counts give equally deep trees. */
  lemma RootsBindIff(m: nat, n: nat)
    ensures RootsBind(m, n) <==> m == n || m == 0 || n == 0 || Depth(m) != Depth(n)
  {
    if m == n {
      forall a: seq<Material>, b: seq<Material> | |a| == m && |b| == n && MerkleRoot(a) == MerkleRoot(b)
        ensures multiset(a) == multiset(b)
      {
        MerkleBinds(a, b);
      }
    } else if m == 0 || n == 0 || Depth(m) != Depth(n) {
      forall a: seq<Material>, b: seq<Material> | |a| == m && |b| == n ensures MerkleRoot(a) != MerkleRoot(b) {
        RootsSeparate(a, b);
      }
    } else {
      RootsCollide(m, n);
    }
  }

  /** Conversely a reordered batch has the same root when its keys tell its transactions apart. */
  lemma MerkleIgnoresOrder(a: seq<Material>, b: seq<Material>)
    requires multiset(a) == multiset(b) && TieFree(FineLeq, a)
    ensures MerkleRoot(a) == MerkleRoot(b)
  {
    FineOrder();
    assert |a| == |multiset(a)| == |multiset(b)| == |b|;
    SortPermutes(FineLeq, a);
    SortPermutes(FineLeq, b);
    SortSorts(FineLeq, a);
    SortSorts(FineLeq, b);
    var x := Sort(FineLeq, a);
    assert forall m :: m in x ==> m in a by {
      forall m | m in x ensures m in a {
        assert m in multiset(x);
      }
    }
    SortedUnique(FineLeq, x, Sort(FineLeq, b));
  }

  /** Equal counts and equal roots mean that both batches were sorted into the same list. */
  lemma SameRootSameOrder(a: seq<Material>, b: seq<Material>)
    requires |a| == |b| && MerkleRoot(a) == MerkleRoot(b)
    ensures Sort(FineLeq, a) == Sort(FineLeq, b)
  {
    if a != [] {
      SortPermutes(FineLeq, a);
      SortPermutes(FineLeq, b);
      RootBinds(Leaves(Sort(FineLeq, a)), Leaves(Sort(FineLeq, b)));
      LeavesInjective(Sort(FineLeq, a), Sort(FineLeq, b));
    }
  }

  /** The root does not depend on the order in which the batch was recorded. */
  ghost predicate OrderFree(a: seq<Material>) {
    forall b :: multiset(b) == multiset(a) ==> MerkleRoot(b) == MerkleRoot(a)
  }

  /** Durations that agree to the microsecond tie; a batch with two different transactions that tie has
      an order in which its root is another one. */
  lemma TiesExposeOrder(a: seq<Material>, x: Material, y: Material)
    requires x in a && y in a && x != y && FineLeq(x, y) && FineLeq(y, x)
    ensures !OrderFree(a)
  {
    var rest := BringToFront(a, x, y);
    if OrderFree(a) {
      FineOrder();
      SameRootSameOrder([x, y] + rest, [y, x] + rest);
      TiesKeepOrder(FineLeq, x, y, rest);
    }
  }

  /** The root is independent of arrival order exactly for batches without such ties. */
  lemma OrderFreeIff(a: seq<Material>)
    ensures OrderFree(a) <==> TieFree(FineLeq, a)
  {
    if TieFree(FineLeq, a) {
      forall b | multiset(b) == multiset(a) ensures MerkleRoot(b) == MerkleRoot(a) {
        MerkleIgnoresOrder(a, b);
      }
    } else {
      FineOrder();
      var x, y :| x in a && y in a && FineLeq(x, y) && FineLeq(y, x) && x != y;
      TiesExposeOrder(a, x, y);
    }
  }

  // ---------------------------------------------------------------- payloads

  datatype ZkProof = ZkProof(prev: Hash, target: Hash, mask: Option<set<nat>>, token: Hash, proofHash: Hash)

  /** A rollup payload; a mask that is not 64 hexadecimal digits is None, a missing proof is None. */
  datatype Payload = Payload(
    kind: string,
    algo: string,
    first: int,
    last: int,
    count: int,
    prev: Hash,
    root: Hash,
    mask: Option<set<nat>>,
    token: Hash,
    target: Hash,
    proof: Option<ZkProof>)

  const KIND: string := "ROLLUP_BLOCK"
  const ALGO: string := "sha256/merkle:v1"

  /** `compute_correlation_mask`: the bits selected by the hashed correlation ids. */
  function Mask(bit: string -> nat, txs: seq<Transaction>): set<nat> {
    set t | t in txs :: bit(t.material.cid) % 256
  }

  function TotalWall(txs: seq<Transaction>): real {
    if txs == [] then 0.0 else TotalWall(txs[..|txs| - 1]) + txs[|txs| - 1].material.wall
  }

  function TotalCpu(txs: seq<Transaction>): real {
    if txs == [] then 0.0 else TotalCpu(txs[..|txs| - 1]) + txs[|txs| - 1].material.cpu
  }

  function TotalBytes(txs: seq<Transaction>): int {
    if txs == [] then 0 else TotalBytes(txs[..|txs| - 1]) + txs[|txs| - 1].material.bytes
  }

  function TokenHash(txs: seq<Transaction>): Hash {
    Sha(Token(TotalWall(txs), TotalCpu(txs), TotalBytes(txs)))
  }

  /** `_flush_batch` up to the submission, for a non-empty batch. */
  function Build(bit: string -> nat, txs: seq<Transaction>, first: int, last: int, prev: Hash): Payload {
    var ordered := Sort(CoarseLeq, txs);
    var root, mask, token := MerkleRoot(Materials(ordered)), Mask(bit, ordered), TokenHash(ordered);
    var target := Sha(Target(prev, root, mask, token, first, last, |ordered|));
    Payload(KIND, ALGO, first, last, |ordered|, prev, root, Some(mask), token, target,
      Some(ZkProof(prev, target, Some(mask), token, Sha(Proof(prev, target, mask, token)))))
  }

  /** What `iter_rollup_journal` yields of one record. */
  predicate Legible(t: Transaction) {
    t.seqNo > 0 && t.material.cid != "" && t.material.event != ""
  }

  /** The journal records that a payload is checked against. */
  function InRange(journal: seq<Transaction>, first: int, last: int): seq<Transaction> {
    if journal == [] then []
    else
      var n := |journal| - 1;
      InRange(journal[..n], first, last)
        + if Legible(journal[n]) && first <= journal[n].seqNo <= last then [journal[n]] else []
  }

  /** One value per `ValueError` of the source, in the order of the checks. */
  datatype Check =
    | KindWrong | AlgoMissing | AlgoUnsupported | SeqStartInvalid | SeqEndInvalid
    | TxCountInvalid | PreviousRootInvalid | MerkleRootInvalid | MaskInvalid | TokenHashInvalid
    | TargetRootInvalid | ProofInvalid | PreviousRootStale | TxCountMismatch | MerkleRootMismatch
    | MaskMismatch | TokenHashMismatch | TargetRootMismatch | ProofPreviousMismatch | ProofTargetMismatch
    | ProofMaskMismatch | ProofTokenMismatch | ProofHashInvalid | ProofHashMismatch

  datatype Verdict = Accepted | Rejected(check: Check)

  /** `verify_rollup_payload`, check by check. */
  function Verify(bit: string -> nat, p: Payload, journal: seq<Transaction>, expectedPrev: Hash): Verdict {
    if p.kind != KIND then Rejected(KindWrong)
    else if p.algo == "" then Rejected(AlgoMissing)
    else if p.algo != ALGO then Rejected(AlgoUnsupported)
    else if p.first <= 0 then Rejected(SeqStartInvalid)
    else if p.last < p.first then Rejected(SeqEndInvalid)
    else if p.count <= 0 then Rejected(TxCountInvalid)
    else if p.prev.Malformed? then Rejected(PreviousRootInvalid)
    else if p.root.Malformed? then Rejected(MerkleRootInvalid)
    else if p.mask.None? then Rejected(MaskInvalid)
    else if p.token.Malformed? then Rejected(TokenHashInvalid)
    else if p.target.Malformed? then Rejected(TargetRootInvalid)
    else if p.proof.None? then Rejected(ProofInvalid)
    else if p.prev != expectedPrev then Rejected(PreviousRootStale)
    else VerifyBatch(bit, p, p.mask.value, p.proof.value, InRange(journal, p.first, p.last))
  }

  /** The commitments recomputed from the local records. */
  function VerifyBatch(bit: string -> nat, p: Payload, mask: set<nat>, z: ZkProof, txs: seq<Transaction>): Verdict {
    if |txs| != p.count then Rejected(TxCountMismatch)
    else
      var ordered := Sort(CoarseLeq, txs);
      if MerkleRoot(Materials(ordered)) != p.root then Rejected(MerkleRootMismatch)
      else if Mask(bit, ordered) != mask then Rejected(MaskMismatch)
      else if TokenHash(ordered) != p.token then Rejected(TokenHashMismatch)
      else if Sha(Target(p.prev, p.root, mask, p.token, p.first, p.last, p.count)) != p.target
      then Rejected(TargetRootMismatch)
      else VerifyProof(p, mask, z)
  }

  function VerifyProof(p: Payload, mask: set<nat>, z: ZkProof): Verdict {
    if z.prev != p.prev then Rejected(ProofPreviousMismatch)
    else if z.target != p.target then Rejected(ProofTargetMismatch)
    else if z.mask != Some(mask) then Rejected(ProofMaskMismatch)
    else if z.token != p.token then Rejected(ProofTokenMismatch)
    else if z.proofHash.Malformed? then Rejected(ProofHashInvalid)
    else if z.proofHash != Sha(Proof(p.prev, p.target, mask, p.token)) then Rejected(ProofHashMismatch)
    else Accepted
  }

  lemma {:induction false} MaterialsPermute(a: seq<Transaction>, b: seq<Transaction>)
    requires multiset(a) == multiset(b)
    ensures multiset(Materials(a)) == multiset(Materials(b))
  {
    MaterialsFlat(a);
    MaterialsFlat(b);
    FlatMapPermute(MaterialList, a, b);
  }

  function MaterialList(t: Transaction): seq<Material> {
    [t.material]
  }

  lemma {:induction false} MaterialsFlat(a: seq<Transaction>)
    ensures Materials(a) == FlatMap(MaterialList, a)
  {
    if a != [] {
      MaterialsFlat(a[..|a| - 1]);
      assert Materials(a) == Materials(a[..|a| - 1]) + [a[|a| - 1].material];
    }
  }

  lemma BatchFacts(bit: string -> nat, p: Payload, mask: set<nat>, z: ZkProof, txs: seq<Transaction>)
    requires VerifyBatch(bit, p, mask, z, txs).Accepted?
    ensures |txs| == p.count && MerkleRoot(Materials(Sort(CoarseLeq, txs))) == p.root
  {
  }

  lemma HeadFacts(bit: string -> nat, p: Payload, journal: seq<Transaction>, prev: Hash)
    requires Verify(bit, p, journal, prev).Accepted?
    ensures p.prev == prev && p.first <= p.last && p.mask.Some? && p.proof.Some?
    ensures VerifyBatch(bit, p, p.mask.value, p.proof.value, InRange(journal, p.first, p.last)).Accepted?
  {
  }

  /** What acceptance establishes. */
  lemma AcceptedFacts(bit: string -> nat, p: Payload, journal: seq<Transaction>, prev: Hash)
    requires Verify(bit, p, journal, prev).Accepted?
    ensures p.prev == prev && p.first <= p.last && |InRange(journal, p.first, p.last)| == p.count
    ensures MerkleRoot(Materials(Sort(CoarseLeq, InRange(journal, p.first, p.last)))) == p.root
  {
    HeadFacts(bit, p, journal, prev);
    BatchFacts(bit, p, p.mask.value, p.proof.value, InRange(journal, p.first, p.last));
  }

  /** Binding: two peers that accept one payload hold, in its sequence range, the same multiset of
      transactions, whatever else their journals contain. */
  lemma AcceptedPayloadBinds(bit: string -> nat, p: Payload, a: seq<Transaction>, b: seq<Transaction>, ra: Hash, rb: Hash)
    requires Verify(bit, p, a, ra).Accepted? && Verify(bit, p, b, rb).Accepted?
    ensures multiset(Materials(InRange(a, p.first, p.last))) == multiset(Materials(InRange(b, p.first, p.last)))
    ensures ra == rb == p.prev
  {
    AcceptedFacts(bit, p, a, ra);
    AcceptedFacts(bit, p, b, rb);
    SameRootSameBatch(InRange(a, p.first, p.last), InRange(b, p.first, p.last));
  }

  lemma SameRootSameBatch(x: seq<Transaction>, y: seq<Transaction>)
    requires |x| == |y|
    requires MerkleRoot(Materials(Sort(CoarseLeq, x))) == MerkleRoot(Materials(Sort(CoarseLeq, y)))
    ensures multiset(Materials(x)) == multiset(Materials(y))
  {
    SortPermutes(CoarseLeq, x);
    SortPermutes(CoarseLeq, y);
    MerkleBinds(Materials(Sort(CoarseLeq, x)), Materials(Sort(CoarseLeq, y)));
    MaterialsPermute(x, Sort(CoarseLeq, x));
    MaterialsPermute(y, Sort(CoarseLeq, y));
  }

  // ---------------------------------------------------------------- a batch against its own journal

  /** Record i of a journal that started empty carries sequence number i + 1. */
  ghost predicate Sequenced(journal: seq<Transaction>) {
    forall i :: 0 <= i < |journal| ==> journal[i].seqNo == i + 1
  }

  ghost predicate AllLegible(txs: seq<Transaction>) {
    forall i :: 0 <= i < |txs| ==> Legible(txs[i])
  }

  predicate Counted(t: Transaction, first: int, last: int) {
    first <= t.seqNo <= last && t.seqNo > 0 && t.material.cid != "" && t.material.event != ""
  }

  lemma InRangeStep(journal: seq<Transaction>, x: Transaction, first: int, last: int)
    ensures InRange(journal + [x], first, last)
      == if Counted(x, first, last) then InRange(journal, first, last) + [x] else InRange(journal, first, last)
  {
    assert (journal + [x])[..|journal|] == journal;
  }

  /** The records looked at are the legible ones with a sequence number in the range, each as often as it occurs. */
  lemma {:induction false} InRangeSelects(journal: seq<Transaction>, first: int, last: int, t: Transaction)
    ensures multiset(InRange(journal, first, last))[t] == if Counted(t, first, last) then multiset(journal)[t] else 0
  {
    if journal != [] {
      var before, x := journal[..|journal| - 1], journal[|journal| - 1];
      assert journal == before + [x];
      InRangeSelects(before, first, last, t);
      InRangeStep(before, x, first, last);
      OneMore(before, x, t);
      OneMore(InRange(before, first, last), x, t);
    }
  }

  lemma OneMore<T>(s: seq<T>, x: T, t: T)
    ensures multiset(s + [x])[t] == multiset(s)[t] + if x == t then 1 else 0
  {
  }

  lemma {:induction false} InRangeConcat(a: seq<Transaction>, b: seq<Transaction>, first: int, last: int)
    ensures InRange(a + b, first, last) == InRange(a, first, last) + InRange(b, first, last)
    decreases |b|
  {
    if b == [] {
      assert a + b == a;
    } else {
      InRangeConcat(a, b[..|b| - 1], first, last);
      assert (a + b)[..|a + b| - 1] == a + b[..|b| - 1];
    }
  }

  lemma {:induction false} InRangeOutside(txs: seq<Transaction>, first: int, last: int)
    requires forall i :: 0 <= i < |txs| ==> !(first <= txs[i].seqNo <= last)
    ensures InRange(txs, first, last) == []
  {
    if txs != [] {
      InRangeOutside(txs[..|txs| - 1], first, last);
    }
  }

  lemma ThreeParts<T>(s: seq<T>, lo: nat, hi: nat)
    requires lo <= hi <= |s|
    ensures s == s[..lo] + s[lo..hi] + s[hi..]
  {
  }

  /** Checking a range of a sequenced journal looks at exactly that slice. */
  lemma InRangeSlice(journal: seq<Transaction>, lo: nat, hi: nat)
    requires Sequenced(journal) && lo <= hi <= |journal|
    ensures InRange(journal, lo + 1, hi) == InRange(journal[lo..hi], lo + 1, hi)
  {
    var x, y, z := journal[..lo], journal[lo..hi], journal[hi..];
    ThreeParts(journal, lo, hi);
    InRangeConcat(x + y, z, lo + 1, hi);
    InRangeConcat(x, y, lo + 1, hi);
    InRangeOutside(x, lo + 1, hi);
    InRangeOutside(z, lo + 1, hi);
    assert [] + InRange(y, lo + 1, hi) + [] == InRange(y, lo + 1, hi);
  }

  lemma {:induction false} InRangeWhole(txs: seq<Transaction>, first: int, last: int)
    requires forall i :: 0 <= i < |txs| ==> first <= txs[i].seqNo <= last
    ensures |InRange(txs, first, last)| <= |txs|
    ensures |InRange(txs, first, last)| == |txs| <==> AllLegible(txs)
    ensures AllLegible(txs) ==> InRange(txs, first, last) == txs
  {
    if txs != [] {
      var n := |txs| - 1;
      InRangeWhole(txs[..n], first, last);
      AllLegibleSplit(txs);
      InRangeLast(txs, first, last);
      PrefixStep(txs, n);
      assert txs[..n + 1] == txs;
    }
  }

  lemma InRangeLast(txs: seq<Transaction>, first: int, last: int)
    requires txs != [] && first <= txs[|txs| - 1].seqNo <= last
    ensures var n := |txs| - 1;
      InRange(txs, first, last) == InRange(txs[..n], first, last) + if Legible(txs[n]) then [txs[n]] else []
  {
  }

  lemma AllLegibleSplit(txs: seq<Transaction>)
    requires txs != []
    ensures AllLegible(txs) <==> AllLegible(txs[..|txs| - 1]) && Legible(txs[|txs| - 1])
  {
    if AllLegible(txs[..|txs| - 1]) && Legible(txs[|txs| - 1]) {
      forall i | 0 <= i < |txs| ensures Legible(txs[i]) {
        assert i < |txs| - 1 ==> txs[i] == txs[..|txs| - 1][i];
      }
    }
  }

  /** A payload built from a slice of the engine's own journal is accepted against that journal, also
      after more records were appended, exactly when every transaction of the slice has a correlation
      id and an event. */
  lemma OwnBatchAcceptedIff(bit: string -> nat, journal: seq<Transaction>, lo: nat, hi: nat, prev: Hash)
    requires Sequenced(journal) && lo < hi <= |journal| && !prev.Malformed?
    ensures Verify(bit, Build(bit, journal[lo..hi], lo + 1, hi, prev), journal, prev).Accepted?
      <==> AllLegible(journal[lo..hi])
  {
    var txs := journal[lo..hi];
    InRangeSlice(journal, lo, hi);
    InRangeWhole(txs, lo + 1, hi);
    if AllLegible(txs) {
      BuiltIsAccepted(bit, txs, journal, lo + 1, hi, prev);
    } else {
      ShortRangeRejected(bit, txs, journal, lo + 1, hi, prev);
    }
  }

  /** A journal that shows fewer records than the payload counts is refused. */
  lemma ShortRangeRejected(bit: string -> nat, txs: seq<Transaction>, journal: seq<Transaction>, first: int, last: int, prev: Hash)
    requires |InRange(journal, first, last)| != |txs|
    ensures !Verify(bit, Build(bit, txs, first, last, prev), journal, prev).Accepted?
  {
    SortPermutes(CoarseLeq, txs);
    if Verify(bit, Build(bit, txs, first, last, prev), journal, prev).Accepted? {
      AcceptedFacts(bit, Build(bit, txs, first, last, prev), journal, prev);
    }
  }

  lemma BuiltIsAccepted(bit: string -> nat, txs: seq<Transaction>, journal: seq<Transaction>, first: int, last: int, prev: Hash)
    requires InRange(journal, first, last) == txs && txs != [] && 0 < first <= last && !prev.Malformed?
    ensures Verify(bit, Build(bit, txs, first, last, prev), journal, prev).Accepted?
  {
    var p := Build(bit, txs, first, last, prev);
    SortPermutes(CoarseLeq, txs);
    MerkleRootIsDigest(Materials(Sort(CoarseLeq, txs)));
    BuiltBatch(bit, txs, first, last, prev);
    assert Verify(bit, p, journal, prev) == VerifyBatch(bit, p, p.mask.value, p.proof.value, txs);
  }

  lemma BuiltBatch(bit: string -> nat, txs: seq<Transaction>, first: int, last: int, prev: Hash)
    ensures var p := Build(bit, txs, first, last, prev);
      VerifyBatch(bit, p, p.mask.value, p.proof.value, txs).Accepted?
  {
    SortPermutes(CoarseLeq, txs);
  }

  lemma MerkleRootIsDigest(ms: seq<Material>)
    ensures MerkleRoot(ms).Sha?
  {
    if ms != [] {
      SortPermutes(FineLeq, ms);
      RootIsDigest(Leaves(Sort(FineLeq, ms)));
    }
  }

  lemma {:induction false} RootIsDigest(level: seq<Hash>)
    requires level != [] && forall i :: 0 <= i < |level| ==> level[i].Sha?
    ensures Root(level).Sha?
    decreases |level|
  {
    if |level| > 1 {
      RootIsDigest(Parents(Padded(level)));
    }
  }
}
