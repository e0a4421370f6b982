/** `_best_chain` of core/fork_resolver.py: a dynamic program over the block forest, proved to return
    the best chain of the pool. */
module BestChain {
  import opened Common
  import opened Ledger
  import opened Chains
  import Fnv

  /** `_ValidBlock`; the line number makes it unique, so the block itself serves as the node id
      (index, hash, line_no) of the source. */
  datatype ValidBlock = ValidBlock(line: nat, block: Block) {
    function Index(): int { block.header.index }
    function Prev(): string { block.header.prev }
    function Hash(): string { block.hash }
    function Signature(): nat { Fnv.ParseHex(block.signature) }
  }

  /** One node of the tables `best_len`, `parent` and `quorum_after_fork`. */
  datatype Row = Row(length: int, parent: Option<ValidBlock>, quorum: bool)

  type Table = map<ValidBlock, Row>

  function Pool(bs: seq<ValidBlock>): (pool: seq<Block>)
    ensures |pool| == |bs| && forall i :: 0 <= i < |bs| ==> pool[i] == bs[i].block
  {
    seq(|bs|, i requires 0 <= i < |bs| => bs[i].block)
  }

  /** The fork point after one more key. */
  function NextFork(ks: multiset<(int, string)>, k: (int, string), fork: Option<int>): Option<int> {
    if ks[k] == 0 then fork else Some(if fork.None? || k.0 < fork.value then k.0 else fork.value)
  }

  lemma ForkStep(ks: multiset<(int, string)>, k: (int, string), fork: Option<int>)
    requires LeastRepeated(ks, fork)
    ensures LeastRepeated(ks + multiset{k}, NextFork(ks, k, fork))
  {
    var ks' := ks + multiset{k};
    assert forall x :: x != k ==> ks'[x] == ks[x];
    if fork.Some? {
      var p :| ks[(fork.value, p)] >= 2;
      assert ks'[(fork.value, p)] >= 2;
    }
    if ks[k] > 0 {
      assert ks'[(k.0, k.1)] >= 2;
    }
  }

  lemma KeysStep(pool: seq<Block>, i: nat)
    requires i < |pool|
    ensures multiset(ForkKeys(pool[..i + 1])) == multiset(ForkKeys(pool[..i])) + multiset{ForkKey(pool[i])}
  {
    FlatMapStep(ForkKeyList, pool, i);
  }

  /** `_detect_fork_point` */
  method DetectForkPoint(bs: seq<ValidBlock>) returns (fork: Option<int>)
    ensures IsForkPoint(Pool(bs), fork)
  {
    var counts: map<(int, string), nat> := map[];
    fork := None;
    ghost var pool := Pool(bs);
    ghost var ks: multiset<(int, string)> := multiset{};
    for i := 0 to |bs|
      invariant ks == multiset(ForkKeys(pool[..i]))
      invariant Counts(counts, ks) && LeastRepeated(ks, fork)
    {
      var key := ForkKey(bs[i].block);
      KeysStep(pool, i);
      ForkStep(ks, key, fork);
      CountStep(counts, ks, key);
      var seen := if key in counts then counts[key] else 0;
      ks := ks + multiset{key};
      counts := counts[key := seen + 1];
      if seen + 1 >= 2 {
        fork := Some(if fork.None? || key.0 < fork.value then key.0 else fork.value);
      }
    }
    assert pool[..|bs|] == pool;
  }

  ghost predicate Counts(counts: map<(int, string), nat>, ks: multiset<(int, string)>) {
    forall k :: ks[k] == if k in counts then counts[k] else 0
  }

  lemma CountStep(counts: map<(int, string), nat>, ks: multiset<(int, string)>, key: (int, string))
    requires Counts(counts, ks)
    ensures Counts(counts[key := (if key in counts then counts[key] else 0) + 1], ks + multiset{key})
    ensures ks[key] == if key in counts then counts[key] else 0
  {
    assert ks[key] == if key in counts then counts[key] else 0;
  }

  // ---------------------------------------------------------------- the table

  /** A finished row: length is index + 1 and the parent row explains it. */
  ghost predicate RowOk(bs: seq<ValidBlock>, t: Table, fork: Option<int>, v: ValidBlock)
    requires v in t
  {
    && v in bs && v.Index() >= 0 && t[v].length == v.Index() + 1
    && match t[v].parent
       case None => v.Index() == 0 && v.Prev() == GENESIS && t[v].quorum == QuorumBlock(v.block, fork)
       case Some(p) =>
         && p in t && p.Index() == v.Index() - 1 && p.Hash() == v.Prev()
         && t[v].quorum == (t[p].quorum || QuorumBlock(v.block, fork))
  }

  ghost predicate TableOk(bs: seq<ValidBlock>, t: Table, fork: Option<int>) {
    forall v {:trigger RowOk(bs, t, fork, v)} :: v in t ==> RowOk(bs, t, fork, v)
  }

  lemma RowsComeFrom(bs: seq<ValidBlock>, t: Table, fork: Option<int>)
    requires TableOk(bs, t, fork)
    ensures forall v :: v in t ==> v in bs
  {
    forall v | v in t ensures v in bs {
      assert RowOk(bs, t, fork, v);
    }
  }

  predicate ParentOf(p: ValidBlock, v: ValidBlock) {
    p.Index() == v.Index() - 1 && p.Hash() == v.Prev()
  }

  /** `v` can be given a row: it is a genesis block or has a parent with a row. */
  ghost predicate Reachable(t: Table, v: ValidBlock) {
    if v.Index() == 0 then v.Prev() == GENESIS else exists p :: p in t && ParentOf(p, v)
  }

  /** Every processed node that can have a row has one. */
  ghost predicate Closed(bs: seq<ValidBlock>, t: Table, todo: set<ValidBlock>) {
    forall v :: v in bs && v !in todo && Reachable(t, v) ==> v in t
  }

  /** `_reconstruct` */
  function ChainTo(bs: seq<ValidBlock>, t: Table, fork: Option<int>, v: ValidBlock): seq<ValidBlock>
    requires TableOk(bs, t, fork) && v in t
    decreases t[v].length
  {
    assert RowOk(bs, t, fork, v);
    match t[v].parent
    case None => [v]
    case Some(p) =>
      assert RowOk(bs, t, fork, p);
      ChainTo(bs, t, fork, p) + [v]
  }

  lemma {:induction false} ChainToShape(bs: seq<ValidBlock>, t: Table, fork: Option<int>, v: ValidBlock)
    requires TableOk(bs, t, fork) && v in t
    ensures |ChainTo(bs, t, fork, v)| == t[v].length > 0
    ensures ChainTo(bs, t, fork, v)[t[v].length - 1] == v
    ensures forall x :: x in ChainTo(bs, t, fork, v) ==> x in bs
    decreases t[v].length
  {
    assert RowOk(bs, t, fork, v);
    if t[v].parent.Some? {
      assert RowOk(bs, t, fork, t[v].parent.value);
      ChainToShape(bs, t, fork, t[v].parent.value);
    }
  }

  lemma PoolAppend(bs: seq<ValidBlock>, v: ValidBlock)
    ensures Pool(bs + [v]) == Pool(bs) + [v.block]
    ensures (Pool(bs) + [v.block])[..|bs|] == Pool(bs)
  {
  }

  lemma InPool(bs: seq<ValidBlock>, v: ValidBlock)
    requires v in bs
    ensures v.block in Pool(bs)
  {
    var i :| 0 <= i < |bs| && bs[i] == v;
    assert Pool(bs)[i] == v.block;
  }

  lemma RootChainOk(bs: seq<ValidBlock>, t: Table, fork: Option<int>, v: ValidBlock)
    requires TableOk(bs, t, fork) && v in t && t[v].parent.None?
    ensures ChainIn(Pool(ChainTo(bs, t, fork, v)), Pool(bs))
    ensures QuorumSeen(Pool(ChainTo(bs, t, fork, v)), fork) == t[v].quorum
  {
    assert RowOk(bs, t, fork, v);
    InPool(bs, v);
    PoolAppend([], v);
    assert [] + [v] == [v];
    ChainInExtend([], v.block, Pool(bs));
  }

  lemma {:induction false} ChainToOk(bs: seq<ValidBlock>, t: Table, fork: Option<int>, v: ValidBlock)
    requires TableOk(bs, t, fork) && v in t
    ensures ChainIn(Pool(ChainTo(bs, t, fork, v)), Pool(bs))
    ensures QuorumSeen(Pool(ChainTo(bs, t, fork, v)), fork) == t[v].quorum
    decreases t[v].length
  {
    assert RowOk(bs, t, fork, v);
    InPool(bs, v);
    match t[v].parent
    case None => RootChainOk(bs, t, fork, v);
    case Some(p) =>
      assert RowOk(bs, t, fork, p);
      ChainToOk(bs, t, fork, p);
      ChainToShape(bs, t, fork, p);
      var c := ChainTo(bs, t, fork, p);
      PoolAppend(c, v);
      ChainInExtend(Pool(c), v.block, Pool(bs));
  }

  lemma Shift(a: seq<ValidBlock>, v: ValidBlock, b: seq<ValidBlock>)
    ensures (a + [v]) + b == a + ([v] + b)
  {
  }

  /** The loop form: walk the parents, collecting in front. */
  method Reconstruct(bs: seq<ValidBlock>, t: Table, fork: Option<int>, tip: ValidBlock) returns (chain: seq<ValidBlock>)
    requires TableOk(bs, t, fork) && tip in t
    ensures chain == ChainTo(bs, t, fork, tip)
  {
    var cur := Some(tip);
    chain := [];
    while cur.Some?
      invariant cur.Some? ==> cur.value in t
      invariant ChainTo(bs, t, fork, tip) == (if cur.Some? then ChainTo(bs, t, fork, cur.value) else []) + chain
      decreases if cur.Some? then t[cur.value].length else 0
    {
      var v := cur.value;
      assert RowOk(bs, t, fork, v);
      if t[v].parent.Some? {
        assert RowOk(bs, t, fork, t[v].parent.value);
      }
      Shift(if t[v].parent.Some? then ChainTo(bs, t, fork, t[v].parent.value) else [], v, chain);
      chain := [v] + chain;
      cur := t[v].parent;
    }
  }

  /** The parent of choice: greatest length, then no quorum before quorum, as the sorted scan gives. */
  method FindParent(bs: seq<ValidBlock>, t: Table, v: ValidBlock) returns (best: Option<ValidBlock>)
    requires forall x :: x in t ==> x in bs
    ensures best.Some? ==> best.value in t && ParentOf(best.value, v)
    ensures best.None? ==> forall p :: p in t ==> !ParentOf(p, v)
  {
    best := None;
    for i := 0 to |bs|
      invariant best.Some? ==> best.value in t && ParentOf(best.value, v)
      invariant best.None? ==> forall j :: 0 <= j < i && bs[j] in t ==> !ParentOf(bs[j], v)
    {
      var p := bs[i];
      if p in t && ParentOf(p, v) {
        if best.None? || t[p].length > t[best.value].length
           || (t[p].length == t[best.value].length && !t[p].quorum && t[best.value].quorum)
        {
          best := Some(p);
        }
      }
    }
  }

  /** `best_parent_len + 1`, or 1 for a genesis block. */
  function NewRow(t: Table, v: ValidBlock, parent: Option<ValidBlock>, fork: Option<int>): Row
    requires parent.Some? ==> parent.value in t
  {
    match parent
    case None => Row(1, None, QuorumBlock(v.block, fork))
    case Some(p) => Row(t[p].length + 1, parent, t[p].quorum || QuorumBlock(v.block, fork))
  }

  lemma AddRow(bs: seq<ValidBlock>, t: Table, fork: Option<int>, v: ValidBlock, parent: Option<ValidBlock>)
    requires TableOk(bs, t, fork) && v in bs && v !in t
    requires match parent
      case None => v.Index() == 0 && v.Prev() == GENESIS
      case Some(p) => p in t && ParentOf(p, v)
    ensures TableOk(bs, t[v := NewRow(t, v, parent, fork)], fork)
  {
    var t' := t[v := NewRow(t, v, parent, fork)];
    forall x | x in t' ensures RowOk(bs, t', fork, x) {
      if x != v {
        assert RowOk(bs, t, fork, x);
      } else if parent.Some? {
        assert RowOk(bs, t, fork, parent.value);
      }
    }
  }

  lemma {:induction false} LowestExists(todo: set<ValidBlock>) returns (v: ValidBlock)
    requires todo != {}
    ensures v in todo && forall x :: x in todo ==> v.Index() <= x.Index()
  {
    v :| v in todo;
    if todo != {v} {
      var w := LowestExists(todo - {v});
      if w.Index() < v.Index() {
        v := w;
      }
    }
  }

  /** Nodes are processed by increasing index; the order inside one index does not matter. */
  method FillTable(bs: seq<ValidBlock>, fork: Option<int>) returns (t: Table)
    ensures TableOk(bs, t, fork) && Closed(bs, t, {})
  {
    t := map[];
    var todo := set v | v in bs;
    while todo != {}
      invariant todo <= (set v | v in bs) && TableOk(bs, t, fork) && Closed(bs, t, todo)
      invariant forall v :: v in t ==> v !in todo
      invariant forall v, x :: v in bs && v !in todo && x in todo ==> v.Index() <= x.Index()
      decreases |todo|
    {
      ghost var low := LowestExists(todo);
      var v :| v in todo && forall x :: x in todo ==> v.Index() <= x.Index();
      ghost var t0, todo0 := t, todo;
      todo := todo - {v};
      RowsComeFrom(bs, t, fork);
      if v.Index() == 0 {
        if v.Prev() == GENESIS {
          AddRow(bs, t, fork, v, None);
          t := t[v := NewRow(t, v, None, fork)];
        }
      } else {
        var parent := FindParent(bs, t, v);
        if parent.Some? {
          AddRow(bs, t, fork, v, parent);
          t := t[v := NewRow(t, v, parent, fork)];
        }
      }
      StaysClosed(bs, t0, t, todo0, v);
    }
  }

  lemma StaysClosed(bs: seq<ValidBlock>, t0: Table, t: Table, todo: set<ValidBlock>, v: ValidBlock)
    requires Closed(bs, t0, todo) && v in todo && v in bs
    requires forall x, y :: x in bs && x !in todo && y in todo ==> x.Index() <= y.Index()
    requires t.Keys == t0.Keys || t.Keys == t0.Keys + {v}
    requires Reachable(t0, v) ==> v in t
    ensures Closed(bs, t, todo - {v})
  {
    forall x | x in bs && x !in todo - {v} && Reachable(t, x) ensures x in t {
      if x.Index() != 0 {
        var p :| p in t && ParentOf(p, x);
        assert p in t0;
      }
      assert Reachable(t0, x);
    }
  }

  // ---------------------------------------------------------------- the choice

  /** The tip of every chain of the pool has a row. */
  lemma {:induction false} TipsHaveRows(bs: seq<ValidBlock>, t: Table, chain: seq<Block>, v: ValidBlock)
    requires Closed(bs, t, {}) && ChainIn(chain, Pool(bs))
    requires v in bs && v.block == chain[|chain| - 1]
    ensures v in t
    decreases |chain|
  {
    var n := |chain| - 1;
    assert LinkIn(chain, Pool(bs), n);
    if n > 0 {
      assert LinkIn(chain, Pool(bs), n - 1);
      var i :| 0 <= i < |Pool(bs)| && Pool(bs)[i] == chain[n - 1];
      ChainInPrefix(chain, Pool(bs));
      TipsHaveRows(bs, t, chain[..n], bs[i]);
      assert ParentOf(bs[i], v);
    }
    assert Reachable(t, v);
  }

  function TipKeyOf(t: Table, v: ValidBlock): TipKey
    requires v in t
  {
    TipKey(t[v].length, t[v].quorum, v.Signature(), v.Hash())
  }

  lemma TipKeyIsChainKey(bs: seq<ValidBlock>, t: Table, fork: Option<int>, v: ValidBlock)
    requires TableOk(bs, t, fork) && v in t
    ensures ChainTo(bs, t, fork, v) != []
    ensures Key(Pool(ChainTo(bs, t, fork, v)), fork) == TipKeyOf(t, v)
  {
    ChainToShape(bs, t, fork, v);
    ChainToOk(bs, t, fork, v);
  }

  /** `max(tips, key=_chain_tip_key)` */
  method BestTip(bs: seq<ValidBlock>, t: Table) returns (best: Option<ValidBlock>)
    requires forall v :: v in t ==> v in bs
    ensures best.None? ==> t.Keys == {}
    ensures best.Some? ==> best.value in t && forall v :: v in t ==> KeyLeq(TipKeyOf(t, v), TipKeyOf(t, best.value))
  {
    best := None;
    for i := 0 to |bs|
      invariant best.Some? ==> best.value in t
      invariant best.None? ==> forall j :: 0 <= j < i ==> bs[j] !in t
      invariant best.Some? ==> forall j :: 0 <= j < i && bs[j] in t ==> KeyLeq(TipKeyOf(t, bs[j]), TipKeyOf(t, best.value))
    {
      var v := bs[i];
      if v in t {
        if best.None? {
          best := Some(v);
        } else {
          KeyTotal(TipKeyOf(t, v), TipKeyOf(t, best.value));
          if KeyLess(TipKeyOf(t, best.value), TipKeyOf(t, v)) {
            forall j | 0 <= j < i && bs[j] in t ensures KeyLeq(TipKeyOf(t, bs[j]), TipKeyOf(t, v)) {
              KeyTransitive(TipKeyOf(t, bs[j]), TipKeyOf(t, best.value), TipKeyOf(t, v));
            }
            best := Some(v);
          }
        }
      }
    }
  }

  /** Every chain of the pool is explained by a row: of its length, and, without collisions, of its key. */
  lemma RowOfChain(c: Crypto, bs: seq<ValidBlock>, t: Table, fork: Option<int>, other: seq<Block>)
    returns (v: ValidBlock)
    requires Consistent(c, Pool(bs)) && TableOk(bs, t, fork) && Closed(bs, t, {}) && ChainIn(other, Pool(bs))
    ensures v in t && t[v].length == |other|
    ensures CollisionFree(Pool(bs)) ==> TipKeyOf(t, v) == Key(other, fork)
  {
    var n := |other| - 1;
    assert LinkIn(other, Pool(bs), n);
    var i :| 0 <= i < |Pool(bs)| && Pool(bs)[i] == other[n];
    v := bs[i];
    TipsHaveRows(bs, t, other, v);
    assert RowOk(bs, t, fork, v);
    ChainToShape(bs, t, fork, v);
    ChainToOk(bs, t, fork, v);
    if CollisionFree(Pool(bs)) {
      TipDeterminesChain(c, Pool(bs), other, Pool(ChainTo(bs, t, fork, v)));
      TipKeyIsChainKey(bs, t, fork, v);
    }
  }

  /** The chain of the best tip beats every chain of the pool in length, and, when no two blocks of
      the pool collide, in the whole key. */
  lemma BestTipIsBest(c: Crypto, bs: seq<ValidBlock>, t: Table, fork: Option<int>, tip: ValidBlock, other: seq<Block>)
    requires Consistent(c, Pool(bs)) && TableOk(bs, t, fork) && Closed(bs, t, {}) && tip in t
    requires forall v :: v in t ==> KeyLeq(TipKeyOf(t, v), TipKeyOf(t, tip))
    requires ChainIn(other, Pool(bs))
    ensures 0 < |other| <= |ChainTo(bs, t, fork, tip)|
    ensures CollisionFree(Pool(bs)) ==> KeyLeq(Key(other, fork), Key(Pool(ChainTo(bs, t, fork, tip)), fork))
  {
    var v := RowOfChain(c, bs, t, fork, other);
    assert KeyLeq(TipKeyOf(t, v), TipKeyOf(t, tip));
    ChainToShape(bs, t, fork, tip);
    TipKeyIsChainKey(bs, t, fork, tip);
  }

  /** `_best_chain`. `candidates` are the chains of all tips of maximal length. */
  method BestChain(c: Crypto, bs: seq<ValidBlock>)
    returns (chosen: seq<ValidBlock>, fork: Option<int>, candidates: seq<seq<ValidBlock>>)
    requires Consistent(c, Pool(bs))
    ensures if bs == [] then chosen == [] && candidates == [] else IsForkPoint(Pool(bs), fork)
    ensures forall x :: x in chosen ==> x in bs
    ensures chosen != [] ==> ChainIn(Pool(chosen), Pool(bs))
    ensures forall other :: ChainIn(other, Pool(bs)) ==> |other| <= |chosen|
    ensures chosen != [] && CollisionFree(Pool(bs)) ==> Best(Pool(chosen), Pool(bs), fork)
    ensures CollisionFree(Pool(bs)) ==> forall other :: ChainIn(other, Pool(bs)) ==> Outranks(Pool(chosen), other, fork)
    ensures chosen != [] ==> chosen in candidates
    ensures forall j :: 0 <= j < |candidates| ==> Candidate(bs, |chosen|, candidates[j])
  {
    candidates := [];
    fork := None;
    if bs == [] {
      EmptyPool(Pool(bs));
      return [], None, [];
    }
    fork := DetectForkPoint(bs);
    var t := FillTable(bs, fork);
    RowsComeFrom(bs, t, fork);
    var tip := BestTip(bs, t);
    if tip.None? {
      NoChains(bs, t);
      return [], fork, [];
    }
    chosen := Reconstruct(bs, t, fork, tip.value);
    ChainToShape(bs, t, fork, tip.value);
    ChainToOk(bs, t, fork, tip.value);
    forall other | ChainIn(other, Pool(bs))
      ensures |other| <= |chosen|
      ensures CollisionFree(Pool(bs)) ==> KeyLeq(Key(other, fork), Key(Pool(chosen), fork))
    {
      BestTipIsBest(c, bs, t, fork, tip.value, other);
    }
    BestIff(Pool(chosen), Pool(bs), fork);
    candidates := Candidates(bs, t, fork, tip.value);
  }

  lemma EmptyPool(pool: seq<Block>)
    requires pool == []
    ensures forall chain :: !ChainIn(chain, pool)
  {
    forall chain ensures !ChainIn(chain, pool) {
      assert chain == [] || !LinkIn(chain, pool, 0);
    }
  }

  lemma NoChains(bs: seq<ValidBlock>, t: Table)
    requires Closed(bs, t, {}) && t.Keys == {}
    ensures forall chain :: !ChainIn(chain, Pool(bs))
  {
    forall chain | ChainIn(chain, Pool(bs)) ensures false {
      var n := |chain| - 1;
      assert LinkIn(chain, Pool(bs), n);
      var i :| 0 <= i < |Pool(bs)| && Pool(bs)[i] == chain[n];
      TipsHaveRows(bs, t, chain, bs[i]);
    }
  }

  ghost predicate Candidate(bs: seq<ValidBlock>, length: int, x: seq<ValidBlock>) {
    |x| == length > 0 && ChainIn(Pool(x), Pool(bs))
  }

  lemma TipIsCandidate(bs: seq<ValidBlock>, t: Table, fork: Option<int>, v: ValidBlock)
    requires TableOk(bs, t, fork) && v in t
    ensures Candidate(bs, t[v].length, ChainTo(bs, t, fork, v))
  {
    ChainToShape(bs, t, fork, v);
    ChainToOk(bs, t, fork, v);
  }

  /** The tips of maximal length. */
  method TopTips(bs: seq<ValidBlock>, t: Table, length: int) returns (tips: seq<ValidBlock>)
    ensures forall v :: v in tips <==> v in bs && v in t && t[v].length == length
  {
    tips := [];
    for i := 0 to |bs|
      invariant forall v :: v in tips <==> v in bs[..i] && v in t && t[v].length == length
    {
      if bs[i] in t && t[bs[i]].length == length {
        tips := tips + [bs[i]];
      }
    }
  }

  method Candidates(bs: seq<ValidBlock>, t: Table, fork: Option<int>, tip: ValidBlock)
    returns (cs: seq<seq<ValidBlock>>)
    requires TableOk(bs, t, fork) && tip in t
    ensures ChainTo(bs, t, fork, tip) in cs
    ensures forall j :: 0 <= j < |cs| ==> Candidate(bs, t[tip].length, cs[j])
  {
    cs := [];
    var tips := TopTips(bs, t, t[tip].length);
    for i := 0 to |tips|
      invariant |cs| == i && forall j :: 0 <= j < i ==> cs[j] == ChainTo(bs, t, fork, tips[j])
    {
      var chain := Reconstruct(bs, t, fork, tips[i]);
      cs := cs + [chain];
    }
    AllCandidates(bs, t, fork, tips, cs, tip);
  }

  lemma AllCandidates(bs: seq<ValidBlock>, t: Table, fork: Option<int>,
                      tips: seq<ValidBlock>, cs: seq<seq<ValidBlock>>, tip: ValidBlock)
    requires TableOk(bs, t, fork) && tip in t
    requires forall v :: v in tips <==> v in bs && v in t && t[v].length == t[tip].length
    requires |cs| == |tips| && forall j :: 0 <= j < |cs| ==> cs[j] == ChainTo(bs, t, fork, tips[j])
    ensures ChainTo(bs, t, fork, tip) in cs
    ensures forall j :: 0 <= j < |cs| ==> Candidate(bs, t[tip].length, cs[j])
  {
    assert RowOk(bs, t, fork, tip);
    assert tip in tips;
    var k :| 0 <= k < |tips| && tips[k] == tip;
    assert cs[k] == ChainTo(bs, t, fork, tip);
    forall j | 0 <= j < |cs| ensures Candidate(bs, t[tip].length, cs[j]) {
      TipIsCandidate(bs, t, fork, tips[j]);
    }
  }
}
