/** core/fork_resolver.py and the replay of core/replay.py that it uses: auditing a ledger file,
    choosing one chain, keeping the rest as orphans, and rewriting the file. */
module ForkResolver {
  import opened Common
  import opened Ledger
  import opened Chains
  import opened BestChain
  import opened ProofLedger
  import Fnv

  /** Records come from `_coerce_block`, so they are well formed. */
  ghost predicate Readable(lines: seq<Line>) {
    forall i :: 0 <= i < |lines| && lines[i].Rec? ==> WellFormed(lines[i].block)
  }

  /** `audit_or_raise`: accepts exactly the sound ledgers. */
  method AuditOrRaise(c: Crypto, lines: seq<Line>) returns (ok: bool)
    requires Readable(lines)
    ensures ok <==> Sound(c, lines)
  {
    var prev, expected := GENESIS, 0;
    for i := 0 to |lines|
      invariant expected == i && Sound(c, lines[..i]) && prev == Tail(Blocks(lines[..i]))
    {
      AuditStep(c, lines, i);
      if lines[i].Junk? {
        return false;
      }
      var b := lines[i].block;
      if b.header.index != expected || b.header.prev != prev || !c.SelfConsistent(b) {
        return false;
      }
      prev, expected := b.hash, expected + 1;
    }
    assert lines[..|lines|] == lines;
    return true;
  }

  /** What the next line of a file, sound so far, decides. */
  lemma AuditStep(c: Crypto, lines: seq<Line>, i: nat)
    requires Readable(lines) && i < |lines| && Sound(c, lines[..i])
    ensures lines[i].Junk? ==> !Sound(c, lines)
    ensures lines[i].Rec? ==>
      var b := lines[i].block;
      if b.header.index == i && b.header.prev == Tail(Blocks(lines[..i])) && c.SelfConsistent(b)
      then Sound(c, lines[..i + 1]) && Tail(Blocks(lines[..i + 1])) == b.hash
      else !Sound(c, lines)
  {
    if lines[i].Rec? {
      var b := lines[i].block;
      NextRecord(c, lines, i);
      if b.header.index == i && b.header.prev == Tail(Blocks(lines[..i])) && c.SelfConsistent(b) {
        NextSound(c, lines, i);
      }
    } else {
      assert !lines[i].Rec?;
    }
  }

  lemma NextSound(c: Crypto, lines: seq<Line>, i: nat)
    requires i < |lines| && lines[i].Rec? && WellFormed(lines[i].block) && Sound(c, lines[..i])
    requires lines[i].block.header.index == i && lines[i].block.header.prev == Tail(Blocks(lines[..i]))
    requires c.SelfConsistent(lines[i].block)
    ensures Sound(c, lines[..i + 1]) && Tail(Blocks(lines[..i + 1])) == lines[i].block.hash
  {
    PrefixStep(lines, i);
    AppendSound(c, lines[..i], lines[i].block);
  }

  /** A sound file pins down each of its records. */
  lemma NextRecord(c: Crypto, lines: seq<Line>, i: nat)
    requires i < |lines| && lines[i].Rec? && Sound(c, lines[..i])
    ensures Sound(c, lines) ==>
      && lines[i].block.header.index == i && lines[i].block.header.prev == Tail(Blocks(lines[..i]))
      && c.SelfConsistent(lines[i].block)
  {
    if Sound(c, lines) {
      BlocksPrefix(lines, i);
      assert Blocks(lines)[i].header.index == i;
    }
  }

  lemma BlocksPrefix(lines: seq<Line>, i: nat)
    requires i < |lines| && forall k :: 0 <= k < |lines| ==> lines[k].Rec?
    ensures |Blocks(lines)| == |lines| && Blocks(lines)[i] == lines[i].block
    ensures Blocks(lines)[..i] == Blocks(lines[..i])
  {
    BlocksOfRecords(lines);
    BlocksOfRecords(lines[..i]);
  }

  // ---------------------------------------------------------------- what a file offers

  function GoodBlock(c: Crypto, line: Line): seq<Block> {
    if line.Rec? && c.SelfConsistent(line.block) then [line.block] else []
  }

  function GoodOf(c: Crypto): Line -> seq<Block> {
    line => GoodBlock(c, line)
  }

  /** The self-consistent blocks of a file, in file order. */
  function GoodBlocks(c: Crypto, lines: seq<Line>): seq<Block> {
    FlatMap(GoodOf(c), lines)
  }

  /** `_valid_blocks` */
  method ValidBlocks(c: Crypto, lines: seq<Line>) returns (bs: seq<ValidBlock>)
    ensures Pool(bs) == GoodBlocks(c, lines) && Consistent(c, Pool(bs))
  {
    bs := [];
    for i := 0 to |lines|
      invariant Pool(bs) == GoodBlocks(c, lines[..i]) && Consistent(c, Pool(bs))
    {
      FlatMapStep(GoodOf(c), lines, i);
      if lines[i].Rec? && c.SelfConsistent(lines[i].block) {
        PoolAppend(bs, ValidBlock(i + 1, lines[i].block));
        bs := bs + [ValidBlock(i + 1, lines[i].block)];
      }
    }
    assert lines[..|lines|] == lines;
  }

  /** The choice a file demands: the best chain of its blocks, ranked from its own fork point. */
  ghost predicate Selected(c: Crypto, lines: seq<Line>, chain: seq<Block>) {
    exists fork :: IsForkPoint(GoodBlocks(c, lines), fork) && Best(chain, GoodBlocks(c, lines), fork)
  }

  lemma {:induction false} GoodBlocksConsistent(c: Crypto, lines: seq<Line>)
    ensures Consistent(c, GoodBlocks(c, lines))
  {
    if lines != [] {
      GoodBlocksConsistent(c, lines[..|lines| - 1]);
    }
  }

  lemma BestPermute(a: seq<Block>, b: seq<Block>, fork: Option<int>, chain: seq<Block>)
    requires multiset(a) == multiset(b) && Best(chain, a, fork)
    ensures Best(chain, b, fork)
  {
    assert forall x :: x in a <==> x in multiset(a);
    assert forall x :: x in b <==> x in multiset(b);
    forall other ensures ChainIn(other, a) <==> ChainIn(other, b) {
      assert forall i :: 0 <= i < |other| ==> (LinkIn(other, a, i) <==> LinkIn(other, b, i));
    }
  }

  /** Reordering the lines of a file, repeated lines included, never changes the chosen blocks. */
  lemma OrderIndependent(c: Crypto, a: seq<Line>, b: seq<Line>, x: seq<Block>, y: seq<Block>)
    requires multiset(a) == multiset(b) && CollisionFree(GoodBlocks(c, b))
    requires Selected(c, a, x) && Selected(c, b, y)
    ensures x == y
  {
    var pa, pb := GoodBlocks(c, a), GoodBlocks(c, b);
    var f :| IsForkPoint(pa, f) && Best(x, pa, f);
    var g :| IsForkPoint(pb, g) && Best(y, pb, g);
    GoodBlocksPermute(c, a, b);
    ForkPointPermute(pa, pb, f);
    ForkPointUnique(pb, f, g);
    BestPermute(pa, pb, f, x);
    GoodBlocksConsistent(c, b);
    BestUnique(c, pb, f, x, y);
  }

  lemma GoodBlocksPermute(c: Crypto, a: seq<Line>, b: seq<Line>)
    requires multiset(a) == multiset(b)
    ensures multiset(GoodBlocks(c, a)) == multiset(GoodBlocks(c, b))
  {
    FlatMapPermute(GoodOf(c), a, b);
  }

  /** On a ledger that is already one chain, a longest chain is that chain. */
  lemma LinearIdentity(c: Crypto, bs: seq<Block>, chain: seq<Block>)
    requires c.IsChain(bs) && bs != [] && ChainIn(chain, bs)
    requires forall other :: ChainIn(other, bs) ==> |other| <= |chain|
    ensures chain == bs
  {
    WholeIsChainIn(c, bs);
    OnlyOneAt(c, bs, chain, |chain| - 1);
    assert |bs| <= |chain| <= |bs|;
    forall i | 0 <= i < |chain| ensures i < |bs| && chain[i] == bs[i] {
      OnlyOneAt(c, bs, chain, i);
    }
  }

  lemma WholeIsChainIn(c: Crypto, bs: seq<Block>)
    requires c.IsChain(bs) && bs != []
    ensures ChainIn(bs, bs)
  {
    forall i | 0 <= i < |bs| ensures LinkIn(bs, bs, i) {
    }
  }

  lemma OnlyOneAt(c: Crypto, bs: seq<Block>, chain: seq<Block>, i: nat)
    requires c.IsChain(bs) && ChainIn(chain, bs) && i < |chain|
    ensures i < |bs| && chain[i] == bs[i]
  {
    assert LinkIn(chain, bs, i);
    var k :| 0 <= k < |bs| && bs[k] == chain[i];
    assert bs[k].header.index == k;
  }

  /** Chains of consistent blocks are what the verifier accepts. */
  lemma ChainInIsChain(c: Crypto, chain: seq<Block>, pool: seq<Block>)
    requires ChainIn(chain, pool) && Consistent(c, pool)
    ensures c.IsChain(chain)
  {
    forall i | 0 <= i < |chain|
      ensures chain[i].header.index == i && chain[i].header.prev == Tail(chain[..i]) && c.SelfConsistent(chain[i])
    {
      assert LinkIn(chain, pool, i);
    }
  }

  // ---------------------------------------------------------------- replay

  datatype Frame = Frame(index: int, kind: string)

  function FrameOf(b: Block): seq<Frame> {
    if b.header.payload.JObj? then [Frame(b.header.index, FrameKind(b.header.payload))] else []
  }

  /** An object payload has one frame, which carries the text that names it, and no other payload has one. */
  ghost predicate ShownAs(b: Block, frames: seq<Frame>) {
    if !b.header.payload.JObj? then frames == []
    else
      && |frames| == 1 && frames[0].index == b.header.index
      && (forall text :: Names(b.header.payload.fields, text) ==> frames[0].kind == text)
      && ((forall text :: !Names(b.header.payload.fields, text)) ==> frames[0].kind == "UNKNOWN")
  }

  lemma FrameShows(b: Block)
    ensures ShownAs(b, FrameOf(b))
  {
    if b.header.payload.JObj? {
      forall text ensures Names(b.header.payload.fields, text) ==> FrameKind(b.header.payload) == text {
        FrameKindNames(b.header.payload, text);
      }
      FrameKindNames(b.header.payload, "");
    }
  }

  /** `replay_step_loop` on a ledger file: verify, then one frame per object payload. */
  method ReplayStepLoop(c: Crypto, blocks: seq<Block>) returns (frames: Option<seq<Frame>>)
    ensures frames.Some? <==> c.IsChain(blocks)
    ensures frames.Some? ==> frames.value == FlatMap(FrameOf, blocks)
    ensures frames.Some? ==> forall i :: 0 <= i < |blocks| ==> ShownAs(blocks[i], FrameOf(blocks[i]))
  {
    var ok := VerifyLedgerBlocks(c, blocks);
    if !ok {
      return None;
    }
    var out: seq<Frame> := [];
    for i := 0 to |blocks|
      invariant out == FlatMap(FrameOf, blocks[..i])
    {
      FlatMapStep(FrameOf, blocks, i);
      if blocks[i].header.payload.JObj? {
        out := out + [Frame(blocks[i].header.index, FrameKind(blocks[i].header.payload))];
      }
    }
    assert blocks[..|blocks|] == blocks;
    forall i | 0 <= i < |blocks| ensures ShownAs(blocks[i], FrameOf(blocks[i])) {
      FrameShows(blocks[i]);
    }
    return Some(out);
  }

  predicate QuorumFrame(f: Frame, threshold: int) {
    f.index >= threshold && f.kind == "QUORUM_PASSED"
  }

  ghost predicate ShowsQuorum(frames: seq<Frame>, threshold: int) {
    exists i :: 0 <= i < |frames| && QuorumFrame(frames[i], threshold)
  }

  lemma ShowsQuorumConcat(a: seq<Frame>, b: seq<Frame>, threshold: int)
    ensures ShowsQuorum(a + b, threshold) <==> ShowsQuorum(a, threshold) || ShowsQuorum(b, threshold)
  {
    if ShowsQuorum(a, threshold) {
      var i :| 0 <= i < |a| && QuorumFrame(a[i], threshold);
      assert (a + b)[i] == a[i];
    }
    if ShowsQuorum(b, threshold) {
      var i :| 0 <= i < |b| && QuorumFrame(b[i], threshold);
      assert (a + b)[|a| + i] == b[i];
    }
  }

  function Threshold(fork: Option<int>): int {
    if fork.None? then 0 else fork.value
  }

  /** What a replayed chain shows is what the incremental flag of the dynamic program records. */
  lemma {:induction false} ReplayShowsQuorum(chain: seq<Block>, fork: Option<int>)
    requires forall i :: 0 <= i < |chain| ==> chain[i].header.index >= 0
    ensures ShowsQuorum(FlatMap(FrameOf, chain), Threshold(fork)) <==> QuorumSeen(chain, fork)
  {
    if chain != [] {
      var n := |chain| - 1;
      ReplayShowsQuorum(chain[..n], fork);
      ShowsQuorumConcat(FlatMap(FrameOf, chain[..n]), FrameOf(chain[n]), Threshold(fork));
      OneFrame(chain[n], fork);
    }
  }

  lemma OneFrame(b: Block, fork: Option<int>)
    requires b.header.index >= 0
    ensures ShowsQuorum(FrameOf(b), Threshold(fork)) <==> QuorumBlock(b, fork)
  {
    if QuorumBlock(b, fork) {
      assert QuorumFrame(FrameOf(b)[0], Threshold(fork));
    }
  }

  method HasQuorum(frames: seq<Frame>, threshold: int) returns (r: bool)
    ensures r <==> ShowsQuorum(frames, threshold)
  {
    r := false;
    for i := 0 to |frames|
      invariant r <==> exists j :: 0 <= j < i && QuorumFrame(frames[j], threshold)
    {
      if QuorumFrame(frames[i], threshold) {
        r := true;
      }
    }
  }

  /** `_select_candidate_by_replay`: sorting the filtered results in descending order and taking the
      first one is taking a maximum of (quorum, signature, hash). */
  method SelectByReplay(c: Crypto, bs: seq<ValidBlock>, candidates: seq<seq<ValidBlock>>, length: int, fork: Option<int>)
    returns (k: nat)
    requires candidates != [] && Consistent(c, Pool(bs))
    requires forall j :: 0 <= j < |candidates| ==> |candidates[j]| > 0 && Candidate(bs, length, candidates[j])
    ensures k < |candidates|
    ensures forall j :: 0 <= j < |candidates| ==> KeyLeq(Key(Pool(candidates[j]), fork), Key(Pool(candidates[k]), fork))
  {
    k := 0;
    var best := ReplayKey(c, bs, candidates[0], length, fork);
    for i := 1 to |candidates|
      invariant k < i && best == Key(Pool(candidates[k]), fork)
      invariant forall j :: 0 <= j < i ==> KeyLeq(Key(Pool(candidates[j]), fork), best)
    {
      var key := ReplayKey(c, bs, candidates[i], length, fork);
      KeyTotal(key, best);
      if KeyLess(best, key) {
        forall j | 0 <= j < i ensures KeyLeq(Key(Pool(candidates[j]), fork), key) {
          KeyTransitive(Key(Pool(candidates[j]), fork), best, key);
        }
        k, best := i, key;
      }
    }
  }

  /** `_eval_one`: replay one candidate in the sandbox. */
  method ReplayKey(c: Crypto, bs: seq<ValidBlock>, chain: seq<ValidBlock>, length: int, fork: Option<int>)
    returns (key: TipKey)
    requires Consistent(c, Pool(bs)) && Candidate(bs, length, chain)
    ensures key == Key(Pool(chain), fork)
  {
    var blocks := Pool(chain);
    ChainInIsChain(c, blocks, Pool(bs));
    var frames := ReplayStepLoop(c, blocks);
    var quorum := HasQuorum(frames.value, Threshold(fork));
    assert forall i :: 0 <= i < |blocks| ==> blocks[i].header.index == i;
    ReplayShowsQuorum(blocks, fork);
    var tip := chain[|chain| - 1];
    key := TipKey(|chain|, quorum, tip.Signature(), tip.Hash());
  }

  /** Both selectors choose the same blocks. */
  lemma ReplayAgrees(c: Crypto, pool: seq<Block>, fork: Option<int>, x: seq<Block>, y: seq<Block>)
    requires Consistent(c, pool) && CollisionFree(pool) && Best(x, pool, fork)
    requires ChainIn(y, pool) && KeyLeq(Key(x, fork), Key(y, fork))
    ensures x == y
  {
    KeyTotal(Key(x, fork), Key(y, fork));
    TipDeterminesChain(c, pool, x, y);
  }
}
