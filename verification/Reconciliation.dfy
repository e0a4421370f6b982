/** `LedgerForkAuditor` of core/fork_resolver.py: the ledger file and the orphan file as mutable state. */
module Reconciliation {
  import opened Common
  import opened Ledger
  import opened Chains
  import opened BestChain
  import opened ProofLedger
  import opened ForkResolver

  datatype Orphan = Orphan(lineNo: nat, line: Line)

  datatype Resolution = Resolution(chosen: seq<Block>, pruned: nat, fork: Option<int>)

  function Hashes(bs: seq<Block>): set<string> {
    set b | b in bs :: b.hash
  }

  predicate Kept(line: Line, hashes: set<string>) {
    line.Rec? && line.block.hash in hashes
  }

  /** What `_write_orphaned` appends. */
  function Orphans(lines: seq<Line>, hashes: set<string>): seq<Orphan> {
    if lines == [] then []
    else
      var n := |lines| - 1;
      Orphans(lines[..n], hashes) + if Kept(lines[n], hashes) then [] else [Orphan(n + 1, lines[n])]
  }

  /** The block appended to the chosen chain. */
  function ReconciliationBlock(c: Crypto, chosen: seq<Block>, pruned: nat, fork: Option<int>, path: string, ts: string): Block
    requires |chosen| > 0
  {
    var tip := chosen[|chosen| - 1];
    c.Seal(Header(tip.header.index + 1, ts, tip.header.token, tip.hash, JObj(map[
      "kind" := JStr("CONSENSUS_RECONCILIATION_COMPLETE"),
      "ledger" := JStr(path),
      "chosen_tip_hash" := JStr(tip.hash),
      "chosen_blocks" := JInt(|chosen|),
      "pruned_lines" := JInt(pruned),
      "fork_point_index" := if fork.None? then JNull else JInt(fork.value)])))
  }

  /** The file that reconciliation leaves behind. */
  function Rewritten(c: Crypto, r: Resolution, path: string, ts: string): seq<Line>
    requires |r.chosen| > 0
  {
    Lines(r.chosen + [ReconciliationBlock(c, r.chosen, r.pruned, r.fork, path, ts)])
  }

  /** `chosen` is a longest chain of the pool and, when no two of its blocks collide, the best one. */
  ghost predicate WellChosen(pool: seq<Block>, fork: Option<int>, chosen: seq<Block>) {
    && ChainIn(chosen, pool)
    && (forall other :: ChainIn(other, pool) ==> |other| <= |chosen|)
    && (CollisionFree(pool) ==> IsForkPoint(pool, fork) && Best(chosen, pool, fork))
  }

  /** What a successful resolution of `lines` is. */
  ghost predicate Resolves(c: Crypto, lines: seq<Line>, r: Resolution) {
    && WellChosen(GoodBlocks(c, lines), r.fork, r.chosen)
    && r.pruned == |Orphans(lines, Hashes(r.chosen))|
  }

  /** The rewritten file passes the audit. */
  lemma RewrittenSound(c: Crypto, lines: seq<Line>, r: Resolution, path: string, ts: string)
    requires c.HexDigests() && Readable(lines) && ts != "" && Resolves(c, lines, r)
    ensures Sound(c, Rewritten(c, r, path, ts))
    ensures Blocks(Rewritten(c, r, path, ts))
         == r.chosen + [ReconciliationBlock(c, r.chosen, r.pruned, r.fork, path, ts)]
  {
    var pool := GoodBlocks(c, lines);
    GoodBlocksConsistent(c, lines);
    GoodBlocksWellFormed(c, lines);
    ChainInIsChain(c, r.chosen, pool);
    var n := |r.chosen| - 1;
    var tip := r.chosen[n];
    assert LinkIn(r.chosen, pool, n);
    var b := ReconciliationBlock(c, r.chosen, r.pruned, r.fork, path, ts);
    c.SealWellFormed(b.header);
    c.ExtendChain(r.chosen, b);
    var bs := r.chosen + [b];
    forall i | 0 <= i < |bs| ensures WellFormed(bs[i]) {
      if i < |r.chosen| {
        assert LinkIn(r.chosen, pool, i);
      }
    }
    LinesSound(c, bs);
  }

  /** The file holds the chosen blocks and one more, which tells what has been done. */
  ghost predicate Closes(lines: seq<Line>, r: Resolution, path: string) {
    var n := |r.chosen|;
    && n > 0 && |lines| == n + 1 && (forall i :: 0 <= i < n ==> lines[i] == Rec(r.chosen[i]))
    && lines[n].Rec? && Tells(lines[n].block.header, r, path)
  }

  predicate Tells(h: Header, r: Resolution, path: string)
    requires |r.chosen| > 0
  {
    var tip := r.chosen[|r.chosen| - 1];
    && h.prev == tip.hash && h.token == tip.header.token && h.payload.JObj?
    && var f := h.payload.fields;
       && HasText(f, "kind", "CONSENSUS_RECONCILIATION_COMPLETE") && HasText(f, "ledger", path)
       && HasText(f, "chosen_tip_hash", tip.hash)
       && "chosen_blocks" in f && f["chosen_blocks"] == JInt(|r.chosen|)
       && "pruned_lines" in f && f["pruned_lines"] == JInt(r.pruned)
       && "fork_point_index" in f && f["fork_point_index"] == if r.fork.None? then JNull else JInt(r.fork.value)
  }

  lemma BlockTells(c: Crypto, r: Resolution, path: string, ts: string)
    requires |r.chosen| > 0
    ensures Tells(ReconciliationBlock(c, r.chosen, r.pruned, r.fork, path, ts).header, r, path)
  {
  }

  lemma RewrittenCloses(c: Crypto, lines: seq<Line>, r: Resolution, path: string, ts: string)
    requires c.HexDigests() && Readable(lines) && ts != "" && Resolves(c, lines, r)
    ensures Closes(Rewritten(c, r, path, ts), r, path)
  {
    RewrittenSound(c, lines, r, path, ts);
    RecordsAre(c, Rewritten(c, r, path, ts));
    BlockTells(c, r, path, ts);
  }

  lemma RecordsAre(c: Crypto, lines: seq<Line>)
    requires Sound(c, lines)
    ensures |Blocks(lines)| == |lines| && forall i :: 0 <= i < |lines| ==> lines[i] == Rec(Blocks(lines)[i])
  {
    BlocksOfRecords(lines);
  }

  lemma {:induction false} GoodBlocksWellFormed(c: Crypto, lines: seq<Line>)
    requires Readable(lines)
    ensures forall b :: b in GoodBlocks(c, lines) ==> WellFormed(b)
  {
    if lines != [] {
      GoodBlocksWellFormed(c, lines[..|lines| - 1]);
    }
  }

  lemma LinesSound(c: Crypto, bs: seq<Block>)
    requires c.IsChain(bs) && forall i :: 0 <= i < |bs| ==> WellFormed(bs[i])
    ensures Blocks(Lines(bs)) == bs && Sound(c, Lines(bs))
  {
    BlocksOfRecords(Lines(bs));
  }

  // ---------------------------------------------------------------- nothing is lost

  /** How often `o` was orphaned. */
  function Times(lines: seq<Line>, hashes: set<string>, o: Orphan): nat {
    multiset(Orphans(lines, hashes))[o]
  }

  lemma TimesStep(lines: seq<Line>, line: Line, hashes: set<string>, o: Orphan)
    ensures Times(lines + [line], hashes, o)
      == Times(lines, hashes, o) + if !Kept(line, hashes) && o == Orphan(|lines| + 1, line) then 1 else 0
  {
    var last := if Kept(line, hashes) then [] else [Orphan(|lines| + 1, line)];
    assert (lines + [line])[..|lines|] == lines;
    assert Orphans(lines + [line], hashes) == Orphans(lines, hashes) + last;
  }

  lemma {:induction false} TimesOnce(lines: seq<Line>, hashes: set<string>, i: nat, m: nat)
    requires i < m <= |lines|
    ensures Times(lines[..m], hashes, Orphan(i + 1, lines[i])) == if Kept(lines[i], hashes) then 0 else 1
  {
    var o := Orphan(i + 1, lines[i]);
    PrefixStep(lines, m - 1);
    TimesStep(lines[..m - 1], lines[m - 1], hashes, o);
    if i < m - 1 {
      TimesOnce(lines, hashes, i, m - 1);
    } else {
      NotYetOrphaned(lines[..m - 1], hashes, o);
    }
  }

  lemma OrphanedOnce(lines: seq<Line>, hashes: set<string>, i: nat)
    requires i < |lines|
    ensures multiset(Orphans(lines, hashes))[Orphan(i + 1, lines[i])] == if Kept(lines[i], hashes) then 0 else 1
  {
    TimesOnce(lines, hashes, i, |lines|);
    assert lines[..|lines|] == lines;
  }

  lemma NotYetOrphaned(lines: seq<Line>, hashes: set<string>, o: Orphan)
    requires o.lineNo > |lines|
    ensures Times(lines, hashes, o) == 0
  {
    OrphansBelow(lines, hashes);
    assert o !in Orphans(lines, hashes);
  }

  lemma {:induction false} OrphansBelow(lines: seq<Line>, hashes: set<string>)
    ensures forall o :: o in Orphans(lines, hashes) ==> 1 <= o.lineNo <= |lines| && lines[o.lineNo - 1] == o.line
  {
    if lines != [] {
      OrphansBelow(lines[..|lines| - 1], hashes);
    }
  }

  lemma GoodBlockOfLine(c: Crypto, lines: seq<Line>, i: nat)
    requires i < |lines| && lines[i].Rec? && c.SelfConsistent(lines[i].block)
    ensures lines[i].block in GoodBlocks(c, lines)
  {
    FlatMapMember(GoodOf(c), lines, i, lines[i].block);
  }

  /** Reconciliation keeps data: each line is orphaned exactly once unless it claims a chosen hash, and
      a consistent block is either orphaned or in the new ledger. */
  lemma DataKept(c: Crypto, lines: seq<Line>, r: Resolution, i: nat)
    requires Resolves(c, lines, r) && i < |lines|
    ensures multiset(Orphans(lines, Hashes(r.chosen)))[Orphan(i + 1, lines[i])]
         == if Kept(lines[i], Hashes(r.chosen)) then 0 else 1
    ensures CollisionFree(GoodBlocks(c, lines)) && lines[i].Rec? && c.SelfConsistent(lines[i].block) ==>
      lines[i].block in r.chosen || Orphan(i + 1, lines[i]) in Orphans(lines, Hashes(r.chosen))
  {
    OrphanedOnce(lines, Hashes(r.chosen), i);
    if CollisionFree(GoodBlocks(c, lines)) && lines[i].Rec? && c.SelfConsistent(lines[i].block)
       && Kept(lines[i], Hashes(r.chosen))
    {
      KeptIsChosen(c, lines, r.chosen, i);
    }
  }

  lemma KeptIsChosen(c: Crypto, lines: seq<Line>, chosen: seq<Block>, i: nat)
    requires ChainIn(chosen, GoodBlocks(c, lines)) && CollisionFree(GoodBlocks(c, lines))
    requires i < |lines| && lines[i].Rec? && c.SelfConsistent(lines[i].block) && Kept(lines[i], Hashes(chosen))
    ensures lines[i].block in chosen
  {
    var k :| 0 <= k < |chosen| && chosen[k].hash == lines[i].block.hash;
    assert LinkIn(chosen, GoodBlocks(c, lines), k);
    GoodBlockOfLine(c, lines, i);
    GoodBlocksConsistent(c, lines);
    SameHashSameBlock(c, GoodBlocks(c, lines), chosen[k], lines[i].block);
  }

  /** A file can be reconciled exactly when it holds a consistent genesis block. */
  lemma ResolvableIff(c: Crypto, lines: seq<Line>)
    ensures (exists chain :: ChainIn(chain, GoodBlocks(c, lines))) <==>
            (exists b :: b in GoodBlocks(c, lines) && b.header.index == 0 && b.header.prev == GENESIS)
  {
    var pool := GoodBlocks(c, lines);
    if chain :| ChainIn(chain, pool) {
      assert LinkIn(chain, pool, 0);
    }
    if b :| b in pool && b.header.index == 0 && b.header.prev == GENESIS {
      ChainInExtend([], b, pool);
    }
  }

  /** Replacing the choice by the replay selector's keeps it well chosen. */
  lemma ReplayChooses(c: Crypto, bs: seq<ValidBlock>, fork: Option<int>, best: seq<ValidBlock>,
                      candidates: seq<seq<ValidBlock>>, k: nat)
    requires Consistent(c, Pool(bs)) && WellChosen(Pool(bs), fork, Pool(best)) && best in candidates
    requires forall j :: 0 <= j < |candidates| ==> |candidates[j]| > 0 && Candidate(bs, |best|, candidates[j])
    requires k < |candidates|
    requires forall j :: 0 <= j < |candidates| ==> KeyLeq(Key(Pool(candidates[j]), fork), Key(Pool(candidates[k]), fork))
    ensures WellChosen(Pool(bs), fork, Pool(candidates[k]))
    ensures CollisionFree(Pool(bs)) ==> Pool(candidates[k]) == Pool(best)
  {
    var i :| 0 <= i < |candidates| && candidates[i] == best;
    if CollisionFree(Pool(bs)) {
      ReplayAgrees(c, Pool(bs), fork, Pool(best), Pool(candidates[k]));
    }
  }

  class LedgerForkAuditor {
    const crypto: Crypto
    const path: string
    var lines: seq<Line>
    var orphaned: seq<Orphan>

    constructor (crypto: Crypto, path: string, lines: seq<Line>)
      ensures this.crypto == crypto && this.path == path && this.lines == lines && orphaned == []
    {
      this.crypto, this.path, this.lines, orphaned := crypto, path, lines, [];
    }

    /** `_write_orphaned` */
    method WriteOrphaned(hashes: set<string>) returns (pruned: nat)
      modifies this`orphaned
      ensures orphaned == old(orphaned) + Orphans(lines, hashes)
      ensures pruned == |Orphans(lines, hashes)|
    {
      pruned := 0;
      for i := 0 to |lines|
        invariant orphaned == old(orphaned) + Orphans(lines[..i], hashes) && pruned == |Orphans(lines[..i], hashes)|
      {
        assert lines[..i + 1][..i] == lines[..i];
        if lines[i].Rec? && lines[i].block.hash in hashes {
          continue;
        }
        pruned := pruned + 1;
        orphaned := orphaned + [Orphan(i + 1, lines[i])];
      }
      assert lines[..|lines|] == lines;
    }

    /** `_choose_chain`, with the replay selector on top when asked for. */
    method ChooseChain(replayVerify: bool) returns (chosen: seq<Block>, fork: Option<int>)
      ensures var pool := GoodBlocks(crypto, lines);
        if chosen == [] then forall chain :: !ChainIn(chain, pool)
        else WellChosen(pool, fork, chosen)
      ensures chosen != [] && CollisionFree(GoodBlocks(crypto, lines)) ==> Selected(crypto, lines, chosen)
      ensures chosen != [] && CollisionFree(GoodBlocks(crypto, lines)) ==>
        forall other :: ChainIn(other, GoodBlocks(crypto, lines)) ==> Outranks(chosen, other, fork)
    {
      var bs := ValidBlocks(crypto, lines);
      var best, f, candidates := BestChain.BestChain(crypto, bs);
      fork, chosen := f, Pool(best);
      if replayVerify && |candidates| > 1 {
        var k := SelectByReplay(crypto, bs, candidates, |best|, fork);
        ReplayChooses(crypto, bs, fork, best, candidates, k);
        chosen := Pool(candidates[k]);
      }
    }

    /** `resolve_fork` (`replayVerify` false) and `resolve_fork_async` (true). None is the raise. */
    method ResolveFork(replayVerify: bool, ts: string) returns (r: Option<Resolution>)
      requires crypto.HexDigests() && Readable(lines) && ts != ""
      modifies this`lines, this`orphaned
      ensures r.None? <==> forall chain :: !ChainIn(chain, GoodBlocks(crypto, old(lines)))
      ensures r.None? ==> lines == old(lines) && orphaned == old(orphaned)
      ensures r.Some? ==> Resolves(crypto, old(lines), r.value)
      ensures r.Some? ==> lines == Rewritten(crypto, r.value, path, ts) && Sound(crypto, lines)
      ensures r.Some? ==> Closes(lines, r.value, path)
      ensures r.Some? ==> orphaned == old(orphaned) + Orphans(old(lines), Hashes(r.value.chosen))
    {
      var chosen, fork := ChooseChain(replayVerify);
      if chosen == [] {
        return None;
      }
      var pruned := WriteOrphaned(Hashes(chosen));
      var result := Resolution(chosen, pruned, fork);
      RewrittenSound(crypto, lines, result, path, ts);
      RewrittenCloses(crypto, lines, result, path, ts);
      lines := Rewritten(crypto, result, path, ts);
      return Some(result);
    }

    /** `recover_loop`: a no-op on a sound ledger; otherwise resolve, after which the audit passes. */
    method RecoverLoop(ts: string) returns (ok: bool, r: Option<Resolution>)
      requires crypto.HexDigests() && Readable(lines) && ts != ""
      modifies this`lines, this`orphaned
      ensures old(Sound(crypto, lines)) ==> ok && r.None? && lines == old(lines) && orphaned == old(orphaned)
      ensures ok ==> Sound(crypto, lines)
      ensures !old(Sound(crypto, lines)) ==> ok == r.Some?
      ensures r.Some? ==> Resolves(crypto, old(lines), r.value) && lines == Rewritten(crypto, r.value, path, ts)
    {
      ok := AuditOrRaise(crypto, lines);
      r := None;
      if !ok {
        r := ResolveFork(false, ts);
        if r.Some? {
          ok := AuditOrRaise(crypto, lines);
        }
      }
    }
  }
}
