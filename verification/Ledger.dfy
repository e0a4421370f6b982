/** Ledger blocks, their hashes and signatures, and hash chains (core/proof_ledger.py and the
    helpers that core/fork_resolver.py and core/consensus_node.py repeat). */
module Ledger {
  import opened Bits
  import opened Common
  import Fnv

  datatype Json =
    | JNull
    | JBool(b: bool)
    | JInt(i: int)
    | JStr(s: string)
    | JArr(items: seq<Json>)
    | JObj(fields: map<string, Json>)

  /** The part of a block covered by its hash. */
  datatype Header = Header(index: int, ts: string, token: string, prev: string, payload: Json)

  datatype Block = Block(header: Header, hash: string, signature: string)

  function Zeros(n: nat): (s: string)
    ensures |s| == n && forall i :: 0 <= i < n ==> s[i] == '0'
  {
    if n == 0 then "" else Zeros(n - 1) + "0"
  }

  const GENESIS: string := Zeros(64)

  predicate LooksLikeHash(s: string, n: nat) {
    |s| == n && Fnv.IsHex(s)
  }

  /** What `_coerce_block` demands of a record. */
  predicate WellFormed(b: Block) {
    && b.header.ts != "" && b.header.token != ""
    && LooksLikeHash(b.header.prev, 64) && LooksLikeHash(b.hash, 64) && LooksLikeHash(b.signature, 8)
  }

  /** A line of a ledger file as read back: a record that passes `_coerce_block`, or anything else. */
  datatype Line = Rec(block: Block) | Junk(raw: string, reason: string)

  /** Writing a block and reading the line again. */
  function Written(b: Block): Line {
    if WellFormed(b) then Rec(b) else Junk("", "schema_error")
  }

  function Lines(bs: seq<Block>): seq<Line> {
    seq(|bs|, i requires 0 <= i < |bs| => Written(bs[i]))
  }

  /** `_hydrate_tail`: next index and previous hash from the last readable record. */
  function HydrateTail(lines: seq<Line>): (int, string) {
    if lines == [] then (0, GENESIS)
    else
      match lines[|lines| - 1]
      case Rec(b) => (b.header.index + 1, b.hash)
      case Junk(_, _) => HydrateTail(lines[..|lines| - 1])
  }

  /** SHA-256 over the canonical header, and the canonical bytes that FNV-1a signs. Both are
      arbitrary: nothing below assumes that `sha` is injective. */
  datatype Crypto = Crypto(sha: Header -> string, canon: (Header, string) -> seq<Byte>) {

    ghost predicate HexDigests() {
      forall h: Header :: LooksLikeHash(sha(h), 64)
    }

    function Sign(h: Header, hash: string): string {
      Fnv.Digest(canon(h, hash))
    }

    predicate SelfConsistent(b: Block) {
      b.hash == sha(b.header) && b.signature == Sign(b.header, b.hash)
    }

    /** The writers' recipe: hash the header, then sign header and hash. */
    function Seal(h: Header): (b: Block)
      ensures SelfConsistent(b) && b.header == h
    {
      Block(h, sha(h), Sign(h, sha(h)))
    }

    /** A genesis-rooted hash chain: contiguous indices, linked hashes, consistent blocks. */
    predicate IsChain(bs: seq<Block>) {
      forall i :: 0 <= i < |bs| ==>
        bs[i].header.index == i && bs[i].header.prev == Tail(bs[..i]) && SelfConsistent(bs[i])
    }

    lemma ExtendChain(bs: seq<Block>, b: Block)
      requires IsChain(bs) && SelfConsistent(b)
      requires b.header.index == |bs| && b.header.prev == Tail(bs)
      ensures IsChain(bs + [b]) && Tail(bs + [b]) == b.hash
    {
      var cs := bs + [b];
      assert cs[..|bs|] == bs;
      forall i | 0 <= i < |cs|
        ensures cs[i].header.index == i && cs[i].header.prev == Tail(cs[..i]) && SelfConsistent(cs[i])
      {
        if i < |bs| {
          assert cs[..i] == bs[..i];
        }
      }
    }

    lemma SealWellFormed(h: Header)
      requires HexDigests() && h.ts != "" && h.token != "" && LooksLikeHash(h.prev, 64)
      ensures WellFormed(Seal(h))
    {
      Fnv.DigestShape(canon(h, sha(h)));
    }
  }

  /** The hash a successor must carry: that of the last block, or the genesis marker. */
  function Tail(bs: seq<Block>): string {
    if bs == [] then GENESIS else bs[|bs| - 1].hash
  }

  /** No two different headers among these blocks share a hash. */
  ghost predicate CollisionFree(bs: seq<Block>) {
    forall x, y :: x in bs && y in bs && x.hash == y.hash ==> x.header == y.header
  }
}
