/** core/proof_ledger.py: the append-only writer and the verifier of whole ledgers. */
module ProofLedger {
  import opened Common
  import opened Ledger

  /** `verify_ledger_blocks`: accepts exactly the hash chains. */
  method VerifyLedgerBlocks(c: Crypto, blocks: seq<Block>) returns (ok: bool)
    ensures ok <==> c.IsChain(blocks)
  {
    var prev, expected := GENESIS, 0;
    for i := 0 to |blocks|
      invariant expected == i && prev == Tail(blocks[..i])
      invariant c.IsChain(blocks[..i])
    {
      var b := blocks[i];
      assert blocks[..i + 1] == blocks[..i] + [b];
      if b.header.index != expected || b.header.prev != prev || !c.SelfConsistent(b) {
        return false;
      }
      c.ExtendChain(blocks[..i], b);
      prev, expected := c.sha(b.header), expected + 1;
    }
    assert blocks[..|blocks|] == blocks;
    return true;
  }

  /** A ledger file that holds nothing but the records of a hash chain. */
  ghost predicate Sound(c: Crypto, lines: seq<Line>) {
    && (forall i :: 0 <= i < |lines| ==> lines[i].Rec? && WellFormed(lines[i].block))
    && c.IsChain(Blocks(lines))
  }

  /** The readable records of a file (`iter_ledger_blocks`). */
  function Blocks(lines: seq<Line>): seq<Block> {
    if lines == [] then []
    else Blocks(lines[..|lines| - 1]) + match lines[|lines| - 1] case Rec(b) => [b] case Junk(_, _) => []
  }

  lemma {:induction false} BlocksOfRecords(lines: seq<Line>)
    requires forall i :: 0 <= i < |lines| ==> lines[i].Rec?
    ensures |Blocks(lines)| == |lines|
    ensures forall i :: 0 <= i < |lines| ==> Blocks(lines)[i] == lines[i].block
  {
    if lines != [] {
      BlocksOfRecords(lines[..|lines| - 1]);
    }
  }

  /** Tail hydration of a sound ledger finds the height and the hash an appended block must carry. */
  lemma HydrateSound(c: Crypto, lines: seq<Line>)
    requires Sound(c, lines)
    ensures HydrateTail(lines) == (|lines|, Tail(Blocks(lines)))
  {
    BlocksOfRecords(lines);
    if lines != [] {
      assert Blocks(lines)[|lines| - 1].header.index == |lines| - 1;
    }
  }

  // ---------------------------------------------------------------- the writer's own view of the file

  /** A line as core/proof_ledger.py reads it: an object with every field of a block, another object with
      an integer index and a textual hash, or anything else. */
  datatype Entry = Whole(block: Block) | Partial(index: int, hash: string) | Foreign

  /** What the tail scan takes from a line; no other field is looked at. */
  function IndexAndHash(e: Entry): Option<(int, string)> {
    match e
    case Whole(b) => if |b.hash| == 64 then Some((b.header.index, b.hash)) else None
    case Partial(i, h) => if |h| == 64 then Some((i, h)) else None
    case Foreign => None
  }

  /** `_hydrate_tail` of the writer. */
  function Hydrated(entries: seq<Entry>): (int, string) {
    if entries == [] then (0, GENESIS)
    else
      match IndexAndHash(entries[|entries| - 1])
      case Some((i, h)) => (i + 1, h)
      case None => Hydrated(entries[..|entries| - 1])
  }

  /** The line is an object with an integer index and a hash of 64 characters. */
  predicate Points(e: Entry, index: int, hash: string) {
    |hash| == 64 && ((e.Whole? && e.block.header.index == index && e.block.hash == hash) || e == Partial(index, hash))
  }

  /** The last such line decides; without one the file counts as empty. */
  ghost predicate TailIs(entries: seq<Entry>, next: int, prev: string) {
    || (exists k :: 0 <= k < |entries| && Points(entries[k], next - 1, prev)
                    && forall j, i, h :: k < j < |entries| ==> !Points(entries[j], i, h))
    || ((forall j, i, h :: 0 <= j < |entries| ==> !Points(entries[j], i, h)) && next == 0 && prev == GENESIS)
  }

  lemma {:induction false} HydratedIsTail(entries: seq<Entry>)
    ensures TailIs(entries, Hydrated(entries).0, Hydrated(entries).1)
  {
    if entries != [] {
      var n := |entries| - 1;
      var (i, h) := Hydrated(entries);
      if IndexAndHash(entries[n]).Some? {
        assert Points(entries[n], i - 1, h);
      } else {
        HydratedIsTail(entries[..n]);
        assert forall x, y :: !Points(entries[n], x, y);
        if k :| 0 <= k < n && Points(entries[..n][k], i - 1, h)
                && forall j, x, y :: k < j < n ==> !Points(entries[..n][j], x, y) {
          assert Points(entries[k], i - 1, h);
          forall j, x, y | k < j < |entries| ensures !Points(entries[j], x, y) {
            assert j < n ==> entries[j] == entries[..n][j];
          }
        } else {
          forall j, x, y | 0 <= j < |entries| ensures !Points(entries[j], x, y) {
            assert j < n ==> entries[j] == entries[..n][j];
          }
        }
      }
    }
  }

  ghost predicate AllWhole(entries: seq<Entry>) {
    forall i :: 0 <= i < |entries| ==> entries[i].Whole?
  }

  ghost function WholeBlocks(entries: seq<Entry>): (bs: seq<Block>)
    requires AllWhole(entries)
    ensures |bs| == |entries| && forall i :: 0 <= i < |bs| ==> bs[i] == entries[i].block
  {
    seq(|entries|, i requires 0 <= i < |entries| => entries[i].block)
  }

  /** `verify_ledger_blocks` accepts the file. */
  ghost predicate Chained(c: Crypto, entries: seq<Entry>) {
    AllWhole(entries) && c.IsChain(WholeBlocks(entries))
  }

  /** The same line as the fork resolver and the consensus node read it, through `_coerce_block`. */
  function AsRead(e: Entry): Line {
    match e
    case Whole(b) => Written(b)
    case Partial(_, _) => Junk("", "schema_error")
    case Foreign => Junk("", "json_error")
  }

  function AsReadAll(entries: seq<Entry>): (lines: seq<Line>)
    ensures |lines| == |entries| && forall i :: 0 <= i < |lines| ==> lines[i] == AsRead(entries[i])
  {
    seq(|entries|, i requires 0 <= i < |entries| => AsRead(entries[i]))
  }

  lemma RecordIsWhole(e: Entry)
    requires AsRead(e).Rec?
    ensures e.Whole? && AsRead(e).block == e.block
  {
  }

  lemma AllRecordsWhole(entries: seq<Entry>)
    requires forall i :: 0 <= i < |entries| ==> AsReadAll(entries)[i].Rec?
    ensures AllWhole(entries) && forall i :: 0 <= i < |entries| ==> AsReadAll(entries)[i].block == WholeBlocks(entries)[i]
  {
    forall i | 0 <= i < |entries| ensures entries[i].Whole? && AsReadAll(entries)[i].block == entries[i].block {
      RecordIsWhole(entries[i]);
    }
  }

  /** A file that passes the resolver's audit passes the verifier. */
  lemma SoundIsChained(c: Crypto, entries: seq<Entry>)
    requires Sound(c, AsReadAll(entries))
    ensures Chained(c, entries) && WholeBlocks(entries) == Blocks(AsReadAll(entries))
  {
    AllRecordsWhole(entries);
    BlocksOfRecords(AsReadAll(entries));
    assert WholeBlocks(entries) == Blocks(AsReadAll(entries));
  }

  /** On a verified file the tail scan finds the length and the last hash. */
  lemma HydrateChained(c: Crypto, entries: seq<Entry>)
    requires c.HexDigests() && Chained(c, entries)
    ensures Hydrated(entries) == (|entries|, Tail(WholeBlocks(entries)))
  {
    if entries != [] {
      var n := |entries| - 1;
      var b := WholeBlocks(entries)[n];
      assert b.header.index == n && c.SelfConsistent(b);
      assert LooksLikeHash(c.sha(b.header), 64);
    }
  }

  lemma AppendChained(c: Crypto, entries: seq<Entry>, b: Block)
    requires Chained(c, entries) && c.SelfConsistent(b)
    requires b.header.index == |entries| && b.header.prev == Tail(WholeBlocks(entries))
    ensures Chained(c, entries + [Whole(b)]) && Tail(WholeBlocks(entries + [Whole(b)])) == b.hash
  {
    c.ExtendChain(WholeBlocks(entries), b);
    assert WholeBlocks(entries + [Whole(b)]) == WholeBlocks(entries) + [b];
  }

  /** The loop of `_hydrate_tail`, from the last line backwards. */
  method ScanTail(entries: seq<Entry>) returns (nextIndex: int, prevHash: string)
    ensures (nextIndex, prevHash) == Hydrated(entries) && TailIs(entries, nextIndex, prevHash)
  {
    HydratedIsTail(entries);
    var k := |entries|;
    assert entries[..k] == entries;
    while k > 0
      invariant 0 <= k <= |entries| && Hydrated(entries) == Hydrated(entries[..k])
    {
      assert entries[..k][..k - 1] == entries[..k - 1];
      var tail := IndexAndHash(entries[k - 1]);
      if tail.Some? {
        return tail.value.0 + 1, tail.value.1;
      }
      k := k - 1;
    }
    return 0, GENESIS;
  }

  class ProofLedgerManager {
    const crypto: Crypto
    const token: string
    var entries: seq<Entry>
    var nextIndex: int
    var prevHash: string

    ghost predicate Valid()
      reads this
    {
      Chained(crypto, entries) && nextIndex == |entries| && prevHash == Tail(WholeBlocks(entries))
    }

    constructor (crypto: Crypto, token: string, entries: seq<Entry>)
      ensures this.crypto == crypto && this.token == token && this.entries == entries
      ensures (nextIndex, prevHash) == Hydrated(entries)
      ensures crypto.HexDigests() && Chained(crypto, entries) ==> Valid()
    {
      this.crypto, this.token, this.entries := crypto, token, entries;
      var i, h := ScanTail(entries);
      nextIndex, prevHash := i, h;
      new;
      if crypto.HexDigests() && Chained(crypto, entries) {
        HydrateChained(crypto, entries);
      }
    }

    /** Appending keeps the file verified, for every payload, timestamp and token; with a timestamp and a
        token it also keeps it sound for the resolver's stricter audit. */
    method AppendBlock(payload: Json, ts: string) returns (b: Block)
      requires Valid()
      modifies this`entries, this`nextIndex, this`prevHash
      ensures Valid() && entries == old(entries) + [Whole(b)]
      ensures b == crypto.Seal(Header(old(nextIndex), ts, token, old(prevHash), payload))
      ensures crypto.HexDigests() && token != "" && ts != "" && old(Sound(crypto, AsReadAll(entries)))
        ==> Sound(crypto, AsReadAll(entries))
    {
      var header := Header(nextIndex, ts, token, prevHash, payload);
      b := crypto.Seal(header);
      AppendChained(crypto, entries, b);
      if crypto.HexDigests() && token != "" && ts != "" && Sound(crypto, AsReadAll(entries)) {
        SealKeepsSound(crypto, entries, header, b);
      }
      Store(b);
    }

    /** The append to the file and the new tail. */
    method Store(b: Block)
      modifies this`entries, this`nextIndex, this`prevHash
      ensures entries == old(entries) + [Whole(b)] && prevHash == b.hash && nextIndex == old(nextIndex) + 1
    {
      entries := entries + [Whole(b)];
      prevHash := b.hash;
      nextIndex := nextIndex + 1;
    }
  }

  lemma SealKeepsSound(c: Crypto, entries: seq<Entry>, h: Header, b: Block)
    requires c.HexDigests() && Sound(c, AsReadAll(entries)) && h.ts != "" && h.token != "" && b == c.Seal(h)
    requires h.index == |entries| && AllWhole(entries) && h.prev == Tail(WholeBlocks(entries))
    ensures Sound(c, AsReadAll(entries + [Whole(b)]))
  {
    SoundIsChained(c, entries);
    SealExtends(c, AsReadAll(entries), h, b);
    AsReadAppend(entries, b);
  }

  lemma AsReadAppend(entries: seq<Entry>, b: Block)
    requires Written(b) == Rec(b)
    ensures AsReadAll(entries + [Whole(b)]) == AsReadAll(entries) + [Rec(b)]
  {
  }

  lemma TailIsDigest(c: Crypto, lines: seq<Line>)
    requires Sound(c, lines)
    ensures LooksLikeHash(Tail(Blocks(lines)), 64)
  {
    BlocksOfRecords(lines);
    if lines == [] {
      assert forall i :: 0 <= i < 64 ==> GENESIS[i] in "0123456789abcdef";
    }
  }

  lemma AppendSound(c: Crypto, lines: seq<Line>, b: Block)
    requires Sound(c, lines) && WellFormed(b) && c.SelfConsistent(b)
    requires b.header.index == |lines| && b.header.prev == Tail(Blocks(lines))
    ensures Sound(c, lines + [Rec(b)]) && Tail(Blocks(lines + [Rec(b)])) == b.hash
  {
    BlocksAppend(lines, b);
    ChainAppend(c, lines, b);
    var longer := lines + [Rec(b)];
    forall i | 0 <= i < |longer| ensures longer[i].Rec? && WellFormed(longer[i].block) {
      if i < |lines| {
        assert longer[i] == lines[i];
      }
    }
  }

  lemma BlocksAppend(lines: seq<Line>, b: Block)
    ensures Blocks(lines + [Rec(b)]) == Blocks(lines) + [b]
  {
    assert (lines + [Rec(b)])[..|lines|] == lines;
  }

  lemma ChainAppend(c: Crypto, lines: seq<Line>, b: Block)
    requires Sound(c, lines) && c.SelfConsistent(b)
    requires b.header.index == |lines| && b.header.prev == Tail(Blocks(lines))
    ensures c.IsChain(Blocks(lines) + [b])
  {
    BlocksOfRecords(lines);
    c.ExtendChain(Blocks(lines), b);
  }

  /** Sealing a header that points at the tail of a sound file gives the file's next record. */
  lemma SealExtends(c: Crypto, lines: seq<Line>, h: Header, b: Block)
    requires c.HexDigests() && Sound(c, lines) && h.ts != "" && h.token != "" && b == c.Seal(h)
    requires h.index == |lines| && h.prev == Tail(Blocks(lines))
    ensures Written(b) == Rec(b)
    ensures Sound(c, lines + [Rec(b)]) && Tail(Blocks(lines + [Rec(b)])) == b.hash
  {
    TailIsDigest(c, lines);
    c.SealWellFormed(h);
    AppendSound(c, lines, b);
  }
}
