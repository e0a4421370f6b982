/** The specification of chain selection (core/fork_resolver.py): which chains a pool of blocks holds,
    how they are ranked, and that a chain is determined by the hash of its tip. */
module Chains {
  import opened Common
  import opened Ledger
  import Fnv

  /** `_frame_kind` */
  function FrameKind(payload: Json): string {
    if !payload.JObj? then "UNKNOWN"
    else
      var f := payload.fields;
      if "kind" in f && f["kind"].JStr? && f["kind"].s != "" then
        if f["kind"].s == "GOV_EVENT" && "event" in f && f["event"].JObj?
           && "event" in f["event"].fields && f["event"].fields["event"].JStr?
        then f["event"].fields["event"].s
        else f["kind"].s
      else if "event" in f && f["event"].JStr? && f["event"].s != "" then f["event"].s
      else "UNKNOWN"
  }

  /** The object holds this text under the key. */
  predicate HasText(f: map<string, Json>, key: string, text: string) {
    key in f && f[key] == JStr(text)
  }

  /** A governance event that carries this event text inside. */
  predicate Wraps(f: map<string, Json>, text: string) {
    && HasText(f, "kind", "GOV_EVENT") && "event" in f && f["event"].JObj? && HasText(f["event"].fields, "event", text)
  }

  /** The text that names an object payload: the event inside a governance event, any other kind that is not
      empty, or, where there is no such kind, an event that is not empty. */
  ghost predicate Names(f: map<string, Json>, text: string) {
    || Wraps(f, text)
    || (text != "" && HasText(f, "kind", text) && forall e :: !Wraps(f, e))
    || (text != "" && HasText(f, "event", text) && forall k :: HasText(f, "kind", k) ==> k == "")
  }

  lemma FrameKindNames(payload: Json, text: string)
    ensures payload.JObj? && Names(payload.fields, text) ==> FrameKind(payload) == text
    ensures !(payload.JObj? && exists name :: Names(payload.fields, name)) ==> FrameKind(payload) == "UNKNOWN"
  {
    if payload.JObj? {
      assert Names(payload.fields, FrameKind(payload)) || FrameKind(payload) == "UNKNOWN";
    }
  }

  /** The payload says that a quorum passed. */
  predicate QuorumPayload(payload: Json) {
    && payload.JObj?
    && var f := payload.fields;
       || HasText(f, "kind", "QUORUM_PASSED")
       || Wraps(f, "QUORUM_PASSED")
       || (("kind" !in f || !f["kind"].JStr? || f["kind"].s == "") && HasText(f, "event", "QUORUM_PASSED"))
  }

  /** The chain holds such a block at or after the fork point. */
  ghost predicate PassesQuorum(chain: seq<Block>, fork: Option<int>) {
    exists i :: 0 <= i < |chain| && QuorumPayload(chain[i].header.payload) && (fork.None? || chain[i].header.index >= fork.value)
  }

  lemma QuorumPayloadIff(payload: Json)
    ensures FrameKind(payload) == "QUORUM_PASSED" <==> QuorumPayload(payload)
  {
  }

  lemma {:induction false} QuorumSeenIff(chain: seq<Block>, fork: Option<int>)
    ensures QuorumSeen(chain, fork) <==> PassesQuorum(chain, fork)
  {
    if chain != [] {
      var n := |chain| - 1;
      QuorumSeenIff(chain[..n], fork);
      QuorumPayloadIff(chain[n].header.payload);
      if i :| 0 <= i < |chain[..n]| && QuorumPayload(chain[..n][i].header.payload)
              && (fork.None? || chain[..n][i].header.index >= fork.value) {
        assert chain[i] == chain[..n][i];
      }
      if i :| 0 <= i < n && QuorumPayload(chain[i].header.payload) && (fork.None? || chain[i].header.index >= fork.value) {
        assert chain[..n][i] == chain[i];
      }
    }
  }

  /** `kind == "QUORUM_PASSED"` at or after the fork point. */
  predicate QuorumBlock(b: Block, fork: Option<int>) {
    FrameKind(b.header.payload) == "QUORUM_PASSED" && (fork.None? || b.header.index >= fork.value)
  }

  predicate QuorumSeen(chain: seq<Block>, fork: Option<int>) {
    chain != [] && (QuorumSeen(chain[..|chain| - 1], fork) || QuorumBlock(chain[|chain| - 1], fork))
  }

  /** The i-th block comes from the pool and links to its predecessor. */
  ghost predicate LinkIn(chain: seq<Block>, pool: seq<Block>, i: int)
    requires 0 <= i < |chain|
  {
    chain[i] in pool && chain[i].header.index == i && chain[i].header.prev == Tail(chain[..i])
  }

  /** A genesis-rooted linked chain whose blocks all come from the pool. */
  ghost predicate ChainIn(chain: seq<Block>, pool: seq<Block>) {
    chain != [] && forall i :: 0 <= i < |chain| ==> LinkIn(chain, pool, i)
  }

  /** `_chain_tip_key` */
  datatype TipKey = TipKey(length: int, quorum: bool, signature: nat, hash: string)

  function Key(chain: seq<Block>, fork: Option<int>): TipKey
    requires |chain| > 0
  {
    var tip := chain[|chain| - 1];
    TipKey(|chain|, QuorumSeen(chain, fork), Fnv.ParseHex(tip.signature), tip.hash)
  }

  predicate KeyLess(a: TipKey, b: TipKey) {
    || a.length < b.length
    || (a.length == b.length &&
       (|| (!a.quorum && b.quorum)
        || (a.quorum == b.quorum &&
           (a.signature < b.signature || (a.signature == b.signature && StringLess(a.hash, b.hash))))))
  }

  predicate KeyLeq(a: TipKey, b: TipKey) {
    a == b || KeyLess(a, b)
  }

  lemma KeyTotal(a: TipKey, b: TipKey)
    ensures KeyLeq(a, b) || KeyLess(b, a)
    ensures !(KeyLeq(a, b) && KeyLess(b, a))
  {
    StringLessTotal(a.hash, b.hash);
    StringLessTotal(b.hash, a.hash);
  }

  lemma KeyTransitive(a: TipKey, b: TipKey, c: TipKey)
    requires KeyLeq(a, b) && KeyLeq(b, c)
    ensures KeyLeq(a, c)
  {
    if StringLess(a.hash, b.hash) && StringLess(b.hash, c.hash) {
      StringLessTransitive(a.hash, b.hash, c.hash);
    }
  }

  /** `a` comes before `b`: it is longer, or of the two it alone passes a quorum, or its tip has the greater
      signature, or the greater hash. */
  ghost predicate Outranks(a: seq<Block>, b: seq<Block>, fork: Option<int>)
    requires a != [] && b != []
  {
    var x, y := a[|a| - 1], b[|b| - 1];
    var p, q := PassesQuorum(a, fork), PassesQuorum(b, fork);
    || |a| > |b|
    || (|a| == |b| && p && !q)
    || (|a| == |b| && p == q && Fnv.ParseHex(x.signature) > Fnv.ParseHex(y.signature))
    || (|a| == |b| && p == q && Fnv.ParseHex(x.signature) == Fnv.ParseHex(y.signature)
        && (x.hash == y.hash || StringLess(y.hash, x.hash)))
  }

  lemma OutranksIff(a: seq<Block>, b: seq<Block>, fork: Option<int>)
    requires a != [] && b != []
    ensures KeyLeq(Key(b, fork), Key(a, fork)) <==> Outranks(a, b, fork)
  {
    QuorumSeenIff(a, fork);
    QuorumSeenIff(b, fork);
  }

  /** The best chain comes before every other: among the longest ones, a chain that passes a quorum is chosen
      if there is one. */
  lemma BestIff(chain: seq<Block>, pool: seq<Block>, fork: Option<int>)
    ensures Best(chain, pool, fork) <==>
      ChainIn(chain, pool) && forall other :: ChainIn(other, pool) ==> Outranks(chain, other, fork)
  {
    forall other | ChainIn(chain, pool) && ChainIn(other, pool)
      ensures KeyLeq(Key(other, fork), Key(chain, fork)) <==> Outranks(chain, other, fork)
    {
      OutranksIff(chain, other, fork);
    }
  }

  /** The best chain of a pool: none is ranked above it. */
  ghost predicate Best(chain: seq<Block>, pool: seq<Block>, fork: Option<int>) {
    && ChainIn(chain, pool)
    && forall other :: ChainIn(other, pool) ==> KeyLeq(Key(other, fork), Key(chain, fork))
  }

  ghost predicate Consistent(c: Crypto, pool: seq<Block>) {
    forall b :: b in pool ==> c.SelfConsistent(b)
  }

  lemma ChainInPrefix(chain: seq<Block>, pool: seq<Block>)
    requires ChainIn(chain, pool) && |chain| > 1
    ensures ChainIn(chain[..|chain| - 1], pool)
  {
    var p := chain[..|chain| - 1];
    forall i | 0 <= i < |p| ensures LinkIn(p, pool, i) {
      assert LinkIn(chain, pool, i) && p[..i] == chain[..i];
    }
  }

  lemma ChainInExtend(chain: seq<Block>, b: Block, pool: seq<Block>)
    requires (chain == [] || ChainIn(chain, pool)) && b in pool
    requires b.header.index == |chain| && b.header.prev == Tail(chain)
    ensures ChainIn(chain + [b], pool)
  {
    var c := chain + [b];
    forall i | 0 <= i < |c| ensures LinkIn(c, pool, i) {
      assert c[..i] == if i == |chain| then chain else chain[..i];
      assert i < |chain| ==> LinkIn(chain, pool, i);
    }
  }

  lemma SameHashSameBlock(c: Crypto, pool: seq<Block>, a: Block, b: Block)
    requires Consistent(c, pool) && CollisionFree(pool) && a in pool && b in pool && a.hash == b.hash
    ensures a == b
  {
  }

  lemma {:induction false} TipDeterminesBlock(c: Crypto, pool: seq<Block>, x: seq<Block>, y: seq<Block>, k: nat)
    requires Consistent(c, pool) && CollisionFree(pool) && ChainIn(x, pool) && ChainIn(y, pool)
    requires k < |x| == |y| && x[|x| - 1].hash == y[|y| - 1].hash
    ensures x[k] == y[k]
    decreases |x| - k
  {
    assert LinkIn(x, pool, k) && LinkIn(y, pool, k);
    if k + 1 < |x| {
      TipDeterminesBlock(c, pool, x, y, k + 1);
      assert LinkIn(x, pool, k + 1) && LinkIn(y, pool, k + 1);
    }
    SameHashSameBlock(c, pool, x[k], y[k]);
  }

  /** Without collisions a chain is determined by its length and the hash of its tip. */
  lemma TipDeterminesChain(c: Crypto, pool: seq<Block>, x: seq<Block>, y: seq<Block>)
    requires Consistent(c, pool) && CollisionFree(pool) && ChainIn(x, pool) && ChainIn(y, pool)
    requires |x| == |y| && x[|x| - 1].hash == y[|y| - 1].hash
    ensures x == y
  {
    forall k | 0 <= k < |x| ensures x[k] == y[k] {
      TipDeterminesBlock(c, pool, x, y, k);
    }
  }

  /** The best chain is unique. */
  lemma BestUnique(c: Crypto, pool: seq<Block>, fork: Option<int>, x: seq<Block>, y: seq<Block>)
    requires Consistent(c, pool) && CollisionFree(pool) && Best(x, pool, fork) && Best(y, pool, fork)
    ensures x == y
  {
    KeyTotal(Key(x, fork), Key(y, fork));
    TipDeterminesChain(c, pool, x, y);
  }

  // ---------------------------------------------------------------- fork points

  function ForkKey(b: Block): (int, string) {
    (b.header.index, b.header.prev)
  }

  function ForkKeyList(b: Block): seq<(int, string)> {
    [ForkKey(b)]
  }

  function ForkKeys(pool: seq<Block>): seq<(int, string)> {
    FlatMap(ForkKeyList, pool)
  }

  /** The least index at which some (index, prev_hash) occurs at least twice. */
  ghost predicate LeastRepeated(ks: multiset<(int, string)>, fork: Option<int>) {
    match fork
    case None => forall k :: ks[k] < 2
    case Some(i) => (exists p :: ks[(i, p)] >= 2) && forall k :: ks[k] >= 2 ==> i <= k.0
  }

  ghost predicate IsForkPoint(pool: seq<Block>, fork: Option<int>) {
    LeastRepeated(multiset(ForkKeys(pool)), fork)
  }

  lemma ForkPointUnique(pool: seq<Block>, f: Option<int>, g: Option<int>)
    requires IsForkPoint(pool, f) && IsForkPoint(pool, g)
    ensures f == g
  {
    var ks := multiset(ForkKeys(pool));
    if f.Some? {
      var p :| ks[(f.value, p)] >= 2;
      if g.Some? {
        var q :| ks[(g.value, q)] >= 2;
        assert (f.value, p).0 == f.value && (g.value, q).0 == g.value;
      }
    }
  }

  /** Reordering a pool keeps its fork point. */
  lemma ForkPointPermute(a: seq<Block>, b: seq<Block>, fork: Option<int>)
    requires multiset(a) == multiset(b) && IsForkPoint(a, fork)
    ensures IsForkPoint(b, fork)
  {
    FlatMapPermute(ForkKeyList, a, b);
    assert multiset(ForkKeys(a)) == multiset(ForkKeys(b));
  }
}
