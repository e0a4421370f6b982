/** One peer of core/consensus_node.py. Every function below is one stretch of a coroutine between
    two suspension points; what a coroutine still has to do is kept in `tasks`. */
module ConsensusNode {
  import opened Common
  import opened Ledger

  type Id = string

  datatype Height = Height(
    index: int,
    prev: string,
    proposal: Option<Block>,
    prepares: set<Id>,
    commits: set<Id>,
    committed: bool)

  datatype Message =
    | ProposeBlock(block: Block)
    | Prepare(index: int, hash: string)
    | Commit(index: int, hash: string)

  /** Continuations, in the order in which a proposal passes through them. */
  datatype Task =
    | Preprepared(peer: Id, block: Block)         // verified, waiting for the state lock
    | Announce(block: Block, leading: bool)       // broadcast, then `_maybe_commit`
    | Gossip(block: Block, leading: bool)         // periodic re-broadcast
    | CountPrepares(block: Block)                 // `_maybe_commit`
    | SendCommit(block: Block)                    // broadcast COMMIT, then `_commit_block`
    | CommitBlock(block: Block)                   // `_commit_block`, first locked section
    | Append(block: Block)                        // the file append in a worker thread
    | Advance(block: Block)                       // `_commit_block`, second locked section

  datatype Node = Node(
    id: Id,
    token: string,
    height: Height,
    ledger: seq<Block>,
    quarantined: set<Id>,
    tasks: multiset<Task>)

  datatype Settings = Settings(ids: seq<Id>, crypto: Crypto)

  function Faults(n: nat): nat {
    if n == 0 then 0 else (n - 1) / 3
  }

  function Quorum(n: nat): nat {
    2 * Faults(n) + 1
  }

  function Without(ids: seq<Id>, out: set<Id>): (r: seq<Id>)
    ensures forall x :: x in r <==> x in ids && x !in out
  {
    if ids == [] then []
    else if ids[0] in out then Without(ids[1..], out)
    else [ids[0]] + Without(ids[1..], out)
  }

  /** The rotating leader among the peers that are not quarantined; `ids` is in sorted order. */
  function LeaderFor(s: Settings, n: Node, index: int): Id {
    var live := Without(s.ids, n.quarantined);
    if live == [] then n.id else live[index % |live|]
  }

  /** How many of the first `k` ids are not quarantined. */
  function LiveBefore(s: Settings, n: Node, k: nat): nat
    requires k <= |s.ids|
  {
    if k == 0 then 0 else LiveBefore(s, n, k - 1) + if s.ids[k - 1] in n.quarantined then 0 else 1
  }

  lemma {:induction false} WithoutRank(ids: seq<Id>, out: set<Id>, r: nat) returns (k: nat)
    requires r < |Without(ids, out)|
    ensures k < |ids| && ids[k] == Without(ids, out)[r] && ids[k] !in out && |Without(ids[..k], out)| == r
  {
    if ids[0] in out {
      var j := WithoutRank(ids[1..], out, r);
      k := j + 1;
      assert ids[..k] == [ids[0]] + ids[1..][..j];
    } else if r == 0 {
      k := 0;
    } else {
      var j := WithoutRank(ids[1..], out, r - 1);
      k := j + 1;
      assert ids[..k] == [ids[0]] + ids[1..][..j];
    }
  }

  lemma {:induction false} WithoutCount(s: Settings, n: Node, k: nat)
    requires k <= |s.ids|
    ensures |Without(s.ids[..k], n.quarantined)| == LiveBefore(s, n, k)
  {
    if k > 0 {
      WithoutCount(s, n, k - 1);
      assert s.ids[..k] == s.ids[..k - 1] + [s.ids[k - 1]];
      WithoutConcat(s.ids[..k - 1], [s.ids[k - 1]], n.quarantined);
    }
  }

  lemma {:induction false} WithoutConcat(a: seq<Id>, b: seq<Id>, out: set<Id>)
    ensures Without(a + b, out) == Without(a, out) + Without(b, out)
  {
    if a == [] {
      assert a + b == b;
    } else {
      WithoutConcat(a[1..], b, out);
      assert (a + b)[1..] == a[1..] + b;
    }
  }

  /** The leader rotates: at height `index` it is the peer that comes after `index` modulo their number of the
      peers that are not quarantined, in the order of the ids. */
  lemma LeaderRotates(s: Settings, n: Node, index: nat)
    ensures LiveBefore(s, n, |s.ids|) == 0 ==> LeaderFor(s, n, index) == n.id
    ensures LiveBefore(s, n, |s.ids|) > 0 ==>
      exists k :: 0 <= k < |s.ids| && LeaderFor(s, n, index) == s.ids[k] && s.ids[k] !in n.quarantined
                  && LiveBefore(s, n, k) == index % LiveBefore(s, n, |s.ids|)
  {
    WithoutCount(s, n, |s.ids|);
    assert s.ids[..|s.ids|] == s.ids;
    var live := Without(s.ids, n.quarantined);
    if live != [] {
      var k := WithoutRank(s.ids, n.quarantined, index % |live|);
      WithoutCount(s, n, k);
    }
  }

  function FreshHeight(index: int, prev: string): Height {
    Height(index, prev, None, {}, {}, false)
  }

  /** `_quarantine_connection`: what raising ByzantineNodeException in a read loop leads to. */
  function Quarantine(n: Node, peer: Id): Node {
    n.(quarantined := n.quarantined + {peer})
  }

  function Spawn(n: Node, t: Task): Node {
    n.(tasks := n.tasks + multiset{t})
  }

  function Replace(n: Node, t: Task, u: Task): Node {
    n.(tasks := n.tasks - multiset{t} + multiset{u})
  }

  function Drop(n: Node, t: Task): Node {
    n.(tasks := n.tasks - multiset{t})
  }

  /** `_handle_propose_block` up to the second acquisition of the lock. `rollupOk` is the verdict of
      `verify_rollup_payload` on a rollup payload. */
  function ReceiveProposal(s: Settings, n: Node, peer: Id, b: Block, rollupOk: bool): Node {
    if !WellFormed(b) then Quarantine(n, peer)
    else if peer != LeaderFor(s, n, b.header.index) then
      if b.header.index != n.height.index || b.header.prev != n.height.prev then Quarantine(n, peer) else n
    else if !s.crypto.SelfConsistent(b) || b.header.token != n.token || b.header.index < 0 || !rollupOk then
      Quarantine(n, peer)
    else Spawn(n, Preprepared(peer, b))
  }

  /** `_handle_propose_block` under the lock. */
  function AcceptProposal(n: Node, t: Task): Node
    requires t.Preprepared?
  {
    var b, h := t.block, n.height;
    if b.header.index != h.index || b.header.prev != h.prev then Quarantine(Drop(n, t), t.peer)
    else if h.proposal.Some? && h.proposal.value.hash != b.hash then Quarantine(Drop(n, t), t.peer)
    else
      var p := if h.proposal.None? then Some(b) else h.proposal;
      Replace(n, t, Announce(b, false)).(height := h.(proposal := p, prepares := h.prepares + {n.id}))
  }

  function ReceivePrepare(n: Node, peer: Id, index: int, hash: string): Node {
    var h := n.height;
    if !LooksLikeHash(hash, 64) || index != h.index || h.proposal.None? then n
    else if h.proposal.value.hash != hash then Quarantine(n, peer)
    else Spawn(n, CountPrepares(h.proposal.value)).(height := h.(prepares := h.prepares + {peer}))
  }

  /** The node counts itself although it may not have seen a prepare quorum of its own. */
  function ReceiveCommit(s: Settings, n: Node, peer: Id, index: int, hash: string): Node {
    var h := n.height;
    if !LooksLikeHash(hash, 64) || index != h.index || h.proposal.None? || h.proposal.value.hash != hash then n
    else
      var commits := h.commits + {peer, n.id};
      var n' := n.(height := h.(commits := commits));
      if |commits| >= Quorum(|s.ids|) then Spawn(n', CommitBlock(h.proposal.value)) else n'
  }

  /** `_propose_after_grace`; which candidate is chosen is left open. */
  function Propose(s: Settings, n: Node, payload: Json, ts: string): Node {
    var h := n.height;
    if h.proposal.Some? then n
    else
      var b := s.crypto.Seal(Header(h.index, ts, n.token, h.prev, payload));
      Spawn(n, Announce(b, true)).(height := h.(proposal := Some(b), prepares := h.prepares + {n.id}))
  }

  /** The locked read of `_gossip_progress`. */
  function GossipProgress(s: Settings, n: Node): Node {
    var h := n.height;
    if h.committed || h.proposal.None? then n
    else Spawn(n, Gossip(h.proposal.value, LeaderFor(s, n, h.index) == n.id))
  }

  function MaybeCommit(s: Settings, n: Node, t: Task): Node
    requires t.CountPrepares?
  {
    if t.block.header.index != n.height.index || n.height.committed then Drop(n, t)
    else if |n.height.prepares| >= Quorum(|s.ids|) then Replace(n, t, SendCommit(t.block))
    else Drop(n, t)
  }

  /** The guard that makes `_commit_block` raise "Commit continuity mismatch". */
  predicate ContinuityMismatch(n: Node, b: Block) {
    !n.height.committed && b.header.index == n.height.index && b.header.prev != n.height.prev
  }

  function StartCommit(n: Node, t: Task): Node
    requires t.CommitBlock?
  {
    if n.height.committed || t.block.header.index != n.height.index || ContinuityMismatch(n, t.block) then Drop(n, t)
    else Replace(n, t, Append(t.block)).(height := n.height.(committed := true))
  }

  function AppendBlock(n: Node, t: Task): Node
    requires t.Append?
  {
    Replace(n, t, Advance(t.block)).(ledger := n.ledger + [t.block])
  }

  function AdvanceHeight(n: Node, t: Task): Node
    requires t.Advance?
  {
    Drop(n, t).(height := FreshHeight(n.height.index + 1, t.block.hash))
  }

  /** Resume one suspended coroutine. */
  function RunTask(s: Settings, n: Node, t: Task): Node {
    match t
    case Preprepared(_, _) => AcceptProposal(n, t)
    case Announce(b, _) => Replace(n, t, CountPrepares(b))
    case Gossip(_, _) => Drop(n, t)
    case CountPrepares(_) => MaybeCommit(s, n, t)
    case SendCommit(b) => Replace(n, t, CommitBlock(b))
    case CommitBlock(_) => StartCommit(n, t)
    case Append(_) => AppendBlock(n, t)
    case Advance(_) => AdvanceHeight(n, t)
  }

  /** What resuming that coroutine broadcasts. */
  function Outbox(t: Task): set<Message> {
    match t
    case Announce(b, leading) => Votes(b, leading)
    case Gossip(b, leading) => Votes(b, leading)
    case SendCommit(b) => {Commit(b.header.index, b.hash)}
    case _ => {}
  }

  function Votes(b: Block, leading: bool): set<Message> {
    {Prepare(b.header.index, b.hash)} + if leading then {ProposeBlock(b)} else {}
  }

  // ---------------------------------------------------------------- invariants of one node

  /** The node has bound itself to `hash` at height `k`. */
  predicate Voted(n: Node, k: int, hash: string) {
    || (0 <= k < |n.ledger| && n.ledger[k].hash == hash)
    || (k == n.height.index && n.height.proposal.Some? && n.height.proposal.value.hash == hash)
  }

  predicate Finishing(t: Task) {
    t.Append? || t.Advance?
  }

  predicate TaskOk(s: Settings, n: Node, t: Task) {
    && s.crypto.SelfConsistent(t.block)
    && (!t.Preprepared? ==>
      && Voted(n, t.block.header.index, t.block.hash)
      && (t.block.header.index == n.height.index ==> t.block.header.prev == n.height.prev))
    && (Finishing(t) ==> n.height.committed && t.block.header.index == n.height.index)
    && (t.Append? ==> |n.ledger| == n.height.index)
    && (t.Advance? ==> 0 <= n.height.index == |n.ledger| - 1 && n.ledger[n.height.index] == t.block)
  }

  /** The head of the node against its ledger: they agree except between append and advance. */
  predicate HeadOk(n: Node) {
    var h := n.height;
    && 0 <= h.index <= |n.ledger| <= h.index + 1
    && h.prev == Tail(n.ledger[..h.index])
    && (|n.ledger| == h.index + 1 ==>
      h.committed && h.proposal.Some? && h.proposal.value.hash == n.ledger[h.index].hash)
  }

  predicate ProposalOk(s: Settings, n: Node) {
    var h := n.height;
    match h.proposal
    case None => h.prepares == {} && h.commits == {} && !h.committed
    case Some(b) => s.crypto.SelfConsistent(b) && b.header.index == h.index && b.header.prev == h.prev
  }

  ghost predicate TasksOk(s: Settings, n: Node) {
    && (forall t :: t in n.tasks ==> TaskOk(s, n, t))
    && (forall t :: t in n.tasks && Finishing(t) ==> n.tasks[t] == 1)
    && (forall t, u :: t in n.tasks && u in n.tasks && Finishing(t) && Finishing(u) ==> t == u)
  }

  ghost predicate NodeInv(s: Settings, n: Node) {
    s.crypto.IsChain(n.ledger) && HeadOk(n) && ProposalOk(s, n) && TasksOk(s, n)
  }

  /** A node never takes a vote back. */
  ghost predicate KeepsVotes(n: Node, n': Node) {
    && n'.id == n.id
    && n.ledger <= n'.ledger
    && forall k, hash :: Voted(n, k, hash) ==> Voted(n', k, hash)
  }

  /** Votes are unique: a node binds itself to one hash per height. */
  lemma VoteUnique(s: Settings, n: Node, k: int, a: string, b: string)
    requires NodeInv(s, n) && Voted(n, k, a) && Voted(n, k, b)
    ensures a == b
  {
  }

  /** Outside a commit in progress the height is the ledger length and `prev` the last hash. */
  lemma IdleHead(s: Settings, n: Node)
    requires NodeInv(s, n) && !n.height.committed
    ensures n.height.index == |n.ledger| && n.height.prev == Tail(n.ledger)
  {
    assert n.ledger[..n.height.index] == n.ledger;
  }

  /** Past the proposal check a coroutine works for a block its node has voted for. */
  lemma VotedTask(s: Settings, n: Node, t: Task)
    requires TasksOk(s, n) && t in n.tasks && !t.Preprepared?
    ensures Voted(n, t.block.header.index, t.block.hash)
  {
    assert TaskOk(s, n, t);
  }

  /** The "Commit continuity mismatch" raise is dead code. */
  lemma ContinuityHolds(s: Settings, n: Node, t: Task)
    requires NodeInv(s, n) && t in n.tasks && t.CommitBlock?
    ensures !ContinuityMismatch(n, t.block)
  {
    assert TaskOk(s, n, t);
  }

  lemma SpawnKeeps(s: Settings, n: Node, t: Task)
    requires NodeInv(s, n) && TaskOk(s, n, t) && !Finishing(t)
    ensures NodeInv(s, Spawn(n, t)) && KeepsVotes(n, Spawn(n, t))
  {
    var n' := Spawn(n, t);
    forall u | u in n'.tasks ensures TaskOk(s, n', u) && (Finishing(u) ==> n'.tasks[u] == n.tasks[u]) {
      assert u in n.tasks || u == t;
      assert TaskOk(s, n, u);
    }
  }

  lemma DropKeeps(s: Settings, n: Node, t: Task)
    requires NodeInv(s, n) && t in n.tasks
    ensures NodeInv(s, Drop(n, t)) && KeepsVotes(n, Drop(n, t))
    ensures Finishing(t) ==> forall u :: u in Drop(n, t).tasks ==> !Finishing(u)
  {
    var n' := Drop(n, t);
    forall u | u in n'.tasks ensures u in n.tasks && TaskOk(s, n', u) && (Finishing(u) ==> n'.tasks[u] == 1 && u != t) {
      assert u in n.tasks && TaskOk(s, n, u);
      assert 1 <= n'.tasks[u] <= n.tasks[u];
    }
  }

  /** A coroutine that only moves on to its next suspension point. */
  lemma ReplaceKeeps(s: Settings, n: Node, t: Task, u: Task)
    requires NodeInv(s, n) && t in n.tasks && !t.Preprepared? && !u.Preprepared? && !Finishing(u) && u.block == t.block
    ensures NodeInv(s, Replace(n, t, u)) && KeepsVotes(n, Replace(n, t, u))
  {
    assert TaskOk(s, n, t);
    DropKeeps(s, n, t);
    SpawnKeeps(s, Drop(n, t), u);
  }

  /** Updating only the vote sets, or filling an empty proposal slot, keeps every task valid. */
  lemma HeightKeeps(s: Settings, n: Node, h: Height)
    requires NodeInv(s, n)
    requires h.index == n.height.index && h.prev == n.height.prev && h.committed == n.height.committed
    requires n.height.proposal.Some? ==> h.proposal == n.height.proposal
    requires h.proposal.Some? && s.crypto.SelfConsistent(h.proposal.value)
    requires h.proposal.value.header.index == h.index && h.proposal.value.header.prev == h.prev
    ensures NodeInv(s, n.(height := h)) && KeepsVotes(n, n.(height := h))
  {
    var n' := n.(height := h);
    forall u | u in n'.tasks ensures TaskOk(s, n', u) {
      assert TaskOk(s, n, u);
    }
  }

  lemma QuarantineKeeps(s: Settings, n: Node, out: set<Id>)
    requires NodeInv(s, n)
    ensures NodeInv(s, n.(quarantined := out)) && KeepsVotes(n, n.(quarantined := out))
  {
    var n' := n.(quarantined := out);
    forall u | u in n'.tasks ensures TaskOk(s, n', u) {
      assert TaskOk(s, n, u);
    }
  }

  lemma AcceptProposalKeeps(s: Settings, n: Node, t: Task)
    requires NodeInv(s, n) && t in n.tasks && t.Preprepared?
    ensures NodeInv(s, AcceptProposal(n, t)) && KeepsVotes(n, AcceptProposal(n, t))
  {
    var b, h := t.block, n.height;
    assert TaskOk(s, n, t);
    DropKeeps(s, n, t);
    var m := Drop(n, t);
    if b.header.index != h.index || b.header.prev != h.prev || (h.proposal.Some? && h.proposal.value.hash != b.hash) {
      QuarantineKeeps(s, m, m.quarantined + {t.peer});
    } else {
      var p := if h.proposal.None? then Some(b) else h.proposal;
      var h' := h.(proposal := p, prepares := h.prepares + {n.id});
      BindKeeps(s, m, h', b, false);
      assert AcceptProposal(n, t) == Spawn(m.(height := h'), Announce(b, false));
    }
  }

  /** Bind to a proposal and schedule its announcement. */
  lemma BindKeeps(s: Settings, n: Node, h: Height, b: Block, leading: bool)
    requires NodeInv(s, n)
    requires h == n.height.(proposal := h.proposal, prepares := h.prepares)
    requires h.proposal.Some? && h.proposal.value.hash == b.hash
    requires if n.height.proposal.Some? then h.proposal == n.height.proposal else h.proposal == Some(b)
    requires s.crypto.SelfConsistent(b) && b.header.index == h.index && b.header.prev == h.prev
    ensures NodeInv(s, Spawn(n.(height := h), Announce(b, leading)))
    ensures KeepsVotes(n, Spawn(n.(height := h), Announce(b, leading)))
  {
    HeightKeeps(s, n, h);
    SpawnKeeps(s, n.(height := h), Announce(b, leading));
  }

  lemma ProposeKeeps(s: Settings, n: Node, payload: Json, ts: string)
    requires NodeInv(s, n)
    ensures NodeInv(s, Propose(s, n, payload, ts)) && KeepsVotes(n, Propose(s, n, payload, ts))
  {
    var h := n.height;
    if h.proposal.None? {
      var b := s.crypto.Seal(Header(h.index, ts, n.token, h.prev, payload));
      var h' := h.(proposal := Some(b), prepares := h.prepares + {n.id});
      BindKeeps(s, n, h', b, true);
    }
  }

  lemma MaybeCommitKeeps(s: Settings, n: Node, t: Task)
    requires NodeInv(s, n) && t in n.tasks && t.CountPrepares?
    ensures NodeInv(s, MaybeCommit(s, n, t)) && KeepsVotes(n, MaybeCommit(s, n, t))
  {
    if MaybeCommit(s, n, t) == Drop(n, t) {
      DropKeeps(s, n, t);
    } else {
      ReplaceKeeps(s, n, t, SendCommit(t.block));
    }
  }

  lemma StartCommitKeeps(s: Settings, n: Node, t: Task)
    requires NodeInv(s, n) && t in n.tasks && t.CommitBlock?
    ensures NodeInv(s, StartCommit(n, t)) && KeepsVotes(n, StartCommit(n, t))
  {
    DropKeeps(s, n, t);
    assert TaskOk(s, n, t);
    if !n.height.committed && t.block.header.index == n.height.index {
      CommitPoint(s, Drop(n, t), t.block);
      assert StartCommit(n, t) == Committing(Drop(n, t), t.block);
    }
  }

  function Committing(n: Node, b: Block): Node {
    Spawn(n, Append(b)).(height := n.height.(committed := true))
  }

  /** Passing the commit point: from here on exactly one coroutine is finishing. */
  lemma CommitPoint(s: Settings, n: Node, b: Block)
    requires NodeInv(s, n) && TaskOk(s, n, CommitBlock(b))
    requires !n.height.committed && b.header.index == n.height.index
    ensures NodeInv(s, Committing(n, b)) && KeepsVotes(n, Committing(n, b))
  {
    var n' := Committing(n, b);
    assert Append(b) !in n.tasks by {
      assert Append(b) in n.tasks ==> TaskOk(s, n, Append(b));
    }
    forall u | u in n'.tasks
      ensures TaskOk(s, n', u) && (Finishing(u) ==> u == Append(b) && n'.tasks[u] == 1)
    {
      if u != Append(b) {
        assert u in n.tasks && TaskOk(s, n, u);
      }
    }
  }

  lemma AppendKeeps(s: Settings, n: Node, t: Task)
    requires NodeInv(s, n) && t in n.tasks && t.Append?
    ensures NodeInv(s, AppendBlock(n, t)) && KeepsVotes(n, AppendBlock(n, t))
  {
    var b, n' := t.block, AppendBlock(n, t);
    assert TaskOk(s, n, t);
    assert n.ledger[..|n.ledger|] == n.ledger && n'.ledger[..|n.ledger|] == n.ledger;
    s.crypto.ExtendChain(n.ledger, b);
    AppendVotes(s, n, t);
    forall u | u in n'.tasks
      ensures TaskOk(s, n', u) && (Finishing(u) ==> u == Advance(b) && n'.tasks[u] == 1)
    {
      AppendTask(s, n, t, u);
    }
  }

  lemma AppendVotes(s: Settings, n: Node, t: Task)
    requires NodeInv(s, n) && t in n.tasks && t.Append?
    ensures KeepsVotes(n, AppendBlock(n, t))
  {
  }

  lemma AppendTask(s: Settings, n: Node, t: Task, u: Task)
    requires NodeInv(s, n) && t in n.tasks && t.Append? && u in AppendBlock(n, t).tasks
    ensures TaskOk(s, AppendBlock(n, t), u)
    ensures Finishing(u) ==> u == Advance(t.block) && AppendBlock(n, t).tasks[u] == 1
  {
    assert TaskOk(s, n, t);
    OnlyAppend(s, n, t, u);
    if u != Advance(t.block) {
      AppendVotes(s, n, t);
      assert TaskOk(s, n, u);
    }
  }

  lemma Exchanged<T>(m: multiset<T>, t: T, u: T, v: T)
    requires t in m && m[t] == 1 && u !in m && v in m - multiset{t} + multiset{u}
    ensures v == u ==> (m - multiset{t} + multiset{u})[v] == 1
    ensures v != u ==> v in m && v != t
  {
  }

  /** While the append is pending no other coroutine is past the commit point. */
  lemma OnlyAppend(s: Settings, n: Node, t: Task, u: Task)
    requires TasksOk(s, n) && t in n.tasks && t.Append? && u in AppendBlock(n, t).tasks
    ensures u == Advance(t.block) ==> AppendBlock(n, t).tasks[u] == 1
    ensures u != Advance(t.block) ==> u in n.tasks && !Finishing(u)
  {
    var a := Advance(t.block);
    assert Finishing(t) && Finishing(a);
    assert a !in n.tasks;
    Exchanged(n.tasks, t, a, u);
  }

  /** The node stands behind its whole ledger and has heard of nothing for the next height. */
  predicate AtNextHeight(n: Node) {
    var h := n.height;
    && h.index == |n.ledger| && h.prev == Tail(n.ledger)
    && h.proposal == None && h.prepares == {} && h.commits == {} && !h.committed
  }

  lemma Advances(s: Settings, n: Node, t: Task)
    requires NodeInv(s, n) && t in n.tasks && t.Advance?
    ensures AtNextHeight(AdvanceHeight(n, t)) && AdvanceHeight(n, t).ledger == n.ledger
  {
    assert TaskOk(s, n, t);
  }

  lemma AdvanceKeeps(s: Settings, n: Node, t: Task)
    requires NodeInv(s, n) && t in n.tasks && t.Advance?
    ensures NodeInv(s, AdvanceHeight(n, t)) && KeepsVotes(n, AdvanceHeight(n, t))
  {
    var n' := AdvanceHeight(n, t);
    assert TaskOk(s, n, t);
    assert n.ledger[..|n.ledger|] == n.ledger;
    forall u | u in n'.tasks ensures TaskOk(s, n', u) && !Finishing(u) {
      assert u in n.tasks && TaskOk(s, n, u);
      assert u == t ==> n.tasks[t] > 1;
    }
  }

  /** Resuming any coroutine keeps the node invariant and every earlier vote. */
  lemma RunTaskKeeps(s: Settings, n: Node, t: Task)
    requires NodeInv(s, n) && t in n.tasks
    ensures NodeInv(s, RunTask(s, n, t)) && KeepsVotes(n, RunTask(s, n, t))
  {
    match t
    case Preprepared(_, _) => AcceptProposalKeeps(s, n, t);
    case Announce(b, _) => ReplaceKeeps(s, n, t, CountPrepares(b));
    case Gossip(_, _) => DropKeeps(s, n, t);
    case CountPrepares(_) => MaybeCommitKeeps(s, n, t);
    case SendCommit(b) => ReplaceKeeps(s, n, t, CommitBlock(b));
    case CommitBlock(_) => StartCommitKeeps(s, n, t);
    case Append(_) => AppendKeeps(s, n, t);
    case Advance(_) => AdvanceKeeps(s, n, t);
  }

  lemma ReceiveProposalKeeps(s: Settings, n: Node, peer: Id, b: Block, rollupOk: bool)
    requires NodeInv(s, n)
    ensures NodeInv(s, ReceiveProposal(s, n, peer, b, rollupOk))
    ensures KeepsVotes(n, ReceiveProposal(s, n, peer, b, rollupOk))
  {
    QuarantineKeeps(s, n, n.quarantined + {peer});
    if s.crypto.SelfConsistent(b) {
      SpawnKeeps(s, n, Preprepared(peer, b));
    }
  }

  lemma ReceivePrepareKeeps(s: Settings, n: Node, peer: Id, index: int, hash: string)
    requires NodeInv(s, n)
    ensures NodeInv(s, ReceivePrepare(n, peer, index, hash)) && KeepsVotes(n, ReceivePrepare(n, peer, index, hash))
  {
    var h := n.height;
    if ReceivePrepare(n, peer, index, hash) == Quarantine(n, peer) {
      QuarantineKeeps(s, n, n.quarantined + {peer});
    } else if h.proposal.Some? {
      var h' := h.(prepares := h.prepares + {peer});
      HeightKeeps(s, n, h');
      SpawnKeeps(s, n.(height := h'), CountPrepares(h.proposal.value));
    }
  }

  lemma ReceiveCommitKeeps(s: Settings, n: Node, peer: Id, index: int, hash: string)
    requires NodeInv(s, n)
    ensures NodeInv(s, ReceiveCommit(s, n, peer, index, hash))
    ensures KeepsVotes(n, ReceiveCommit(s, n, peer, index, hash))
  {
    var h := n.height;
    if h.proposal.Some? {
      var h' := h.(commits := h.commits + {peer, n.id});
      HeightKeeps(s, n, h');
      SpawnKeeps(s, n.(height := h'), CommitBlock(h.proposal.value));
    }
  }

  lemma GossipKeeps(s: Settings, n: Node)
    requires NodeInv(s, n)
    ensures NodeInv(s, GossipProgress(s, n)) && KeepsVotes(n, GossipProgress(s, n))
  {
    if n.height.proposal.Some? {
      SpawnKeeps(s, n, Gossip(n.height.proposal.value, LeaderFor(s, n, n.height.index) == n.id));
    }
  }
}
