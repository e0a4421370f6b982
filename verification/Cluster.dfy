/** All peers of core/consensus_node.py together: honest nodes run ConsensusNode, Byzantine ones
    send anything under their own id, and the network may lose, repeat and reorder. */
module Cluster {
  import opened Common
  import opened Ledger
  import opened ConsensusNode

  datatype Config = Config(settings: Settings, byzantine: set<Id>, base: seq<Block>)

  datatype Envelope = Envelope(from: Id, msg: Message)

  datatype Cluster = Cluster(nodes: map<Id, Node>, sent: set<Envelope>)

  datatype Input =
    | Receive(from: Id, msg: Message, rollupOk: bool)
    | Resume(task: Task)
    | Start(payload: Json, ts: string)
    | Tick
    | SetQuarantine(out: set<Id>)

  datatype Event = Event(at: Id, input: Input)

  function Members(c: Config): set<Id> {
    set x | x in c.settings.ids
  }

  function Honest(c: Config): set<Id> {
    Members(c) - c.byzantine
  }

  /** Distinct ids, Byzantine nodes among them, and a hash chain to start from. */
  ghost predicate Sound(c: Config) {
    && (forall i, j :: 0 <= i < j < |c.settings.ids| ==> c.settings.ids[i] != c.settings.ids[j])
    && c.byzantine <= Members(c)
    && c.settings.crypto.IsChain(c.base)
  }

  /** Two quorums share more nodes than are Byzantine. The module docstring's "2f+1 of 3f+1" with at
      most f Byzantine nodes is the case that `DocumentedClusters` describes. */
  ghost predicate ValidConfig(c: Config) {
    Sound(c) && |c.byzantine| < 2 * Quorum(|c.settings.ids|) - |c.settings.ids|
  }

  lemma DocumentedClusters(c: Config)
    requires Sound(c) && |c.settings.ids| % 3 == 1 && |c.byzantine| <= Faults(|c.settings.ids|)
    ensures ValidConfig(c)
  {
  }

  /** Every honest node hydrated the same ledger and nothing has been sent. */
  ghost predicate Initial(c: Config, g: Cluster) {
    && g.nodes.Keys == Honest(c) && g.sent == {}
    && forall i :: i in g.nodes ==>
      && g.nodes[i].id == i && g.nodes[i].ledger == c.base && g.nodes[i].tasks == multiset{}
      && g.nodes[i].height == FreshHeight(|c.base|, Tail(c.base))
  }

  function NodeStep(s: Settings, n: Node, input: Input): Node {
    match input
    case Receive(from, ProposeBlock(b), ok) => ReceiveProposal(s, n, from, b, ok)
    case Receive(from, Prepare(k, h), _) => ReceivePrepare(n, from, k, h)
    case Receive(from, Commit(k, h), _) => ReceiveCommit(s, n, from, k, h)
    case Resume(t) => RunTask(s, n, t)
    case Start(payload, ts) => Propose(s, n, payload, ts)
    case Tick => GossipProgress(s, n)
    case SetQuarantine(out) => n.(quarantined := out)
  }

  predicate Enabled(c: Config, g: Cluster, e: Event) {
    && e.at in g.nodes
    && match e.input
       case Receive(from, msg, _) =>
         from in Members(c) && from != e.at && (from in c.byzantine || Envelope(from, msg) in g.sent)
       case Resume(t) => t in g.nodes[e.at].tasks
       case _ => true
  }

  /** One event; an event that is not enabled changes nothing. */
  function Apply(c: Config, g: Cluster, e: Event): Cluster {
    if !Enabled(c, g, e) then g
    else
      var out := if e.input.Resume? then Outbox(e.input.task) else {};
      Cluster(
        g.nodes[e.at := NodeStep(c.settings, g.nodes[e.at], e.input)],
        g.sent + set m | m in out :: Envelope(e.at, m))
  }

  function Execute(c: Config, g: Cluster, events: seq<Event>): Cluster {
    if events == [] then g else Apply(c, Execute(c, g, events[..|events| - 1]), events[|events| - 1])
  }

  // ---------------------------------------------------------------- quorums

  lemma {:induction false} SubsetSize<T>(a: set<T>, b: set<T>)
    requires a <= b
    ensures |a| <= |b|
  {
    if a != {} {
      var x :| x in a;
      SubsetSize(a - {x}, b - {x});
    }
  }

  lemma {:induction false} DistinctSize(ids: seq<Id>)
    requires forall i, j :: 0 <= i < j < |ids| ==> ids[i] != ids[j]
    ensures |set x | x in ids| == |ids|
  {
    if ids != [] {
      var n := |ids| - 1;
      DistinctSize(ids[..n]);
      assert (set x | x in ids) == (set x | x in ids[..n]) + {ids[n]};
    }
  }

  /** Two quorums of a valid cluster share an honest node. */
  lemma QuorumsIntersect(c: Config, p: set<Id>, q: set<Id>) returns (x: Id)
    requires ValidConfig(c)
    requires p <= Members(c) && q <= Members(c)
    requires |p| >= Quorum(|c.settings.ids|) && |q| >= Quorum(|c.settings.ids|)
    ensures x in p && x in q && x in Honest(c)
  {
    DistinctSize(c.settings.ids);
    SubsetSize(p + q, Members(c));
    if p * q <= c.byzantine {
      SubsetSize(p * q, c.byzantine);
    }
    x :| x in p * q && x !in c.byzantine;
  }

  // ---------------------------------------------------------------- invariants of a cluster

  /** Every honest member of `q` has voted for `hash` at height `k`. */
  ghost predicate Backs(c: Config, g: Cluster, q: set<Id>, k: int, hash: string) {
    && q <= Members(c) && |q| >= Quorum(|c.settings.ids|)
    && forall p :: p in q && p in Honest(c) ==> p in g.nodes && Voted(g.nodes[p], k, hash)
  }

  ghost predicate Certified(c: Config, g: Cluster, k: int, hash: string) {
    exists q :: Backs(c, g, q, k, hash)
  }

  predicate Decided(t: Task) {
    t.SendCommit? || t.CommitBlock? || t.Append? || t.Advance?
  }

  ghost predicate VotesOk(c: Config, g: Cluster, n: Node) {
    var h := n.height;
    && h.prepares <= Members(c) && h.commits <= Members(c)
    && (h.proposal.Some? ==>
      && (forall p :: p in h.prepares && p in Honest(c) ==>
        p in g.nodes && Voted(g.nodes[p], h.index, h.proposal.value.hash))
      && (forall p :: p in h.commits && p != n.id && p in Honest(c) ==>
        Certified(c, g, h.index, h.proposal.value.hash)))
  }

  ghost predicate DecisionsOk(c: Config, g: Cluster, n: Node) {
    && c.base <= n.ledger
    && (forall t :: t in n.tasks && Decided(t) ==> Certified(c, g, t.block.header.index, t.block.hash))
    && (forall k :: |c.base| <= k < |n.ledger| ==> Certified(c, g, k, n.ledger[k].hash))
  }

  ghost predicate SentOk(c: Config, g: Cluster, e: Envelope) {
    match e.msg
    case ProposeBlock(_) => true
    case Prepare(k, h) => e.from in g.nodes && Voted(g.nodes[e.from], k, h)
    case Commit(k, h) => Certified(c, g, k, h)
  }

  ghost predicate Inv(c: Config, g: Cluster) {
    && g.nodes.Keys == Honest(c)
    && (forall i :: i in g.nodes ==> g.nodes[i].id == i && NodeInv(c.settings, g.nodes[i]))
    && (forall i :: i in g.nodes ==> VotesOk(c, g, g.nodes[i]) && DecisionsOk(c, g, g.nodes[i]))
    && (forall e :: e in g.sent ==> SentOk(c, g, e))
  }

  /** `g'` differs from `g` by nodes that kept all their votes. */
  ghost predicate Grows(g: Cluster, g': Cluster) {
    g'.nodes.Keys == g.nodes.Keys && forall i :: i in g.nodes ==> KeepsVotes(g.nodes[i], g'.nodes[i])
  }

  lemma CertifiedGrows(c: Config, g: Cluster, g': Cluster, k: int, hash: string)
    requires Grows(g, g') && Certified(c, g, k, hash)
    ensures Certified(c, g', k, hash)
  {
    var q :| Backs(c, g, q, k, hash);
    assert Backs(c, g', q, k, hash);
  }

  lemma DeliverKeeps(s: Settings, n: Node, input: Input)
    requires NodeInv(s, n) && input.Receive?
    ensures NodeInv(s, NodeStep(s, n, input)) && KeepsVotes(n, NodeStep(s, n, input))
  {
    match input
    case Receive(from, ProposeBlock(b), ok) => ReceiveProposalKeeps(s, n, from, b, ok);
    case Receive(from, Prepare(k, h), _) => ReceivePrepareKeeps(s, n, from, k, h);
    case Receive(from, Commit(k, h), _) => ReceiveCommitKeeps(s, n, from, k, h);
  }

  lemma NodeStepKeeps(s: Settings, n: Node, input: Input)
    requires NodeInv(s, n) && (input.Resume? ==> input.task in n.tasks)
    ensures NodeInv(s, NodeStep(s, n, input)) && KeepsVotes(n, NodeStep(s, n, input))
  {
    match input
    case Receive(_, _, _) => DeliverKeeps(s, n, input);
    case Resume(t) => RunTaskKeeps(s, n, t);
    case Start(payload, ts) => ProposeKeeps(s, n, payload, ts);
    case Tick => GossipKeeps(s, n);
    case SetQuarantine(out) => QuarantineKeeps(s, n, out);
  }

  lemma ApplyNode(c: Config, g: Cluster, e: Event, i: Id)
    requires i in g.nodes && NodeInv(c.settings, g.nodes[i])
    ensures NodeInv(c.settings, Apply(c, g, e).nodes[i]) && KeepsVotes(g.nodes[i], Apply(c, g, e).nodes[i])
  {
    if Enabled(c, g, e) && i == e.at {
      NodeStepKeeps(c.settings, g.nodes[i], e.input);
    }
  }

  lemma ApplyGrows(c: Config, g: Cluster, e: Event)
    requires Inv(c, g)
    ensures Grows(g, Apply(c, g, e))
    ensures forall i :: i in Apply(c, g, e).nodes ==> NodeInv(c.settings, Apply(c, g, e).nodes[i])
  {
    forall i | i in g.nodes
      ensures NodeInv(c.settings, Apply(c, g, e).nodes[i]) && KeepsVotes(g.nodes[i], Apply(c, g, e).nodes[i])
    {
      ApplyNode(c, g, e, i);
    }
  }

  /** Facts about a node survive every growth of the cluster around it. */
  lemma NodeFactsGrow(c: Config, g: Cluster, g': Cluster, n: Node)
    requires Grows(g, g') && VotesOk(c, g, n) && DecisionsOk(c, g, n)
    ensures VotesOk(c, g', n) && DecisionsOk(c, g', n)
  {
    forall k, hash | Certified(c, g, k, hash) ensures Certified(c, g', k, hash) {
      CertifiedGrows(c, g, g', k, hash);
    }
  }

  /** A prepare quorum is a certificate. */
  lemma PreparesCertify(c: Config, g: Cluster, n: Node, t: Task)
    requires NodeInv(c.settings, n) && VotesOk(c, g, n)
    requires t in n.tasks && t.CountPrepares? && t.block.header.index == n.height.index
    requires |n.height.prepares| >= Quorum(|c.settings.ids|)
    ensures Certified(c, g, t.block.header.index, t.block.hash)
  {
    assert TaskOk(c.settings, n, t);
    assert n.height.proposal.Some?;
    VoteUnique(c.settings, n, n.height.index, t.block.hash, n.height.proposal.value.hash);
    assert Backs(c, g, n.height.prepares, t.block.header.index, t.block.hash);
  }

  /** A commit quorum that counts the node itself still holds an honest sender of COMMIT. */
  lemma CommitsCertify(c: Config, g: Cluster, n: Node)
    requires ValidConfig(c) && VotesOk(c, g, n) && n.height.proposal.Some?
    requires exists p :: p in n.height.commits && p != n.id
    requires |n.height.commits| >= Quorum(|c.settings.ids|)
    ensures Certified(c, g, n.height.index, n.height.proposal.value.hash)
  {
    var others := n.height.commits - {n.id};
    var p :| p in n.height.commits && p != n.id;
    assert p in others;
    if others <= c.byzantine {
      SubsetSize(others, c.byzantine);
    }
    var x :| x in others && x !in c.byzantine;
    assert x in Honest(c);
  }

  lemma StepPrepare(c: Config, g: Cluster, n: Node, from: Id, k: int, hash: string)
    requires VotesOk(c, g, n) && DecisionsOk(c, g, n) && from in Members(c)
    requires from in Honest(c) ==> SentOk(c, g, Envelope(from, Prepare(k, hash)))
    ensures VotesOk(c, g, ReceivePrepare(n, from, k, hash)) && DecisionsOk(c, g, ReceivePrepare(n, from, k, hash))
  {
  }

  lemma StepCommit(c: Config, g: Cluster, n: Node, from: Id, k: int, hash: string)
    requires ValidConfig(c) && VotesOk(c, g, n) && DecisionsOk(c, g, n)
    requires from in Members(c) && n.id in Members(c) && from != n.id && ProposalOk(c.settings, n)
    requires from in Honest(c) ==> SentOk(c, g, Envelope(from, Commit(k, hash)))
    ensures VotesOk(c, g, ReceiveCommit(c.settings, n, from, k, hash))
    ensures DecisionsOk(c, g, ReceiveCommit(c.settings, n, from, k, hash))
  {
    var n', h := ReceiveCommit(c.settings, n, from, k, hash), n.height;
    if n' != n {
      var m := n.(height := h.(commits := h.commits + {from, n.id}));
      assert VotesOk(c, g, m);
      if n' != m {
        assert from in m.height.commits;
        CommitsCertify(c, g, m);
      }
    }
  }

  /** Facts about the voting node itself, once its new state is part of `g`. */
  lemma StepBind(c: Config, g: Cluster, n: Node, n': Node)
    requires VotesOk(c, g, n) && DecisionsOk(c, g, n) && ProposalOk(c.settings, n)
    requires n.id in Honest(c) && n.id in g.nodes && g.nodes[n.id] == n' && n'.id == n.id
    requires n'.height == n.height.(proposal := n'.height.proposal, prepares := n.height.prepares + {n.id})
    requires n'.height.proposal.Some? && (n.height.proposal.Some? ==> n'.height.proposal == n.height.proposal)
    requires n'.ledger == n.ledger && forall t :: t in n'.tasks && Decided(t) ==> t in n.tasks
    ensures VotesOk(c, g, n') && DecisionsOk(c, g, n')
  {
    assert Voted(n', n'.height.index, n'.height.proposal.value.hash);
  }

  /** Moving on to a later suspension point with the same block, with nothing else changed. */
  lemma StepMove(c: Config, g: Cluster, n: Node, t: Task, u: Task)
    requires VotesOk(c, g, n) && DecisionsOk(c, g, n)
    requires Decided(u) ==> Certified(c, g, u.block.header.index, u.block.hash)
    ensures VotesOk(c, g, Replace(n, t, u)) && DecisionsOk(c, g, Replace(n, t, u))
    ensures VotesOk(c, g, Drop(n, t)) && DecisionsOk(c, g, Drop(n, t))
    ensures VotesOk(c, g, Spawn(n, u)) && DecisionsOk(c, g, Spawn(n, u))
  {
    forall v | v in n.tasks + multiset{u} && Decided(v) ensures Certified(c, g, v.block.header.index, v.block.hash) {
      assert v in n.tasks || v == u;
    }
    assert forall v :: v in Drop(n, t).tasks ==> v in n.tasks;
    assert forall v :: v in Replace(n, t, u).tasks ==> v in n.tasks + multiset{u};
  }

  lemma StepStartCommit(c: Config, g: Cluster, n: Node, t: Task)
    requires VotesOk(c, g, n) && DecisionsOk(c, g, n) && t in n.tasks && t.CommitBlock?
    ensures VotesOk(c, g, StartCommit(n, t)) && DecisionsOk(c, g, StartCommit(n, t))
  {
    assert Decided(t);
    StepMove(c, g, n, t, Append(t.block));
  }

  lemma StepAdvance(c: Config, g: Cluster, n: Node, t: Task)
    requires VotesOk(c, g, n) && DecisionsOk(c, g, n) && t in n.tasks && t.Advance?
    ensures VotesOk(c, g, AdvanceHeight(n, t)) && DecisionsOk(c, g, AdvanceHeight(n, t))
  {
    StepMove(c, g, n, t, t);
  }

  lemma StepAccept(c: Config, g: Cluster, n: Node, t: Task)
    requires VotesOk(c, g, n) && DecisionsOk(c, g, n) && ProposalOk(c.settings, n) && t in n.tasks && t.Preprepared?
    requires n.id in Honest(c) && n.id in g.nodes && g.nodes[n.id] == AcceptProposal(n, t)
    ensures VotesOk(c, g, AcceptProposal(n, t)) && DecisionsOk(c, g, AcceptProposal(n, t))
  {
    var n', b, h := AcceptProposal(n, t), t.block, n.height;
    StepMove(c, g, n, t, Announce(b, false));
    if b.header.index == h.index && b.header.prev == h.prev && (h.proposal.Some? ==> h.proposal.value.hash == b.hash) {
      assert forall u :: u in n'.tasks && Decided(u) ==> u in n.tasks;
      StepBind(c, g, n, n');
    }
  }

  lemma AppendIndex(s: Settings, n: Node, t: Task)
    requires TasksOk(s, n) && t in n.tasks && t.Append?
    ensures t.block.header.index == |n.ledger|
  {
    assert TaskOk(s, n, t);
  }

  lemma ExtendLedger(c: Config, g: Cluster, n: Node, b: Block)
    requires VotesOk(c, g, n) && DecisionsOk(c, g, n) && Certified(c, g, |n.ledger|, b.hash)
    ensures VotesOk(c, g, n.(ledger := n.ledger + [b])) && DecisionsOk(c, g, n.(ledger := n.ledger + [b]))
  {
  }

  lemma StepAppend(c: Config, g: Cluster, n: Node, t: Task)
    requires TasksOk(c.settings, n) && VotesOk(c, g, n) && DecisionsOk(c, g, n) && t in n.tasks && t.Append?
    ensures VotesOk(c, g, AppendBlock(n, t)) && DecisionsOk(c, g, AppendBlock(n, t))
  {
    assert Decided(t);
    AppendIndex(c.settings, n, t);
    StepMove(c, g, n, t, Advance(t.block));
    ExtendLedger(c, g, Replace(n, t, Advance(t.block)), t.block);
  }

  lemma StepCount(c: Config, g: Cluster, n: Node, t: Task)
    requires NodeInv(c.settings, n) && VotesOk(c, g, n) && DecisionsOk(c, g, n) && t in n.tasks && t.CountPrepares?
    ensures VotesOk(c, g, MaybeCommit(c.settings, n, t)) && DecisionsOk(c, g, MaybeCommit(c.settings, n, t))
  {
    StepMove(c, g, n, t, t);
    if t.block.header.index == n.height.index && |n.height.prepares| >= Quorum(|c.settings.ids|) {
      PreparesCertify(c, g, n, t);
      StepMove(c, g, n, t, SendCommit(t.block));
    }
  }

  lemma StepDecided(c: Config, g: Cluster, n: Node, t: Task)
    requires TasksOk(c.settings, n) && VotesOk(c, g, n) && DecisionsOk(c, g, n) && t in n.tasks && Decided(t)
    ensures VotesOk(c, g, RunTask(c.settings, n, t)) && DecisionsOk(c, g, RunTask(c.settings, n, t))
  {
    if t.SendCommit? {
      StepMove(c, g, n, t, CommitBlock(t.block));
      assert RunTask(c.settings, n, t) == Replace(n, t, CommitBlock(t.block));
    } else if t.CommitBlock? {
      StepStartCommit(c, g, n, t);
      assert RunTask(c.settings, n, t) == StartCommit(n, t);
    } else if t.Append? {
      StepAppend(c, g, n, t);
      assert RunTask(c.settings, n, t) == AppendBlock(n, t);
    } else {
      StepAdvance(c, g, n, t);
      assert RunTask(c.settings, n, t) == AdvanceHeight(n, t);
    }
  }

  lemma StepResume(c: Config, g: Cluster, n: Node, t: Task)
    requires NodeInv(c.settings, n) && VotesOk(c, g, n) && DecisionsOk(c, g, n) && t in n.tasks
    requires n.id in Honest(c) && n.id in g.nodes && g.nodes[n.id] == RunTask(c.settings, n, t)
    ensures VotesOk(c, g, RunTask(c.settings, n, t)) && DecisionsOk(c, g, RunTask(c.settings, n, t))
  {
    if Decided(t) {
      StepDecided(c, g, n, t);
    } else {
      match t
      case Preprepared(_, _) => StepAccept(c, g, n, t);
      case Announce(b, _) => StepMove(c, g, n, t, CountPrepares(b));
      case Gossip(_, _) => StepMove(c, g, n, t, t);
      case CountPrepares(_) => StepCount(c, g, n, t);
    }
  }

  lemma StepPropose(c: Config, g: Cluster, n: Node, payload: Json, ts: string)
    requires VotesOk(c, g, n) && DecisionsOk(c, g, n) && ProposalOk(c.settings, n)
    requires n.id in Honest(c) && n.id in g.nodes && g.nodes[n.id] == Propose(c.settings, n, payload, ts)
    ensures VotesOk(c, g, Propose(c.settings, n, payload, ts)) && DecisionsOk(c, g, Propose(c.settings, n, payload, ts))
  {
    var n' := Propose(c.settings, n, payload, ts);
    if n.height.proposal.None? {
      assert forall u :: u in n'.tasks && Decided(u) ==> u in n.tasks;
      StepBind(c, g, n, n');
    }
  }

  lemma OutboxOk(c: Config, g: Cluster, n: Node, t: Task, m: Message)
    requires TasksOk(c.settings, n) && DecisionsOk(c, g, n) && t in n.tasks && m in Outbox(t)
    requires n.id in g.nodes && KeepsVotes(n, g.nodes[n.id])
    ensures SentOk(c, g, Envelope(n.id, m))
  {
    if m.Prepare? {
      VotedTask(c.settings, n, t);
    } else if m.Commit? {
      assert Decided(t);
    }
  }

  lemma NewSentOk(c: Config, g: Cluster, e: Event)
    requires Inv(c, g)
    ensures forall m :: m in Apply(c, g, e).sent ==> SentOk(c, Apply(c, g, e), m)
  {
    ApplyGrows(c, g, e);
    var g' := Apply(c, g, e);
    forall m | m in g'.sent ensures SentOk(c, g', m) {
      if m in g.sent {
        OldSentOk(c, g, g', m);
      } else {
        var n := g.nodes[e.at];
        NodeFactsGrow(c, g, g', n);
        OutboxOk(c, g', n, e.input.task, m.msg);
      }
    }
  }

  lemma OldSentOk(c: Config, g: Cluster, g': Cluster, m: Envelope)
    requires Grows(g, g') && SentOk(c, g, m)
    ensures SentOk(c, g', m)
  {
    if m.msg.Commit? {
      CertifiedGrows(c, g, g', m.msg.index, m.msg.hash);
    }
  }

  lemma StepProposal(c: Config, g: Cluster, n: Node, from: Id, b: Block, ok: bool)
    requires VotesOk(c, g, n) && DecisionsOk(c, g, n)
    ensures VotesOk(c, g, ReceiveProposal(c.settings, n, from, b, ok))
    ensures DecisionsOk(c, g, ReceiveProposal(c.settings, n, from, b, ok))
  {
    StepMove(c, g, n, Preprepared(from, b), Preprepared(from, b));
  }

  lemma StepTick(c: Config, g: Cluster, n: Node)
    requires VotesOk(c, g, n) && DecisionsOk(c, g, n)
    ensures VotesOk(c, g, GossipProgress(c.settings, n)) && DecisionsOk(c, g, GossipProgress(c.settings, n))
  {
    if n.height.proposal.Some? {
      var t := Gossip(n.height.proposal.value, LeaderFor(c.settings, n, n.height.index) == n.id);
      StepMove(c, g, n, t, t);
    }
  }

  lemma StepNode(c: Config, g: Cluster, n: Node, input: Input)
    requires ValidConfig(c) && NodeInv(c.settings, n) && VotesOk(c, g, n) && DecisionsOk(c, g, n)
    requires n.id in Honest(c) && n.id in g.nodes && g.nodes[n.id] == NodeStep(c.settings, n, input)
    requires input.Resume? ==> input.task in n.tasks
    requires input.Receive? ==> input.from in Members(c) && input.from != n.id
    requires input.Receive? && input.from in Honest(c) ==> SentOk(c, g, Envelope(input.from, input.msg))
    ensures VotesOk(c, g, NodeStep(c.settings, n, input)) && DecisionsOk(c, g, NodeStep(c.settings, n, input))
  {
    match input
    case Receive(from, ProposeBlock(b), ok) => StepProposal(c, g, n, from, b, ok);
    case Receive(from, Prepare(k, h), _) => StepPrepare(c, g, n, from, k, h);
    case Receive(from, Commit(k, h), _) => StepCommit(c, g, n, from, k, h);
    case Resume(t) => StepResume(c, g, n, t);
    case Start(payload, ts) => StepPropose(c, g, n, payload, ts);
    case Tick => StepTick(c, g, n);
    case SetQuarantine(_) =>
  }

  lemma ApplyFacts(c: Config, g: Cluster, e: Event, i: Id)
    requires ValidConfig(c) && Inv(c, g) && Grows(g, Apply(c, g, e)) && i in g.nodes
    requires forall m :: m in Apply(c, g, e).sent ==> SentOk(c, Apply(c, g, e), m)
    ensures VotesOk(c, Apply(c, g, e), Apply(c, g, e).nodes[i])
    ensures DecisionsOk(c, Apply(c, g, e), Apply(c, g, e).nodes[i])
  {
    var g', n := Apply(c, g, e), g.nodes[i];
    NodeFactsGrow(c, g, g', n);
    if Enabled(c, g, e) && i == e.at {
      if e.input.Receive? && e.input.from in Honest(c) {
        assert Envelope(e.input.from, e.input.msg) in g'.sent;
      }
      StepNode(c, g', n, e.input);
    }
  }

  lemma ApplyKeepsInv(c: Config, g: Cluster, e: Event)
    requires ValidConfig(c) && Inv(c, g)
    ensures Inv(c, Apply(c, g, e))
  {
    ApplyGrows(c, g, e);
    NewSentOk(c, g, e);
    forall i | i in g.nodes
      ensures VotesOk(c, Apply(c, g, e), Apply(c, g, e).nodes[i])
      ensures DecisionsOk(c, Apply(c, g, e), Apply(c, g, e).nodes[i])
    {
      ApplyFacts(c, g, e, i);
    }
  }

  lemma InitialNode(c: Config, n: Node)
    requires c.settings.crypto.IsChain(c.base) && n.ledger == c.base && n.tasks == multiset{}
    requires n.height == FreshHeight(|c.base|, Tail(c.base))
    ensures NodeInv(c.settings, n)
  {
    assert c.base[..|c.base|] == c.base;
  }

  lemma InitialFacts(c: Config, g: Cluster, n: Node)
    requires n.ledger == c.base && n.tasks == multiset{} && n.height == FreshHeight(|c.base|, Tail(c.base))
    ensures VotesOk(c, g, n) && DecisionsOk(c, g, n)
  {
  }

  lemma InitialInv(c: Config, g: Cluster)
    requires ValidConfig(c) && Initial(c, g)
    ensures Inv(c, g)
  {
    forall i | i in g.nodes ensures NodeInv(c.settings, g.nodes[i]) {
      InitialNode(c, g.nodes[i]);
    }
    forall i | i in g.nodes ensures VotesOk(c, g, g.nodes[i]) && DecisionsOk(c, g, g.nodes[i]) {
      InitialFacts(c, g, g.nodes[i]);
    }
  }

  lemma {:induction false} ReachableInv(c: Config, g: Cluster, events: seq<Event>)
    requires ValidConfig(c) && Initial(c, g)
    ensures Inv(c, Execute(c, g, events))
  {
    if events == [] {
      InitialInv(c, g);
    } else {
      ReachableInv(c, g, events[..|events| - 1]);
      ApplyKeepsInv(c, Execute(c, g, events[..|events| - 1]), events[|events| - 1]);
    }
  }

  // ---------------------------------------------------------------- the theorems

  lemma CertificatesAgree(c: Config, g: Cluster, k: int, a: string, b: string)
    requires ValidConfig(c) && Inv(c, g) && Certified(c, g, k, a) && Certified(c, g, k, b)
    ensures a == b
  {
    var p :| Backs(c, g, p, k, a);
    var q :| Backs(c, g, q, k, b);
    var x := QuorumsIntersect(c, p, q);
    VoteUnique(c.settings, g.nodes[x], k, a, b);
  }

  /** Agreement: whatever the events were, two honest ledgers never differ at a common index. */
  lemma Agreement(c: Config, g: Cluster, events: seq<Event>, i: Id, j: Id, k: nat)
    requires ValidConfig(c) && Initial(c, g)
    requires i in Execute(c, g, events).nodes && j in Execute(c, g, events).nodes
    requires k < |Execute(c, g, events).nodes[i].ledger| && k < |Execute(c, g, events).nodes[j].ledger|
    ensures Execute(c, g, events).nodes[i].ledger[k].hash == Execute(c, g, events).nodes[j].ledger[k].hash
  {
    ReachableInv(c, g, events);
    var r := Execute(c, g, events);
    assert DecisionsOk(c, r, r.nodes[i]) && DecisionsOk(c, r, r.nodes[j]);
    if k >= |c.base| {
      CertificatesAgree(c, r, k, r.nodes[i].ledger[k].hash, r.nodes[j].ledger[k].hash);
    }
  }

  /** Every honest ledger is a hash chain that extends the common start, its head is right whenever
      no commit is in progress, and no waiting commit can hit the continuity error. */
  lemma LedgersAreChains(c: Config, g: Cluster, events: seq<Event>, i: Id)
    requires ValidConfig(c) && Initial(c, g) && i in Execute(c, g, events).nodes
    ensures c.settings.crypto.IsChain(Execute(c, g, events).nodes[i].ledger)
    ensures c.base <= Execute(c, g, events).nodes[i].ledger
    ensures var n := Execute(c, g, events).nodes[i];
      !n.height.committed ==> n.height.index == |n.ledger| && n.height.prev == Tail(n.ledger)
    ensures var n := Execute(c, g, events).nodes[i];
      forall t :: t in n.tasks && t.CommitBlock? ==> !ContinuityMismatch(n, t.block)
  {
    ReachableInv(c, g, events);
    var n := Execute(c, g, events).nodes[i];
    assert DecisionsOk(c, Execute(c, g, events), n);
    if !n.height.committed {
      IdleHead(c.settings, n);
    }
    forall t | t in n.tasks && t.CommitBlock? ensures !ContinuityMismatch(n, t.block) {
      ContinuityHolds(c.settings, n, t);
    }
  }

  /** Unless SHA-256 collides on blocks that were really appended, one ledger is a prefix of the other. */
  lemma LedgersArePrefixes(c: Config, g: Cluster, events: seq<Event>, i: Id, j: Id)
    requires ValidConfig(c) && Initial(c, g)
    requires i in Execute(c, g, events).nodes && j in Execute(c, g, events).nodes
    requires CollisionFree(Execute(c, g, events).nodes[i].ledger + Execute(c, g, events).nodes[j].ledger)
    ensures var a, b := Execute(c, g, events).nodes[i].ledger, Execute(c, g, events).nodes[j].ledger;
      a <= b || b <= a
  {
    var a, b := Execute(c, g, events).nodes[i].ledger, Execute(c, g, events).nodes[j].ledger;
    LedgersAreChains(c, g, events, i);
    LedgersAreChains(c, g, events, j);
    forall k | 0 <= k < |a| && k < |b| ensures a[k] == b[k] {
      Agreement(c, g, events, i, j, k);
      assert a[k] in a + b && b[k] in a + b;
    }
  }

  // ---------------------------------------------------------------- why 3f+1

  /** The protocol's quorum rule works for exactly the cluster sizes 3f+1: for any other size two
      quorums may meet in Byzantine nodes only. */
  ghost predicate QuorumRuleSafe(n: nat) {
    forall u: set<int>, p: set<int>, q: set<int>, bad: set<int> :: Scenario(n, u, p, q, bad) ==> !(p * q <= bad)
  }

  /** `p` and `q` are quorums and `bad` a tolerable set of faults in the cluster `u` of size `n`. */
  predicate Scenario(n: nat, u: set<int>, p: set<int>, q: set<int>, bad: set<int>) {
    && |u| == n && p <= u && q <= u && bad <= u && |bad| <= Faults(n)
    && |p| >= Quorum(n) && |q| >= Quorum(n)
  }

  function Range(lo: int, hi: int): (r: set<int>)
    ensures forall x :: x in r <==> lo <= x < hi
    decreases hi - lo
  {
    if lo < hi then Range(lo, hi - 1) + {hi - 1} else {}
  }

  lemma {:induction false} RangeSize(lo: int, hi: int)
    requires lo <= hi
    ensures |Range(lo, hi)| == hi - lo
    decreases hi - lo
  {
    if lo < hi {
      RangeSize(lo, hi - 1);
      assert Range(lo, hi) == Range(lo, hi - 1) + {hi - 1};
    }
  }

  lemma QuorumRuleSafeIff(n: nat)
    requires n > 0
    ensures QuorumRuleSafe(n) <==> n % 3 == 1
  {
    if n % 3 == 1 {
      forall u: set<int>, p: set<int>, q: set<int>, bad: set<int> | Scenario(n, u, p, q, bad)
        ensures !(p * q <= bad)
      {
        SubsetSize(p + q, u);
        if p * q <= bad {
          SubsetSize(p * q, bad);
        }
      }
    } else {
      UnsafeScenario(n);
    }
  }

  lemma SmallOverlap(n: nat)
    requires n > 0 && n % 3 != 1
    ensures Quorum(n) <= n && 2 * Quorum(n) - n <= Faults(n)
  {
    var f, r := (n - 1) / 3, (n - 1) % 3;
    assert n == 3 * f + r + 1;
    assert r != 0 by {
      assert (3 * f + 1) % 3 == 1;
    }
  }

  /** The two quorums at the ends of the range overlap in too few nodes. */
  lemma UnsafeScenario(n: nat)
    requires n > 0 && n % 3 != 1
    ensures !QuorumRuleSafe(n)
  {
    SmallOverlap(n);
    var k := Quorum(n);
    var lo := n - k;
    var top := if lo <= k then k else lo;
    EndsOverlap(n, k, lo, top);
    assert !(Range(0, k) * Range(lo, n) <= Range(lo, top)) ==> false;
  }

  lemma EndsOverlap(n: nat, k: nat, lo: nat, top: nat)
    requires k == Quorum(n) <= n && lo == n - k <= top <= n && k <= top && top - lo <= Faults(n)
    ensures Scenario(n, Range(0, n), Range(0, k), Range(lo, n), Range(lo, top))
    ensures Range(0, k) * Range(lo, n) <= Range(lo, top)
  {
    RangeSize(0, n);
    RangeSize(0, k);
    RangeSize(lo, n);
    RangeSize(lo, top);
  }
}
