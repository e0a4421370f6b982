/** The mutable object of core/consensus_node.py: every handler updates the per-height fields in place,
    is proved to do exactly what the step functions of ConsensusNode say, and keeps the node invariant. */
module ConsensusService {
  import opened Common
  import opened Ledger
  import opened ConsensusNode

  class BftConsensusNode {
    const settings: Settings
    const id: Id
    const token: string
    var height: Height
    var ledger: seq<Block>
    var quarantined: set<Id>
    var tasks: multiset<Task>

    ghost function View(): Node
      reads this
    {
      Node(id, token, height, ledger, quarantined, tasks)
    }

    ghost predicate Valid()
      reads this
    {
      NodeInv(settings, View())
    }

    constructor (settings: Settings, id: Id, token: string, base: seq<Block>)
      requires settings.crypto.IsChain(base)
      ensures Valid() && this.settings == settings && this.id == id && this.token == token
      ensures View() == Node(id, token, FreshHeight(|base|, Tail(base)), base, {}, multiset{})
    {
      this.settings, this.id, this.token := settings, id, token;
      height := FreshHeight(|base|, Tail(base));
      ledger, quarantined, tasks := base, {}, multiset{};
      new;
      assert base[..|base|] == base;
    }

    /** A proposal that is malformed, a leader's that fails a check, or another peer's that is off the head. */
    ghost predicate Offends(n: Node, peer: Id, b: Block, rollupOk: bool) {
      || !WellFormed(b)
      || (if peer == LeaderFor(settings, n, b.header.index)
          then !(settings.crypto.SelfConsistent(b) && b.header.token == token && b.header.index >= 0 && rollupOk)
          else b.header.index != n.height.index || b.header.prev != n.height.prev)
    }

    method HandleProposeBlock(peer: Id, b: Block, rollupOk: bool)
      requires Valid()
      modifies this`quarantined, this`tasks
      ensures Valid() && View() == ReceiveProposal(settings, old(View()), peer, b, rollupOk)
      ensures quarantined == old(quarantined) + if Offends(old(View()), peer, b, rollupOk) then {peer} else {}
      ensures tasks == old(tasks) +
        if peer == LeaderFor(settings, old(View()), b.header.index) && !Offends(old(View()), peer, b, rollupOk)
        then multiset{Preprepared(peer, b)} else multiset{}
    {
      ReceiveProposalKeeps(settings, View(), peer, b, rollupOk);
      ProposalFields(peer, b, rollupOk);
    }

    /** Its field updates. */
    method ProposalFields(peer: Id, b: Block, rollupOk: bool)
      modifies this`quarantined, this`tasks
      ensures View() == ReceiveProposal(settings, old(View()), peer, b, rollupOk)
    {
      if !WellFormed(b) {
        quarantined := quarantined + {peer};
        return;
      }
      var live := Without(settings.ids, quarantined);
      var leader := if live == [] then id else live[b.header.index % |live|];
      if peer != leader {
        if b.header.index != height.index || b.header.prev != height.prev {
          quarantined := quarantined + {peer};
        }
        return;
      }
      if !settings.crypto.SelfConsistent(b) || b.header.token != token || b.header.index < 0 || !rollupOk {
        quarantined := quarantined + {peer};
        return;
      }
      tasks := tasks + multiset{Preprepared(peer, b)};
    }

    method BindProposal(t: Task)
      requires Valid() && t in tasks && t.Preprepared?
      modifies this`height, this`quarantined, this`tasks
      ensures Valid() && View() == AcceptProposal(old(View()), t)
      ensures var b, h := t.block, old(height);
        if b.header.index != h.index || b.header.prev != h.prev || (h.proposal.Some? && h.proposal.value.hash != b.hash)
        then quarantined == old(quarantined) + {t.peer} && height == h
        else
          && quarantined == old(quarantined) && height.proposal.Some? && height.proposal.value.hash == b.hash
          && id in height.prepares && Announce(b, false) in tasks
    {
      AcceptProposalKeeps(settings, View(), t);
      BindFields(t);
    }

    /** Its field updates. */
    method BindFields(t: Task)
      requires t in tasks && t.Preprepared?
      modifies this`height, this`quarantined, this`tasks
      ensures View() == AcceptProposal(old(View()), t)
    {
      tasks := tasks - multiset{t};
      if t.block.header.index != height.index || t.block.header.prev != height.prev {
        quarantined := quarantined + {t.peer};
        return;
      }
      if height.proposal.None? {
        height := height.(proposal := Some(t.block));
      } else if height.proposal.value.hash != t.block.hash {
        quarantined := quarantined + {t.peer};
        return;
      }
      height := height.(prepares := height.prepares + {id});
      tasks := tasks + multiset{Announce(t.block, false)};
    }

    method HandlePrepare(peer: Id, idx: int, hash: string)
      requires Valid()
      modifies this`height, this`quarantined, this`tasks
      ensures Valid() && View() == ReceivePrepare(old(View()), peer, idx, hash)
      ensures LooksLikeHash(hash, 64) && idx == height.index && height.proposal.Some? ==>
        if height.proposal.value.hash == hash
        then height.prepares == old(height.prepares) + {peer} && quarantined == old(quarantined)
        else quarantined == old(quarantined) + {peer} && height == old(height)
    {
      ReceivePrepareKeeps(settings, View(), peer, idx, hash);
      if !LooksLikeHash(hash, 64) || idx != height.index || height.proposal.None? {
        return;
      }
      if height.proposal.value.hash != hash {
        quarantined := quarantined + {peer};
        return;
      }
      height := height.(prepares := height.prepares + {peer});
      tasks := tasks + multiset{CountPrepares(height.proposal.value)};
    }

    method HandleCommit(peer: Id, idx: int, hash: string)
      requires Valid()
      modifies this`height, this`tasks
      ensures Valid() && View() == ReceiveCommit(settings, old(View()), peer, idx, hash)
      ensures LooksLikeHash(hash, 64) && idx == height.index && height.proposal.Some? && height.proposal.value.hash == hash ==>
        height.commits == old(height.commits) + {peer, id} &&
        (|height.commits| >= Quorum(|settings.ids|) ==> CommitBlock(height.proposal.value) in tasks)
    {
      ReceiveCommitKeeps(settings, View(), peer, idx, hash);
      if !LooksLikeHash(hash, 64) || idx != height.index || height.proposal.None? || height.proposal.value.hash != hash {
        return;
      }
      height := height.(commits := height.commits + {peer} + {id});
      assert height.commits == old(height.commits) + {peer, id};
      if |height.commits| >= Quorum(|settings.ids|) {
        tasks := tasks + multiset{CommitBlock(height.proposal.value)};
      }
    }

    method ProposeAfterGrace(payload: Json, ts: string)
      requires Valid()
      modifies this`height, this`tasks
      ensures Valid() && View() == Propose(settings, old(View()), payload, ts)
    {
      ProposeKeeps(settings, View(), payload, ts);
      if height.proposal.Some? {
        return;
      }
      var block := settings.crypto.Seal(Header(height.index, ts, token, height.prev, payload));
      height := height.(proposal := Some(block));
      height := height.(prepares := height.prepares + {id});
      tasks := tasks + multiset{Announce(block, true)};
    }

    /** The locked read of `_gossip_progress`; the broadcast follows when the task is resumed. */
    method StartGossip()
      requires Valid()
      modifies this`tasks
      ensures Valid() && View() == GossipProgress(settings, old(View()))
      ensures tasks == old(tasks) + if height.committed || height.proposal.None? then multiset{}
        else multiset{Gossip(height.proposal.value, LeaderFor(settings, old(View()), height.index) == id)}
    {
      GossipKeeps(settings, View());
      if height.committed || height.proposal.None? {
        return;
      }
      var live := Without(settings.ids, quarantined);
      var leader := if live == [] then id else live[height.index % |live|];
      tasks := tasks + multiset{Gossip(height.proposal.value, leader == id)};
    }

    /** The broadcast of PREPARE, of a re-sent proposal or of COMMIT, up to the next suspension point. */
    method SendVotes(t: Task) returns (sent: set<Message>)
      requires Valid() && t in tasks && (t.Announce? || t.Gossip? || t.SendCommit?)
      modifies this`tasks
      ensures Valid() && View() == RunTask(settings, old(View()), t) && sent == Outbox(t)
      ensures Voted(View(), t.block.header.index, t.block.hash)
    {
      RunTaskKeeps(settings, View(), t);
      VotedTask(settings, View(), t);
      sent := SendFields(t);
    }

    /** The messages, and the field updates. */
    method SendFields(t: Task) returns (sent: set<Message>)
      requires t in tasks && (t.Announce? || t.Gossip? || t.SendCommit?)
      modifies this`tasks
      ensures View() == RunTask(settings, old(View()), t) && sent == Outbox(t)
    {
      tasks := tasks - multiset{t};
      if t.SendCommit? {
        sent := {Commit(t.block.header.index, t.block.hash)};
        tasks := tasks + multiset{CommitBlock(t.block)};
      } else {
        sent := {Prepare(t.block.header.index, t.block.hash)};
        if t.leading {
          sent := sent + {ProposeBlock(t.block)};
        }
        if t.Announce? {
          tasks := tasks + multiset{CountPrepares(t.block)};
        }
      }
    }

    /** `_maybe_commit` */
    method CheckPrepares(t: Task)
      requires Valid() && t in tasks && t.CountPrepares?
      modifies this`tasks
      ensures Valid() && View() == MaybeCommit(settings, old(View()), t)
    {
      MaybeCommitKeeps(settings, View(), t);
      CountFields(t);
    }

    /** Its field updates. */
    method CountFields(t: Task)
      requires t in tasks && t.CountPrepares?
      modifies this`tasks
      ensures View() == MaybeCommit(settings, old(View()), t)
    {
      tasks := tasks - multiset{t};
      if t.block.header.index != height.index || height.committed {
        return;
      }
      if |height.prepares| >= Quorum(|settings.ids|) {
        tasks := tasks + multiset{SendCommit(t.block)};
      }
    }

    /** `_commit_block` up to the append; `raised` is the continuity error, which never happens. */
    method BeginCommit(t: Task) returns (raised: bool)
      requires Valid() && t in tasks && t.CommitBlock?
      modifies this`height, this`tasks
      ensures Valid() && View() == StartCommit(old(View()), t)
      ensures !raised
    {
      StartCommitKeeps(settings, View(), t);
      ContinuityHolds(settings, View(), t);
      raised := CommitFields(t);
    }

    /** Its field updates, for a node in any state. */
    method CommitFields(t: Task) returns (raised: bool)
      requires t in tasks && t.CommitBlock?
      modifies this`height, this`tasks
      ensures View() == StartCommit(old(View()), t)
      ensures raised == ContinuityMismatch(old(View()), t.block)
    {
      raised := false;
      tasks := tasks - multiset{t};
      if height.committed || t.block.header.index != height.index {
        return;
      }
      if t.block.header.prev != height.prev {
        raised := true;
        return;
      }
      height := height.(committed := true);
      tasks := tasks + multiset{Append(t.block)};
    }

    method AppendLedger(t: Task)
      requires Valid() && t in tasks && t.Append?
      modifies this`ledger, this`tasks
      ensures Valid() && View() == AppendBlock(old(View()), t)
    {
      AppendKeeps(settings, View(), t);
      AppendFields(t);
    }

    /** Its field updates. */
    method AppendFields(t: Task)
      requires t in tasks && t.Append?
      modifies this`ledger, this`tasks
      ensures View() == AppendBlock(old(View()), t)
    {
      ledger := ledger + [t.block];
      tasks := tasks - multiset{t} + multiset{Advance(t.block)};
    }

    method FinishCommit(t: Task)
      requires Valid() && t in tasks && t.Advance?
      modifies this`height, this`tasks
      ensures Valid() && View() == AdvanceHeight(old(View()), t)
      ensures height.index == |ledger| && height.prev == Tail(ledger) && height.proposal == None
      ensures height.prepares == {} && height.commits == {} && !height.committed
    {
      AdvanceKeeps(settings, View(), t);
      Advances(settings, View(), t);
      tasks := tasks - multiset{t};
      height := FreshHeight(height.index + 1, t.block.hash);
    }
  }
}
