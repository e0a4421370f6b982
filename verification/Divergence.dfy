/** When the peers of core/consensus_node.py agree and when they need not. If the honest nodes split into
    two groups that each form a quorum together with the Byzantine nodes, one node of each group can lead
    it to a block of its own; in every other cluster all runs agree. */
module Divergence {
  import opened Common
  import opened Ledger
  import opened ConsensusNode
  import opened Cluster

  /** The discipline of the code that `Apply` leaves open: only own-view leaders propose
      (`_submit_candidate`), and nothing passes between two nodes one of which quarantines the other
      (`_send_raw`). */
  ghost predicate Lawful(c: Config, g: Cluster, e: Event) {
    && e.at in g.nodes
    && var n := g.nodes[e.at];
       match e.input
       case Receive(from, _, _) => from !in n.quarantined
       case Resume(t) => Outbox(t) != {} ==> n.quarantined == {}
       case Start(_, _) => LeaderFor(c.settings, n, n.height.index) == e.at
       case _ => true
  }

  ghost predicate LawfulRun(c: Config, g: Cluster, events: seq<Event>) {
    forall k :: 0 <= k < |events| ==> Lawful(c, Execute(c, g, events[..k]), events[k])
  }

  /** Some lawful run leads to this cluster. */
  ghost predicate Reached(c: Config, g: Cluster, g': Cluster) {
    exists events :: LawfulRun(c, g, events) && Execute(c, g, events) == g'
  }

  type Region = Cluster -> bool

  ghost predicate Closed(c: Config, r: Region) {
    forall g: Cluster, e: Event {:trigger r(g), Apply(c, g, e)} :: r(g) && Lawful(c, g, e) ==> r(Apply(c, g, e))
  }

  lemma LawfulExtends(c: Config, g: Cluster, events: seq<Event>, e: Event)
    requires LawfulRun(c, g, events) && Lawful(c, Execute(c, g, events), e)
    ensures LawfulRun(c, g, events + [e])
  {
    var more := events + [e];
    assert more[..|events|] == events;
    forall k | 0 <= k < |more| ensures Lawful(c, Execute(c, g, more[..k]), more[k]) {
      if k < |events| {
        assert more[..k] == events[..k] && more[k] == events[k];
      }
    }
  }

  lemma OneMore(c: Config, g: Cluster, g': Cluster, e: Event)
    requires Reached(c, g, g') && Lawful(c, g', e)
    ensures Reached(c, g, Apply(c, g', e))
  {
    var events :| LawfulRun(c, g, events) && Execute(c, g, events) == g';
    LawfulExtends(c, g, events, e);
    assert (events + [e])[..|events|] == events;
    assert Execute(c, g, events + [e]) == Apply(c, g', e);
  }

  lemma ReachedIsClosed(c: Config, g: Cluster)
    ensures Closed(c, (h: Cluster) => Reached(c, g, h)) && Reached(c, g, g)
  {
    forall h: Cluster, e: Event | Reached(c, g, h) && Lawful(c, h, e) ensures Reached(c, g, Apply(c, h, e)) {
      OneMore(c, g, h, e);
    }
    assert LawfulRun(c, g, []) && Execute(c, g, []) == g;
  }

  // ---------------------------------------------------------------- one side of a split

  /** `g'` differs from `g` at node `i` and in messages sent meanwhile. */
  ghost predicate OnlyAt(g: Cluster, g': Cluster, i: Id) {
    i in g.nodes && i in g'.nodes && g'.nodes == g.nodes[i := g'.nodes[i]] && g.sent <= g'.sent
  }

  lemma Step(c: Config, r: Region, g: Cluster, i: Id, input: Input) returns (g': Cluster)
    requires Closed(c, r) && r(g) && Enabled(c, g, Event(i, input)) && Lawful(c, g, Event(i, input))
    ensures r(g') && OnlyAt(g, g', i) && g'.nodes[i] == NodeStep(c.settings, g.nodes[i], input)
    ensures input.Resume? ==> forall m :: m in Outbox(input.task) ==> Envelope(i, m) in g'.sent
  {
    g' := Apply(c, g, Event(i, input));
  }

  /** The node stands behind the ledger `l` and has heard of nothing for the next height. */
  predicate Idle(n: Node, l: seq<Block>) {
    n.ledger == l && n.height == FreshHeight(|l|, Tail(l))
  }

  /** The node has bound itself to `b`, has these prepares at least, and has yet to look at them. */
  predicate Bound(n: Node, l: seq<Block>, b: Block, votes: set<Id>) {
    var h := n.height;
    && n.ledger == l && n.quarantined == {} && CountPrepares(b) in n.tasks
    && h.index == |l| && h.prev == Tail(l) && h.proposal == Some(b) && !h.committed && votes <= h.prepares
  }

  function Sealed(c: Config, l: seq<Block>, token: string, payload: Json, ts: string): Block {
    c.settings.crypto.Seal(Header(|l|, ts, token, Tail(l), payload))
  }

  /** Leaving out all other peers makes `x` the leader. */
  lemma TheirLeader(s: Settings, n: Node, x: Id, index: nat)
    requires x in s.ids && n.quarantined == (set y | y in s.ids) - {x}
    ensures LeaderFor(s, n, index) == x
  {
    var live := Without(s.ids, n.quarantined);
    assert x in live;
    assert live[index % |live|] in live;
  }

  /** An idle node that takes itself for the leader binds itself to a block of its own. */
  lemma Proposes(c: Config, r: Region, g: Cluster, l: seq<Block>, x: Id, payload: Json, ts: string) returns (g': Cluster)
    requires Closed(c, r) && r(g) && x in g.nodes && x in c.settings.ids && g.nodes[x].id == x && Idle(g.nodes[x], l)
    ensures r(g') && OnlyAt(g, g', x) && g'.nodes[x].ledger == l
    ensures g'.nodes[x].id == x && g'.nodes[x].token == g.nodes[x].token
    ensures var b, h := Sealed(c, l, g.nodes[x].token, payload, ts), g'.nodes[x].height;
      && Announce(b, true) in g'.nodes[x].tasks
      && h == FreshHeight(|l|, Tail(l)).(proposal := Some(b), prepares := h.prepares) && x in h.prepares
  {
    var alone := Step(c, r, g, x, SetQuarantine(Members(c) - {x}));
    TheirLeader(c.settings, alone.nodes[x], x, |l|);
    g' := Step(c, r, alone, x, Start(payload, ts));
  }

  /** A node announces the block it has bound itself to. */
  lemma Announces(c: Config, r: Region, g: Cluster, x: Id, b: Block, leading: bool) returns (g': Cluster)
    requires Closed(c, r) && r(g) && x in g.nodes && Announce(b, leading) in g.nodes[x].tasks
    ensures r(g') && OnlyAt(g, g', x) && Envelope(x, Prepare(b.header.index, b.hash)) in g'.sent
    ensures leading ==> Envelope(x, ProposeBlock(b)) in g'.sent
    ensures g'.nodes[x].ledger == g.nodes[x].ledger && g'.nodes[x].height == g.nodes[x].height
    ensures g'.nodes[x].id == g.nodes[x].id && g'.nodes[x].token == g.nodes[x].token
    ensures CountPrepares(b) in g'.nodes[x].tasks && g'.nodes[x].quarantined == {}
  {
    var open := Step(c, r, g, x, SetQuarantine({}));
    g' := Step(c, r, open, x, Resume(Announce(b, leading)));
    assert Prepare(b.header.index, b.hash) in Outbox(Announce(b, leading));
    assert leading ==> ProposeBlock(b) in Outbox(Announce(b, leading));
  }

  /** A member that has voted for `b` and told the others. */
  predicate Voter(g: Cluster, l: seq<Block>, token: string, b: Block, y: Id) {
    && y in g.nodes && g.nodes[y].id == y && g.nodes[y].token == token && Bound(g.nodes[y], l, b, {y})
    && Envelope(y, Prepare(|l|, b.hash)) in g.sent
  }

  lemma Lead(c: Config, r: Region, g: Cluster, l: seq<Block>, x: Id, payload: Json, ts: string) returns (g': Cluster)
    requires Closed(c, r) && r(g) && x in g.nodes && x in c.settings.ids && g.nodes[x].id == x && Idle(g.nodes[x], l)
    ensures var b := Sealed(c, l, g.nodes[x].token, payload, ts);
      && r(g') && OnlyAt(g, g', x) && Envelope(x, ProposeBlock(b)) in g'.sent
      && Voter(g', l, g.nodes[x].token, b, x)
  {
    var b := Sealed(c, l, g.nodes[x].token, payload, ts);
    var bound := Proposes(c, r, g, l, x, payload, ts);
    g' := Announces(c, r, bound, x, b, true);
  }

  predicate Acceptable(c: Config, l: seq<Block>, b: Block, token: string) {
    && WellFormed(b) && c.settings.crypto.SelfConsistent(b)
    && b.header.index == |l| && b.header.prev == Tail(l) && b.header.token == token
  }

  /** An idle node that takes `x` for the leader votes for its block. */
  lemma Follow(c: Config, r: Region, g: Cluster, l: seq<Block>, x: Id, y: Id, b: Block) returns (g': Cluster)
    requires Closed(c, r) && r(g) && x in c.settings.ids && x != y && Envelope(x, ProposeBlock(b)) in g.sent
    requires y in g.nodes && g.nodes[y].id == y && Idle(g.nodes[y], l) && Acceptable(c, l, b, g.nodes[y].token)
    ensures r(g') && OnlyAt(g, g', y) && Voter(g', l, g.nodes[y].token, b, y)
  {
    var waits := Hears(c, r, g, l, x, y, b);
    g' := Casts(c, r, waits, l, x, y, b);
  }

  lemma Hears(c: Config, r: Region, g: Cluster, l: seq<Block>, x: Id, y: Id, b: Block) returns (g': Cluster)
    requires Closed(c, r) && r(g) && x in c.settings.ids && x != y && Envelope(x, ProposeBlock(b)) in g.sent
    requires y in g.nodes && Idle(g.nodes[y], l) && Acceptable(c, l, b, g.nodes[y].token)
    ensures r(g') && OnlyAt(g, g', y) && Idle(g'.nodes[y], l) && Preprepared(x, b) in g'.nodes[y].tasks
    ensures g'.nodes[y].id == g.nodes[y].id && g'.nodes[y].token == g.nodes[y].token
  {
    var theirs := Step(c, r, g, y, SetQuarantine(Members(c) - {x}));
    TheirLeader(c.settings, theirs.nodes[y], x, |l|);
    g' := Step(c, r, theirs, y, Receive(x, ProposeBlock(b), true));
  }

  lemma Casts(c: Config, r: Region, g: Cluster, l: seq<Block>, x: Id, y: Id, b: Block) returns (g': Cluster)
    requires Closed(c, r) && r(g) && y in g.nodes && g.nodes[y].id == y && Idle(g.nodes[y], l)
    requires Preprepared(x, b) in g.nodes[y].tasks && b.header.index == |l| && b.header.prev == Tail(l)
    ensures r(g') && OnlyAt(g, g', y) && Voter(g', l, g.nodes[y].token, b, y)
  {
    var voted := Step(c, r, g, y, Resume(Preprepared(x, b)));
    g' := Announces(c, r, voted, y, b, false);
  }

  /** Nothing has changed at nodes outside `side`. */
  ghost predicate Elsewhere(g: Cluster, g': Cluster, side: set<Id>) {
    && g'.nodes.Keys == g.nodes.Keys && g.sent <= g'.sent
    && forall i :: i in g.nodes && i !in side ==> g'.nodes[i] == g.nodes[i]
  }

  lemma ElsewhereMore(g: Cluster, g': Cluster, g'': Cluster, side: set<Id>, x: Id, all: set<Id>)
    requires OnlyAt(g, g', x) && Elsewhere(g', g'', side) && x in all && side <= all
    ensures Elsewhere(g, g'', all)
  {
  }

  /** These nodes stand behind the ledger `l` and run for the same token. */
  ghost predicate SameToken(g: Cluster, ids: set<Id>, l: seq<Block>, token: string) {
    ids <= g.nodes.Keys && forall i :: i in ids ==> g.nodes[i].id == i && g.nodes[i].token == token && Idle(g.nodes[i], l)
  }

  ghost predicate AllVoted(g: Cluster, ids: set<Id>, l: seq<Block>, token: string, b: Block) {
    forall i :: i in ids ==> Voter(g, l, token, b, i)
  }

  /** All of `todo` follow the leader `x`. */
  lemma {:induction false} FollowAll(c: Config, r: Region, g: Cluster, l: seq<Block>, x: Id, todo: set<Id>, token: string, b: Block)
    returns (g': Cluster)
    requires Closed(c, r) && r(g) && x in c.settings.ids && x !in todo && Envelope(x, ProposeBlock(b)) in g.sent
    requires SameToken(g, todo, l, token) && Acceptable(c, l, b, token)
    ensures r(g') && Elsewhere(g, g', todo) && AllVoted(g', todo, l, token, b)
    decreases todo
  {
    if todo == {} {
      return g;
    }
    var y :| y in todo;
    var one := Follow(c, r, g, l, x, y, b);
    g' := FollowAll(c, r, one, l, x, todo - {y}, token, b);
    ElsewhereMore(g, one, g', todo - {y}, y, todo);
    assert g'.nodes[y] == one.nodes[y];
  }

  /** Members whose PREPARE can be delivered. */
  ghost predicate CanVote(c: Config, g: Cluster, y: Id, l: seq<Block>, b: Block) {
    y in Members(c) && (y in c.byzantine || Envelope(y, Prepare(|l|, b.hash)) in g.sent)
  }

  lemma Counts(c: Config, r: Region, g: Cluster, l: seq<Block>, x: Id, y: Id, b: Block, votes: set<Id>) returns (g': Cluster)
    requires Closed(c, r) && r(g) && x in g.nodes && Bound(g.nodes[x], l, b, votes)
    requires y != x && LooksLikeHash(b.hash, 64) && CanVote(c, g, y, l, b)
    ensures r(g') && OnlyAt(g, g', x) && Bound(g'.nodes[x], l, b, votes + {y})
    ensures g'.nodes[x].id == g.nodes[x].id && g'.nodes[x].token == g.nodes[x].token
  {
    g' := Step(c, r, g, x, Receive(y, Prepare(|l|, b.hash), true));
  }

  /** The node hears of the votes of `todo`. */
  lemma {:induction false} Gather(c: Config, r: Region, g: Cluster, l: seq<Block>, x: Id, todo: set<Id>, b: Block, votes: set<Id>)
    returns (g': Cluster)
    requires Closed(c, r) && r(g) && x in g.nodes && Bound(g.nodes[x], l, b, votes)
    requires LooksLikeHash(b.hash, 64) && x !in todo && forall y :: y in todo ==> CanVote(c, g, y, l, b)
    ensures r(g') && OnlyAt(g, g', x) && Bound(g'.nodes[x], l, b, votes + todo)
    ensures g'.nodes[x].id == g.nodes[x].id && g'.nodes[x].token == g.nodes[x].token
    decreases todo
  {
    if todo == {} {
      assert votes + todo == votes;
      return g;
    }
    var y :| y in todo;
    var one := Counts(c, r, g, l, x, y, b, votes);
    g' := Gather(c, r, one, l, x, todo - {y}, b, votes + {y});
    assert votes + {y} + (todo - {y}) == votes + todo;
  }

  lemma ToCommitPoint(c: Config, r: Region, g: Cluster, l: seq<Block>, x: Id, b: Block, votes: set<Id>) returns (g': Cluster)
    requires Closed(c, r) && r(g) && x in g.nodes && Bound(g.nodes[x], l, b, votes)
    requires |votes| >= Quorum(|c.settings.ids|) && b.header.index == |l|
    ensures r(g') && OnlyAt(g, g', x) && CommitBlock(b) in g'.nodes[x].tasks
    ensures g'.nodes[x] == g.nodes[x].(tasks := g'.nodes[x].tasks)
    ensures Envelope(x, Commit(|l|, b.hash)) in g'.sent
  {
    SubsetSize(votes, g.nodes[x].height.prepares);
    var counted := Step(c, r, g, x, Resume(CountPrepares(b)));
    g' := Step(c, r, counted, x, Resume(SendCommit(b)));
    assert ConsensusNode.Commit(|l|, b.hash) in Outbox(SendCommit(b));
  }

  /** From the commit point the block goes into the ledger and the node on to the next height. */
  lemma ToLedger(c: Config, r: Region, g: Cluster, l: seq<Block>, x: Id, b: Block) returns (g': Cluster)
    requires Closed(c, r) && r(g) && x in g.nodes && CommitBlock(b) in g.nodes[x].tasks && g.nodes[x].ledger == l
    requires b.header.index == |l| == g.nodes[x].height.index && !g.nodes[x].height.committed
    requires b.header.prev == g.nodes[x].height.prev
    ensures r(g') && OnlyAt(g, g', x) && Idle(g'.nodes[x], l + [b])
    ensures g'.nodes[x].id == g.nodes[x].id && g'.nodes[x].token == g.nodes[x].token
  {
    var started := Step(c, r, g, x, Resume(CommitBlock(b)));
    var stored := Step(c, r, started, x, Resume(ConsensusNode.Append(b)));
    g' := Step(c, r, stored, x, Resume(ConsensusNode.Advance(b)));
  }

  lemma TailIsHash(c: Config, l: seq<Block>)
    requires c.settings.crypto.HexDigests() && c.settings.crypto.IsChain(l)
    ensures LooksLikeHash(Tail(l), 64)
  {
    if l != [] {
      assert c.settings.crypto.SelfConsistent(l[|l| - 1]);
    }
  }

  lemma SealedAcceptable(c: Config, l: seq<Block>, token: string, payload: Json, ts: string)
    requires c.settings.crypto.HexDigests() && c.settings.crypto.IsChain(l) && token != "" && ts != ""
    ensures Acceptable(c, l, Sealed(c, l, token, payload, ts), token)
    ensures c.settings.crypto.IsChain(l + [Sealed(c, l, token, payload, ts)])
  {
    TailIsHash(c, l);
    c.settings.crypto.SealWellFormed(Sealed(c, l, token, payload, ts).header);
    c.settings.crypto.ExtendChain(l, Sealed(c, l, token, payload, ts));
  }

  /** A node that has voted, and whose PREPAREs reach it, takes the block into its ledger. */
  lemma Settle(c: Config, r: Region, g: Cluster, l: seq<Block>, x: Id, b: Block, token: string, votes: set<Id>) returns (g': Cluster)
    requires Closed(c, r) && r(g) && Voter(g, l, token, b, x) && Acceptable(c, l, b, token)
    requires |votes| >= Quorum(|c.settings.ids|) && x in votes && forall y :: y in votes ==> CanVote(c, g, y, l, b)
    ensures r(g') && OnlyAt(g, g', x) && Idle(g'.nodes[x], l + [b]) && g'.nodes[x].id == x && g'.nodes[x].token == token
  {
    var gathered := Gather(c, r, g, l, x, votes - {x}, b, {x});
    assert {x} + (votes - {x}) == votes;
    var decided := ToCommitPoint(c, r, gathered, l, x, b, votes);
    g' := ToLedger(c, r, decided, l, x, b);
  }

  lemma {:induction false} SettleAll(c: Config, r: Region, g: Cluster, l: seq<Block>, todo: set<Id>, b: Block, token: string, votes: set<Id>)
    returns (g': Cluster)
    requires Closed(c, r) && r(g) && AllVoted(g, todo, l, token, b) && Acceptable(c, l, b, token)
    requires |votes| >= Quorum(|c.settings.ids|) && todo <= votes && forall y :: y in votes ==> CanVote(c, g, y, l, b)
    ensures r(g') && Elsewhere(g, g', todo) && SameToken(g', todo, l + [b], token)
    decreases todo
  {
    if todo == {} {
      return g;
    }
    var y :| y in todo;
    var one := Settle(c, r, g, l, y, b, token, votes);
    g' := SettleAll(c, r, one, l, todo - {y}, b, token, votes);
    ElsewhereMore(g, one, g', todo - {y}, y, todo);
    assert g'.nodes[y] == one.nodes[y];
  }

  /** One node of the group proposes and all its honest members vote for its block. */
  lemma Rally(c: Config, r: Region, g: Cluster, l: seq<Block>, side: set<Id>, x: Id, token: string, payload: Json, ts: string)
    returns (g': Cluster)
    requires c.settings.crypto.HexDigests() && c.settings.crypto.IsChain(l) && Closed(c, r) && r(g) && token != "" && ts != ""
    requires side <= Honest(c) && x in side && SameToken(g, side, l, token)
    ensures r(g') && Elsewhere(g, g', side) && AllVoted(g', side, l, token, Sealed(c, l, token, payload, ts))
  {
    var b := Sealed(c, l, token, payload, ts);
    SealedAcceptable(c, l, token, payload, ts);
    var led := Lead(c, r, g, l, x, payload, ts);
    g' := FollowAll(c, r, led, l, x, side - {x}, token, b);
    ElsewhereMore(g, led, g', side - {x}, x, side);
    assert g'.nodes[x] == led.nodes[x];
  }

  /** A group of honest nodes behind one ledger that forms a quorum with some of the Byzantine ones can bring
      any payload of any of its members into the ledgers of the group, and is then ready for the next one,
      while all other honest nodes stand still. */
  lemma SideCommits(c: Config, r: Region, g: Cluster, l: seq<Block>, side: set<Id>, helpers: set<Id>, x: Id,
                    token: string, payload: Json, ts: string) returns (g': Cluster)
    requires c.settings.crypto.HexDigests() && c.settings.crypto.IsChain(l) && Closed(c, r) && r(g) && token != "" && ts != ""
    requires side <= Honest(c) && x in side && SameToken(g, side, l, token)
    requires helpers <= c.byzantine * Members(c) && |side + helpers| >= Quorum(|c.settings.ids|)
    ensures r(g') && Elsewhere(g, g', side) && SameToken(g', side, l + [Sealed(c, l, token, payload, ts)], token)
  {
    var b := Sealed(c, l, token, payload, ts);
    SealedAcceptable(c, l, token, payload, ts);
    var rallied := Rally(c, r, g, l, side, x, token, payload, ts);
    forall y | y in side + helpers ensures CanVote(c, rallied, y, l, b) {
      assert y in side ==> Voter(rallied, l, token, b, y);
    }
    g' := SettleAll(c, r, rallied, l, side, b, token, side + helpers);
  }

  /** `more` extends `l` by one block for each payload, in this order. */
  ghost predicate Records(l: seq<Block>, more: seq<Block>, payloads: seq<Json>) {
    && |more| == |l| + |payloads| && l <= more
    && forall i :: 0 <= i < |payloads| ==> more[|l| + i].header.payload == payloads[i]
  }

  /** ... and so for any list of payloads. */
  lemma {:induction false} SideRecords(c: Config, r: Region, g: Cluster, l: seq<Block>, side: set<Id>, helpers: set<Id>,
                                       token: string, payloads: seq<Json>, ts: string) returns (g': Cluster, more: seq<Block>)
    requires c.settings.crypto.HexDigests() && c.settings.crypto.IsChain(l) && Closed(c, r) && r(g) && token != "" && ts != ""
    requires side <= Honest(c) && side != {} && SameToken(g, side, l, token)
    requires helpers <= c.byzantine * Members(c) && |side + helpers| >= Quorum(|c.settings.ids|)
    ensures r(g') && Elsewhere(g, g', side) && SameToken(g', side, more, token)
    ensures Records(l, more, payloads) && c.settings.crypto.IsChain(more)
    decreases |payloads|
  {
    if payloads == [] {
      return g, l;
    }
    var n := |payloads| - 1;
    var before, ledger := SideRecords(c, r, g, l, side, helpers, token, payloads[..n], ts);
    var x :| x in side;
    more := ledger + [Sealed(c, ledger, token, payloads[n], ts)];
    g' := SideCommits(c, r, before, ledger, side, helpers, x, token, payloads[n], ts);
    SealedAcceptable(c, ledger, token, payloads[n], ts);
    ElsewhereThen(g, before, g', side);
    RecordsMore(l, ledger, payloads, Sealed(c, ledger, token, payloads[n], ts));
  }

  lemma ElsewhereThen(g: Cluster, g': Cluster, g'': Cluster, side: set<Id>)
    requires Elsewhere(g, g', side) && Elsewhere(g', g'', side)
    ensures Elsewhere(g, g'', side)
  {
  }

  lemma RecordsMore(l: seq<Block>, more: seq<Block>, payloads: seq<Json>, b: Block)
    requires payloads != [] && Records(l, more, payloads[..|payloads| - 1])
    requires b.header.payload == payloads[|payloads| - 1]
    ensures Records(l, more + [b], payloads)
  {
  }

  /** The honest nodes get on although the Byzantine ones are silent, if they are a quorum by themselves: some
      lawful run brings exactly the given payloads, in their order, into every honest ledger. */
  lemma HonestRecord(c: Config, g: Cluster, token: string, payloads: seq<Json>, ts: string) returns (events: seq<Event>)
    requires Sound(c) && Initial(c, g) && c.settings.crypto.HexDigests() && token != "" && ts != ""
    requires SameToken(g, Honest(c), c.base, token) && |Honest(c)| >= Quorum(|c.settings.ids|)
    ensures LawfulRun(c, g, events)
    ensures forall i :: i in Honest(c) ==>
      i in Execute(c, g, events).nodes && Records(c.base, Execute(c, g, events).nodes[i].ledger, payloads)
  {
    ReachedIsClosed(c, g);
    assert Honest(c) + {} == Honest(c);
    var g', more := SideRecords(c, (h: Cluster) => Reached(c, g, h), g, c.base, Honest(c), {}, token, payloads, ts);
    events :| LawfulRun(c, g, events) && Execute(c, g, events) == g';
  }

  // ---------------------------------------------------------------- the other way to the commit point

  /** The node has bound itself to `b` and has these commits at least. */
  predicate Waits(n: Node, l: seq<Block>, b: Block, commits: set<Id>) {
    var h := n.height;
    && n.ledger == l && n.quarantined == {} && h.index == |l| && h.prev == Tail(l)
    && h.proposal == Some(b) && !h.committed && commits <= h.commits
  }

  ghost predicate CanConfirm(c: Config, g: Cluster, y: Id, l: seq<Block>, b: Block) {
    y in Members(c) && (y in c.byzantine || Envelope(y, Commit(|l|, b.hash)) in g.sent)
  }

  lemma Confirms(c: Config, r: Region, g: Cluster, l: seq<Block>, x: Id, y: Id, b: Block, commits: set<Id>) returns (g': Cluster)
    requires Closed(c, r) && r(g) && x in g.nodes && g.nodes[x].id == x && Waits(g.nodes[x], l, b, commits)
    requires y != x && LooksLikeHash(b.hash, 64) && CanConfirm(c, g, y, l, b)
    ensures r(g') && OnlyAt(g, g', x) && g'.nodes[x].id == x && Waits(g'.nodes[x], l, b, commits + {y, x})
    ensures |commits + {y, x}| >= Quorum(|c.settings.ids|) ==> CommitBlock(b) in g'.nodes[x].tasks
  {
    g' := Step(c, r, g, x, Receive(y, ConsensusNode.Commit(|l|, b.hash), true));
    SubsetSize(commits + {y, x}, g'.nodes[x].height.commits);
  }

  lemma {:induction false} ConfirmAll(c: Config, r: Region, g: Cluster, l: seq<Block>, x: Id, todo: set<Id>, b: Block, commits: set<Id>)
    returns (g': Cluster)
    requires Closed(c, r) && r(g) && x in g.nodes && g.nodes[x].id == x && Waits(g.nodes[x], l, b, commits)
    requires LooksLikeHash(b.hash, 64) && x !in todo && forall y :: y in todo ==> CanConfirm(c, g, y, l, b)
    ensures r(g') && OnlyAt(g, g', x) && g'.nodes[x].id == x && Waits(g'.nodes[x], l, b, commits + todo)
    decreases todo
  {
    if todo == {} {
      assert commits + todo == commits;
      return g;
    }
    var y :| y in todo;
    var one := Confirms(c, r, g, l, x, y, b, commits);
    WaitsLess(one.nodes[x], l, b, commits + {y, x}, commits + {y});
    g' := ConfirmAll(c, r, one, l, x, todo - {y}, b, commits + {y});
    assert commits + {y} + (todo - {y}) == commits + todo;
  }

  lemma WaitsLess(n: Node, l: seq<Block>, b: Block, all: set<Id>, some: set<Id>)
    requires Waits(n, l, b, all) && some <= all
    ensures Waits(n, l, b, some)
  {
  }

  /** A node that has bound itself to a block and hears no PREPARE takes it into its ledger when the COMMITs of
      others make a quorum together with itself. */
  lemma CommitsJoin(c: Config, r: Region, g: Cluster, l: seq<Block>, x: Id, b: Block, others: set<Id>) returns (g': Cluster)
    requires Closed(c, r) && r(g) && x in g.nodes && g.nodes[x].id == x && Waits(g.nodes[x], l, b, {})
    requires WellFormed(b) && b.header.index == |l| && b.header.prev == Tail(l)
    requires others != {} && x !in others && forall y :: y in others ==> CanConfirm(c, g, y, l, b)
    requires |others + {x}| >= Quorum(|c.settings.ids|)
    ensures r(g') && OnlyAt(g, g', x) && Idle(g'.nodes[x], l + [b])
  {
    var last :| last in others;
    var before := ConfirmAll(c, r, g, l, x, others - {last}, b, {});
    var confirmed := Confirms(c, r, before, l, x, last, b, {} + (others - {last}));
    assert {} + (others - {last}) + {last, x} == others + {x};
    g' := ToLedger(c, r, confirmed, l, x, b);
  }

  // ---------------------------------------------------------------- both sides

  ghost predicate Split(nodes: map<Id, Node>, i: Id, j: Id, k: nat) {
    && i in nodes && j in nodes && k < |nodes[i].ledger| && k < |nodes[j].ledger|
    && nodes[i].ledger[k].hash != nodes[j].ledger[k].hash
  }

  /** No run, lawful or not, ends with honest ledgers that hold different hashes at one index. */
  ghost predicate Agrees(c: Config, g: Cluster) {
    forall events: seq<Event>, i: Id, j: Id, k: nat :: !Split(Execute(c, g, events).nodes, i, j, k)
  }

  /** Some lawful run does. */
  ghost predicate Diverges(c: Config, g: Cluster) {
    exists events, i, j, k :: LawfulRun(c, g, events) && Split(Execute(c, g, events).nodes, i, j, k)
  }

  lemma {:induction false} Part<T>(s: set<T>, k: nat) returns (p: set<T>)
    requires k <= |s|
    ensures p <= s && |p| == k
  {
    if k == 0 {
      return {};
    }
    var x :| x in s;
    var q := Part(s - {x}, k - 1);
    return q + {x};
  }

  lemma UnionSize<T>(a: set<T>, b: set<T>)
    requires a !! b
    ensures |a + b| == |a| + |b|
  {
  }

  lemma HonestRest(c: Config)
    requires Sound(c)
    ensures |Honest(c)| == |c.settings.ids| - |c.byzantine|
  {
    DistinctSize(c.settings.ids);
    UnionSize(Honest(c), c.byzantine);
    assert Honest(c) + c.byzantine == Members(c);
  }

  /** `good` splits into two groups that both reach size `k` together with `bad`. */
  lemma TwoSides<T>(good: set<T>, bad: set<T>, k: nat) returns (p: set<T>, q: set<T>)
    requires good !! bad && |good| >= 2 && |good| + 2 * |bad| >= 2 * k
    ensures p <= good && q <= good && p !! q && p != {} && q != {}
    ensures |p + bad| >= k && |q + bad| >= k
  {
    p := Part(good, if k <= |bad| + 1 then 1 else k - |bad|);
    q := good - p;
    UnionSize(p, q);
    assert p + q == good;
    UnionSize(p, bad);
    UnionSize(q, bad);
  }

  lemma ReachedSplits(c: Config, g: Cluster, g': Cluster, i: Id, j: Id, k: nat)
    requires Reached(c, g, g') && Split(g'.nodes, i, j, k)
    ensures Diverges(c, g)
  {
    var events :| LawfulRun(c, g, events) && Execute(c, g, events) == g';
  }

  /** Two disjoint groups commit one after the other. */
  lemma BothCommit(c: Config, r: Region, g: Cluster, p: set<Id>, q: set<Id>, i: Id, j: Id,
                   token: string, x: Json, y: Json, ts: string) returns (g': Cluster)
    requires Sound(c) && c.settings.crypto.HexDigests() && Closed(c, r) && r(g) && token != "" && ts != ""
    requires p + q <= Honest(c) && p !! q && i in p && j in q && SameToken(g, p + q, c.base, token)
    requires |p + c.byzantine| >= Quorum(|c.settings.ids|) && |q + c.byzantine| >= Quorum(|c.settings.ids|)
    ensures r(g') && i in g'.nodes && g'.nodes[i].ledger == c.base + [Sealed(c, c.base, token, x, ts)]
    ensures j in g'.nodes && g'.nodes[j].ledger == c.base + [Sealed(c, c.base, token, y, ts)]
  {
    var one := SideCommits(c, r, g, c.base, p, c.byzantine, i, token, x, ts);
    assert SameToken(one, q, c.base, token) by {
      assert forall m :: m in q ==> m !in p && one.nodes[m] == g.nodes[m];
    }
    g' := SideCommits(c, r, one, c.base, q, c.byzantine, j, token, y, ts);
    assert i !in q;
  }

  lemma BothSides(c: Config, g: Cluster, token: string, x: Json, y: Json, ts: string)
    requires Sound(c) && Initial(c, g) && c.settings.crypto.HexDigests()
    requires token != "" && ts != "" && SameToken(g, Honest(c), c.base, token)
    requires Sealed(c, c.base, token, x, ts).hash != Sealed(c, c.base, token, y, ts).hash
    requires |Honest(c)| >= 2 && |c.byzantine| >= 2 * Quorum(|c.settings.ids|) - |c.settings.ids|
    ensures Diverges(c, g)
  {
    HonestRest(c);
    var p, q := TwoSides(Honest(c), c.byzantine, Quorum(|c.settings.ids|));
    var i :| i in p;
    var j :| j in q;
    ReachedIsClosed(c, g);
    var g' := BothCommit(c, (h: Cluster) => Reached(c, g, h), g, p, q, i, j, token, x, y, ts);
    ReachedSplits(c, g, g', i, j, |c.base|);
  }

  lemma {:induction false} SameNodes(c: Config, g: Cluster, events: seq<Event>)
    ensures Execute(c, g, events).nodes.Keys == g.nodes.Keys
  {
    if events != [] {
      SameNodes(c, g, events[..|events| - 1]);
    }
  }

  lemma LonelyAgrees(c: Config, g: Cluster)
    requires Initial(c, g) && |Honest(c)| <= 1
    ensures Agrees(c, g)
  {
    forall events: seq<Event>, i: Id, j: Id, k: nat ensures !Split(Execute(c, g, events).nodes, i, j, k) {
      SameNodes(c, g, events);
      if i in Honest(c) && j in Honest(c) && i != j {
        SubsetSize({i, j}, Honest(c));
      }
    }
  }

  lemma ValidAgrees(c: Config, g: Cluster)
    requires ValidConfig(c) && Initial(c, g)
    ensures Agrees(c, g)
  {
    forall events: seq<Event>, i: Id, j: Id, k: nat ensures !Split(Execute(c, g, events).nodes, i, j, k) {
      if Split(Execute(c, g, events).nodes, i, j, k) {
        Agreement(c, g, events, i, j, k);
      }
    }
  }

  /** Which clusters agree: all runs do if and only if there is at most one honest node or two quorums
      always share more nodes than are Byzantine. Where they need not, lawful runs show it, provided the
      honest nodes run for one token and the hash tells two payloads apart. */
  lemma AgreementIff(c: Config, g: Cluster, token: string, x: Json, y: Json, ts: string)
    requires Sound(c) && Initial(c, g) && c.settings.crypto.HexDigests()
    requires token != "" && ts != "" && SameToken(g, Honest(c), c.base, token)
    requires Sealed(c, c.base, token, x, ts).hash != Sealed(c, c.base, token, y, ts).hash
    ensures Agrees(c, g) <==> |Honest(c)| <= 1 || |c.byzantine| < 2 * Quorum(|c.settings.ids|) - |c.settings.ids|
    ensures Agrees(c, g) <==> !Diverges(c, g)
  {
    if |Honest(c)| <= 1 {
      LonelyAgrees(c, g);
    } else if |c.byzantine| < 2 * Quorum(|c.settings.ids|) - |c.settings.ids| {
      ValidAgrees(c, g);
    } else {
      BothSides(c, g, token, x, y, ts);
    }
  }

  // ---------------------------------------------------------------- which sizes are safe

  /** All runs of all clusters of `n` distinct peers, at most f of them Byzantine, agree. */
  ghost predicate SizeAgrees(n: nat) {
    forall c: Config, g: Cluster ::
      Sound(c) && |c.settings.ids| == n && |c.byzantine| <= Faults(n) && Initial(c, g) ==> Agrees(c, g)
  }

  lemma DocumentedSizeAgrees(n: nat)
    requires n % 3 == 1
    ensures SizeAgrees(n)
  {
    forall c: Config, g: Cluster | Sound(c) && |c.settings.ids| == n && |c.byzantine| <= Faults(n) && Initial(c, g)
      ensures Agrees(c, g)
    {
      DocumentedClusters(c);
      ValidAgrees(c, g);
    }
  }

  lemma OtherSizeDiverges(n: nat)
    requires n > 0 && n % 3 != 1
    ensures !SizeAgrees(n)
  {
    var c := WitnessConfig(n);
    var g := Fresh(c);
    FreshFits(c);
    CoarseTells(c);
    AgreementIff(c, g, "t", JNull, JBool(true), "t");
    assert Initial(c, g) && !Agrees(c, g);
  }

  /** The protocol keeps honest ledgers equal with f Byzantine peers for exactly the sizes 3f+1. */
  lemma SizeAgreesIff(n: nat)
    requires n > 0
    ensures SizeAgrees(n) <==> n % 3 == 1
  {
    if n % 3 == 1 {
      DocumentedSizeAgrees(n);
    } else {
      OtherSizeDiverges(n);
    }
  }

  function Names(n: nat): (ids: seq<Id>)
    ensures |ids| == n && forall i :: 0 <= i < n ==> ids[i] == Zeros(i + 1)
  {
    if n == 0 then [] else Names(n - 1) + [Zeros(n)]
  }

  /** A hash that tells empty payloads from all others. */
  function Coarse(): Crypto {
    Crypto((h: Header) => if h.payload.JNull? then Zeros(64) else Zeros(63) + "1", (h: Header, hash: string) => [])
  }

  /** Outside 3f+1 the quorum rule tolerates as many Byzantine members as two quorums may share. */
  lemma WitnessConfig(n: nat) returns (c: Config)
    requires n > 0 && n % 3 != 1
    ensures Sound(c) && c.settings == Settings(Names(n), Coarse()) && c.base == []
    ensures |c.byzantine| == Faults(n) && |Honest(c)| >= 2 && |c.byzantine| >= 2 * Quorum(n) - n
  {
    SmallOverlap(n);
    DistinctSize(Names(n));
    var all := set x | x in Names(n);
    var bad := Part(all, Faults(n));
    c := Config(Settings(Names(n), Coarse()), bad, []);
    HonestRest(c);
  }

  lemma CoarseTells(c: Config)
    requires c.settings.crypto == Coarse()
    ensures c.settings.crypto.HexDigests()
    ensures Sealed(c, c.base, "t", JNull, "t").hash != Sealed(c, c.base, "t", JBool(true), "t").hash
  {
    assert (Zeros(63) + "1")[63] != Zeros(64)[63];
  }

  function Fresh(c: Config): Cluster {
    Cluster(map i | i in Honest(c) :: Node(i, "t", FreshHeight(0, GENESIS), [], {}, multiset{}), {})
  }

  lemma FreshFits(c: Config)
    requires c.base == []
    ensures Initial(c, Fresh(c)) && SameToken(Fresh(c), Honest(c), c.base, "t")
  {
  }
}
