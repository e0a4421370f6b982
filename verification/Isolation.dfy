/** core/transaction_manager.py, several transactions at once. Write opens take a lock that is kept until
    the exit, reads only look whether another transaction holds one. So the writes of any interleaving are
    those of the committed transactions run one after another, and what a transaction reads belongs to that
    order as well exactly if it opened the path for writing before. */
module Isolation {
  import opened Common
  import opened Workspace

  type TxId = string

  /** `_LockRegistry` */
  class LockRegistry {
    var owners: map<Path, TxId>

    constructor ()
      ensures owners == map[]
    {
      owners := map[];
    }

    /** Acquires unless another owner holds the path; a refused request changes nothing. */
    method TryAcquire(p: Path, owner: TxId) returns (ok: bool)
      modifies this
      ensures ok == CanAcquire(old(owners), p, owner)
      ensures owners == if ok then old(owners)[p := owner] else old(owners)
    {
      if p !in owners || owners[p] == owner {
        owners := owners[p := owner];
        return true;
      }
      return false;
    }

    method ReleaseAll(owner: TxId)
      modifies this
      ensures owners == Released(old(owners), owner)
    {
      var held := set p | p in owners && owners[p] == owner;
      while held != {}
        invariant held <= set p | p in old(owners) && old(owners)[p] == owner
        invariant forall p :: p in owners <==> p in old(owners) && (old(owners)[p] == owner ==> p in held)
        invariant forall p :: p in owners ==> owners[p] == old(owners)[p]
        decreases |held|
      {
        var p :| p in held;
        owners, held := owners - {p}, held - {p};
      }
    }

    /** A request without an owner meets every lock. */
    method IsLockedByOther(p: Path, owner: Option<TxId>) returns (r: bool)
      ensures owner.Some? ==> r == !CanAcquire(owners, p, owner.value)
      ensures owner.None? ==> r == (p in owners)
    {
      if p !in owners {
        return false;
      }
      if owner.Some? && owners[p] == owner.value {
        return false;
      }
      return true;
    }
  }

  predicate CanAcquire(owners: map<Path, TxId>, p: Path, owner: TxId) {
    p !in owners || owners[p] == owner
  }

  function Released(owners: map<Path, TxId>, owner: TxId): map<Path, TxId> {
    map p | p in owners && owners[p] != owner :: owners[p]
  }

  /** A transaction with the opens it was granted so far and what they returned. */
  datatype Tx = Tx(staged: Tree, log: seq<Op>, outs: seq<Outcome>, finalized: bool)

  datatype System = System(live: Tree, owners: map<Path, TxId>, txs: map<TxId, Tx>, committed: seq<Tx>)

  datatype Event = Begin(id: TxId) | Open(id: TxId, op: Op) | Commit(id: TxId) | Exit(id: TxId)

  /** The transaction after one more open. */
  function Opened(live: Tree, tx: Tx, op: Op): Tx {
    var (view, out) := Direct(live + tx.staged, op);
    var staged := if out == Written then tx.staged[op.path := view[op.path]] else tx.staged;
    Tx(staged, tx.log + [op], tx.outs + [out], tx.finalized)
  }

  /** Any open is refused while another transaction holds the path; a granted write open takes the lock, a
      read does not. After a commit the transaction still locks and stages, but nothing publishes what it
      stages then. */
  function OpenStep(s: System, id: TxId, op: Op): System
    requires id in s.txs
  {
    if !CanAcquire(s.owners, op.path, id) then s
    else
      s.(owners := if op.Read? then s.owners else s.owners[op.path := id],
         txs := s.txs[id := Opened(s.live, s.txs[id], op)])
  }

  function CommitStep(s: System, id: TxId): System
    requires id in s.txs
  {
    var tx := s.txs[id];
    if tx.finalized then s
    else s.(live := s.live + tx.staged,
            txs := s.txs[id := tx.(staged := map[], finalized := true)],
            committed := s.committed + [tx])
  }

  /** Leaving the `with` block: whatever is still staged is dropped and the locks are released. */
  function ExitStep(s: System, id: TxId): System
    requires id in s.txs
  {
    s.(owners := Released(s.owners, id), txs := s.txs - {id})
  }

  function Apply(s: System, e: Event): System {
    match e
    case Begin(id) => if id in s.txs then s else s.(txs := s.txs[id := Tx(map[], [], [], false)])
    case Open(id, op) => if id in s.txs then OpenStep(s, id, op) else s
    case Commit(id) => if id in s.txs then CommitStep(s, id) else s
    case Exit(id) => if id in s.txs then ExitStep(s, id) else s
  }

  function Execute(s: System, events: seq<Event>): System {
    if events == [] then s else Apply(Execute(s, events[..|events| - 1]), events[|events| - 1])
  }

  /** The opens of `ops` that hold the lock of their path: writes, and reads of a path that the same
      transaction opened for writing before. */
  predicate Locked(ops: seq<Op>, i: nat)
    requires i < |ops|
  {
    exists j :: 0 <= j <= i && ops[j].path == ops[i].path && !ops[j].Read?
  }

  /** No read of a path comes before the first write open of that path. */
  predicate Covered(ops: seq<Op>) {
    forall i :: 0 <= i < |ops| ==> Locked(ops, i)
  }

  /** Run alone on `tree`, the transaction leaves `after`, and its locked opens return what they returned. */
  ghost predicate RunsAs(tree: Tree, tx: Tx, after: Tree) {
    var (t, outs) := DirectRun(tree, tx.log);
    && t == after && |outs| == |tx.log| == |tx.outs|
    && forall i :: 0 <= i < |tx.log| && Locked(tx.log, i) ==> outs[i] == tx.outs[i]
  }

  /** Run these transactions one after the other. */
  function Serial(tree: Tree, txs: seq<Tx>): Tree {
    if txs == [] then tree else DirectRun(Serial(tree, txs[..|txs| - 1]), txs[|txs| - 1].log).0
  }

  /** ... and every locked open returned the same in the interleaved run. */
  ghost predicate SameOutcomes(tree: Tree, txs: seq<Tx>) {
    txs != [] ==>
      && SameOutcomes(tree, txs[..|txs| - 1])
      && RunsAs(Serial(tree, txs[..|txs| - 1]), txs[|txs| - 1], Serial(tree, txs))
  }

  predicate Holds(s: System, id: TxId, p: Path) {
    p in s.owners && s.owners[p] == id
  }

  /** The transaction holds what it opened for writing. */
  ghost predicate HoldsAll(s: System, id: TxId, tx: Tx) {
    && (forall i :: 0 <= i < |tx.log| && !tx.log[i].Read? ==> Holds(s, id, tx.log[i].path))
    && (forall p :: p in tx.staged ==> Holds(s, id, p))
  }

  ghost predicate TxOk(s: System, id: TxId)
    requires id in s.txs
  {
    var tx := s.txs[id];
    HoldsAll(s, id, tx) && (!tx.finalized ==> RunsAs(s.live, tx, s.live + tx.staged))
  }

  ghost predicate Inv(tree: Tree, s: System) {
    && (forall id :: id in s.txs ==> TxOk(s, id))
    && s.live == Serial(tree, s.committed)
    && SameOutcomes(tree, s.committed)
  }

  lemma {:induction false} OneOutcomeEach(tree: Tree, ops: seq<Op>)
    ensures |DirectRun(tree, ops).1| == |ops|
  {
    if ops != [] {
      OneOutcomeEach(tree, ops[..|ops| - 1]);
    }
  }

  lemma DirectRunLast(tree: Tree, ops: seq<Op>, op: Op)
    ensures DirectRun(tree, ops + [op]).0 == Direct(DirectRun(tree, ops).0, op).0
    ensures DirectRun(tree, ops + [op]).1 == DirectRun(tree, ops).1 + [Direct(DirectRun(tree, ops).0, op).1]
  {
    assert (ops + [op])[..|ops|] == ops;
  }

  /** Files that appear at paths where nothing is written change nothing but the reads of these paths. */
  lemma {:induction false} DirectRunFrame(tree: Tree, delta: Tree, ops: seq<Op>)
    requires forall i :: 0 <= i < |ops| && !ops[i].Read? ==> ops[i].path !in delta
    ensures DirectRun(tree + delta, ops).0 == DirectRun(tree, ops).0 + delta
    ensures |DirectRun(tree + delta, ops).1| == |DirectRun(tree, ops).1| == |ops|
    ensures forall i :: 0 <= i < |ops| && ops[i].path !in delta ==>
      DirectRun(tree + delta, ops).1[i] == DirectRun(tree, ops).1[i]
  {
    if ops != [] {
      var n := |ops| - 1;
      DirectRunFrame(tree, delta, ops[..n]);
      if ops[n].path !in delta {
        DirectFrame(DirectRun(tree, ops[..n]).0, delta, ops[n]);
      }
    }
  }

  lemma DirectFrame(tree: Tree, delta: Tree, op: Op)
    requires op.path !in delta
    ensures Direct(tree + delta, op) == (Direct(tree, op).0 + delta, Direct(tree, op).1)
  {
    if !op.Read? {
      var x := Direct(tree, op).0;
      if op.path in x {
        assert (tree + delta)[op.path := x[op.path]] == tree[op.path := x[op.path]] + delta;
      }
    }
  }

  lemma OpenKeeps(tree: Tree, s: System, id: TxId, op: Op)
    requires Inv(tree, s) && id in s.txs
    ensures Inv(tree, OpenStep(s, id, op))
  {
    var s' := OpenStep(s, id, op);
    if s' != s {
      forall other | other in s'.txs ensures TxOk(s', other) {
        OpenKeepsTx(s, id, op, other);
      }
    }
  }

  lemma OpenKeepsTx(s: System, id: TxId, op: Op, other: TxId)
    requires id in s.txs && TxOk(s, id) && other in s.txs && TxOk(s, other)
    ensures TxOk(OpenStep(s, id, op), other)
  {
    if CanAcquire(s.owners, op.path, id) {
      if other == id {
        OpenKeepsOwn(s, id, op);
      } else {
        OpenKeepsOther(s, id, op, other);
      }
    }
  }

  lemma OpenKeepsOther(s: System, id: TxId, op: Op, other: TxId)
    requires id in s.txs && other in s.txs && TxOk(s, other) && other != id && CanAcquire(s.owners, op.path, id)
    ensures TxOk(OpenStep(s, id, op), other)
  {
    var s' := OpenStep(s, id, op);
    assert s'.txs[other] == s.txs[other] && s'.live == s.live;
    assert forall p :: Holds(s, other, p) ==> Holds(s', other, p);
  }

  /** An earlier open is locked or not whatever comes later. */
  lemma LockedPrefix(ops: seq<Op>, op: Op, i: nat)
    requires i < |ops|
    ensures Locked(ops + [op], i) == Locked(ops, i)
  {
    var more := ops + [op];
    assert forall j :: 0 <= j <= i ==> more[j] == ops[j];
    if Locked(ops, i) {
      var j :| 0 <= j <= i && ops[j].path == ops[i].path && !ops[j].Read?;
      assert more[j].path == more[i].path && !more[j].Read?;
    }
    if Locked(more, i) {
      var j :| 0 <= j <= i && more[j].path == more[i].path && !more[j].Read?;
      assert ops[j].path == ops[i].path && !ops[j].Read?;
    }
  }

  lemma OpenedRuns(live: Tree, tx: Tx, op: Op)
    requires RunsAs(live, tx, live + tx.staged)
    ensures RunsAs(live, Opened(live, tx, op), live + Opened(live, tx, op).staged)
  {
    var tx' := Opened(live, tx, op);
    var (view, out) := Direct(live + tx.staged, op);
    DirectRunLast(live, tx.log, op);
    if out == Written {
      OverlayUpdate(live, tx.staged, op.path, view[op.path]);
      assert view == (live + tx.staged)[op.path := view[op.path]];
    }
    forall i | 0 <= i < |tx'.log| && Locked(tx'.log, i) ensures DirectRun(live, tx'.log).1[i] == tx'.outs[i] {
      if i < |tx.log| {
        LockedPrefix(tx.log, op, i);
      }
    }
  }

  lemma OpenedHolds(s: System, id: TxId, op: Op)
    requires id in s.txs && TxOk(s, id) && CanAcquire(s.owners, op.path, id)
    ensures HoldsAll(OpenStep(s, id, op), id, Opened(s.live, s.txs[id], op))
  {
    var s', tx := OpenStep(s, id, op), Opened(s.live, s.txs[id], op);
    assert !op.Read? ==> Holds(s', id, op.path);
    assert forall p :: Holds(s, id, p) ==> Holds(s', id, p);
    forall i | 0 <= i < |tx.log| && !tx.log[i].Read? ensures Holds(s', id, tx.log[i].path) {
      assert i < |s.txs[id].log| ==> tx.log[i] == s.txs[id].log[i];
    }
  }

  lemma OpenKeepsOwn(s: System, id: TxId, op: Op)
    requires id in s.txs && TxOk(s, id) && CanAcquire(s.owners, op.path, id)
    ensures TxOk(OpenStep(s, id, op), id)
  {
    OpenedHolds(s, id, op);
    if !s.txs[id].finalized {
      OpenedRuns(s.live, s.txs[id], op);
    }
  }

  /** What another transaction publishes leaves a transaction's locked opens alone. */
  lemma RunsBeside(live: Tree, delta: Tree, tx: Tx)
    requires RunsAs(live, tx, live + tx.staged) && tx.staged.Keys !! delta.Keys
    requires forall i :: 0 <= i < |tx.log| && !tx.log[i].Read? ==> tx.log[i].path !in delta
    ensures RunsAs(live + delta, tx, live + delta + tx.staged)
  {
    DirectRunFrame(live, delta, tx.log);
    assert (live + delta) + tx.staged == (live + tx.staged) + delta;
    forall i | 0 <= i < |tx.log| && Locked(tx.log, i) ensures tx.log[i].path !in delta {
      var j :| 0 <= j <= i && tx.log[j].path == tx.log[i].path && !tx.log[j].Read?;
    }
  }

  lemma CommitKeepsTx(s: System, id: TxId, other: TxId)
    requires id in s.txs && TxOk(s, id) && other in s.txs && TxOk(s, other)
    ensures TxOk(CommitStep(s, id), other)
  {
    var s', delta := CommitStep(s, id), s.txs[id].staged;
    if other != id && s' != s {
      assert forall p :: Holds(s, other, p) ==> Holds(s', other, p) && p !in delta;
      if !s.txs[other].finalized {
        RunsBeside(s.live, delta, s.txs[other]);
      }
    }
  }

  lemma CommitKeeps(tree: Tree, s: System, id: TxId)
    requires Inv(tree, s) && id in s.txs
    ensures Inv(tree, CommitStep(s, id))
  {
    var s' := CommitStep(s, id);
    forall other | other in s'.txs ensures TxOk(s', other) {
      CommitKeepsTx(s, id, other);
    }
    if s' != s {
      assert TxOk(s, id);
      SerialLast(tree, s.committed, s.txs[id]);
    }
  }

  lemma SerialLast(tree: Tree, txs: seq<Tx>, tx: Tx)
    requires SameOutcomes(tree, txs) && RunsAs(Serial(tree, txs), tx, DirectRun(Serial(tree, txs), tx.log).0)
    ensures SameOutcomes(tree, txs + [tx])
    ensures Serial(tree, txs + [tx]) == DirectRun(Serial(tree, txs), tx.log).0
  {
    assert (txs + [tx])[..|txs|] == txs;
  }

  lemma ExitKeeps(tree: Tree, s: System, id: TxId)
    requires Inv(tree, s) && id in s.txs
    ensures Inv(tree, ExitStep(s, id))
  {
    var s' := ExitStep(s, id);
    forall other | other in s'.txs ensures TxOk(s', other) {
      assert TxOk(s, other);
      assert forall p :: Holds(s, other, p) ==> Holds(s', other, p);
    }
  }

  lemma BeginKeeps(tree: Tree, s: System, id: TxId)
    requires Inv(tree, s) && id !in s.txs
    ensures Inv(tree, Apply(s, Begin(id)))
  {
    var s' := Apply(s, Begin(id));
    forall other | other in s'.txs ensures TxOk(s', other) {
      if other != id {
        assert TxOk(s, other);
        assert forall p :: Holds(s, other, p) ==> Holds(s', other, p);
      } else {
        assert s.live + map[] == s.live;
      }
    }
  }

  function Fresh(tree: Tree): System {
    System(tree, map[], map[], [])
  }

  lemma StepKeeps(tree: Tree, s: System, e: Event)
    requires Inv(tree, s)
    ensures Inv(tree, Apply(s, e))
  {
    if e.id in s.txs {
      match e
      case Begin(_) =>
      case Open(_, op) => OpenKeeps(tree, s, e.id, op);
      case Commit(_) => CommitKeeps(tree, s, e.id);
      case Exit(_) => ExitKeeps(tree, s, e.id);
    } else if e.Begin? {
      BeginKeeps(tree, s, e.id);
    }
  }

  lemma {:induction false} RunInv(tree: Tree, events: seq<Event>)
    ensures Inv(tree, Execute(Fresh(tree), events))
  {
    if events != [] {
      RunInv(tree, events[..|events| - 1]);
      StepKeeps(tree, Execute(Fresh(tree), events[..|events| - 1]), events[|events| - 1]);
    }
  }

  /** Whatever the interleaving, the live tree is what the committed transactions produce when run one
      at a time in commit order, and each of their locked opens returned the same. */
  lemma CommittedWritesAreSerial(tree: Tree, events: seq<Event>)
    ensures var s := Execute(Fresh(tree), events);
      s.live == Serial(tree, s.committed) && SameOutcomes(tree, s.committed)
  {
    RunInv(tree, events);
  }

  /** When a transaction has left, nothing that it held stops another one. */
  lemma ExitReleases(s: System, id: TxId, other: TxId, op: Op)
    requires id in s.txs && other in s.txs && other != id && Holds(s, id, op.path)
    ensures Apply(s, Open(other, op)) == s
    ensures var s' := Apply(Apply(s, Exit(id)), Open(other, op));
      other in s'.txs && s'.txs[other].log == s.txs[other].log + [op]
  {
  }

  // ---------------------------------------------------------------- reads

  /** The transaction has run the program `ops` and may commit now. */
  predicate Done(s: System, id: TxId, ops: seq<Op>) {
    id in s.txs && !s.txs[id].finalized && s.txs[id].log == ops
  }

  /** In every run, all opens of a transaction with this program have returned, when it commits, what they
      would return on the live tree of that moment. */
  ghost predicate AlwaysSerial(ops: seq<Op>) {
    forall tree: Tree, events: seq<Event>, id: TxId {:trigger Done(Execute(Fresh(tree), events), id, ops)} ::
      Done(Execute(Fresh(tree), events), id, ops) ==>
        Execute(Fresh(tree), events).txs[id].outs == DirectRun(Execute(Fresh(tree), events).live, ops).1
  }

  /** A transaction is serialisable, reads included, exactly when it opens every path it reads for writing
      first. */
  lemma SerialIff(ops: seq<Op>)
    ensures AlwaysSerial(ops) <==> Covered(ops)
  {
    if Covered(ops) {
      CoveredIsSerial(ops);
    } else {
      BareReadIsStale(ops);
    }
  }

  lemma CoveredIsSerial(ops: seq<Op>)
    requires Covered(ops)
    ensures AlwaysSerial(ops)
  {
    forall tree: Tree, events: seq<Event>, id: TxId | Done(Execute(Fresh(tree), events), id, ops)
      ensures Execute(Fresh(tree), events).txs[id].outs == DirectRun(Execute(Fresh(tree), events).live, ops).1
    {
      RunInv(tree, events);
      assert TxOk(Execute(Fresh(tree), events), id);
    }
  }

  lemma {:induction false} ExecuteConcat(s: System, a: seq<Event>, b: seq<Event>)
    ensures Execute(s, a + b) == Execute(Execute(s, a), b)
    decreases |b|
  {
    if b == [] {
      assert a + b == a;
    } else {
      ConcatInit(a, b);
      ExecuteConcat(s, a, b[..|b| - 1]);
    }
  }

  function Opens(id: TxId, ops: seq<Op>): seq<Event> {
    seq(|ops|, i requires 0 <= i < |ops| => Open(id, ops[i]))
  }

  predicate WritesTo(ops: seq<Op>, p: Path) {
    exists j :: 0 <= j < |ops| && ops[j].path == p && !ops[j].Read?
  }

  lemma WritesLast(ops: seq<Op>, p: Path)
    requires ops != []
    ensures WritesTo(ops, p) <==> WritesTo(ops[..|ops| - 1], p) || (ops[|ops| - 1].path == p && !ops[|ops| - 1].Read?)
  {
    var n := |ops| - 1;
    if WritesTo(ops[..n], p) {
      var j :| 0 <= j < n && ops[..n][j].path == p && !ops[..n][j].Read?;
      assert ops[j].path == p && !ops[j].Read?;
    }
    if WritesTo(ops, p) {
      var j :| 0 <= j < |ops| && ops[j].path == p && !ops[j].Read?;
      assert j < n ==> ops[..n][j].path == p && !ops[..n][j].Read?;
    }
  }

  /** `s'` comes from `s` by opens of `id` alone, all of them granted. */
  ghost predicate Extends(s: System, s': System, id: TxId, ops: seq<Op>) {
    && id in s.txs && id in s'.txs && s'.live == s.live && s'.txs == s.txs[id := s'.txs[id]]
    && s'.txs[id].log == s.txs[id].log + ops && s'.txs[id].finalized == s.txs[id].finalized
    && s.txs[id].outs <= s'.txs[id].outs
    && (forall p :: p in s'.owners ==> s'.owners[p] == id)
    && (forall p :: p in s'.owners ==> p in s.owners || WritesTo(ops, p))
  }

  /** Where nobody else holds a lock every open is granted. */
  lemma {:induction false} OpensAlone(s: System, id: TxId, ops: seq<Op>)
    requires id in s.txs && forall p :: p in s.owners ==> s.owners[p] == id
    ensures Extends(s, Execute(s, Opens(id, ops)), id, ops)
  {
    if ops == [] {
      assert s.txs[id].log + ops == s.txs[id].log;
    } else {
      var n := |ops| - 1;
      OpensAlone(s, id, ops[..n]);
      assert Opens(id, ops)[..n] == Opens(id, ops[..n]);
      OpenAlone(s, Execute(s, Opens(id, ops[..n])), id, ops);
    }
  }

  lemma OpenAlone(s: System, m: System, id: TxId, ops: seq<Op>)
    requires ops != [] && Extends(s, m, id, ops[..|ops| - 1])
    ensures Extends(s, OpenStep(m, id, ops[|ops| - 1]), id, ops)
  {
    var n := |ops| - 1;
    assert ops == ops[..n] + [ops[n]];
    var s' := OpenStep(m, id, ops[n]);
    assert s'.txs[id].log == s.txs[id].log + ops;
    forall p | p in s'.owners ensures s'.owners[p] == id && (p in s.owners || WritesTo(ops, p)) {
      WritesLast(ops, p);
    }
  }

  /** An intruder that nobody stands in the way of writes a file and is gone. */
  function Intrusion(b: TxId, p: Path): seq<Event> {
    [Begin(b), Open(b, Write(p, ""))] + [Commit(b), Exit(b)]
  }

  lemma ExecuteLast(s: System, events: seq<Event>, e: Event)
    ensures Execute(s, events + [e]) == Apply(Execute(s, events), e)
  {
    assert (events + [e])[..|events|] == events;
  }

  lemma ExecuteTwo(s: System, a: Event, b: Event)
    ensures Execute(s, [a, b]) == Apply(Apply(s, a), b)
  {
    ExecuteLast(s, [], a);
    ExecuteLast(s, [a], b);
    assert [] + [a] == [a] && [a] + [b] == [a, b];
  }

  /** The system while the intruder has its file staged. */
  function Intruded(s: System, b: TxId, p: Path): System {
    System(s.live, s.owners[p := b], s.txs[b := Tx(map[p := ""], [Write(p, "")], [Written], false)], s.committed)
  }

  lemma IntruderOpens(s: System, b: TxId, p: Path)
    requires b !in s.txs && p !in s.owners
    ensures Apply(Apply(s, Begin(b)), Open(b, Write(p, ""))) == Intruded(s, b, p)
  {
    var none: Tree := map[];
    assert none[p := ""] == map[p := ""];
    assert Opened(s.live, Tx(none, [], [], false), Write(p, "")) == Tx(map[p := ""], [Write(p, "")], [Written], false);
  }

  lemma IntruderCommits(s: System, b: TxId, p: Path)
    requires b !in s.txs
    ensures var m := Apply(Intruded(s, b, p), Commit(b));
      m.live == s.live[p := ""] && m.owners == s.owners[p := b] && b in m.txs && m.txs - {b} == s.txs
  {
    assert s.live + map[p := ""] == s.live[p := ""];
  }

  lemma IntruderLeaves(s: System, b: TxId, p: Path)
    requires b !in s.txs && p !in s.owners && forall q :: q in s.owners ==> s.owners[q] != b
    ensures var s' := Apply(Apply(Intruded(s, b, p), Commit(b)), Exit(b));
      s'.live == s.live[p := ""] && s'.txs == s.txs && s'.owners == s.owners
  {
    IntruderCommits(s, b, p);
    assert Released(s.owners[p := b], b) == s.owners;
  }

  lemma Intrudes(s: System, b: TxId, p: Path)
    requires b !in s.txs && p !in s.owners && forall q :: q in s.owners ==> s.owners[q] != b
    ensures var s' := Execute(s, Intrusion(b, p));
      s'.live == s.live[p := ""] && s'.txs == s.txs && s'.owners == s.owners
  {
    ExecuteTwo(s, Begin(b), Open(b, Write(p, "")));
    IntruderOpens(s, b, p);
    ExecuteTwo(Intruded(s, b, p), Commit(b), Exit(b));
    ExecuteConcat(s, [Begin(b), Open(b, Write(p, ""))], [Commit(b), Exit(b)]);
    IntruderLeaves(s, b, p);
  }

  /** Opens of other paths leave a file as it is, and so do reads. */
  lemma {:induction false} Untouched(tree: Tree, ops: seq<Op>, p: Path)
    requires p in tree && forall i :: 0 <= i < |ops| && ops[i].path == p ==> ops[i].Read?
    ensures p in DirectRun(tree, ops).0 && DirectRun(tree, ops).0[p] == tree[p]
  {
    if ops != [] {
      Untouched(tree, ops[..|ops| - 1], p);
    }
  }

  lemma {:induction false} OutcomeAt(tree: Tree, ops: seq<Op>, i: nat)
    requires i < |ops|
    ensures |DirectRun(tree, ops).1| == |ops|
    ensures DirectRun(tree, ops).1[i] == Direct(DirectRun(tree, ops[..i]).0, ops[i]).1
  {
    var n := |ops| - 1;
    OneOutcomeEach(tree, ops);
    OneOutcomeEach(tree, ops[..n]);
    if i < n {
      OutcomeAt(tree, ops[..n], i);
      assert ops[..n][..i] == ops[..i];
    } else {
      assert ops[..n] == ops[..i];
    }
  }

  /** `a` runs alone and has run `ops`. */
  ghost predicate Alone(s: System, a: TxId, ops: seq<Op>) {
    && s.live == map[] && s.txs.Keys == {a} && !s.txs[a].finalized && s.txs[a].log == ops
    && TxOk(s, a) && |s.txs[a].outs| == |ops|
    && forall q :: q in s.owners ==> s.owners[q] == a && WritesTo(ops, q)
  }

  lemma RunsAlone(a: TxId, ops: seq<Op>)
    ensures Alone(Execute(Fresh(map[]), [Begin(a)] + Opens(a, ops)), a, ops)
  {
    var begun := Apply(Fresh(map[]), Begin(a));
    ExecuteLast(Fresh(map[]), [], Begin(a));
    assert [] + [Begin(a)] == [Begin(a)];
    OpensAlone(begun, a, ops);
    ExecuteConcat(Fresh(map[]), [Begin(a)], Opens(a, ops));
    RunInv(map[], [Begin(a)] + Opens(a, ops));
    assert [] + ops == ops;
    assert TxOk(Execute(begun, Opens(a, ops)), a);
  }

  lemma OpensLast(a: TxId, ops: seq<Op>, op: Op)
    ensures Opens(a, ops + [op]) == Opens(a, ops) + [Open(a, op)]
  {
  }

  lemma BareNotWritten(ops: seq<Op>, i: nat)
    requires i < |ops| && !Locked(ops, i)
    ensures ops[i].Read? && !WritesTo(ops[..i], ops[i].path) && !WritesTo(ops[..i + 1], ops[i].path)
  {
    assert forall j :: 0 <= j <= i && ops[j].path == ops[i].path ==> ops[j].Read?;
  }

  /** A bare read of `p` finds no such file, and afterwards the transaction holds no lock on `p`. */
  lemma ReadsNothing(a: TxId, ops: seq<Op>, i: nat)
    requires i < |ops| && !Locked(ops, i)
    ensures var s := Execute(Fresh(map[]), [Begin(a)] + Opens(a, ops[..i + 1]));
      Alone(s, a, ops[..i + 1]) && s.txs[a].outs[i] == FileNotFound && ops[i].path !in s.owners
  {
    var m := Execute(Fresh(map[]), [Begin(a)] + Opens(a, ops[..i]));
    RunsAlone(a, ops[..i]);
    RunsAlone(a, ops[..i + 1]);
    assert ops[..i + 1] == ops[..i] + [ops[i]];
    OpensLast(a, ops[..i], ops[i]);
    ExecuteLast(Fresh(map[]), [Begin(a)] + Opens(a, ops[..i]), Open(a, ops[i]));
    ConcatAssoc([Begin(a)], Opens(a, ops[..i]), [Open(a, ops[i])]);
    BareNotWritten(ops, i);
    assert ops[i].path !in m.owners;
    assert ops[i].path !in m.txs[a].staged;
  }

  /** The intruder's file is what that read ought to have returned. */
  lemma BareReadIsStale(ops: seq<Op>)
    requires !Covered(ops)
    ensures !AlwaysSerial(ops)
  {
    var i :| 0 <= i < |ops| && !Locked(ops, i);
    var events := Interrupted("a", "b", ops, i);
    InterruptedRun("a", "b", ops, i);
    StaleAt(ops, i, ops[i].path);
    assert Done(Execute(Fresh(map[]), events), "a", ops);
  }

  /** `a` runs `ops`; right after open `i` the intruder `b` writes its path. */
  function Interrupted(a: TxId, b: TxId, ops: seq<Op>, i: nat): seq<Event>
    requires i < |ops|
  {
    [Begin(a)] + Opens(a, ops[..i + 1]) + Intrusion(b, ops[i].path) + Opens(a, ops[i + 1..])
  }

  lemma InterruptedRun(a: TxId, b: TxId, ops: seq<Op>, i: nat)
    requires a != b && i < |ops| && !Locked(ops, i)
    ensures var s := Execute(Fresh(map[]), Interrupted(a, b, ops, i));
      Done(s, a, ops) && s.live == map[ops[i].path := ""] && |s.txs[a].outs| > i && s.txs[a].outs[i] == FileNotFound
  {
    var p, begun := ops[i].path, [Begin(a)] + Opens(a, ops[..i + 1]);
    ReadsNothing(a, ops, i);
    var s := Execute(Fresh(map[]), begun);
    Intrudes(s, b, p);
    ExecuteConcat(Fresh(map[]), begun, Intrusion(b, p));
    var t := Execute(s, Intrusion(b, p));
    OpensAlone(t, a, ops[i + 1..]);
    ExecuteConcat(Fresh(map[]), begun + Intrusion(b, p), Opens(a, ops[i + 1..]));
    assert ops[..i + 1] + ops[i + 1..] == ops;
    assert s.live[p := ""] == map[p := ""];
  }

  lemma StaleAt(ops: seq<Op>, i: nat, p: Path)
    requires i < |ops| && !Locked(ops, i) && p == ops[i].path
    ensures |DirectRun(map[p := ""], ops).1| == |ops| && DirectRun(map[p := ""], ops).1[i] == Text("")
  {
    assert ops[i].Read?;
    Untouched(map[p := ""], ops[..i], p);
    OutcomeAt(map[p := ""], ops, i);
  }

  /** Two open transactions never stage the same path. */
  lemma StagedPathsDisjoint(tree: Tree, events: seq<Event>, a: TxId, b: TxId)
    requires a != b
    requires a in Execute(Fresh(tree), events).txs
    requires b in Execute(Fresh(tree), events).txs
    ensures var s := Execute(Fresh(tree), events); s.txs[a].staged.Keys !! s.txs[b].staged.Keys
  {
    RunInv(tree, events);
    var s := Execute(Fresh(tree), events);
    assert TxOk(s, a) && TxOk(s, b);
  }
}
