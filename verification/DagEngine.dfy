/** Concurrent execution in core/dag_engine.py with the content-addressed cache of core/cache.py: node
    tasks, prefetch ticks and the scheduler loop interleave at every await. */
module DagEngine {
  import opened Common
  import opened Ledger
  import opened DagSemantics

  datatype Status = Pending | Running | Done | Failed

  /** How far a node's task has come. */
  datatype Job =
    | Waiting                                  // created, has not claimed the node
    | Claimed(manifest: Manifest)              // status running, about to look into the cache
    | Missed(manifest: Manifest)               // cache miss, about to call the node function
    | Called(manifest: Manifest, value: Json)  // called, about to store
    | Ready(manifest: Manifest, value: Json)   // value known, about to publish the result
    | Leaving                                  // about to report to the scheduler

  /** A prefetch in progress for one node. */
  datatype Peek = Peeking(node: NodeId, manifest: Manifest) | Peeked(node: NodeId, manifest: Manifest, value: Json)

  /** Local variables of `_execute_all`. `tasked` are the nodes that were ever given a task. */
  datatype Schedule = Schedule(
    remaining: map<NodeId, int>,
    ready: seq<NodeId>,
    processed: set<NodeId>,
    tasked: set<NodeId>,
    doneQ: multiset<NodeId>)

  datatype State = State(
    status: map<NodeId, Status>,
    result: Results,
    cache: map<Fingerprint, Json>,
    jobs: map<NodeId, Job>,
    peeks: multiset<Peek>,
    sched: Schedule,
    aborted: bool)                 // a node function raised: the task group cancels its tasks

  datatype Event =
    | StartPeek(node: NodeId)      // `_prefetch_ready`, by the scheduler or the background prefetcher
    | ReadPeek(peek: Peek)
    | FinishPeek(peek: Peek)
    | PopReady
    | RunJob(node: NodeId)
    | Cancel(node: NodeId, early: bool)  // the task group cancels a task after another one raised
    | TakeDone(node: NodeId)       // done_q.get()
    | SweepDone(node: NodeId)      // after a warm prefetch: process every finished node
    | Evict                        // the cache is emptied

  // ---------------------------------------------------------------- the scheduler's bookkeeping

  /** The loop of `_process_done` over the dependents. */
  function Decrement(remaining: map<NodeId, int>, ready: seq<NodeId>, children: seq<NodeId>): (map<NodeId, int>, seq<NodeId>)
    requires forall c :: c in children ==> c in remaining
    ensures Decrement(remaining, ready, children).0.Keys == remaining.Keys
  {
    if children == [] then (remaining, ready)
    else
      var n := |children| - 1;
      var (rem, rdy) := Decrement(remaining, ready, children[..n]);
      var c := children[n];
      (rem[c := rem[c] - 1], if rem[c] - 1 == 0 then rdy + [c] else rdy)
  }

  lemma DecrementStep(remaining: map<NodeId, int>, ready: seq<NodeId>, children: seq<NodeId>, i: nat)
    requires i < |children| && forall c :: c in children ==> c in remaining
    ensures forall c :: c in children[..i] ==> c in remaining
    ensures forall c :: c in children[..i + 1] ==> c in remaining
    ensures var (rem, rdy), c := Decrement(remaining, ready, children[..i]), children[i];
      c in rem && Decrement(remaining, ready, children[..i + 1])
        == (rem[c := rem[c] - 1], if rem[c] - 1 == 0 then rdy + [c] else rdy)
  {
    assert children[..i + 1][..i] == children[..i];
  }

  function ProcessDone(g: Graph, s: Schedule, n: NodeId): Schedule
    requires forall c :: c in g.order ==> c in g.specs
    requires forall c :: c in Children(g.specs, g.order, n) ==> c in s.remaining
  {
    if n in s.processed then s
    else
      var (rem, rdy) := Decrement(s.remaining, s.ready, Children(g.specs, g.order, n));
      s.(remaining := rem, ready := rdy, processed := s.processed + {n})
  }

  /** The counter of `c` is exact, and `c` is in `ready` or past it exactly when the counter is zero. */
  ghost predicate CounterOk(g: Graph, s: Schedule, c: NodeId)
    requires c in g.specs && c in s.remaining
  {
    && s.remaining[c] == CountOutside(g.specs[c].dependsOn, s.processed)
    && (c in s.ready ==> s.remaining[c] == 0 && c !in s.tasked)
    && (c in s.tasked ==> s.remaining[c] == 0)
    && (s.remaining[c] == 0 ==> c in s.ready || c in s.tasked || c in s.processed)
  }

  ghost predicate Distinct(s: seq<NodeId>) {
    forall i, j :: 0 <= i < j < |s| ==> s[i] != s[j]
  }

  ghost predicate ScheduleOk(g: Graph, s: Schedule) {
    && s.remaining.Keys == g.specs.Keys && Distinct(s.ready)
    && (forall c :: c in s.ready ==> c in g.specs)
    && (forall c {:trigger CounterOk(g, s, c)} :: c in g.specs ==> CounterOk(g, s, c))
  }

  lemma {:induction false} DecrementEffect(remaining: map<NodeId, int>, ready: seq<NodeId>, children: seq<NodeId>)
    requires forall c :: c in children ==> c in remaining
    requires forall c :: c in remaining ==> Count(children, c) <= remaining[c]
    ensures var (rem, rdy) := Decrement(remaining, ready, children);
      && (forall c :: c in remaining ==> rem[c] == remaining[c] - Count(children, c))
      && (forall c :: c in rdy <==> c in ready || (c in remaining && Count(children, c) > 0 && rem[c] == 0))
      && (Distinct(ready) && (forall c :: c in ready && c in remaining ==> remaining[c] == 0) ==> Distinct(rdy))
  {
    if children != [] {
      var n := |children| - 1;
      var c := children[n];
      forall x | x in remaining ensures Count(children[..n], x) <= remaining[x] {
      }
      DecrementEffect(remaining, ready, children[..n]);
      var (rem, rdy) := Decrement(remaining, ready, children[..n]);
      assert rem[c] == remaining[c] - Count(children[..n], c);
    }
  }

  lemma {:induction false} CountPositive(s: seq<NodeId>, x: NodeId)
    ensures Count(s, x) > 0 <==> x in s
  {
    if s != [] {
      var n := |s| - 1;
      CountPositive(s[..n], x);
      assert s == s[..n] + [s[n]];
    }
  }

  lemma ChildrenOk(g: Graph, n: NodeId)
    requires Acyclic(g)
    ensures forall c :: c in Children(g.specs, g.order, n) ==> c in g.specs
    ensures forall c :: c in g.specs ==> Count(Children(g.specs, g.order, n), c) == Count(g.specs[c].dependsOn, n)
  {
    forall c ensures c in Children(g.specs, g.order, n) ==> c in g.specs {
      CountChildren(g.specs, g.order, n, c);
      CountPositive(Children(g.specs, g.order, n), c);
    }
    forall c | c in g.specs ensures Count(Children(g.specs, g.order, n), c) == Count(g.specs[c].dependsOn, n) {
      CountChildren(g.specs, g.order, n, c);
    }
  }

  lemma CountersCover(g: Graph, s: Schedule, n: NodeId, children: seq<NodeId>)
    requires ScheduleOk(g, s) && n !in s.processed
    requires forall c :: c in g.specs ==> Count(children, c) == Count(g.specs[c].dependsOn, n)
    ensures forall c :: c in s.remaining ==> Count(children, c) <= s.remaining[c]
    ensures forall c :: c in s.ready ==> s.remaining[c] == 0
  {
    forall c | c in s.remaining ensures Count(children, c) <= s.remaining[c] {
      assert CounterOk(g, s, c);
      CountOutsideAdd(g.specs[c].dependsOn, s.processed, n);
    }
    forall c | c in s.ready ensures s.remaining[c] == 0 {
      assert CounterOk(g, s, c);
    }
  }

  /** One counter across `_process_done`. */
  lemma CounterMoves(g: Graph, s: Schedule, s': Schedule, n: NodeId, c: NodeId)
    requires c in g.specs && c in s.remaining && c in s'.remaining && CounterOk(g, s, c)
    requires n !in s.processed && s'.processed == s.processed + {n} && s'.tasked == s.tasked
    requires s'.remaining[c] == s.remaining[c] - Count(g.specs[c].dependsOn, n)
    requires c in s'.ready <==> c in s.ready || (Count(g.specs[c].dependsOn, n) > 0 && s'.remaining[c] == 0)
    ensures CounterOk(g, s', c)
  {
    CountOutsideAdd(g.specs[c].dependsOn, s.processed, n);
  }

  /** Processing a finished node keeps every counter exact and lets each node enter `ready` at most once. */
  lemma ProcessDoneKeeps(g: Graph, s: Schedule, n: NodeId)
    requires Acyclic(g) && ScheduleOk(g, s) && n in g.specs
    requires forall c :: c in Children(g.specs, g.order, n) ==> c in s.remaining
    ensures ScheduleOk(g, ProcessDone(g, s, n))
  {
    if n !in s.processed {
      ChildrenOk(g, n);
      CountedDown(g, s, ProcessDone(g, s, n), n, Children(g.specs, g.order, n));
    }
  }

  lemma CountedDown(g: Graph, s: Schedule, s': Schedule, n: NodeId, children: seq<NodeId>)
    requires ScheduleOk(g, s) && n !in s.processed
    requires forall c :: c in children ==> c in s.remaining
    requires forall c :: c in g.specs ==> Count(children, c) == Count(g.specs[c].dependsOn, n)
    requires (s'.remaining, s'.ready) == Decrement(s.remaining, s.ready, children)
    requires s'.processed == s.processed + {n} && s'.tasked == s.tasked
    ensures ScheduleOk(g, s')
  {
    CountersCover(g, s, n, children);
    DecrementEffect(s.remaining, s.ready, children);
    forall c | c in g.specs ensures CounterOk(g, s', c) {
      assert CounterOk(g, s, c);
      CounterMoves(g, s, s', n, c);
    }
  }

  // ---------------------------------------------------------------- the transition system

  type Statuses = map<NodeId, Status>

  predicate DepsDone(g: Graph, status: Statuses, n: NodeId)
    requires n in g.specs
  {
    forall d :: d in g.specs[n].dependsOn ==> d in status && status[d] == Done
  }

  function Publish(g: Graph, s: State, n: NodeId, m: Manifest, v: Json): State {
    s.(status := s.status[n := Done], result := s.result[n := NodeResult(v, g.hash(m))])
  }

  /** `_prefetch_ready` for one candidate. A cached `null` counts as absent here. */
  ghost function PeekStep(g: Graph, s: State, e: Event): State
    requires e.StartPeek? || e.ReadPeek? || e.FinishPeek?
  {
    match e
    case StartPeek(n) =>
      if n in g.specs && n in s.status && s.status[n] == Pending && DepsDone(g, s.status, n) && Covers(g, n, s.result)
      then s.(peeks := s.peeks + multiset{Peeking(n, ManifestOf(g, n, s.result))}) else s
    case ReadPeek(p) =>
      if p !in s.peeks || !p.Peeking? then s
      else
        var fp := g.hash(p.manifest);
        var rest := s.peeks - multiset{p};
        if fp in s.cache && s.cache[fp] != JNull
        then s.(peeks := rest + multiset{Peeked(p.node, p.manifest, s.cache[fp])}) else s.(peeks := rest)
    case FinishPeek(p) =>
      if p !in s.peeks || !p.Peeked? then s
      else
        var s' := s.(peeks := s.peeks - multiset{p});
        if p.node in s.status && s.status[p.node] == Pending
        then Publish(g, s', p.node, p.manifest, p.value) else s'
  }

  /** Waiting for the dependencies and claiming the node. */
  ghost function ClaimStep(g: Graph, s: State, n: NodeId): State
    requires n in s.jobs && n in g.specs && n in s.status
  {
    if !DepsDone(g, s.status, n) || !Covers(g, n, s.result) then s
    else if s.status[n] != Pending then s.(jobs := s.jobs[n := Leaving])
    else s.(status := s.status[n := Running], jobs := s.jobs[n := Claimed(ManifestOf(g, n, s.result))])
  }

  /** Calling the node function. */
  function CallStep(g: Graph, s: State, n: NodeId, m: Manifest): State {
    match g.call(m)
    case Ok(v) => s.(jobs := s.jobs[n := Called(m, v)])
    case Raises => s.(status := s.status[n := Failed], jobs := s.jobs - {n}, aborted := true)
  }

  /** `_run_node` together with `run_stage`, one suspension to the next. */
  ghost function JobStep(g: Graph, s: State, n: NodeId): State
    requires n in s.jobs && n in g.specs && n in s.status
  {
    match s.jobs[n]
    case Waiting => ClaimStep(g, s, n)
    case Claimed(m) =>
      s.(jobs := s.jobs[n := if g.hash(m) in s.cache then Ready(m, s.cache[g.hash(m)]) else Missed(m)])
    case Missed(m) => CallStep(g, s, n, m)
    case Called(m, v) => s.(cache := s.cache[g.hash(m) := v], jobs := s.jobs[n := Ready(m, v)])
    case Ready(m, v) => Publish(g, s, n, m, v).(jobs := s.jobs[n := Leaving])
    case Leaving => s.(jobs := s.jobs - {n}, sched := s.sched.(doneQ := s.sched.doneQ + multiset{n}))
  }

  /** Cancelling a task: inside the `try` the node is marked as failed, before and behind it the node stays
      as it is. A task that has claimed its node may be on either side. */
  function CancelStep(s: State, n: NodeId, early: bool): State {
    if !s.aborted || n !in s.jobs then s
    else
      var inside := s.jobs[n].Missed? || s.jobs[n].Called? || (s.jobs[n].Claimed? && !early);
      s.(jobs := s.jobs - {n}, status := if inside then s.status[n := Failed] else s.status)
  }

  ghost predicate CanProcess(g: Graph, s: State, n: NodeId) {
    && (forall c :: c in g.order ==> c in g.specs)
    && (forall c :: c in Children(g.specs, g.order, n) ==> c in s.sched.remaining)
  }

  /** The head of `ready` gets its task. */
  function Tasked(q: Schedule): Schedule
    requires q.ready != []
  {
    q.(ready := q.ready[1..], tasked := q.tasked + {q.ready[0]})
  }

  /** The loop of `_execute_all`. */
  ghost function SchedStep(g: Graph, s: State, e: Event): State
    requires e.PopReady? || e.TakeDone? || e.SweepDone?
  {
    var q := s.sched;
    match e
    case PopReady =>
      if q.ready == [] || q.ready[0] !in s.status || s.status[q.ready[0]] == Failed then s
      else
        var n := q.ready[0];
        var popped := s.(sched := q.(ready := q.ready[1..]));
        if s.status[n] == Done then
          if CanProcess(g, s, n) then popped.(sched := ProcessDone(g, popped.sched, n)) else s
        else if n in s.jobs then popped
        else popped.(jobs := s.jobs[n := Waiting], sched := Tasked(q))
    case TakeDone(n) =>
      if n !in q.doneQ || !CanProcess(g, s, n) then s
      else s.(sched := ProcessDone(g, q.(doneQ := q.doneQ - multiset{n}), n))
    case SweepDone(n) =>
      if n !in s.status || s.status[n] != Done || !CanProcess(g, s, n) then s
      else s.(sched := ProcessDone(g, q, n))
  }

  ghost function Apply(g: Graph, s: State, e: Event): State {
    match e
    case StartPeek(_) => PeekStep(g, s, e)
    case ReadPeek(_) => PeekStep(g, s, e)
    case FinishPeek(_) => PeekStep(g, s, e)
    case PopReady => SchedStep(g, s, e)
    case TakeDone(_) => SchedStep(g, s, e)
    case SweepDone(_) => SchedStep(g, s, e)
    case RunJob(n) => if n in s.jobs && n in g.specs && n in s.status then JobStep(g, s, n) else s
    case Cancel(n, early) => CancelStep(s, n, early)
    case Evict => s.(cache := map[])
  }

  ghost function Execute(g: Graph, s: State, events: seq<Event>): State {
    if events == [] then s else Apply(g, Execute(g, s, events[..|events| - 1]), events[|events| - 1])
  }

  /** `_execute_all` before its loop: counters are the numbers of dependencies, roots are ready. */
  ghost predicate Initial(g: Graph, s: State) {
    && s.status.Keys == g.specs.Keys && (forall n :: n in s.status ==> s.status[n] == Pending)
    && s.result == map[] && s.jobs == map[] && s.peeks == multiset{} && !s.aborted
    && s.sched.remaining.Keys == g.specs.Keys
    && (forall n :: n in g.specs ==> s.sched.remaining[n] == |g.specs[n].dependsOn|)
    && (forall i, j :: 0 <= i < j < |s.sched.ready| ==> s.sched.ready[i] != s.sched.ready[j])
    && (forall n :: n in s.sched.ready <==> n in g.specs && g.specs[n].dependsOn == [])
    && s.sched.processed == {} && s.sched.tasked == {} && s.sched.doneQ == multiset{}
  }

  // ---------------------------------------------------------------- invariants

  ghost predicate NodeOk(g: Graph, goal: Goal, s: State, n: NodeId)
    requires n in goal && n in s.status
  {
    && (s.status[n] == Done <==> n in s.result)
    && (s.status[n] == Done ==>
      g.call(goal[n]).Ok? && s.result[n] == NodeResult(g.call(goal[n]).value, g.hash(goal[n])))
    && (s.status[n] == Running ==> n in s.sched.tasked && (n in s.jobs || s.aborted))
    && (s.status[n] == Running && n in s.jobs ==> !s.jobs[n].Waiting? && !s.jobs[n].Leaving?)
    && (s.status[n] == Failed ==> s.aborted && n !in s.jobs)
    && (n in s.sched.processed ==> s.status[n] == Done)
    && (n in s.sched.doneQ ==> s.status[n] == Done && n in s.sched.tasked)
    && (n in s.sched.tasked ==> n in s.jobs || n in s.sched.doneQ || n in s.sched.processed || s.aborted)
    && (n in s.jobs ==> n in s.sched.tasked && JobOk(g, s.status[n], s.jobs[n], goal[n]))
  }

  predicate JobOk(g: Graph, status: Status, j: Job, goal: Manifest) {
    match j
    case Waiting => true
    case Claimed(m) => status == Running && m == goal
    case Missed(m) => status == Running && m == goal
    case Called(m, v) => status == Running && m == goal && g.call(m) == Ok(v)
    case Ready(m, v) => status == Running && m == goal && g.call(m) == Ok(v)
    case Leaving => status == Done
  }

  predicate PeekOk(g: Graph, goal: Goal, p: Peek) {
    p.node in goal && p.manifest == goal[p.node] && (p.Peeked? ==> g.call(p.manifest) == Ok(p.value))
  }

  ghost predicate Keyed(goal: Goal, s: State) {
    && s.status.Keys == goal.Keys && s.jobs.Keys <= goal.Keys
    && s.sched.processed <= goal.Keys && (forall n :: n in s.sched.doneQ ==> n in goal)
    && s.result.Keys <= goal.Keys
  }

  ghost predicate NodesOk(g: Graph, goal: Goal, s: State)
    requires Keyed(goal, s)
  {
    forall n {:trigger NodeOk(g, goal, s, n)} :: n in goal ==> NodeOk(g, goal, s, n)
  }

  ghost predicate Inv(g: Graph, goal: Goal, s: State) {
    && Keyed(goal, s) && NodesOk(g, goal, s) && SoundCache(g, goal, s.cache)
    && (forall p :: p in s.peeks ==> PeekOk(g, goal, p))
  }

  // ---- what a node that may be computed sees

  ghost predicate Justified(g: Graph, status: Statuses, n: NodeId) {
    n in g.specs && DepsDone(g, status, n)
  }

  predicate Started(status: Statuses, n: NodeId) {
    n in status && (status[n] == Running || status[n] == Done)
  }

  /** Nothing is computed, prefetched or done before its dependencies are done. */
  ghost predicate Settled(g: Graph, status: Statuses, peeks: multiset<Peek>) {
    && (forall n {:trigger Started(status, n)} :: Started(status, n) ==> Justified(g, status, n))
    && (forall p :: p in peeks ==> Justified(g, status, p.node))
  }

  lemma {:induction false} AncestorsDone(g: Graph, status: Statuses, peeks: multiset<Peek>, n: NodeId)
    requires Acyclic(g) && Settled(g, status, peeks) && Justified(g, status, n)
    ensures forall a :: a in Ancestors(g, n) ==> a in status && status[a] == Done
    decreases g.rank[n]
  {
    forall d | d in g.specs[n].dependsOn ensures forall a :: a in Ancestors(g, d) ==> a in status && status[a] == Done {
      assert Started(status, d);
      AncestorsDone(g, status, peeks, d);
    }
  }

  /** Nothing behind a pending node is done. */
  lemma BehindNotDone(g: Graph, status: Statuses, peeks: multiset<Peek>, n: NodeId, d: NodeId)
    requires Acyclic(g) && Settled(g, status, peeks) && n in status && status[n] == Pending && n in g.specs
    requires Ordered(g, n, d) && d !in Ancestors(g, n)
    ensures d in status ==> status[d] != Done
  {
    if d in status && status[d] == Done {
      assert Started(status, d);
      AncestorsDone(g, status, peeks, d);
    }
  }

  /** With all dependencies done, the manifest that a pending node builds is the intended one. */
  lemma BuiltAsIntended(g: Graph, s: State, n: NodeId)
    requires ValidGraph(g) && Inv(g, GoalOf(g), s) && Settled(g, s.status, s.peeks)
    requires n in g.specs && DepsDone(g, s.status, n) && s.status[n] == Pending
    ensures Covers(g, n, s.result) && ManifestOf(g, n, s.result) == GoalOf(g)[n]
  {
    AncestorsDone(g, s.status, s.peeks, n);
    forall d | d in Ancestors(g, n) ensures d in s.result && s.result[d] == Eval(g, d) {
      assert NodeOk(g, GoalOf(g), s, d);
    }
    forall d | Ordered(g, n, d) && d !in Ancestors(g, n) ensures d !in s.result {
      BehindNotDone(g, s.status, s.peeks, n, d);
      assert NodeOk(g, GoalOf(g), s, d);
    }
    IntendedFromResults(g, n, s.result);
  }

  /** What building a manifest now would give, in terms of the goal. */
  ghost predicate BuildsGoal(g: Graph, goal: Goal, s: State, n: NodeId) {
    && n in goal && n in g.specs && n in s.status
    && (DepsDone(g, s.status, n) && s.status[n] == Pending ==> Covers(g, n, s.result) && ManifestOf(g, n, s.result) == goal[n])
  }

  /** Results stay, and whatever is new was justified before. */
  lemma Settles(g: Graph, status: Statuses, status': Statuses, peeks: multiset<Peek>)
    requires forall n :: n in status && status[n] == Done ==> n in status' && status'[n] == Done
    requires forall n :: Started(status', n) ==> Justified(g, status, n)
    requires forall p :: p in peeks ==> Justified(g, status, p.node)
    ensures Settled(g, status', peeks)
  {
    forall n | Justified(g, status, n) ensures Justified(g, status', n) {
    }
  }

  /** One node gets on. */
  lemma SettlesAt(g: Graph, status: Statuses, n: NodeId, now: Status, peeks: multiset<Peek>, peeks': multiset<Peek>)
    requires Settled(g, status, peeks) && peeks' <= peeks && n in status && (status[n] == Done ==> now == Done)
    requires now == Running || now == Done ==> Justified(g, status, n)
    ensures Settled(g, status[n := now], peeks')
  {
    forall m | Started(status[n := now], m) ensures Justified(g, status, m) {
      assert m != n ==> Started(status, m);
    }
    Settles(g, status, status[n := now], peeks');
  }

  lemma PeeksOnly(g: Graph, goal: Goal, s: State, peeks: multiset<Peek>)
    requires Inv(g, goal, s) && forall p :: p in peeks ==> PeekOk(g, goal, p)
    ensures Inv(g, goal, s.(peeks := peeks))
  {
    forall n | n in goal ensures NodeOk(g, goal, s.(peeks := peeks), n) {
      assert NodeOk(g, goal, s, n);
    }
  }

  lemma StartPeekKeeps(g: Graph, goal: Goal, s: State, n: NodeId)
    requires Inv(g, goal, s) && BuildsGoal(g, goal, s, n)
    ensures Inv(g, goal, PeekStep(g, s, StartPeek(n))) && PeekStep(g, s, StartPeek(n)).sched == s.sched
  {
    var s' := PeekStep(g, s, StartPeek(n));
    forall p | p in s'.peeks ensures PeekOk(g, goal, p) {
    }
    PeeksOnly(g, goal, s, s'.peeks);
  }

  lemma PeekAnswered(g: Graph, goal: Goal, s: State, p: Peek)
    requires SoundCache(g, goal, s.cache) && forall q :: q in s.peeks ==> PeekOk(g, goal, q)
    ensures forall q :: q in PeekStep(g, s, ReadPeek(p)).peeks ==> PeekOk(g, goal, q)
    ensures PeekStep(g, s, ReadPeek(p)) == s.(peeks := PeekStep(g, s, ReadPeek(p)).peeks)
  {
    forall q | q in PeekStep(g, s, ReadPeek(p)).peeks ensures PeekOk(g, goal, q) {
      assert p in s.peeks ==> PeekOk(g, goal, p);
    }
  }

  lemma ReadPeekKeeps(g: Graph, goal: Goal, s: State, p: Peek)
    requires Inv(g, goal, s)
    ensures Inv(g, goal, PeekStep(g, s, ReadPeek(p))) && PeekStep(g, s, ReadPeek(p)).sched == s.sched
  {
    PeekAnswered(g, goal, s, p);
    PeeksOnly(g, goal, s, PeekStep(g, s, ReadPeek(p)).peeks);
  }

  lemma PublishKeeps(g: Graph, goal: Goal, s: State, n: NodeId, v: Json)
    requires Inv(g, goal, s) && n in goal && s.status[n] == Pending && g.call(goal[n]) == Ok(v)
    ensures Inv(g, goal, Publish(g, s, n, goal[n], v))
  {
    var s' := Publish(g, s, n, goal[n], v);
    forall x | x in goal ensures NodeOk(g, goal, s', x) {
      assert NodeOk(g, goal, s, x);
    }
  }

  lemma FinishPeekKeeps(g: Graph, goal: Goal, s: State, p: Peek)
    requires Inv(g, goal, s)
    ensures Inv(g, goal, PeekStep(g, s, FinishPeek(p))) && PeekStep(g, s, FinishPeek(p)).sched == s.sched
  {
    if p in s.peeks && p.Peeked? {
      assert PeekOk(g, goal, p);
      var rest := s.(peeks := s.peeks - multiset{p});
      PeeksOnly(g, goal, s, s.peeks - multiset{p});
      if s.status[p.node] == Pending {
        PublishKeeps(g, goal, rest, p.node, p.value);
      }
    }
  }

  lemma JobNodeKeeps(g: Graph, goal: Goal, s: State, n: NodeId, x: NodeId)
    requires Inv(g, goal, s) && n in s.jobs && BuildsGoal(g, goal, s, n) && x in goal
    ensures x in JobStep(g, s, n).status && NodeOk(g, goal, JobStep(g, s, n), x)
  {
    assert NodeOk(g, goal, s, x);
    if x == n {
      OwnNodeKeeps(g, goal, s, n);
    } else {
      JobElsewhere(g, s, n, x);
    }
  }

  lemma OwnNodeKeeps(g: Graph, goal: Goal, s: State, n: NodeId)
    requires n in s.status && n in s.jobs && BuildsGoal(g, goal, s, n) && NodeOk(g, goal, s, n)
    requires SoundCache(g, goal, s.cache)
    ensures n in JobStep(g, s, n).status && NodeOk(g, goal, JobStep(g, s, n), n)
  {
    if s.jobs[n].Waiting? {
      OwnNodeStarts(g, goal, s, n);
    } else if s.jobs[n].Missed? {
      OwnNodeCalls(g, goal, s, n);
    } else if s.jobs[n].Ready? || s.jobs[n].Leaving? {
      OwnNodeEnds(g, goal, s, n);
    } else {
      OwnNodeMoves(g, goal, s, n);
    }
  }

  lemma OwnNodeStarts(g: Graph, goal: Goal, s: State, n: NodeId)
    requires n in s.status && n in s.jobs && s.jobs[n].Waiting? && BuildsGoal(g, goal, s, n) && NodeOk(g, goal, s, n)
    ensures n in JobStep(g, s, n).status && NodeOk(g, goal, JobStep(g, s, n), n)
  {
  }

  lemma OwnNodeCalls(g: Graph, goal: Goal, s: State, n: NodeId)
    requires n in s.status && n in s.jobs && s.jobs[n].Missed? && n in goal && n in g.specs && NodeOk(g, goal, s, n)
    ensures n in JobStep(g, s, n).status && NodeOk(g, goal, JobStep(g, s, n), n)
  {
  }

  lemma OwnNodeMoves(g: Graph, goal: Goal, s: State, n: NodeId)
    requires n in s.status && n in s.jobs && n in goal && n in g.specs && NodeOk(g, goal, s, n)
    requires SoundCache(g, goal, s.cache) && (s.jobs[n].Claimed? || s.jobs[n].Called?)
    ensures n in JobStep(g, s, n).status && NodeOk(g, goal, JobStep(g, s, n), n)
  {
  }

  lemma OwnNodeEnds(g: Graph, goal: Goal, s: State, n: NodeId)
    requires n in s.status && n in s.jobs && n in goal && n in g.specs && NodeOk(g, goal, s, n)
    requires s.jobs[n].Ready? || s.jobs[n].Leaving?
    ensures n in JobStep(g, s, n).status && NodeOk(g, goal, JobStep(g, s, n), n)
  {
  }

  ghost predicate Untouched(s: State, s': State, x: NodeId)
    requires x in s.status
  {
    && x in s'.status && s'.status[x] == s.status[x]
    && (x in s'.result <==> x in s.result) && (x in s.result ==> s'.result[x] == s.result[x])
    && (x in s'.jobs <==> x in s.jobs) && (x in s.jobs ==> s'.jobs[x] == s.jobs[x])
    && s'.sched.processed == s.sched.processed && s'.sched.tasked == s.sched.tasked
    && (x in s'.sched.doneQ <==> x in s.sched.doneQ) && (s.aborted ==> s'.aborted)
  }

  /** A node's task touches no other node. */
  lemma JobElsewhere(g: Graph, s: State, n: NodeId, x: NodeId)
    requires n in s.status && n in s.jobs && n in g.specs && x in s.status && x != n
    ensures Untouched(s, JobStep(g, s, n), x)
  {
    if s.jobs[n].Waiting? || s.jobs[n].Missed? || s.jobs[n].Leaving? {
      TurnElsewhere(g, s, n, x);
    } else {
      WorkElsewhere(g, s, n, x);
    }
  }

  lemma TurnElsewhere(g: Graph, s: State, n: NodeId, x: NodeId)
    requires n in s.status && n in s.jobs && n in g.specs && x in s.status && x != n
    requires s.jobs[n].Waiting? || s.jobs[n].Missed? || s.jobs[n].Leaving?
    ensures Untouched(s, JobStep(g, s, n), x)
  {
  }

  lemma WorkElsewhere(g: Graph, s: State, n: NodeId, x: NodeId)
    requires n in s.status && n in s.jobs && n in g.specs && x in s.status && x != n
    requires s.jobs[n].Claimed? || s.jobs[n].Called? || s.jobs[n].Ready?
    ensures Untouched(s, JobStep(g, s, n), x)
  {
  }

  /** A task's step changes at most its own entries. */
  ghost predicate Local(s: State, s': State, n: NodeId) {
    && s'.status.Keys == s.status.Keys && s'.jobs.Keys <= s.jobs.Keys && s'.result.Keys <= s.result.Keys + {n}
    && s'.sched.processed == s.sched.processed
    && (s'.sched.doneQ == s.sched.doneQ || s'.sched.doneQ == s.sched.doneQ + multiset{n})
    && s'.peeks == s.peeks
  }

  lemma JobLocal(g: Graph, s: State, n: NodeId)
    requires n in s.jobs && n in g.specs && n in s.status
    ensures Local(s, JobStep(g, s, n), n)
  {
    if s.jobs[n].Missed? || s.jobs[n].Leaving? {
      assert Local(s, JobStep(g, s, n), n);
    } else if s.jobs[n].Waiting? {
      assert Local(s, JobStep(g, s, n), n);
    } else {
      assert Local(s, JobStep(g, s, n), n);
    }
  }

  lemma JobFrame(g: Graph, goal: Goal, s: State, n: NodeId)
    requires Keyed(goal, s) && n in s.jobs && n in g.specs
    ensures Keyed(goal, JobStep(g, s, n)) && JobStep(g, s, n).peeks == s.peeks
  {
    JobLocal(g, s, n);
  }

  lemma JobCache(g: Graph, goal: Goal, s: State, n: NodeId)
    requires Separate(g, goal) && Inv(g, goal, s) && n in s.jobs && n in g.specs
    ensures SoundCache(g, goal, JobStep(g, s, n).cache)
  {
    assert NodeOk(g, goal, s, n);
    if s.jobs[n].Called? {
      StoreKeepsSound(g, goal, s.cache, n, s.jobs[n].value);
    }
  }

  lemma JobKeeps(g: Graph, goal: Goal, s: State, n: NodeId)
    requires Separate(g, goal) && Inv(g, goal, s) && n in s.jobs && BuildsGoal(g, goal, s, n)
    ensures Inv(g, goal, JobStep(g, s, n))
  {
    JobFrame(g, goal, s, n);
    JobCache(g, goal, s, n);
    forall x | x in goal ensures NodeOk(g, goal, JobStep(g, s, n), x) {
      JobNodeKeeps(g, goal, s, n, x);
    }
  }

  /** The scheduler only moves finished nodes from place to place. */
  lemma ProcessNodes(g: Graph, goal: Goal, s: State, q: Schedule, n: NodeId)
    requires Inv(g, goal, s) && n in goal && s.status[n] == Done
    requires q.processed == s.sched.processed + {n} && q.tasked == s.sched.tasked
    requires q.doneQ == s.sched.doneQ || q.doneQ == s.sched.doneQ - multiset{n}
    ensures Inv(g, goal, s.(sched := q))
  {
    forall x | x in goal ensures NodeOk(g, goal, s.(sched := q), x) {
      assert NodeOk(g, goal, s, x);
    }
  }

  lemma ProcessEffect(g: Graph, q: Schedule, n: NodeId)
    requires forall c :: c in g.order ==> c in g.specs
    requires forall c :: c in Children(g.specs, g.order, n) ==> c in q.remaining
    ensures ProcessDone(g, q, n).processed == q.processed + {n}
    ensures ProcessDone(g, q, n).tasked == q.tasked && ProcessDone(g, q, n).doneQ == q.doneQ
  {
  }

  lemma ProcessQueued(g: Graph, s: Schedule, q: Schedule, n: NodeId)
    requires Acyclic(g) && ScheduleOk(g, s) && n in g.specs && q == s.(doneQ := q.doneQ)
    requires forall c :: c in Children(g.specs, g.order, n) ==> c in s.remaining
    ensures ScheduleOk(g, ProcessDone(g, q, n))
  {
    QueueIrrelevant(g, s, q);
    ProcessDoneKeeps(g, q, n);
  }

  /** A finished node is processed, from `done_q` or not. */
  lemma ProcessKeeps(g: Graph, s: State, q: Schedule, n: NodeId)
    requires ValidGraph(g) && AllOk(g, s) && CanProcess(g, s, n) && n in s.status && s.status[n] == Done
    requires q == s.sched.(doneQ := q.doneQ)
    requires q.doneQ == s.sched.doneQ || q.doneQ == s.sched.doneQ - multiset{n}
    ensures AllOk(g, s.(sched := ProcessDone(g, q, n)))
  {
    ProcessQueued(g, s.sched, q, n);
    ProcessEffect(g, q, n);
    ProcessNodes(g, GoalOf(g), s, ProcessDone(g, q, n), n);
  }

  lemma QueuedIsDone(g: Graph, goal: Goal, s: State, n: NodeId)
    requires Inv(g, goal, s) && n in s.sched.doneQ
    ensures n in s.status && s.status[n] == Done
  {
    assert NodeOk(g, goal, s, n);
  }

  lemma TakeKeeps(g: Graph, s: State, n: NodeId)
    requires ValidGraph(g) && AllOk(g, s)
    ensures AllOk(g, SchedStep(g, s, TakeDone(n)))
  {
    var s' := SchedStep(g, s, TakeDone(n));
    if n in s.sched.doneQ && CanProcess(g, s, n) {
      var q := s.sched.(doneQ := s.sched.doneQ - multiset{n});
      QueuedIsDone(g, GoalOf(g), s, n);
      ProcessKeeps(g, s, q, n);
      assert s' == s.(sched := ProcessDone(g, q, n));
    } else {
      assert s' == s;
    }
  }

  lemma SweepKeeps(g: Graph, s: State, n: NodeId)
    requires ValidGraph(g) && AllOk(g, s)
    ensures AllOk(g, SchedStep(g, s, SweepDone(n)))
  {
    var s' := SchedStep(g, s, SweepDone(n));
    if n in s.status && s.status[n] == Done && CanProcess(g, s, n) {
      ProcessKeeps(g, s, s.sched, n);
      assert s' == s.(sched := ProcessDone(g, s.sched, n));
    } else {
      assert s' == s;
    }
  }

  lemma QueueIrrelevant(g: Graph, s: Schedule, t: Schedule)
    requires ScheduleOk(g, s) && t == s.(doneQ := t.doneQ)
    ensures ScheduleOk(g, t)
  {
    forall c | c in g.specs ensures CounterOk(g, t, c) {
      assert CounterOk(g, s, c);
    }
  }

  lemma PopTaskKeeps(g: Graph, goal: Goal, s: State)
    requires goal.Keys == g.specs.Keys && Inv(g, goal, s) && ScheduleOk(g, s.sched)
    requires s.sched.ready != [] && s.sched.ready[0] in s.status
    requires s.status[s.sched.ready[0]] != Done && s.status[s.sched.ready[0]] != Failed
    ensures Inv(g, goal, SchedStep(g, s, PopReady)) && ScheduleOk(g, SchedStep(g, s, PopReady).sched)
  {
    var q, n := s.sched, s.sched.ready[0];
    assert NodeOk(g, goal, s, n) && CounterOk(g, q, n);
    TaskStarts(g, goal, s, n);
    TaskCounts(g, q);
  }

  lemma TaskStarts(g: Graph, goal: Goal, s: State, n: NodeId)
    requires Inv(g, goal, s) && n in goal && n !in s.sched.tasked && s.status[n] == Pending
    requires s.sched.ready != [] && s.sched.ready[0] == n
    ensures n !in s.jobs && Inv(g, goal, s.(jobs := s.jobs[n := Waiting], sched := Tasked(s.sched)))
  {
    assert NodeOk(g, goal, s, n);
    var s' := s.(jobs := s.jobs[n := Waiting], sched := Tasked(s.sched));
    forall x | x in goal ensures NodeOk(g, goal, s', x) {
      assert NodeOk(g, goal, s, x);
    }
  }

  lemma TaskCounts(g: Graph, q: Schedule)
    requires ScheduleOk(g, q) && q.ready != []
    ensures ScheduleOk(g, Tasked(q))
  {
    PopFirst(q.ready);
    forall c | c in g.specs ensures CounterOk(g, Tasked(q), c) {
      assert CounterOk(g, q, c);
    }
  }

  lemma PopFirst(ready: seq<NodeId>)
    requires ready != [] && Distinct(ready)
    ensures Distinct(ready[1..]) && ready[0] !in ready[1..]
    ensures forall x :: x in ready <==> x == ready[0] || x in ready[1..]
  {
    assert ready == [ready[0]] + ready[1..];
  }

  /** Processing the popped head: the same as processing it first and popping afterwards. */
  lemma PopProcess(g: Graph, q: Schedule)
    requires Acyclic(g) && ScheduleOk(g, q) && q.ready != []
    requires forall c :: c in Children(g.specs, g.order, q.ready[0]) ==> c in q.remaining
    ensures ScheduleOk(g, ProcessDone(g, q.(ready := q.ready[1..]), q.ready[0]))
  {
    var n := q.ready[0];
    ProcessDoneKeeps(g, q, n);
    ProcessEffect(g, q, n);
    PopCommutes(g, q, n);
    PopProcessed(g, ProcessDone(g, q, n), n);
  }

  lemma PopCommutes(g: Graph, q: Schedule, n: NodeId)
    requires q.ready != [] && q.ready[0] == n && forall c :: c in g.order ==> c in g.specs
    requires forall c :: c in Children(g.specs, g.order, n) ==> c in q.remaining
    ensures var full := ProcessDone(g, q, n);
      full.ready != [] && full.ready[0] == n && ProcessDone(g, q.(ready := q.ready[1..]), n) == full.(ready := full.ready[1..])
  {
    if n !in q.processed {
      DecrementTail(q.remaining, q.ready, Children(g.specs, g.order, n));
    }
  }

  lemma PopProcessed(g: Graph, q: Schedule, n: NodeId)
    requires ScheduleOk(g, q) && q.ready != [] && q.ready[0] == n && n in q.processed
    ensures ScheduleOk(g, q.(ready := q.ready[1..]))
  {
    PopFirst(q.ready);
    forall c | c in g.specs ensures CounterOk(g, q.(ready := q.ready[1..]), c) {
      assert CounterOk(g, q, c);
    }
  }

  lemma {:induction false} DecrementTail(remaining: map<NodeId, int>, ready: seq<NodeId>, children: seq<NodeId>)
    requires ready != [] && forall c :: c in children ==> c in remaining
    ensures Decrement(remaining, ready[1..], children).0 == Decrement(remaining, ready, children).0
    ensures Decrement(remaining, ready, children).1 != [] && Decrement(remaining, ready, children).1[0] == ready[0]
    ensures Decrement(remaining, ready[1..], children).1 == Decrement(remaining, ready, children).1[1..]
  {
    if children != [] {
      DecrementTail(remaining, ready, children[..|children| - 1]);
    }
  }

  /** The cluster of facts that every event keeps. */
  ghost predicate AllOk(g: Graph, s: State)
    requires ValidGraph(g)
  {
    Inv(g, GoalOf(g), s) && ScheduleOk(g, s.sched) && Settled(g, s.status, s.peeks)
  }

  lemma BuildsAlways(g: Graph, s: State, n: NodeId)
    requires ValidGraph(g) && Inv(g, GoalOf(g), s) && Settled(g, s.status, s.peeks) && n in g.specs
    ensures BuildsGoal(g, GoalOf(g), s, n)
  {
    if DepsDone(g, s.status, n) && s.status[n] == Pending {
      BuiltAsIntended(g, s, n);
    }
  }

  lemma PublishSettles(g: Graph, s: State, p: Peek)
    requires Settled(g, s.status, s.peeks)
    ensures Settled(g, PeekStep(g, s, FinishPeek(p)).status, PeekStep(g, s, FinishPeek(p)).peeks)
  {
    if p in s.peeks && p.Peeked? && p.node in s.status && s.status[p.node] == Pending {
      SettlesAt(g, s.status, p.node, Done, s.peeks, s.peeks - multiset{p});
    }
  }

  lemma StartSettles(g: Graph, s: State, n: NodeId)
    requires Settled(g, s.status, s.peeks)
    ensures Settled(g, PeekStep(g, s, StartPeek(n)).status, PeekStep(g, s, StartPeek(n)).peeks)
  {
    forall p | p in PeekStep(g, s, StartPeek(n)).peeks ensures Justified(g, s.status, p.node) {
    }
  }

  lemma ReadSettles(g: Graph, s: State, p: Peek)
    requires Settled(g, s.status, s.peeks)
    ensures Settled(g, PeekStep(g, s, ReadPeek(p)).status, PeekStep(g, s, ReadPeek(p)).peeks)
  {
    forall q | q in PeekStep(g, s, ReadPeek(p)).peeks ensures Justified(g, s.status, q.node) {
    }
  }

  lemma PeekSettles(g: Graph, s: State, e: Event)
    requires Settled(g, s.status, s.peeks) && (e.StartPeek? || e.ReadPeek? || e.FinishPeek?)
    ensures Settled(g, PeekStep(g, s, e).status, PeekStep(g, s, e).peeks)
  {
    if e.FinishPeek? {
      PublishSettles(g, s, e.peek);
    } else if e.StartPeek? {
      StartSettles(g, s, e.node);
    } else {
      ReadSettles(g, s, e.peek);
    }
  }

  /** Only its own status moves, and only when it claims the node, publishes or fails. */
  lemma JobStatus(g: Graph, s: State, n: NodeId)
    requires n in s.jobs && n in g.specs && n in s.status
    requires s.jobs[n].Missed? || s.jobs[n].Ready? ==> s.status[n] == Running
    ensures var s' := JobStep(g, s, n);
      && n in s'.status && s'.status == s.status[n := s'.status[n]]
      && (s'.status != s.status ==> s.status[n] != Done && (s.status[n] == Running || DepsDone(g, s.status, n)))
  {
  }

  lemma JobSettles(g: Graph, s: State, n: NodeId)
    requires Settled(g, s.status, s.peeks) && n in s.jobs && n in g.specs && n in s.status
    requires s.jobs[n].Missed? || s.jobs[n].Ready? ==> s.status[n] == Running
    ensures Settled(g, JobStep(g, s, n).status, s.peeks) && JobStep(g, s, n).peeks == s.peeks
  {
    JobLocal(g, s, n);
    assert Started(s.status, n) ==> Justified(g, s.status, n);
    if JobStep(g, s, n).status != s.status {
      JobStatus(g, s, n);
      SettlesAt(g, s.status, n, JobStep(g, s, n).status[n], s.peeks, s.peeks);
    }
  }

  lemma PeekEventKeeps(g: Graph, s: State, e: Event)
    requires ValidGraph(g) && AllOk(g, s) && (e.StartPeek? || e.ReadPeek? || e.FinishPeek?)
    ensures AllOk(g, Apply(g, s, e))
  {
    PeekSettles(g, s, e);
    if e.FinishPeek? {
      FinishPeekKeeps(g, GoalOf(g), s, e.peek);
    } else if e.ReadPeek? {
      ReadPeekKeeps(g, GoalOf(g), s, e.peek);
    } else if e.node in g.specs {
      BuildsAlways(g, s, e.node);
      StartPeekKeeps(g, GoalOf(g), s, e.node);
    }
  }

  lemma JobEventKeeps(g: Graph, s: State, n: NodeId)
    requires ValidGraph(g) && Separate(g, GoalOf(g)) && AllOk(g, s) && n in s.jobs
    ensures AllOk(g, JobStep(g, s, n))
  {
    BuildsAlways(g, s, n);
    JobKeeps(g, GoalOf(g), s, n);
    JobSchedule(g, s, n);
    QueueIrrelevant(g, s.sched, JobStep(g, s, n).sched);
    RunsWhileComputing(g, GoalOf(g), s, n);
    JobSettles(g, s, n);
  }

  lemma RunsWhileComputing(g: Graph, goal: Goal, s: State, n: NodeId)
    requires Inv(g, goal, s) && n in s.jobs
    ensures s.jobs[n].Claimed? || s.jobs[n].Missed? || s.jobs[n].Called? || s.jobs[n].Ready? ==> s.status[n] == Running
  {
    assert NodeOk(g, goal, s, n);
  }

  /** Cancelled tasks are gone; their nodes are as they were or failed. */
  lemma CancelKeeps(g: Graph, goal: Goal, s: State, n: NodeId, early: bool)
    requires Inv(g, goal, s)
    ensures Inv(g, goal, CancelStep(s, n, early)) && CancelStep(s, n, early).sched == s.sched
  {
    var s' := CancelStep(s, n, early);
    if s.aborted && n in s.jobs {
      RunsWhileComputing(g, goal, s, n);
      forall x | x in goal ensures NodeOk(g, goal, s', x) {
        assert NodeOk(g, goal, s, x);
      }
    }
  }

  /** A node function that raises fails its node and stops the group; then a cancelled task fails its node exactly
      from the cache lookup to the store, and a task that has just claimed its node may do either. */
  lemma FailureMarks(g: Graph, s: State, n: NodeId, early: bool)
    requires n in s.jobs && n in g.specs && n in s.status
    ensures s.jobs[n].Missed? && g.call(s.jobs[n].manifest).Raises? ==>
      var t := Apply(g, s, RunJob(n)); t.aborted && n !in t.jobs && t.status == s.status[n := Failed] && t.result == s.result
    ensures !s.aborted ==> Apply(g, s, Cancel(n, early)) == s
    ensures s.aborted ==> var t := Apply(g, s, Cancel(n, early));
      && n !in t.jobs && t.result == s.result && t.cache == s.cache
      && (s.jobs[n].Waiting? || s.jobs[n].Ready? || s.jobs[n].Leaving? ==> t.status == s.status)
      && (s.jobs[n].Missed? || s.jobs[n].Called? ==> t.status == s.status[n := Failed])
      && (s.jobs[n].Claimed? ==> t.status == if early then s.status else s.status[n := Failed])
  {
  }

  /** A prefetch of a pending node whose dependencies are done and whose value is cached publishes that value
      without a call. */
  lemma PrefetchPublishes(g: Graph, s: State, n: NodeId) returns (m: Manifest, t: State)
    requires n in g.specs && n in s.status && s.status[n] == Pending && DepsDone(g, s.status, n) && Covers(g, n, s.result)
    requires var fp := g.hash(ManifestOf(g, n, s.result)); fp in s.cache && s.cache[fp] != JNull
    ensures BuiltFrom(g, n, m, s.result) && g.hash(m) in s.cache
    ensures t == Apply(g, Apply(g, Apply(g, s, StartPeek(n)), ReadPeek(Peeking(n, m))), FinishPeek(Peeked(n, m, s.cache[g.hash(m)])))
    ensures t.status == s.status[n := Done] && t.result == s.result[n := NodeResult(s.cache[g.hash(m)], g.hash(m))]
    ensures t.jobs == s.jobs && t.sched == s.sched
  {
    m := ManifestOf(g, n, s.result);
    ManifestBuilt(g, n, s.result);
    var asked := Apply(g, s, StartPeek(n));
    assert asked == s.(peeks := s.peeks + multiset{Peeking(n, m)});
    PeekReads(g, asked, n, m);
    var read := Apply(g, asked, ReadPeek(Peeking(n, m)));
    PeekTells(g, read, n, m, s.cache[g.hash(m)]);
    t := Apply(g, read, FinishPeek(Peeked(n, m, s.cache[g.hash(m)])));
  }

  lemma PeekReads(g: Graph, s: State, n: NodeId, m: Manifest)
    requires Peeking(n, m) in s.peeks && g.hash(m) in s.cache && s.cache[g.hash(m)] != JNull
    ensures var t := Apply(g, s, ReadPeek(Peeking(n, m)));
      t == s.(peeks := t.peeks) && Peeked(n, m, s.cache[g.hash(m)]) in t.peeks
  {
  }

  lemma PeekTells(g: Graph, s: State, n: NodeId, m: Manifest, v: Json)
    requires Peeked(n, m, v) in s.peeks && n in s.status && s.status[n] == Pending
    ensures var t := Apply(g, s, FinishPeek(Peeked(n, m, v)));
      t == s.(peeks := t.peeks, status := s.status[n := Done], result := s.result[n := NodeResult(v, g.hash(m))])
  {
  }

  lemma CancelSettles(g: Graph, s: State, n: NodeId, early: bool)
    requires Settled(g, s.status, s.peeks) && (n in s.jobs ==> n in s.status)
    requires n in s.jobs && (s.jobs[n].Claimed? || s.jobs[n].Missed? || s.jobs[n].Called?) ==> s.status[n] == Running
    ensures Settled(g, CancelStep(s, n, early).status, s.peeks) && CancelStep(s, n, early).peeks == s.peeks
  {
    if n in s.jobs && (s.jobs[n].Claimed? || s.jobs[n].Missed? || s.jobs[n].Called?) {
      SettlesAt(g, s.status, n, Failed, s.peeks, s.peeks);
    }
  }

  lemma CancelEventKeeps(g: Graph, s: State, n: NodeId, early: bool)
    requires ValidGraph(g) && AllOk(g, s)
    ensures AllOk(g, CancelStep(s, n, early))
  {
    if n in s.jobs {
      CancelKeeps(g, GoalOf(g), s, n, early);
      RunsWhileComputing(g, GoalOf(g), s, n);
      CancelSettles(g, s, n, early);
    }
  }

  /** The popped node is finished already. */
  lemma PopFinishedKeeps(g: Graph, s: State)
    requires ValidGraph(g) && AllOk(g, s) && s.sched.ready != [] && CanProcess(g, s, s.sched.ready[0])
    requires s.sched.ready[0] in s.status && s.status[s.sched.ready[0]] == Done
    ensures AllOk(g, s.(sched := ProcessDone(g, s.sched.(ready := s.sched.ready[1..]), s.sched.ready[0])))
  {
    var q := s.sched;
    var popped, n := q.(ready := q.ready[1..]), q.ready[0];
    PopProcess(g, q);
    ProcessEffect(g, popped, n);
    ProcessNodes(g, GoalOf(g), s, ProcessDone(g, popped, n), n);
  }

  lemma PopEventKeeps(g: Graph, s: State)
    requires ValidGraph(g) && AllOk(g, s)
    ensures AllOk(g, SchedStep(g, s, PopReady))
  {
    var q := s.sched;
    if q.ready == [] || q.ready[0] !in s.status || s.status[q.ready[0]] == Failed {
    } else if s.status[q.ready[0]] != Done {
      PopTaskKeeps(g, GoalOf(g), s);
      PopStatus(g, s);
    } else if CanProcess(g, s, q.ready[0]) {
      PopFinishedKeeps(g, s);
    }
  }

  lemma PopStatus(g: Graph, s: State)
    ensures SchedStep(g, s, PopReady).status == s.status && SchedStep(g, s, PopReady).peeks == s.peeks
  {
  }

  lemma EvictKeeps(g: Graph, goal: Goal, s: State)
    requires Inv(g, goal, s)
    ensures Inv(g, goal, s.(cache := map[]))
  {
    forall x | x in goal ensures NodeOk(g, goal, s.(cache := map[]), x) {
      assert NodeOk(g, goal, s, x);
    }
  }

  lemma StepKeeps(g: Graph, s: State, e: Event)
    requires ValidGraph(g) && Separate(g, GoalOf(g)) && AllOk(g, s)
    ensures AllOk(g, Apply(g, s, e))
  {
    match e
    case StartPeek(_) => PeekEventKeeps(g, s, e);
    case ReadPeek(_) => PeekEventKeeps(g, s, e);
    case FinishPeek(_) => PeekEventKeeps(g, s, e);
    case PopReady => PopEventKeeps(g, s);
    case TakeDone(n) => TakeKeeps(g, s, n);
    case SweepDone(n) => SweepKeeps(g, s, n);
    case RunJob(n) => if n in s.jobs { JobEventKeeps(g, s, n); }
    case Cancel(n, early) => CancelEventKeeps(g, s, n, early);
    case Evict => EvictKeeps(g, GoalOf(g), s);
  }

  lemma InitialSchedule(g: Graph, s: State)
    requires Initial(g, s)
    ensures ScheduleOk(g, s.sched)
  {
    forall c | c in g.specs ensures CounterOk(g, s.sched, c) {
      CountOutsideEmpty(g.specs[c].dependsOn);
    }
  }

  lemma InitialNodes(g: Graph, goal: Goal, s: State)
    requires Initial(g, s) && goal.Keys == g.specs.Keys && SoundCache(g, goal, s.cache)
    ensures Inv(g, goal, s)
  {
    forall x | x in goal ensures NodeOk(g, goal, s, x) {
    }
  }

  lemma InitialOk(g: Graph, s: State)
    requires ValidGraph(g) && Initial(g, s) && SoundCache(g, GoalOf(g), s.cache)
    ensures AllOk(g, s)
  {
    InitialSchedule(g, s);
    InitialNodes(g, GoalOf(g), s);
  }

  lemma {:induction false} RunOk(g: Graph, s: State, events: seq<Event>)
    requires ValidGraph(g) && Separate(g, GoalOf(g)) && Initial(g, s) && SoundCache(g, GoalOf(g), s.cache)
    ensures AllOk(g, Execute(g, s, events))
  {
    if events == [] {
      InitialOk(g, s);
    } else {
      RunOk(g, s, events[..|events| - 1]);
      StepKeeps(g, Execute(g, s, events[..|events| - 1]), events[|events| - 1]);
    }
  }

  // ---------------------------------------------------------------- the theorems

  /** Whatever the interleaving, the prefetches and the cache, a finished node holds the value and the
      fingerprint of recursive evaluation. */
  lemma FinishedNodesAreRight(g: Graph, s: State, events: seq<Event>, n: NodeId)
    requires ValidGraph(g) && Separate(g, GoalOf(g)) && Initial(g, s) && SoundCache(g, GoalOf(g), s.cache)
    requires n in g.specs && n in Execute(g, s, events).result
    ensures Execute(g, s, events).result[n] == Eval(g, n)
    ensures g.call(Intended(g, n)) == Ok(Execute(g, s, events).result[n].value)
  {
    RunOk(g, s, events);
    ResultRight(g, Execute(g, s, events), n);
  }

  lemma ResultRight(g: Graph, s: State, n: NodeId)
    requires ValidGraph(g) && Inv(g, GoalOf(g), s) && n in g.specs && n in s.result
    ensures s.result[n] == Eval(g, n) && g.call(Intended(g, n)) == Ok(s.result[n].value)
  {
    assert NodeOk(g, GoalOf(g), s, n);
  }

  /** The results so far of the nodes before `n`. */
  ghost function Before(g: Graph, s: State, n: NodeId): Results
    requires Acyclic(g) && n in g.specs && Ancestors(g, n) <= s.result.Keys
  {
    map d | d in Ancestors(g, n) :: s.result[d]
  }

  /** A finished node holds what its function returns, and what is hashed, when it is called with the results
      of the nodes before it that are held now. */
  lemma FinishedFromResults(g: Graph, s: State, events: seq<Event>, n: NodeId) returns (m: Manifest)
    requires ValidGraph(g) && Separate(g, GoalOf(g)) && Initial(g, s) && SoundCache(g, GoalOf(g), s.cache)
    requires n in g.specs && n in Execute(g, s, events).result
    ensures var r := Execute(g, s, events);
      && Ancestors(g, n) <= r.result.Keys && BuiltFrom(g, n, m, Before(g, r, n))
      && g.call(m) == Ok(r.result[n].value) && g.hash(m) == r.result[n].fingerprint
  {
    RunOk(g, s, events);
    m := FinishedFrom(g, Execute(g, s, events), n);
  }

  lemma FinishedFrom(g: Graph, s: State, n: NodeId) returns (m: Manifest)
    requires ValidGraph(g) && AllOk(g, s) && n in g.specs && n in s.result
    ensures Ancestors(g, n) <= s.result.Keys && BuiltFrom(g, n, m, Before(g, s, n))
    ensures g.call(m) == Ok(s.result[n].value) && g.hash(m) == s.result[n].fingerprint
  {
    ResultRight(g, s, n);
    FinishedBehind(g, s, n);
    m := Intended(g, n);
    EvalBuilt(g, n);
    SameBefore(g, s, n);
  }

  lemma SameBefore(g: Graph, s: State, n: NodeId)
    requires ValidGraph(g) && n in g.specs
    requires forall d :: d in Ancestors(g, n) ==> d in s.result && s.result[d] == Eval(g, d)
    ensures Ancestors(g, n) <= s.result.Keys && Before(g, s, n) == Upstream(g, n)
  {
  }

  lemma FinishedBehind(g: Graph, s: State, n: NodeId)
    requires ValidGraph(g) && AllOk(g, s) && n in g.specs && n in s.result
    ensures forall d :: d in Ancestors(g, n) ==> d in s.result && s.result[d] == Eval(g, d)
  {
    assert NodeOk(g, GoalOf(g), s, n);
    assert Started(s.status, n);
    AncestorsDone(g, s.status, s.peeks, n);
    forall d | d in Ancestors(g, n) ensures d in s.result && s.result[d] == Eval(g, d) {
      assert NodeOk(g, GoalOf(g), s, d);
      ResultRight(g, s, d);
    }
  }

  /** A task that claims its node goes on with the manifest built from the results of that moment. */
  lemma ClaimBuilds(g: Graph, s: State, n: NodeId)
    requires n in s.jobs && n in g.specs && n in s.status && n in g.workspace && s.jobs[n].Waiting?
    requires s.status[n] == Pending && Apply(g, s, RunJob(n)) != s
    ensures var j := Apply(g, s, RunJob(n)).jobs;
      n in j && j[n].Claimed? && BuiltFrom(g, n, j[n].manifest, s.result)
  {
    ManifestBuilt(g, n, s.result);
  }

  /** A completed run returns exactly the outputs of the goal manifests. */
  lemma CompletedTable(g: Graph, goal: Goal, s: State)
    requires Inv(g, goal, s) && goal.Keys <= s.sched.processed
    ensures s.result.Keys == goal.Keys
    ensures forall n :: n in goal ==> s.result[n] == NodeResult(Value(g.call(goal[n])), g.hash(goal[n]))
  {
    forall n | n in goal
      ensures n in s.result && s.result[n] == NodeResult(Value(g.call(goal[n])), g.hash(goal[n]))
    {
      assert NodeOk(g, goal, s, n);
    }
  }

  lemma SameTable(g: Graph, goal: Goal, x: State, y: State)
    requires Inv(g, goal, x) && Inv(g, goal, y) && goal.Keys <= x.sched.processed && goal.Keys <= y.sched.processed
    ensures x.result == y.result
  {
    CompletedTable(g, goal, x);
    CompletedTable(g, goal, y);
    assert forall n :: n in goal ==> x.result[n] == y.result[n];
  }

  /** Two completed runs return the same results, whatever their schedules and initial caches. */
  lemma ResultsIndependent(g: Graph, s: State, t: State, a: seq<Event>, b: seq<Event>)
    requires ValidGraph(g) && Separate(g, GoalOf(g))
    requires Initial(g, s) && Initial(g, t) && SoundCache(g, GoalOf(g), s.cache) && SoundCache(g, GoalOf(g), t.cache)
    requires g.specs.Keys <= Execute(g, s, a).sched.processed && g.specs.Keys <= Execute(g, t, b).sched.processed
    ensures Execute(g, s, a).result == Execute(g, t, b).result
  {
    RunOk(g, s, a);
    RunOk(g, t, b);
    SameTable(g, GoalOf(g), Execute(g, s, a), Execute(g, t, b));
  }

  lemma ReadyToRun(g: Graph, s: State, c: NodeId)
    requires ValidGraph(g) && AllOk(g, s) && c in s.sched.tasked && c in g.specs
    ensures DepsDone(g, s.status, c)
  {
    assert CounterOk(g, s.sched, c);
    CountOutsideZero(g.specs[c].dependsOn, s.sched.processed);
    forall d | d in g.specs[c].dependsOn ensures d in s.status && s.status[d] == Done {
      assert NodeOk(g, GoalOf(g), s, d);
    }
  }

  /** Scheduler safety: exact counters, no node twice in `ready` or again after it got its task, and a
      task exists only when all dependencies are done. */
  lemma SchedulerSafety(g: Graph, s: State, events: seq<Event>, c: NodeId)
    requires ValidGraph(g) && Separate(g, GoalOf(g)) && Initial(g, s) && SoundCache(g, GoalOf(g), s.cache)
    requires c in g.specs
    ensures var q := Execute(g, s, events).sched;
      && c in q.remaining && q.remaining[c] == CountOutside(g.specs[c].dependsOn, q.processed)
      && Distinct(q.ready) && (c in q.ready ==> c !in q.tasked)
    ensures c in Execute(g, s, events).sched.tasked ==> DepsDone(g, Execute(g, s, events).status, c)
  {
    RunOk(g, s, events);
    var r := Execute(g, s, events);
    assert CounterOk(g, r.sched, c);
    if c in r.sched.tasked {
      ReadyToRun(g, r, c);
    }
  }

  lemma {:induction false} LowestRank(rank: map<NodeId, nat>, rest: set<NodeId>) returns (n: NodeId)
    requires rest != {} && rest <= rank.Keys
    ensures n in rest && forall x :: x in rest ==> rank[n] <= rank[x]
  {
    n :| n in rest;
    if rest != {n} {
      var m := LowestRank(rank, rest - {n});
      if rank[m] < rank[n] {
        n := m;
      }
    }
  }

  /** Progress: while nodes are unprocessed and no node function has raised, some node is ready, has a live
      task, or waits in the done queue. */
  lemma SchedulerProgress(g: Graph, s: State, events: seq<Event>)
    requires ValidGraph(g) && Separate(g, GoalOf(g)) && Initial(g, s) && SoundCache(g, GoalOf(g), s.cache)
    requires !(g.specs.Keys <= Execute(g, s, events).sched.processed)
    requires !Execute(g, s, events).aborted
    ensures var r := Execute(g, s, events);
      exists n :: n in g.specs && n !in r.sched.processed && (n in r.sched.ready || n in r.jobs || n in r.sched.doneQ)
  {
    RunOk(g, s, events);
    var r := Execute(g, s, events);
    var n := LowestUnprocessed(g, r.sched.processed);
    LowestIsReady(g, r, n);
  }

  lemma LowestUnprocessed(g: Graph, processed: set<NodeId>) returns (n: NodeId)
    requires g.rank.Keys == g.specs.Keys && !(g.specs.Keys <= processed)
    ensures n in g.specs && n !in processed
    ensures forall x :: x in g.specs.Keys - processed ==> g.rank[n] <= g.rank[x]
  {
    var x :| x in g.specs.Keys && x !in processed;
    assert x in g.specs.Keys - processed;
    n := LowestRank(g.rank, g.specs.Keys - processed);
  }

  lemma LowestIsReady(g: Graph, s: State, n: NodeId)
    requires ValidGraph(g) && AllOk(g, s) && n in g.specs && n !in s.sched.processed
    requires forall x :: x in g.specs.Keys - s.sched.processed ==> g.rank[n] <= g.rank[x]
    requires !s.aborted
    ensures n in s.sched.ready || n in s.jobs || n in s.sched.doneQ
  {
    LowerRanked(g, n, s.sched.processed);
    CountOutsideZero(g.specs[n].dependsOn, s.sched.processed);
    assert CounterOk(g, s.sched, n) && NodeOk(g, GoalOf(g), s, n);
  }

  /** The dependencies of the lowest unprocessed node have been processed. */
  lemma LowerRanked(g: Graph, n: NodeId, processed: set<NodeId>)
    requires ValidGraph(g) && n in g.specs
    requires forall x :: x in g.specs.Keys - processed ==> g.rank[n] <= g.rank[x]
    ensures forall d :: d in g.specs[n].dependsOn ==> d in processed
  {
    forall d | d in g.specs[n].dependsOn ensures d in processed {
      assert d in g.specs && g.rank[d] < g.rank[n];
    }
  }

  // ---------------------------------------------------------------- entering `ready`

  lemma DecrementRests(remaining: map<NodeId, int>, ready: seq<NodeId>, children: seq<NodeId>, c: NodeId)
    requires forall x :: x in children ==> x in remaining
    requires forall x :: x in remaining ==> Count(children, x) <= remaining[x]
    requires c in remaining && remaining[c] == 0
    ensures Decrement(remaining, ready, children).0[c] == 0
    ensures c in Decrement(remaining, ready, children).1 ==> c in ready
  {
    DecrementEffect(remaining, ready, children);
  }

  /** `c` has no dependency left to wait for, and what is not waiting in `ready` stays out of it. */
  ghost predicate Rests(q: Schedule, q': Schedule, c: NodeId) {
    && c in q.remaining && c in q'.remaining
    && (q.remaining[c] == 0 ==> q'.remaining[c] == 0 && (c in q'.ready ==> c in q.ready))
  }

  /** No counter is below the number of entries that processing `n` would take off it. */
  ghost predicate TightAt(g: Graph, q: Schedule, n: NodeId) {
    && (forall x :: x in g.order ==> x in g.specs)
    && (n !in q.processed ==> forall x :: x in q.remaining ==> Count(Children(g.specs, g.order, n), x) <= q.remaining[x])
  }

  ghost predicate Tight(g: Graph, q: Schedule) {
    forall n {:trigger TightAt(g, q, n)} :: TightAt(g, q, n)
  }

  lemma ScheduleTight(g: Graph, q: Schedule)
    requires ValidGraph(g) && ScheduleOk(g, q)
    ensures Tight(g, q)
  {
    forall n ensures TightAt(g, q, n) {
      if n !in q.processed {
        ChildrenOk(g, n);
        CountersCover(g, q, n, Children(g.specs, g.order, n));
      }
    }
  }

  lemma ProcessRests(g: Graph, q: Schedule, n: NodeId, c: NodeId)
    requires TightAt(g, q, n) && c in q.remaining && (forall x :: x in g.order ==> x in g.specs)
    requires forall x :: x in Children(g.specs, g.order, n) ==> x in q.remaining
    ensures Rests(q, ProcessDone(g, q, n), c)
  {
    if n !in q.processed && q.remaining[c] == 0 {
      DecrementRests(q.remaining, q.ready, Children(g.specs, g.order, n), c);
    }
  }

  lemma PopRests(g: Graph, s: State, c: NodeId)
    requires Tight(g, s.sched) && c in s.sched.remaining
    ensures Rests(s.sched, SchedStep(g, s, PopReady).sched, c)
  {
    var q := s.sched;
    if q.ready != [] && CanProcess(g, s, q.ready[0]) {
      var popped := q.(ready := q.ready[1..]);
      assert TightAt(g, q, q.ready[0]);
      assert TightAt(g, popped, q.ready[0]);
      ProcessRests(g, popped, q.ready[0], c);
    }
  }

  lemma TakeRests(g: Graph, s: State, n: NodeId, c: NodeId)
    requires Tight(g, s.sched) && c in s.sched.remaining
    ensures Rests(s.sched, SchedStep(g, s, TakeDone(n)).sched, c)
  {
    if CanProcess(g, s, n) {
      var taken := s.sched.(doneQ := s.sched.doneQ - multiset{n});
      assert TightAt(g, s.sched, n);
      assert TightAt(g, taken, n);
      ProcessRests(g, taken, n, c);
    }
  }

  lemma SweepRests(g: Graph, s: State, n: NodeId, c: NodeId)
    requires Tight(g, s.sched) && c in s.sched.remaining
    ensures Rests(s.sched, SchedStep(g, s, SweepDone(n)).sched, c)
  {
    if CanProcess(g, s, n) {
      assert TightAt(g, s.sched, n);
      ProcessRests(g, s.sched, n, c);
    }
  }

  lemma ElsewhereRests(g: Graph, s: State, e: Event, c: NodeId)
    requires !(e.PopReady? || e.TakeDone? || e.SweepDone?) && c in s.sched.remaining
    ensures Rests(s.sched, Apply(g, s, e).sched, c)
  {
    match e
    case RunJob(n) =>
      if n in s.jobs && n in g.specs && n in s.status {
        JobSchedule(g, s, n);
      }
    case Evict =>
    case _ =>
  }

  lemma JobSchedule(g: Graph, s: State, n: NodeId)
    requires n in s.jobs && n in g.specs && n in s.status
    ensures JobStep(g, s, n).sched == s.sched.(doneQ := JobStep(g, s, n).sched.doneQ)
  {
  }

  lemma StepRests(g: Graph, s: State, e: Event, c: NodeId)
    requires Tight(g, s.sched) && c in s.sched.remaining
    ensures Rests(s.sched, Apply(g, s, e).sched, c)
  {
    if e.PopReady? {
      PopRests(g, s, c);
    } else if e.TakeDone? {
      TakeRests(g, s, e.node, c);
    } else if e.SweepDone? {
      SweepRests(g, s, e.node, c);
    } else {
      ElsewhereRests(g, s, e, c);
    }
  }

  lemma RunSchedule(g: Graph, s: State, events: seq<Event>)
    requires ValidGraph(g) && Separate(g, GoalOf(g)) && Initial(g, s) && SoundCache(g, GoalOf(g), s.cache)
    ensures ScheduleOk(g, Execute(g, s, events).sched) && Tight(g, Execute(g, s, events).sched)
  {
    RunOk(g, s, events);
    ScheduleTight(g, Execute(g, s, events).sched);
  }

  /** How often `c` came into `ready`, being there at the start included. */
  ghost function Entries(g: Graph, s: State, events: seq<Event>, c: NodeId): nat {
    if events == [] then (if c in s.sched.ready then 1 else 0)
    else
      var n := |events| - 1;
      var was, now := Execute(g, s, events[..n]).sched, Execute(g, s, events).sched;
      Entries(g, s, events[..n], c) + (if c in now.ready && c !in was.ready then 1 else 0)
  }

  lemma ReadyIsZero(g: Graph, q: Schedule, c: NodeId)
    requires ScheduleOk(g, q) && c in g.specs
    ensures c in q.remaining && (c in q.ready ==> q.remaining[c] == 0)
  {
    assert CounterOk(g, q, c);
  }

  /** One more event: what was counted stays counted, and a counted node does not come in again. */
  lemma OneMoreEntry(g: Graph, s: State, events: seq<Event>, c: NodeId)
    requires events != [] && c in g.specs && c in Execute(g, s, events[..|events| - 1]).sched.remaining
    requires Tight(g, Execute(g, s, events[..|events| - 1]).sched) && ScheduleOk(g, Execute(g, s, events).sched)
    ensures Rests(Execute(g, s, events[..|events| - 1]).sched, Execute(g, s, events).sched, c)
    ensures c in Execute(g, s, events).sched.ready ==> Execute(g, s, events).sched.remaining[c] == 0
  {
    var n := |events| - 1;
    StepRests(g, Execute(g, s, events[..n]), events[n], c);
    ReadyIsZero(g, Execute(g, s, events).sched, c);
  }

  /** Over a whole run each node enters `ready` at most once, and if it did its counter is zero. */
  lemma {:induction false} EntersReadyOnce(g: Graph, s: State, events: seq<Event>, c: NodeId)
    requires ValidGraph(g) && Separate(g, GoalOf(g)) && Initial(g, s) && SoundCache(g, GoalOf(g), s.cache)
    requires c in g.specs
    ensures Entries(g, s, events, c) <= 1
    ensures c in Execute(g, s, events).sched.remaining
    ensures Entries(g, s, events, c) == 1 ==> Execute(g, s, events).sched.remaining[c] == 0
  {
    RunSchedule(g, s, events);
    if events == [] {
      ReadyIsZero(g, s.sched, c);
    } else {
      EntersReadyOnce(g, s, events[..|events| - 1], c);
      RunSchedule(g, s, events[..|events| - 1]);
      OneMoreEntry(g, s, events, c);
    }
  }

  /** `c` waits for nothing and is not in `ready`. */
  ghost predicate Spent(q: Schedule, c: NodeId) {
    c in q.remaining && q.remaining[c] == 0 && c !in q.ready
  }

  lemma SpentStep(g: Graph, s: State, events: seq<Event>, e: Event, c: NodeId)
    requires Tight(g, Execute(g, s, events).sched) && Spent(Execute(g, s, events).sched, c)
    ensures Spent(Execute(g, s, events + [e]).sched, c)
  {
    assert (events + [e])[..|events|] == events;
    StepRests(g, Execute(g, s, events), e, c);
  }

  lemma LastMoved<T>(a: seq<T>, b: seq<T>)
    requires b != []
    ensures a + b == (a + b[..|b| - 1]) + [b[|b| - 1]]
  {
  }

  ghost predicate AlwaysTight(g: Graph, s: State) {
    forall events :: Tight(g, Execute(g, s, events).sched)
  }

  lemma {:induction false} StaysSpent(g: Graph, s: State, before: seq<Event>, after: seq<Event>, c: NodeId)
    requires AlwaysTight(g, s) && Spent(Execute(g, s, before).sched, c)
    ensures Spent(Execute(g, s, before + after).sched, c)
    decreases |after|
  {
    if after == [] {
      assert before + after == before;
    } else {
      StaysSpent(g, s, before, after[..|after| - 1], c);
      LastMoved(before, after);
      SpentStep(g, s, before + after[..|after| - 1], after[|after| - 1], c);
    }
  }

  /** Once a node with no open dependency has left `ready`, no further events bring it back. */
  lemma NeverReadyAgain(g: Graph, s: State, before: seq<Event>, after: seq<Event>, c: NodeId)
    requires ValidGraph(g) && Separate(g, GoalOf(g)) && Initial(g, s) && SoundCache(g, GoalOf(g), s.cache)
    requires Spent(Execute(g, s, before).sched, c)
    ensures Spent(Execute(g, s, before + after).sched, c)
  {
    forall events ensures Tight(g, Execute(g, s, events).sched) {
      RunSchedule(g, s, events);
    }
    StaysSpent(g, s, before, after, c);
  }
}
