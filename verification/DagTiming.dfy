/** When the results of a DAG run depend on timing: exactly when a node is passed the value of a node that is
    neither before nor behind it. */
module DagTiming {
  import opened Common
  import opened Ledger
  import opened DagSemantics
  import opened DagEngine

  /** The graph with other node functions and another manifest hash. */
  function With(g: Graph, hash: Manifest -> Fingerprint, call: Manifest -> Outcome): Graph {
    g.(hash := hash, call := call)
  }

  /** Manifests with one fingerprint have one outcome. */
  ghost predicate Faithful(g: Graph) {
    forall a, b :: g.hash(a) == g.hash(b) ==> g.call(a) == g.call(b)
  }

  /** Whatever the cache holds is the outcome of the manifests with that fingerprint. */
  ghost predicate Honest(g: Graph, cache: map<Fingerprint, Json>) {
    forall m :: g.hash(m) in cache ==> g.call(m) == Ok(cache[g.hash(m)])
  }

  ghost predicate Complete(g: Graph, s: State, events: seq<Event>) {
    g.specs.Keys <= Execute(g, s, events).sched.processed
  }

  /** Any two complete runs, from any honest caches, have the same results. */
  ghost predicate OneResult(g: Graph) {
    forall s, t, a, b ::
      Initial(g, s) && Initial(g, t) && Honest(g, s.cache) && Honest(g, t.cache) && Complete(g, s, a) && Complete(g, t, b)
      ==> Execute(g, s, a).result == Execute(g, t, b).result
  }

  /** ... whatever the nodes compute and however manifests are hashed. */
  ghost predicate TimingFree(g: Graph) {
    forall hash, call :: Faithful(With(g, hash, call)) ==> OneResult(With(g, hash, call))
  }

  // ---------------------------------------------------------------- ordered references

  lemma {:induction false} AncestorsWith(g: Graph, h: Graph, n: NodeId)
    requires Acyclic(g) && Acyclic(h) && h.specs == g.specs && h.rank == g.rank && n in g.specs
    ensures Ancestors(h, n) == Ancestors(g, n)
    decreases g.rank[n]
  {
    forall d | d in g.specs[n].dependsOn ensures Ancestors(h, d) == Ancestors(g, d) {
      AncestorsWith(g, h, d);
    }
  }

  lemma ValidWith(g: Graph, h: Graph)
    requires ValidGraph(g) && h == With(g, h.hash, h.call)
    ensures ValidGraph(h)
  {
    AcyclicWith(g, h);
    forall n, d | n in h.specs && Refers(h.specs, n, d) ensures Ordered(h, n, d) {
      assert Refers(g.specs, n, d);
      AncestorsWith(g, h, n);
      AncestorsWith(g, h, d);
    }
  }

  lemma AcyclicWith(g: Graph, h: Graph)
    requires Acyclic(g) && h == With(g, h.hash, h.call)
    ensures Acyclic(h)
  {
  }

  lemma ValidIsTimingFree(g: Graph)
    requires ValidGraph(g)
    ensures TimingFree(g)
  {
    forall hash, call | Faithful(With(g, hash, call)) ensures OneResult(With(g, hash, call)) {
      var h := With(g, hash, call);
      ValidWith(g, h);
      forall s, t, a, b | Initial(h, s) && Initial(h, t) && Honest(h, s.cache) && Honest(h, t.cache)
        && Complete(h, s, a) && Complete(h, t, b)
        ensures Execute(h, s, a).result == Execute(h, t, b).result
      {
        ResultsIndependent(h, s, t, a, b);
      }
    }
  }

  // ---------------------------------------------------------------- reaching states

  ghost predicate Reaches(g: Graph, s: State, t: State) {
    exists events :: Execute(g, s, events) == t
  }

  lemma ReachesSelf(g: Graph, s: State)
    ensures Reaches(g, s, s)
  {
    assert Execute(g, s, []) == s;
  }

  lemma ReachesStep(g: Graph, s: State, t: State, e: Event)
    requires Reaches(g, s, t)
    ensures Reaches(g, s, Apply(g, t, e))
  {
    var events :| Execute(g, s, events) == t;
    assert (events + [e])[..|events|] == events;
    assert Execute(g, s, events + [e]) == Apply(g, t, e);
  }

  // ---------------------------------------------------------------- one node after the other

  /** Exactly the nodes of `done` are done and processed; tasks have been created but none has claimed its node. */
  ghost predicate Loose(g: Graph, s: State, done: set<NodeId>) {
    && s.status.Keys == g.specs.Keys && done <= g.specs.Keys
    && (forall x :: x in g.specs ==> s.status[x] == if x in done then Done else Pending)
    && s.result.Keys == done && s.peeks == multiset{} && !s.aborted
    && s.sched.doneQ == multiset{} && s.sched.processed == done && s.sched.tasked == done + s.jobs.Keys
    && s.jobs.Keys <= g.specs.Keys && s.jobs.Keys !! done && (forall x :: x in s.jobs ==> s.jobs[x] == Waiting)
    && ScheduleOk(g, s.sched) && Honest(g, s.cache)
  }

  /** ... and every node that can start has its task. */
  ghost predicate Rest(g: Graph, s: State, done: set<NodeId>) {
    Loose(g, s, done) && s.sched.ready == []
  }

  ghost predicate Kept(s: State, t: State) {
    forall x :: x in s.result ==> x in t.result && t.result[x] == s.result[x]
  }

  /** The scheduler hands out tasks until `ready` is empty. */
  lemma {:induction false} Drain(g: Graph, s0: State, s: State, done: set<NodeId>) returns (t: State)
    requires Reaches(g, s0, s) && Loose(g, s, done)
    ensures Reaches(g, s0, t) && Rest(g, t, done) && t.result == s.result
    decreases |s.sched.ready|
  {
    if s.sched.ready == [] {
      return s;
    }
    PopOne(g, s, done);
    ReachesStep(g, s0, s, PopReady);
    t := Drain(g, s0, Apply(g, s, PopReady), done);
  }

  lemma PopOne(g: Graph, s: State, done: set<NodeId>)
    requires Loose(g, s, done) && s.sched.ready != []
    ensures var t := Apply(g, s, PopReady);
      Loose(g, t, done) && t.result == s.result && |t.sched.ready| < |s.sched.ready|
  {
    var n := s.sched.ready[0];
    assert CounterOk(g, s.sched, n);
    TaskCounts(g, s.sched);
    assert Apply(g, s, PopReady) == s.(jobs := s.jobs[n := Waiting], sched := Tasked(s.sched));
  }

  /** The state while the task of `n` has come as far as `job`. */
  function Working(s: State, n: NodeId, job: Job, cache: map<Fingerprint, Json>): State {
    s.(status := s.status[n := Running], jobs := s.jobs[n := job], cache := cache)
  }

  /** ... and when it has reported to the scheduler. */
  function Reported(s: State, n: NodeId, r: NodeResult, cache: map<Fingerprint, Json>): State {
    s.(status := s.status[n := Done], result := s.result[n := r], jobs := s.jobs - {n}, cache := cache,
       sched := s.sched.(doneQ := s.sched.doneQ + multiset{n}))
  }

  ghost predicate Startable(g: Graph, s: State, done: set<NodeId>, n: NodeId) {
    Loose(g, s, done) && n in g.workspace && n in s.jobs && DependsIn(g, n, done)
  }

  lemma Claims(g: Graph, s: State, done: set<NodeId>, n: NodeId)
    requires Startable(g, s, done, n)
    ensures Covers(g, n, s.result)
    ensures Apply(g, s, RunJob(n)) == Working(s, n, Claimed(ManifestOf(g, n, s.result)), s.cache)
  {
  }

  lemma Overwrites<K, V>(m: map<K, V>, k: K, a: V, b: V)
    ensures m[k := a][k := b] == m[k := b]
  {
  }

  lemma Moves(g: Graph, s: State, n: NodeId, job: Job, next: Job, cache: map<Fingerprint, Json>)
    requires n in g.specs
    requires match job
      case Claimed(m) => next == if g.hash(m) in cache then Ready(m, cache[g.hash(m)]) else Missed(m)
      case Missed(m) => g.call(m).Ok? && next == Called(m, g.call(m).value)
      case _ => false
    ensures Apply(g, Working(s, n, job, cache), RunJob(n)) == Working(s, n, next, cache)
  {
    Overwrites(s.jobs, n, job, next);
  }

  lemma Stores(g: Graph, s: State, n: NodeId, m: Manifest, v: Json, cache: map<Fingerprint, Json>)
    requires n in g.specs
    ensures Apply(g, Working(s, n, Called(m, v), cache), RunJob(n)) == Working(s, n, Ready(m, v), cache[g.hash(m) := v])
  {
    Overwrites(s.jobs, n, Called(m, v), Ready(m, v));
  }

  lemma Leaves(g: Graph, s: State, n: NodeId, m: Manifest, v: Json, cache: map<Fingerprint, Json>)
    requires n in g.specs
    ensures Apply(g, Apply(g, Working(s, n, Ready(m, v), cache), RunJob(n)), RunJob(n))
         == Reported(s, n, NodeResult(v, g.hash(m)), cache)
  {
    var t := Apply(g, Working(s, n, Ready(m, v), cache), RunJob(n));
    Overwrites(s.jobs, n, Ready(m, v), Leaving);
    Overwrites(s.status, n, Running, Done);
    assert t == s.(status := s.status[n := Done], result := s.result[n := NodeResult(v, g.hash(m))],
                   jobs := s.jobs[n := Leaving], cache := cache);
    assert s.jobs[n := Leaving] - {n} == s.jobs - {n};
  }

  /** Every outcome is a value, and not the null that stands for a missing result. */
  ghost predicate Total(g: Graph) {
    forall m :: g.call(m).Ok? && g.call(m).value != JNull
  }

  ghost predicate NoNull(up: Results) {
    forall x :: x in up ==> up[x].value != JNull
  }

  /** The node is computed, or found in the cache. */
  lemma Computes(g: Graph, s0: State, s: State, done: set<NodeId>, n: NodeId) returns (cache: map<Fingerprint, Json>)
    requires Total(g) && Faithful(g) && Startable(g, s, done, n) && Reaches(g, s0, s)
    ensures Covers(g, n, s.result) && Honest(g, cache)
    ensures var m := ManifestOf(g, n, s.result);
      Reaches(g, s0, Reported(s, n, NodeResult(Value(g.call(m)), g.hash(m)), cache))
  {
    Claims(g, s, done, n);
    var m := ManifestOf(g, n, s.result);
    var v := Value(g.call(m));
    ReachesStep(g, s0, s, RunJob(n));
    cache := s.cache;
    ReachesStep(g, s0, Working(s, n, Claimed(m), cache), RunJob(n));
    if g.hash(m) in cache {
      Moves(g, s, n, Claimed(m), Ready(m, v), cache);
    } else {
      Moves(g, s, n, Claimed(m), Missed(m), cache);
      ReachesStep(g, s0, Working(s, n, Missed(m), cache), RunJob(n));
      Moves(g, s, n, Missed(m), Called(m, v), cache);
      ReachesStep(g, s0, Working(s, n, Called(m, v), cache), RunJob(n));
      Stores(g, s, n, m, v, cache);
      cache := cache[g.hash(m) := v];
    }
    Leaves(g, s, n, m, v, cache);
    ReachesStep(g, s0, Working(s, n, Ready(m, v), cache), RunJob(n));
    ReachesStep(g, s0, Apply(g, Working(s, n, Ready(m, v), cache), RunJob(n)), RunJob(n));
  }

  /** The scheduler takes the report. */
  lemma Taken(g: Graph, s: State, done: set<NodeId>, n: NodeId, r: NodeResult, cache: map<Fingerprint, Json>)
    requires Acyclic(g) && Startable(g, s, done, n) && Honest(g, cache)
    ensures var t := Apply(g, Reported(s, n, r, cache), TakeDone(n));
      Loose(g, t, done + {n}) && t.result == s.result[n := r]
  {
    ChildrenOk(g, n);
    ReportTaken(g, s, n, r, cache);
    ProcessDoneKeeps(g, s.sched, n);
    ProcessEffect(g, s.sched, n);
    StillLoose(g, s, done, n, r, cache, ProcessDone(g, s.sched, n));
  }

  lemma ReportTaken(g: Graph, s: State, n: NodeId, r: NodeResult, cache: map<Fingerprint, Json>)
    requires (forall c :: c in g.order ==> c in g.specs) && s.sched.doneQ == multiset{}
    requires forall c :: c in Children(g.specs, g.order, n) ==> c in s.sched.remaining
    ensures Apply(g, Reported(s, n, r, cache), TakeDone(n))
         == Reported(s, n, r, cache).(sched := ProcessDone(g, s.sched, n))
  {
    var u := Reported(s, n, r, cache);
    assert u.sched.(doneQ := u.sched.doneQ - multiset{n}) == s.sched;
  }

  lemma StillLoose(g: Graph, s: State, done: set<NodeId>, n: NodeId, r: NodeResult, cache: map<Fingerprint, Json>, q: Schedule)
    requires Startable(g, s, done, n) && Honest(g, cache) && ScheduleOk(g, q)
    requires q.processed == done + {n} && q.tasked == s.sched.tasked && q.doneQ == multiset{}
    ensures Loose(g, Reported(s, n, r, cache).(sched := q), done + {n})
  {
    var t := Reported(s, n, r, cache).(sched := q);
    assert t.jobs.Keys == s.jobs.Keys - {n};
    assert t.sched.tasked == (done + {n}) + t.jobs.Keys;
  }

  /** A node whose dependencies are done runs to its end. */
  lemma RunNode(g: Graph, s0: State, s: State, done: set<NodeId>, n: NodeId) returns (t: State)
    requires Acyclic(g) && Total(g) && Faithful(g) && Reaches(g, s0, s) && Rest(g, s, done)
    requires n !in done && DependsIn(g, n, done)
    ensures Reaches(g, s0, t) && Rest(g, t, done + {n}) && Covers(g, n, s.result)
    ensures t.result == s.result[n := NodeResult(Value(g.call(ManifestOf(g, n, s.result))), g.hash(ManifestOf(g, n, s.result)))]
  {
    HasTask(g, s, done, n);
    var cache := Computes(g, s0, s, done, n);
    var m := ManifestOf(g, n, s.result);
    var r := NodeResult(Value(g.call(m)), g.hash(m));
    Taken(g, s, done, n, r, cache);
    ReachesStep(g, s0, Reported(s, n, r, cache), TakeDone(n));
    t := Drain(g, s0, Apply(g, Reported(s, n, r, cache), TakeDone(n)), done + {n});
  }

  lemma HasTask(g: Graph, s: State, done: set<NodeId>, n: NodeId)
    requires Rest(g, s, done) && n !in done && DependsIn(g, n, done)
    ensures n in s.jobs
  {
    assert CounterOk(g, s.sched, n);
    CountOutsideZero(g.specs[n].dependsOn, s.sched.processed);
  }

  ghost predicate DependsIn(g: Graph, n: NodeId, nodes: set<NodeId>) {
    n in g.specs && forall d :: d in g.specs[n].dependsOn ==> d in nodes
  }

  /** A set of nodes that needs nothing outside itself. */
  ghost predicate DownClosed(g: Graph, goal: set<NodeId>) {
    forall n {:trigger DependsIn(g, n, goal)} :: n in goal ==> DependsIn(g, n, goal)
  }

  lemma NextNode(g: Graph, done: set<NodeId>, goal: set<NodeId>) returns (n: NodeId)
    requires Layered(g.specs, g.rank) && DownClosed(g, goal) && done < goal
    ensures n in goal && n !in done && DependsIn(g, n, done)
  {
    var x :| x in goal && x !in done;
    assert x in goal - done;
    forall n | n in goal ensures n in g.specs {
      assert DependsIn(g, n, goal);
    }
    n := LowestRank(g.rank, goal - done);
    assert DependsIn(g, n, goal);
    forall d | d in g.specs[n].dependsOn ensures d in done {
      assert d in goal && g.rank[d] < g.rank[n];
    }
  }

  ghost predicate Grows(g: Graph, p: set<NodeId> -> bool) {
    forall done, n :: p(done) && n !in done && DependsIn(g, n, done) ==> p(done + {n})
  }

  /** What holds of one set and is kept when a node joins its dependencies holds of every closed set above. */
  lemma {:induction false} GrowTo(g: Graph, p: set<NodeId> -> bool, done: set<NodeId>, goal: set<NodeId>)
    requires Layered(g.specs, g.rank) && DownClosed(g, goal) && done <= goal && Grows(g, p) && p(done)
    ensures p(goal)
    decreases |goal - done|
  {
    if done != goal {
      var n := NextNode(g, done, goal);
      assert goal - (done + {n}) == (goal - done) - {n};
      GrowTo(g, p, done + {n}, goal);
    }
  }

  ghost predicate Finished(g: Graph, s0: State, s: State, done: set<NodeId>, t: State) {
    Reaches(g, s0, t) && Rest(g, t, done) && Kept(s, t) && NoNull(t.result)
  }

  /** From `s0` on, exactly `done` can be run to the end, with the results of `s` kept. */
  ghost predicate CanFinish(g: Graph, s0: State, s: State, done: set<NodeId>) {
    exists t :: Finished(g, s0, s, done, t)
  }

  lemma FinishOne(g: Graph, s0: State, s: State, done: set<NodeId>, n: NodeId)
    requires Acyclic(g) && Total(g) && Faithful(g)
    requires CanFinish(g, s0, s, done) && n !in done && DependsIn(g, n, done)
    ensures CanFinish(g, s0, s, done + {n})
  {
    var t :| Finished(g, s0, s, done, t);
    assert n !in t.result;
    var u := RunNode(g, s0, t, done, n);
    KeptOn(s, t, u, n);
    assert Finished(g, s0, s, done + {n}, u);
  }

  lemma KeptOn(s: State, t: State, u: State, n: NodeId)
    requires Kept(s, t) && n !in t.result && n in u.result && u.result == t.result[n := u.result[n]]
    requires NoNull(t.result) && u.result[n].value != JNull
    ensures Kept(s, u) && NoNull(u.result)
  {
  }

  /** A closed set can be run to its end while every other node waits. */
  lemma RunSet(g: Graph, s0: State, s: State, done: set<NodeId>, goal: set<NodeId>) returns (t: State)
    requires Acyclic(g) && Total(g) && Faithful(g) && Reaches(g, s0, s) && Rest(g, s, done)
    requires NoNull(s.result) && done <= goal && DownClosed(g, goal)
    ensures Finished(g, s0, s, goal, t)
  {
    var p := (nodes: set<NodeId>) => CanFinish(g, s0, s, nodes);
    forall nodes, n | p(nodes) && n !in nodes && DependsIn(g, n, nodes) ensures p(nodes + {n}) {
      FinishOne(g, s0, s, nodes, n);
    }
    assert Finished(g, s0, s, done, s) && p(done);
    GrowTo(g, p, done, goal);
    t :| Finished(g, s0, s, goal, t);
  }

  // ---------------------------------------------------------------- before and after

  lemma {:induction false} AncestorsClosed(g: Graph, n: NodeId)
    requires Acyclic(g) && n in g.specs
    ensures DownClosed(g, Ancestors(g, n)) && DependsIn(g, n, Ancestors(g, n))
    decreases g.rank[n]
  {
    forall a | a in Ancestors(g, n) ensures DependsIn(g, a, Ancestors(g, n)) {
      if a in g.specs[n].dependsOn {
        AncestorsGrow(g, n, a);
      } else {
        var d :| d in g.specs[n].dependsOn && a in Ancestors(g, d);
        AncestorsClosed(g, d);
        AncestorsGrow(g, n, d);
        assert DependsIn(g, a, Ancestors(g, d));
      }
    }
  }

  lemma AncestorsGrow(g: Graph, n: NodeId, d: NodeId)
    requires Acyclic(g) && n in g.specs && d in g.specs[n].dependsOn
    ensures d in g.specs && Ancestors(g, d) <= Ancestors(g, n)
  {
  }

  lemma JoinClosed(g: Graph, a: set<NodeId>, b: set<NodeId>)
    requires DownClosed(g, a) && DownClosed(g, b)
    ensures DownClosed(g, a + b)
  {
    forall n | n in a + b ensures DependsIn(g, n, a + b) {
      assert if n in a then DependsIn(g, n, a) else DependsIn(g, n, b);
    }
  }

  lemma AddClosed(g: Graph, a: set<NodeId>, n: NodeId)
    requires DownClosed(g, a) && DependsIn(g, n, a)
    ensures DownClosed(g, a + {n})
  {
    forall m | m in a + {n} ensures DependsIn(g, m, a + {n}) {
      assert DependsIn(g, m, a);
    }
  }

  lemma AllClosed(g: Graph)
    requires Acyclic(g)
    ensures DownClosed(g, g.specs.Keys)
  {
    forall n | n in g.specs.Keys ensures DependsIn(g, n, g.specs.Keys) {
    }
  }

  function Roots(specs: map<NodeId, Spec>, order: seq<NodeId>): (r: seq<NodeId>)
    requires forall n :: n in order ==> n in specs
    ensures forall n :: n in r <==> n in order && specs[n].dependsOn == []
  {
    if order == [] then []
    else
      var k := |order| - 1;
      assert order == order[..k] + [order[k]];
      Roots(specs, order[..k]) + if specs[order[k]].dependsOn == [] then [order[k]] else []
  }

  lemma {:induction false} RootsDistinct(specs: map<NodeId, Spec>, order: seq<NodeId>)
    requires Distinct(order) && forall n :: n in order ==> n in specs
    ensures Distinct(Roots(specs, order))
  {
    if order != [] {
      RootsDistinct(specs, order[..|order| - 1]);
    }
  }

  /** A run with an empty cache can start. */
  lemma SomeStart(g: Graph) returns (s: State)
    requires Acyclic(g)
    ensures Initial(g, s) && Honest(g, s.cache)
  {
    RootsDistinct(g.specs, g.order);
    var counters := map n | n in g.specs :: |g.specs[n].dependsOn|;
    s := State(map n | n in g.specs :: Pending, map[], map[], map[], multiset{},
               Schedule(counters, Roots(g.specs, g.order), {}, {}, multiset{}), false);
  }

  lemma StartRests(g: Graph, s: State) returns (t: State)
    requires Acyclic(g) && Initial(g, s) && Honest(g, s.cache)
    ensures Reaches(g, s, t) && Rest(g, t, {}) && t.result == map[]
  {
    InitialSchedule(g, s);
    ReachesSelf(g, s);
    assert Loose(g, s, {});
    t := Drain(g, s, s, {});
  }

  /** A complete run in which exactly `before` is done when `n` starts. */
  lemma RunBetween(g: Graph, s: State, n: NodeId, before: set<NodeId>) returns (up: Results, t: State)
    requires Acyclic(g) && Total(g) && Faithful(g) && Initial(g, s) && Honest(g, s.cache)
    requires DownClosed(g, before) && before <= g.specs.Keys && DependsIn(g, n, before) && n !in before
    ensures up.Keys == before && NoNull(up) && Covers(g, n, up)
    ensures Reaches(g, s, t) && g.specs.Keys <= t.sched.processed
    ensures n in t.result && t.result[n].value == Value(g.call(ManifestOf(g, n, up)))
  {
    var s1 := StartRests(g, s);
    var s2 := RunSet(g, s, s1, {}, before);
    up := s2.result;
    var s3 := RunNode(g, s, s2, before, n);
    KeptOn(s2, s2, s3, n);
    AllClosed(g);
    t := RunSet(g, s, s3, before + {n}, g.specs.Keys);
  }

  /** The value at place `i` of what `key` injects is not null. */
  predicate Shown(m: Manifest, key: string, i: nat, single: bool) {
    key in m.kwargs &&
    if single then m.kwargs[key] != JNull
    else m.kwargs[key].JArr? && i < |m.kwargs[key].items| && m.kwargs[key].items[i] != JNull
  }

  lemma ShownIff(g: Graph, n: NodeId, key: string, i: nat, up: Results)
    requires Covers(g, n, up) && key in g.specs[n].upstreamKwargs && i < |g.specs[n].upstreamKwargs[key]|
    ensures Shown(ManifestOf(g, n, up), key, i, |g.specs[n].upstreamKwargs[key]| == 1)
        <==> ValueOf(up, g.specs[n].upstreamKwargs[key][i]) != JNull
  {
  }

  /** Nodes that answer whether they were shown the value at place `i` of `key`. */
  function Asking(g: Graph, key: string, i: nat, single: bool): Graph {
    With(g, m => if Shown(m, key, i, single) then "shown" else "missing", m => Ok(JBool(Shown(m, key, i, single))))
  }

  lemma AskedRun(g: Graph, s: State, n: NodeId, key: string, i: nat, before: set<NodeId>) returns (t: State)
    requires Acyclic(g) && n in g.specs && key in g.specs[n].upstreamKwargs && i < |g.specs[n].upstreamKwargs[key]|
    requires g == Asking(g, key, i, |g.specs[n].upstreamKwargs[key]| == 1) && Initial(g, s) && Honest(g, s.cache)
    requires DownClosed(g, before) && before <= g.specs.Keys && DependsIn(g, n, before) && n !in before
    ensures Reaches(g, s, t) && g.specs.Keys <= t.sched.processed
    ensures n in t.result && t.result[n].value == JBool(g.specs[n].upstreamKwargs[key][i] in before)
  {
    var up;
    up, t := RunBetween(g, s, n, before);
    ShownIff(g, n, key, i, up);
  }

  /** A node that is passed the value of a node neither before nor behind it can be run before and after it. */
  lemma UnorderedShows(g: Graph, n: NodeId, d: NodeId)
    requires Acyclic(g) && n in g.specs && Refers(g.specs, n, d) && !Ordered(g, n, d)
    ensures !TimingFree(g)
  {
    var key :| key in g.specs[n].upstreamKwargs && d in g.specs[n].upstreamKwargs[key];
    var i :| 0 <= i < |g.specs[n].upstreamKwargs[key]| && g.specs[n].upstreamKwargs[key][i] == d;
    var h := Asking(g, key, i, |g.specs[n].upstreamKwargs[key]| == 1);
    assert h == With(g, h.hash, h.call) && Faithful(h);
    AcyclicWith(g, h);
    AncestorsWith(g, h, n);
    AncestorsWith(g, h, d);
    AskedTwice(h, n, key, i);
  }

  lemma AskedTwice(g: Graph, n: NodeId, key: string, i: nat)
    requires Acyclic(g) && n in g.specs && key in g.specs[n].upstreamKwargs && i < |g.specs[n].upstreamKwargs[key]|
    requires g == Asking(g, key, i, |g.specs[n].upstreamKwargs[key]| == 1)
    requires g.specs[n].upstreamKwargs[key][i] in g.specs && !Ordered(g, n, g.specs[n].upstreamKwargs[key][i])
    ensures !OneResult(g)
  {
    var d := g.specs[n].upstreamKwargs[key][i];
    BeforeBoth(g, n, d);
    StillWaiting(g, n, d);
    var s := SomeStart(g);
    var t := AskedRun(g, s, n, key, i, Ancestors(g, n));
    var u := AskedRun(g, s, n, key, i, Ancestors(g, n) + (Ancestors(g, d) + {d}));
    TwoResults(g, s, t, u);
  }

  lemma BeforeBoth(g: Graph, n: NodeId, d: NodeId)
    requires Acyclic(g) && n in g.specs && d in g.specs && !Ordered(g, n, d)
    ensures DownClosed(g, Ancestors(g, n)) && DependsIn(g, n, Ancestors(g, n))
    ensures var both := Ancestors(g, n) + (Ancestors(g, d) + {d});
      DownClosed(g, both) && DependsIn(g, n, both)
  {
    AncestorsClosed(g, n);
    AncestorsClosed(g, d);
    AddClosed(g, Ancestors(g, d), d);
    JoinClosed(g, Ancestors(g, n), Ancestors(g, d) + {d});
    DependsMore(g, n, Ancestors(g, n), Ancestors(g, d) + {d});
  }

  lemma DependsMore(g: Graph, n: NodeId, a: set<NodeId>, b: set<NodeId>)
    requires DependsIn(g, n, a)
    ensures DependsIn(g, n, a + b)
  {
  }

  lemma StillWaiting(g: Graph, n: NodeId, d: NodeId)
    requires Acyclic(g) && n in g.specs && d in g.specs && !Ordered(g, n, d)
    ensures n !in Ancestors(g, n) && d !in Ancestors(g, n)
    ensures var both := Ancestors(g, n) + (Ancestors(g, d) + {d}); n !in both && both <= g.specs.Keys
  {
  }

  lemma TwoResults(g: Graph, s: State, t: State, u: State)
    requires Initial(g, s) && Honest(g, s.cache) && Reaches(g, s, t) && Reaches(g, s, u)
    requires g.specs.Keys <= t.sched.processed && g.specs.Keys <= u.sched.processed && t.result != u.result
    ensures !OneResult(g)
  {
    var a :| Execute(g, s, a) == t;
    var b :| Execute(g, s, b) == u;
    assert Complete(g, s, a) && Complete(g, s, b);
  }

  /** The results of a graph are the same for every schedule, prefetch and cache, whatever its nodes compute, if
      and only if every node is passed only values of nodes before it, behind it, or its own. */
  lemma TimingFreeIff(g: Graph)
    requires Acyclic(g)
    ensures TimingFree(g) <==> forall n, d :: n in g.specs && Refers(g.specs, n, d) ==> Ordered(g, n, d)
  {
    if ValidGraph(g) {
      ValidIsTimingFree(g);
    } else {
      var n, d :| n in g.specs && Refers(g.specs, n, d) && !Ordered(g, n, d);
      UnorderedShows(g, n, d);
    }
  }
}
