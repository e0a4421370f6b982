/** What a DAG run of core/dag_engine.py is supposed to compute: plain recursive evaluation. */
module DagSemantics {
  import opened Common
  import opened Ledger

  type NodeId = string
  type Fingerprint = string

  /** `NodeSpec`: the fields that reach the fingerprint or the call. */
  datatype Spec = Spec(
    agent: Json,
    dependsOn: seq<NodeId>,
    upstreamKwargs: map<string, seq<NodeId>>,
    args: seq<Json>,
    kwargs: map<string, Json>)

  /** The object that `_fingerprint_for` and `run_stage` hash. */
  datatype Manifest = Manifest(
    agent: Json,
    args: seq<Json>,
    kwargs: map<string, Json>,
    workspace: Json,
    upstream: seq<Fingerprint>)

  datatype Outcome = Ok(value: Json) | Raises

  datatype NodeResult = NodeResult(value: Json, fingerprint: Fingerprint)

  /** The registered nodes in insertion order, the fixed workspace hashes, the manifest hash, the node
      functions, and a rank that witnesses acyclicity. */
  datatype Graph = Graph(
    order: seq<NodeId>,
    specs: map<NodeId, Spec>,
    workspace: map<NodeId, Json>,
    hash: Manifest -> Fingerprint,
    call: Manifest -> Outcome,
    rank: map<NodeId, nat>)

  /** `n` is passed the value of `d`. */
  predicate Refers(specs: map<NodeId, Spec>, n: NodeId, d: NodeId)
    requires n in specs
  {
    exists k :: k in specs[n].upstreamKwargs && d in specs[n].upstreamKwargs[k]
  }

  /** Every node that another one names is registered, and the dependencies have no cycle. */
  ghost predicate Layered(specs: map<NodeId, Spec>, rank: map<NodeId, nat>) {
    && rank.Keys == specs.Keys
    && (forall n, d :: n in specs && d in specs[n].dependsOn ==> d in specs && rank[d] < rank[n])
    && (forall n, d :: n in specs && Refers(specs, n, d) ==> d in specs)
  }

  ghost predicate Registered(specs: map<NodeId, Spec>, order: seq<NodeId>) {
    && (forall n :: n in specs <==> n in order)
    && (forall i, j :: 0 <= i < j < |order| ==> order[i] != order[j])
  }

  ghost predicate Acyclic(g: Graph) {
    Registered(g.specs, g.order) && g.workspace.Keys == g.specs.Keys && Layered(g.specs, g.rank)
  }

  /** The nodes that have to be done before `n` can start. */
  ghost function Ancestors(g: Graph, n: NodeId): (r: set<NodeId>)
    requires Acyclic(g) && n in g.specs
    ensures forall a :: a in r ==> a in g.specs && g.rank[a] < g.rank[n]
    ensures forall d :: d in g.specs[n].dependsOn ==> d in r
    decreases g.rank[n]
  {
    (set d | d in g.specs[n].dependsOn) + set d, a | d in g.specs[n].dependsOn && a in Ancestors(g, d) :: a
  }

  /** The value of `d` that `n` sees does not depend on timing: `d` is done before `n` starts, or `d` cannot
      be done before `n` is. */
  ghost predicate Ordered(g: Graph, n: NodeId, d: NodeId)
    requires Acyclic(g) && n in g.specs
  {
    d in g.specs && (d == n || d in Ancestors(g, n) || n in Ancestors(g, d))
  }

  /** Every node passed by `upstream_kwargs` is of that kind. */
  ghost predicate ValidGraph(g: Graph) {
    Acyclic(g) && forall n, d :: n in g.specs && Refers(g.specs, n, d) ==> Ordered(g, n, d)
  }

  type Results = map<NodeId, NodeResult>

  ghost predicate Covers(g: Graph, n: NodeId, up: Results) {
    && n in g.specs && n in g.workspace
    && forall d :: d in g.specs[n].dependsOn ==> d in up
  }

  function ValueOf(up: Results, n: NodeId): Json {
    if n in up then up[n].value else JNull
  }

  /** `_build_kwargs`: one reference injects a value, several inject a list. */
  function Injected(up: Results, refs: seq<NodeId>): Json {
    if |refs| == 1 then ValueOf(up, refs[0])
    else JArr(seq(|refs|, i requires 0 <= i < |refs| => ValueOf(up, refs[i])))
  }

  /** The manifest of a node, given the results of the nodes it depends on. */
  ghost function ManifestOf(g: Graph, n: NodeId, up: Results): Manifest
    requires Covers(g, n, up)
  {
    var s := g.specs[n];
    Manifest(
      s.agent,
      s.args,
      s.kwargs + map k | k in s.upstreamKwargs :: Injected(up, s.upstreamKwargs[k]),
      g.workspace[n],
      seq(|s.dependsOn|, i requires 0 <= i < |s.dependsOn| => up[s.dependsOn[i]].fingerprint))
  }

  /** What a node function is called with, and what is hashed: `m` is made of the node's own fields, of the
      fingerprints of its dependencies and of the values of the nodes it refers to, null for one that has none. */
  ghost predicate BuiltFrom(g: Graph, n: NodeId, m: Manifest, up: Results)
    requires n in g.specs && n in g.workspace
  {
    var s := g.specs[n];
    && m.agent == s.agent && m.args == s.args && m.workspace == g.workspace[n]
    && |m.upstream| == |s.dependsOn|
    && (forall i :: 0 <= i < |s.dependsOn| ==> s.dependsOn[i] in up && m.upstream[i] == up[s.dependsOn[i]].fingerprint)
    && m.kwargs.Keys == s.kwargs.Keys + s.upstreamKwargs.Keys
    && (forall k :: k in s.kwargs && k !in s.upstreamKwargs ==> m.kwargs[k] == s.kwargs[k])
    && (forall k :: k in s.upstreamKwargs ==> Passes(m.kwargs[k], s.upstreamKwargs[k], up))
  }

  /** One reference passes its value, several pass the list of theirs. */
  predicate Passes(arg: Json, refs: seq<NodeId>, up: Results) {
    if |refs| == 1 then IsValueOf(arg, refs[0], up)
    else arg.JArr? && |arg.items| == |refs| && forall i :: 0 <= i < |refs| ==> IsValueOf(arg.items[i], refs[i], up)
  }

  predicate IsValueOf(arg: Json, n: NodeId, up: Results) {
    (n in up ==> arg == up[n].value) && (n !in up ==> arg.JNull?)
  }

  lemma ManifestBuilt(g: Graph, n: NodeId, up: Results)
    requires Covers(g, n, up)
    ensures BuiltFrom(g, n, ManifestOf(g, n, up), up)
  {
    var s, m := g.specs[n], ManifestOf(g, n, up);
    forall k | k in s.upstreamKwargs ensures Passes(m.kwargs[k], s.upstreamKwargs[k], up) {
      assert m.kwargs[k] == Injected(up, s.upstreamKwargs[k]);
    }
  }

  /** These facts leave no choice. */
  lemma BuiltOnce(g: Graph, n: NodeId, a: Manifest, b: Manifest, up: Results)
    requires n in g.specs && n in g.workspace && BuiltFrom(g, n, a, up) && BuiltFrom(g, n, b, up)
    ensures a == b
  {
    var s := g.specs[n];
    forall k | k in a.kwargs ensures a.kwargs[k] == b.kwargs[k] {
      if k in s.upstreamKwargs {
        PassedOnce(a.kwargs[k], b.kwargs[k], s.upstreamKwargs[k], up);
      }
    }
    assert a.kwargs == b.kwargs;
    assert a.upstream == b.upstream;
  }

  lemma PassedOnce(a: Json, b: Json, refs: seq<NodeId>, up: Results)
    requires Passes(a, refs, up) && Passes(b, refs, up)
    ensures a == b
  {
    if |refs| != 1 {
      forall i | 0 <= i < |refs| ensures a.items[i] == b.items[i] {
        assert IsValueOf(a.items[i], refs[i], up) && IsValueOf(b.items[i], refs[i], up);
      }
    }
  }

  function Value(o: Outcome): Json {
    match o case Ok(v) => v case Raises => JNull
  }

  /** Recursive evaluation of a node. */
  ghost function Eval(g: Graph, n: NodeId): NodeResult
    requires ValidGraph(g) && n in g.specs
    decreases g.rank[n]
  {
    var m := Intended(g, n);
    NodeResult(Value(g.call(m)), g.hash(m))
  }

  ghost function Intended(g: Graph, n: NodeId): Manifest
    requires ValidGraph(g) && n in g.specs
    decreases g.rank[n], 0
  {
    ManifestOf(g, n, map d | d in Ancestors(g, n) :: Eval(g, d))
  }

  /** Recursive evaluation calls the node with the evaluated nodes before it. */
  lemma EvalBuilt(g: Graph, n: NodeId)
    requires ValidGraph(g) && n in g.specs
    ensures BuiltFrom(g, n, Intended(g, n), Upstream(g, n))
    ensures Eval(g, n).fingerprint == g.hash(Intended(g, n))
    ensures forall v :: g.call(Intended(g, n)) == Ok(v) ==> Eval(g, n).value == v
  {
    ManifestBuilt(g, n, Upstream(g, n));
  }

  /** A manifest depends only on the results of the dependencies and on the values that are passed. */
  lemma ManifestDetermined(g: Graph, n: NodeId, a: Results, b: Results)
    requires Covers(g, n, a) && Covers(g, n, b)
    requires forall d :: d in g.specs[n].dependsOn ==> a[d] == b[d]
    requires forall d :: Refers(g.specs, n, d) ==> ValueOf(a, d) == ValueOf(b, d)
    ensures ManifestOf(g, n, a) == ManifestOf(g, n, b)
  {
    var s := g.specs[n];
    forall k | k in s.upstreamKwargs ensures Injected(a, s.upstreamKwargs[k]) == Injected(b, s.upstreamKwargs[k]) {
      var refs := s.upstreamKwargs[k];
      forall i | 0 <= i < |refs| ensures ValueOf(a, refs[i]) == ValueOf(b, refs[i]) {
        assert Refers(g.specs, n, refs[i]);
      }
    }
    KwargsDetermined(s, a, b);
    FingerprintsDetermined(s.dependsOn, a, b);
  }

  lemma KwargsDetermined(s: Spec, a: Results, b: Results)
    requires forall k :: k in s.upstreamKwargs ==> Injected(a, s.upstreamKwargs[k]) == Injected(b, s.upstreamKwargs[k])
    ensures (map k | k in s.upstreamKwargs :: Injected(a, s.upstreamKwargs[k]))
         == (map k | k in s.upstreamKwargs :: Injected(b, s.upstreamKwargs[k]))
  {
  }

  lemma FingerprintsDetermined(deps: seq<NodeId>, a: Results, b: Results)
    requires forall d :: d in deps ==> d in a && d in b && a[d] == b[d]
    ensures seq(|deps|, i requires 0 <= i < |deps| => a[deps[i]].fingerprint)
         == seq(|deps|, i requires 0 <= i < |deps| => b[deps[i]].fingerprint)
  {
  }

  /** The results hold recursive evaluation for all ancestors and nothing for the nodes behind. */
  ghost predicate Sees(g: Graph, n: NodeId, up: Results)
    requires ValidGraph(g) && n in g.specs
  {
    && (forall d :: d in Ancestors(g, n) ==> d in up && up[d] == Eval(g, d))
    && (forall d :: Ordered(g, n, d) && d !in Ancestors(g, n) ==> d !in up)
  }

  /** The results of the ancestors alone. */
  ghost function Upstream(g: Graph, n: NodeId): Results
    requires ValidGraph(g) && n in g.specs
  {
    map d | d in Ancestors(g, n) :: Eval(g, d)
  }

  lemma SeesUpstream(g: Graph, n: NodeId, up: Results)
    requires ValidGraph(g) && n in g.specs && Sees(g, n, up)
    ensures Covers(g, n, up) && Covers(g, n, Upstream(g, n))
    ensures forall d :: d in g.specs[n].dependsOn ==> up[d] == Upstream(g, n)[d]
    ensures forall d :: Refers(g.specs, n, d) ==> ValueOf(up, d) == ValueOf(Upstream(g, n), d)
  {
    forall d | Refers(g.specs, n, d) ensures ValueOf(up, d) == ValueOf(Upstream(g, n), d) {
      assert Ordered(g, n, d);
    }
  }

  /** Results that agree with recursive evaluation lead to the intended manifest. */
  lemma IntendedFromResults(g: Graph, n: NodeId, up: Results)
    requires ValidGraph(g) && n in g.specs && Sees(g, n, up)
    ensures Covers(g, n, up) && ManifestOf(g, n, up) == Intended(g, n)
  {
    SeesUpstream(g, n, up);
    ManifestDetermined(g, n, up, Upstream(g, n));
  }

  /** The intended manifest of every node, tabulated. */
  type Goal = map<NodeId, Manifest>

  ghost function GoalOf(g: Graph): (goal: Goal)
    requires ValidGraph(g)
    ensures goal.Keys == g.specs.Keys
  {
    map n | n in g.specs :: Intended(g, n)
  }

  /** Fingerprints separate nodes that compute different things. */
  ghost predicate Separate(g: Graph, goal: Goal) {
    forall a, b :: a in goal && b in goal && g.hash(goal[a]) == g.hash(goal[b]) ==> g.call(goal[a]) == g.call(goal[b])
  }

  /** Whatever a cache holds under a node's fingerprint is that node's output. */
  ghost predicate SoundCache(g: Graph, goal: Goal, cache: map<Fingerprint, Json>) {
    forall n :: n in goal && g.hash(goal[n]) in cache ==> g.call(goal[n]) == Ok(cache[g.hash(goal[n])])
  }

  lemma StoreKeepsSound(g: Graph, goal: Goal, cache: map<Fingerprint, Json>, n: NodeId, v: Json)
    requires Separate(g, goal) && SoundCache(g, goal, cache) && n in goal && g.call(goal[n]) == Ok(v)
    ensures SoundCache(g, goal, cache[g.hash(goal[n]) := v])
  {
  }

  // ---------------------------------------------------------------- counting dependencies

  function Count<T(==)>(s: seq<T>, x: T): nat {
    if s == [] then 0 else Count(s[..|s| - 1], x) + if s[|s| - 1] == x then 1 else 0
  }

  /** Entries of `s` that are not in `done`. */
  function CountOutside<T(==)>(s: seq<T>, done: set<T>): nat {
    if s == [] then 0 else CountOutside(s[..|s| - 1], done) + if s[|s| - 1] in done then 0 else 1
  }

  lemma {:induction false} CountOutsideAdd<T>(s: seq<T>, done: set<T>, x: T)
    requires x !in done
    ensures CountOutside(s, done) == CountOutside(s, done + {x}) + Count(s, x)
  {
    if s != [] {
      CountOutsideAdd(s[..|s| - 1], done, x);
    }
  }

  lemma {:induction false} CountOutsideZero<T>(s: seq<T>, done: set<T>)
    ensures CountOutside(s, done) == 0 <==> forall x :: x in s ==> x in done
  {
    if s != [] {
      var n := |s| - 1;
      CountOutsideZero(s[..n], done);
      assert s == s[..n] + [s[n]];
    }
  }

  lemma {:induction false} CountOutsideEmpty<T>(s: seq<T>)
    ensures CountOutside(s, {}) == |s|
  {
    if s != [] {
      CountOutsideEmpty(s[..|s| - 1]);
    }
  }

  lemma {:induction false} CountConcat<T>(a: seq<T>, b: seq<T>, x: T)
    ensures Count(a + b, x) == Count(a, x) + Count(b, x)
    decreases |b|
  {
    if b == [] {
      assert a + b == a;
    } else {
      CountConcat(a, b[..|b| - 1], x);
      assert (a + b)[..|a + b| - 1] == a + b[..|b| - 1];
    }
  }

  function Repeat(c: NodeId, k: nat): seq<NodeId> {
    if k == 0 then [] else Repeat(c, k - 1) + [c]
  }

  lemma {:induction false} CountRepeat(c: NodeId, k: nat, x: NodeId)
    ensures Count(Repeat(c, k), x) == if x == c then k else 0
  {
    if k > 0 {
      CountRepeat(c, k - 1, x);
      assert Repeat(c, k)[..k - 1] == Repeat(c, k - 1) by {
        RepeatLength(c, k - 1);
      }
      RepeatLength(c, k - 1);
    }
  }

  lemma {:induction false} RepeatLength(c: NodeId, k: nat)
    ensures |Repeat(c, k)| == k
  {
    if k > 0 {
      RepeatLength(c, k - 1);
    }
  }

  /** `_dependents[n]` after `add_node` has run for `order`: one entry per entry of `depends_on`. */
  function Children(specs: map<NodeId, Spec>, order: seq<NodeId>, n: NodeId): seq<NodeId>
    requires forall c :: c in order ==> c in specs
  {
    if order == [] then []
    else
      var c := order[|order| - 1];
      Children(specs, order[..|order| - 1], n) + Repeat(c, Count(specs[c].dependsOn, n))
  }

  lemma {:induction false} CountChildren(specs: map<NodeId, Spec>, order: seq<NodeId>, n: NodeId, c: NodeId)
    requires forall x :: x in order ==> x in specs
    requires forall i, j :: 0 <= i < j < |order| ==> order[i] != order[j]
    ensures Count(Children(specs, order, n), c) == if c in order then Count(specs[c].dependsOn, n) else 0
  {
    if order != [] {
      var k := |order| - 1;
      CountChildren(specs, order[..k], n, c);
      assert order == order[..k] + [order[k]];
      CountConcat(Children(specs, order[..k], n), Repeat(order[k], Count(specs[order[k]].dependsOn, n)), c);
      CountRepeat(order[k], Count(specs[order[k]].dependsOn, n), c);
    }
  }

  /** A node registered later does not change the dependents recorded so far. */
  lemma {:induction false} ChildrenFrame(specs: map<NodeId, Spec>, more: map<NodeId, Spec>, order: seq<NodeId>, n: NodeId)
    requires forall c :: c in order ==> c in specs && c in more && specs[c] == more[c]
    ensures Children(specs, order, n) == Children(more, order, n)
  {
    if order != [] {
      ChildrenFrame(specs, more, order[..|order| - 1], n);
    }
  }
}
