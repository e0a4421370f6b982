/** The mutable objects behind core/dag_engine.py and core/cache.py. */
module DagService {
  import opened Common
  import opened Ledger
  import opened DagSemantics
  import opened DagEngine

  /** Registration: `_nodes` in insertion order and `_dependents`. */
  class WorkspaceDagEngine {
    var order: seq<NodeId>
    var specs: map<NodeId, Spec>
    var dependents: map<NodeId, seq<NodeId>>

    ghost predicate Valid()
      reads this
    {
      && (forall n :: n in order <==> n in specs)
      && (forall n :: Lookup(dependents, n) == Children(specs, order, n))
    }

    constructor ()
      ensures Valid() && order == []
    {
      order, specs, dependents := [], map[], map[];
    }

    method RecordDependents(id: NodeId, parents: seq<NodeId>)
      modifies this`dependents
      ensures forall n :: Lookup(dependents, n) == Lookup(old(dependents), n) + Repeat(id, Count(parents, n))
    {
      if id !in dependents {
        dependents := dependents[id := []];
      }
      ghost var base := dependents;
      for i := 0 to |parents|
        invariant dependents == Recorded(base, id, parents[..i])
      {
        assert parents[..i + 1][..i] == parents[..i];
        dependents := dependents[parents[i] := Lookup(dependents, parents[i]) + [id]];
      }
      assert parents[..|parents|] == parents;
      forall n ensures Lookup(dependents, n) == Lookup(old(dependents), n) + Repeat(id, Count(parents, n)) {
        RecordedLookup(base, id, parents, n);
      }
    }

    /** `add_node`: refuses duplicates, otherwise records one dependent entry per dependency entry. */
    method AddNode(id: NodeId, spec: Spec) returns (ok: bool)
      requires Valid()
      modifies this
      ensures Valid() && ok == (id !in old(specs))
      ensures ok ==> order == old(order) + [id] && specs == old(specs)[id := spec]
      ensures !ok ==> order == old(order) && specs == old(specs)
    {
      if id in specs {
        return false;
      }
      RecordDependents(id, spec.dependsOn);
      forall n ensures Children(specs[id := spec], order + [id], n) == Lookup(dependents, n) {
        ChildrenAppend(specs, order, id, spec, n);
      }
      order, specs := order + [id], specs[id := spec];
      return true;
    }
  }

  /** `dict.setdefault(n, [])` */
  function Lookup(dependents: map<NodeId, seq<NodeId>>, n: NodeId): seq<NodeId> {
    if n in dependents then dependents[n] else []
  }

  function Recorded(dependents: map<NodeId, seq<NodeId>>, id: NodeId, parents: seq<NodeId>): map<NodeId, seq<NodeId>> {
    if parents == [] then dependents
    else
      var k := |parents| - 1;
      var before := Recorded(dependents, id, parents[..k]);
      before[parents[k] := Lookup(before, parents[k]) + [id]]
  }

  lemma {:induction false} RecordedLookup(dependents: map<NodeId, seq<NodeId>>, id: NodeId, parents: seq<NodeId>, n: NodeId)
    ensures Lookup(Recorded(dependents, id, parents), n) == Lookup(dependents, n) + Repeat(id, Count(parents, n))
  {
    if parents != [] {
      var k := |parents| - 1;
      var before := Recorded(dependents, id, parents[..k]);
      RecordedLookup(dependents, id, parents[..k], n);
      if parents[k] == n {
        assert Lookup(Recorded(dependents, id, parents), n) == Lookup(before, n) + [id];
        assert Count(parents, n) == Count(parents[..k], n) + 1;
      } else {
        assert Lookup(Recorded(dependents, id, parents), n) == Lookup(before, n);
        assert Count(parents, n) == Count(parents[..k], n);
      }
    }
  }

  lemma ChildrenAppend(specs: map<NodeId, Spec>, order: seq<NodeId>, id: NodeId, spec: Spec, n: NodeId)
    requires (forall c :: c in order ==> c in specs) && id !in specs
    ensures Children(specs[id := spec], order + [id], n) == Children(specs, order, n) + Repeat(id, Count(spec.dependsOn, n))
  {
    ChildrenFrame(specs, specs[id := spec], order, n);
    assert (order + [id])[..|order|] == order;
  }

  /** The local state of `_execute_all`. */
  class Scheduler {
    const graph: Graph
    var remaining: map<NodeId, int>
    var ready: seq<NodeId>
    var processed: set<NodeId>
    ghost var tasked: set<NodeId>
    ghost var doneQ: multiset<NodeId>

    ghost function View(): Schedule
      reads this
    {
      Schedule(remaining, ready, processed, tasked, doneQ)
    }

    constructor (g: Graph)
      requires forall n :: n in g.specs <==> n in g.order
      requires Distinct(g.order)
      ensures graph == g && remaining.Keys == g.specs.Keys && processed == {} && tasked == {} && doneQ == multiset{}
      ensures forall n :: n in g.specs ==> remaining[n] == |g.specs[n].dependsOn|
      ensures Distinct(ready) && forall n :: n in ready <==> n in g.specs && g.specs[n].dependsOn == []
    {
      graph := g;
      remaining, ready, processed := map n | n in g.specs :: |g.specs[n].dependsOn|, [], {};
      tasked, doneQ := {}, multiset{};
      new;
      for i := 0 to |g.order|
        invariant remaining == map n | n in g.specs :: |g.specs[n].dependsOn|
        invariant Distinct(ready) && processed == {} && tasked == {} && doneQ == multiset{}
        invariant forall n :: n in ready <==> n in g.order[..i] && g.specs[n].dependsOn == []
      {
        if remaining[g.order[i]] == 0 {
          assert g.order[i] !in g.order[..i];
          ready := ready + [g.order[i]];
        }
      }
      assert g.order[..|g.order|] == g.order;
    }

    /** `_process_done`, with its loop over the dependents. */
    method Process(nid: NodeId, dependents: seq<NodeId>)
      requires forall c :: c in graph.order ==> c in graph.specs
      requires dependents == Children(graph.specs, graph.order, nid)
      requires forall c :: c in dependents ==> c in remaining
      modifies this`remaining, this`ready, this`processed
      ensures View() == ProcessDone(graph, old(View()), nid)
    {
      if nid in processed {
        return;
      }
      processed := processed + {nid};
      CountDown(dependents);
    }

    /** Its loop: take one off each dependent's counter. */
    method CountDown(dependents: seq<NodeId>)
      requires forall c :: c in dependents ==> c in remaining
      modifies this`remaining, this`ready
      ensures (remaining, ready) == Decrement(old(remaining), old(ready), dependents)
    {
      ghost var rem, rdy := remaining, ready;
      for i := 0 to |dependents|
        invariant (remaining, ready) == Decrement(rem, rdy, dependents[..i]) && remaining.Keys == rem.Keys
      {
        DecrementStep(rem, rdy, dependents, i);
        var child := dependents[i];
        remaining := remaining[child := remaining[child] - 1];
        if remaining[child] == 0 {
          ready := ready + [child];
        }
      }
      assert dependents[..|dependents|] == dependents;
    }
  }

  type Stage = n: nat | n < 4

  /** What a miss at `stage` leaves in the index of its transaction: later stages are dropped. */
  predicate IndexAfterMiss(before: map<Stage, Fingerprint>, after: map<Stage, Fingerprint>, stage: Stage, fp: Fingerprint) {
    && stage in after && after[stage] == fp
    && (forall s :: s in after && s != stage ==> s < stage && s in before && after[s] == before[s])
    && (forall s :: s in before && s < stage ==> s in after)
  }

  class WorkspaceCacheEngine {
    var objects: map<Fingerprint, Json>
    var index: map<string, map<Stage, Fingerprint>>

    constructor ()
      ensures objects == map[] && index == map[]
    {
      objects, index := map[], map[];
    }

    /** `run_stage`: a hit bypasses the call; a miss calls, stores and invalidates downstream stages. On
        a sound cache either way the node's own output is returned and the cache stays sound. */
    method RunStage(g: Graph, ghost goal: Goal, ghost node: NodeId, m: Manifest, stage: Stage, tx: string)
      returns (out: Outcome, hit: bool)
      requires Separate(g, goal) && SoundCache(g, goal, objects) && node in goal && goal[node] == m
      modifies this
      ensures out == g.call(m) && SoundCache(g, goal, objects)
      ensures hit == (g.hash(m) in old(objects))
      ensures hit || out.Raises? ==> objects == old(objects) && index == old(index)
      ensures !hit && out.Ok? ==> objects == old(objects)[g.hash(m) := out.value]
      ensures !hit && out.Ok? ==> tx in index
      ensures !hit && out.Ok? ==>
        IndexAfterMiss(if tx in old(index) then old(index)[tx] else map[], index[tx], stage, g.hash(m))
      ensures forall t :: t != tx ==> (t in index <==> t in old(index)) && (t in index ==> index[t] == old(index)[t])
    {
      var fp := g.hash(m);
      if fp in objects {
        return Ok(objects[fp]), true;
      }
      out, hit := g.call(m), false;
      if out.Raises? {
        return;
      }
      StoreKeepsSound(g, goal, objects, node, out.value);
      objects := objects[fp := out.value];
      var row: map<Stage, Fingerprint> := if tx in index then index[tx] else map[];
      ghost var before := row;
      for s: int := stage + 1 to 4
        invariant forall r :: r in row <==> r in before && (r <= stage || r >= s)
        invariant forall r :: r in row ==> row[r] == before[r]
      {
        row := row - {s};
      }
      index := index[tx := row[stage := fp]];
    }
  }
}
