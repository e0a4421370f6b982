/** core/transaction_manager.py, one transaction: opens are redirected to a staging overlay, and the
    overlay behaves like the live tree. The workspace is a flat map from path to contents. */
module Workspace {
  import opened Common

  type Path = string
  type Content = string
  type Tree = map<Path, Content>

  /** An open in mode r, w, a or x, with the data written before the close. */
  datatype Op =
    | Read(path: Path)
    | Write(path: Path, data: Content)
    | Append(path: Path, data: Content)
    | Exclusive(path: Path, data: Content)

  datatype Outcome = Text(content: Content) | Written | FileNotFound | FileExists

  /** The same open on an ordinary directory tree. */
  function Direct(tree: Tree, op: Op): (Tree, Outcome) {
    match op
    case Read(p) => (tree, if p in tree then Text(tree[p]) else FileNotFound)
    case Write(p, data) => (tree[p := data], Written)
    case Append(p, data) => (tree[p := (if p in tree then tree[p] else "") + data], Written)
    case Exclusive(p, data) => if p in tree then (tree, FileExists) else (tree[p := data], Written)
  }

  function DirectRun(tree: Tree, ops: seq<Op>): (Tree, seq<Outcome>) {
    if ops == [] then (tree, [])
    else
      var (t, outs) := DirectRun(tree, ops[..|ops| - 1]);
      var (t', out) := Direct(t, ops[|ops| - 1]);
      (t', outs + [out])
  }

  lemma OverlayUpdate(live: Tree, staged: Tree, p: Path, x: Content)
    ensures live + staged[p := x] == (live + staged)[p := x]
  {
  }

  /** Moving one staged file to its live path does not change the overlay. */
  lemma OverlayMove(live: Tree, staged: Tree, p: Path)
    requires p in staged
    ensures live[p := staged[p]] + (staged - {p}) == live + staged
  {
  }

  class WorkspaceTransaction {
    var live: Tree
    var staged: Tree
    var touched: seq<Path>
    var finalized: bool

    /** Every staged file is listed in the manifest. */
    ghost predicate Valid()
      reads this
    {
      forall p :: p in staged ==> p in touched
    }

    /** What the transaction sees. */
    ghost function View(): Tree
      reads this
    {
      live + staged
    }

    constructor (live: Tree)
      ensures Valid() && this.live == live && View() == live && staged == map[] && !finalized
    {
      this.live, staged, touched, finalized := live, map[], [], false;
    }

    /** `_register_touch`: dictionary insertion, first position kept. */
    method RegisterTouch(p: Path)
      modifies this`touched
      ensures forall q :: q in touched <==> q in old(touched) || q == p
    {
      if p !in touched {
        touched := touched + [p];
      }
    }

    /** `_map_for_open` followed by the real open of the mapped path. */
    method Open(op: Op) returns (out: Outcome)
      requires Valid()
      modifies this`staged, this`touched
      ensures Valid() && live == old(live)
      ensures (View(), out) == Direct(old(View()), op)
      ensures op.Read? ==> View() == old(View()) && out == if op.path in View() then Text(View()[op.path]) else FileNotFound
      ensures op.Write? ==> View() == old(View())[op.path := op.data] && out == Written
      ensures op.Append? && op.path !in old(View()) ==> View() == old(View())[op.path := op.data] && out == Written
      ensures op.Append? && op.path in old(View()) ==>
        View() == old(View())[op.path := old(View())[op.path] + op.data] && out == Written
      ensures op.Exclusive? && op.path in old(View()) ==> View() == old(View()) && out == FileExists
      ensures op.Exclusive? && op.path !in old(View()) ==> View() == old(View())[op.path := op.data] && out == Written
    {
      var p := op.path;
      if op.Read? {
        if p in staged {
          return Text(staged[p]);
        }
        return if p in live then Text(live[p]) else FileNotFound;
      }
      if op.Exclusive? && p !in staged && p in live {
        return FileExists;
      }
      ghost var before := View();
      if op.Append? && p !in staged && p in live {
        OverlayUpdate(live, staged, p, live[p]);
        staged := staged[p := live[p]];
        assert View() == before;
      }
      RegisterTouch(p);
      match op {
        case Write(_, data) =>
          staged := staged[p := data];
        case Append(_, data) =>
          staged := staged[p := (if p in staged then staged[p] else "") + data];
        case Exclusive(_, data) =>
          if p in staged {
            return FileExists;
          }
          staged := staged[p := data];
      }
      OverlayUpdate(live, old(staged), p, staged[p]);
      assert View() == before[p := staged[p]];
      assert "" + op.data == op.data;
      return Written;
    }

    /** Any sequence of opens reads, fails and writes exactly as on the live tree. */
    method RunAll(ops: seq<Op>) returns (outs: seq<Outcome>)
      requires Valid()
      modifies this`staged, this`touched
      ensures Valid() && live == old(live)
      ensures (View(), outs) == DirectRun(old(View()), ops)
    {
      outs := [];
      for i := 0 to |ops|
        invariant Valid() && live == old(live)
        invariant (View(), outs) == DirectRun(old(View()), ops[..i])
      {
        assert ops[..i + 1][..i] == ops[..i];
        var out := Open(ops[i]);
        outs := outs + [out];
      }
      assert ops[..|ops|] == ops;
    }

    /** Commit moves every staged file over its live path: the live tree becomes the view. */
    method Commit()
      requires Valid()
      modifies this
      ensures Valid() && finalized
      ensures !old(finalized) ==> live == old(View()) && staged == map[]
      ensures old(finalized) ==> live == old(live) && staged == old(staged)
    {
      if finalized {
        return;
      }
      for i := 0 to |touched|
        invariant touched == old(touched) && !finalized && live + staged == old(View())
        invariant forall p :: p in staged ==> p in touched[i..]
      {
        var p := touched[i];
        assert touched[i..] == [p] + touched[i + 1..];
        if p in staged {
          OverlayMove(live, staged, p);
          live, staged := live[p := staged[p]], staged - {p};
        }
      }
      assert staged == map[];
      finalized, touched := true, [];
    }

    method Rollback()
      requires Valid()
      modifies this
      ensures Valid() && finalized && live == old(live)
      ensures !old(finalized) ==> staged == map[] && View() == old(live)
    {
      if finalized {
        return;
      }
      finalized, staged, touched := true, map[], [];
    }
  }
}
