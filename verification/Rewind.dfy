/** Coordinated shorter-chain rewind of three nodes (crates/control-plane/src/rewind_job.rs).

    Every remote or durable call answers `Ok`, `Err` (possibly hiding a completed effect) or
    `Crash` (the control plane dies before or after the effect). A budget bounds how many
    calls may go wrong. The source's retry loops have no bound of their own: here they stop
    after `patience` attempts, and the contracts say for which nodes any patience is enough
    and for which none is. */
module Rewind {
  import opened Chain
  import opened NodeViews
  import opened ThreeNodes
  import opened Options
  import opened Replies
  import Disks
  import opened Polls

  const MAX_REWIND_BLOCKS: nat := 100
  const MIN_REWIND_TARGET_HEIGHT: nat := 204
  const POLLS: nat := 40

  datatype NodeState = Pending | Invalidated | Restored
  datatype Tip = Tip(height: nat, hash: Block)

  const INVALIDATION_ORDER: seq<Node> := [Node2, Node3, Node1]

  // ---------------------------------------------------------------- recovery context

  datatype Context = Context(
    originalHeight: Option<nat>, originalTip: Option<Block>,
    targetHeight: Option<nat>, targetTip: Option<Block>,
    boundary: Option<Block>, perNode: PerNode<NodeState>, resolved: bool)

  const NOTHING_DONE := PerNode(Pending, Pending, Pending)
  const ALL_INVALIDATED := PerNode(Invalidated, Invalidated, Invalidated)
  const ALL_RESTORED := PerNode(Restored, Restored, Restored)
  const NO_CONTEXT := Context(None, None, None, None, None, NOTHING_DONE, false)

  function Prepared(original: Tip, targetHeight: nat, targetTip: Block, boundary: Block): Context {
    Context(Some(original.height), Some(original.hash), Some(targetHeight), Some(targetTip), Some(boundary), NOTHING_DONE, false)
  }

  predicate Complete(c: Context) {
    c.originalHeight.Some? && c.originalTip.Some? && c.targetHeight.Some? && c.targetTip.Some? && c.boundary.Some?
  }

  /** What `Prepared` records: the boundary is the child of the target on the original chain. */
  predicate Coherent(c: Context) {
    && Complete(c)
    && c.originalHeight.value == Height(c.originalTip.value)
    && c.targetHeight.value == Height(c.targetTip.value)
    && c.boundary.value.Mined? && c.boundary.value.parent == c.targetTip.value
    && Contains(c.originalTip.value, c.boundary.value)
  }

  /** The two contexts describe the same rewind. */
  predicate SameRewind(c: Context, d: Context) {
    c.(perNode := NOTHING_DONE, resolved := false) == d.(perNode := NOTHING_DONE, resolved := false)
  }

  // ---------------------------------------------------------------- chains of the cluster

  type Nodes = PerNode<View>

  function TipOf(v: View): Tip { Tip(Height(Active(v)), Active(v)) }

  predicate AllAt(nodes: Nodes, tip: Block) {
    Active(nodes.node1) == tip && Active(nodes.node2) == tip && Active(nodes.node3) == tip
  }

  predicate Agree(nodes: Nodes) { AllAt(nodes, Active(nodes.node1)) }

  /** The tips agree on a chain that holds `b` at height `h`. */
  predicate CommonlyContains(nodes: Nodes, h: nat, b: Block) {
    Agree(nodes) && h <= Height(Active(nodes.node1)) && At(Active(nodes.node1), h) == b
  }

  function InvalidateAll(nodes: Nodes, b: Block): Nodes {
    PerNode(Invalidate(nodes.node1, b), Invalidate(nodes.node2, b), Invalidate(nodes.node3, b))
  }

  function ReconsiderAll(nodes: Nodes, b: Block): Nodes {
    PerNode(Reconsider(nodes.node1, b), Reconsider(nodes.node2, b), Reconsider(nodes.node3, b))
  }

  predicate KeptOrReconsidered(v: View, w: View, b: Block) {
    v == w || v == Reconsider(w, b)
  }

  predicate EachKeptOrReconsidered(nodes: Nodes, before: Nodes, b: Block) {
    && KeptOrReconsidered(nodes.node1, before.node1, b)
    && KeptOrReconsidered(nodes.node2, before.node2, b)
    && KeptOrReconsidered(nodes.node3, before.node3, b)
  }

  /** A node caught anywhere in a rewind of `before`, or in its rollback. */
  predicate Caught(v: View, w: View, b: Block) {
    v == w || v == Invalidate(w, b) || v == Reconsider(w, b)
  }

  predicate Midway(nodes: Nodes, before: Nodes, b: Block) {
    Caught(nodes.node1, before.node1, b) && Caught(nodes.node2, before.node2, b) && Caught(nodes.node3, before.node3, b)
  }

  /** The nodes agree and a rollback has nothing left to do. */
  predicate Settled(nodes: Nodes, b: Block) {
    Agree(nodes) && ReconsiderAll(nodes, b) == nodes
  }

  /** Reconsidering the boundary everywhere ends on one chain holding the original tip. */
  predicate Lands(nodes: Nodes, c: Context)
    requires Coherent(c)
  {
    CommonlyContains(ReconsiderAll(nodes, c.boundary.value), c.originalHeight.value, c.originalTip.value)
  }

  /** Invalidating the block stops every node exactly at its parent. */
  predicate Smooth(nodes: Nodes, b: Block)
    requires b.Mined?
  {
    AllAt(InvalidateAll(nodes, b), b.parent)
  }

  /** One chain with the target but without the original tip: what recovery takes for a
      completed rewind. */
  predicate RewoundSafely(nodes: Nodes, c: Context)
    requires Coherent(c)
  {
    && CommonlyContains(nodes, c.targetHeight.value, c.targetTip.value)
    && !CommonlyContains(nodes, c.originalHeight.value, c.originalTip.value)
  }

  /** Rolling back forgets how far the rewind, or an earlier rollback, had come. */
  lemma MidwayRestores(nodes: Nodes, before: Nodes, b: Block)
    requires Midway(nodes, before, b)
    ensures ReconsiderAll(nodes, b) == ReconsiderAll(before, b)
  {
    forall v | v in {before.node1, before.node2, before.node3}
      ensures Reconsider(Reconsider(v, b), b) == Reconsider(v, b) == Reconsider(Invalidate(v, b), b)
    {
      ReconsiderTwice(v, b);
      ReconsiderUndoesInvalidate(v, b);
    }
  }

  lemma KeptRestores(nodes: Nodes, before: Nodes, b: Block)
    requires EachKeptOrReconsidered(nodes, before, b)
    ensures ReconsiderAll(nodes, b) == ReconsiderAll(before, b)
  {
    MidwayRestores(nodes, before, b);
  }

  lemma KeptTwice(now: Nodes, mid: Nodes, before: Nodes, b: Block)
    requires EachKeptOrReconsidered(now, mid, b) && EachKeptOrReconsidered(mid, before, b)
    ensures EachKeptOrReconsidered(now, before, b)
  {
    ReconsiderTwice(before.node1, b);
    ReconsiderTwice(before.node2, b);
    ReconsiderTwice(before.node3, b);
  }

  lemma RollingBackKeepsMidway(now: Nodes, mid: Nodes, before: Nodes, b: Block)
    requires EachKeptOrReconsidered(now, mid, b) && Midway(mid, before, b)
    ensures Midway(now, before, b)
  {
    MidwayRestores(mid, before, b);
  }

  /** A chain holding the original tip holds the target. */
  lemma OriginalHoldsTarget(nodes: Nodes, c: Context)
    requires Coherent(c) && CommonlyContains(nodes, c.originalHeight.value, c.originalTip.value)
    ensures CommonlyContains(nodes, c.targetHeight.value, c.targetTip.value)
  {
    TargetBelowOriginal(c);
    ContainsTransitive(Active(nodes.node1), c.originalTip.value, c.targetTip.value);
  }

  // ---------------------------------------------------------------- backend and observer

  /** How often an unaborted job asks whether to abort: once prepared, before each node, at the end. */
  const ABORT_POLLS: nat := 5

  /** The three nodes, plus the job record that survives a crash. */
  class Cluster {
    var nodes: Nodes
    var saved: Context
    var budget: nat
    var polls: seq<bool>   // the answers to the coming polls for an abort

    /** Whether the next call goes wrong, which spends budget. */
    method Fault() returns (fault: bool, crash: bool)
      modifies this`budget
      ensures budget == if fault then old(budget) - 1 else old(budget)
    {
      fault, crash := *, *;
      fault := fault && budget > 0;
      if fault { budget := budget - 1; }
    }

    method Tips() returns (r: Reply<PerNode<Tip>>)
      modifies this`budget
      ensures r.Ok? ==> budget == old(budget) && r.value == PerNode(TipOf(nodes.node1), TipOf(nodes.node2), TipOf(nodes.node3))
      ensures !r.Ok? ==> budget < old(budget)
    {
      var fault, crash := Fault();
      if fault { return if crash then Crash else Err; }
      return Ok(PerNode(TipOf(nodes.node1), TipOf(nodes.node2), TipOf(nodes.node3)));
    }

    method BlockHash(n: Node, h: nat) returns (r: Reply<Block>)
      modifies this`budget
      ensures r.Ok? ==> budget == old(budget) && h <= Height(Active(nodes.Get(n))) && r.value == At(Active(nodes.Get(n)), h)
      ensures !r.Ok? && h <= Height(Active(nodes.Get(n))) ==> budget < old(budget)
      ensures budget <= old(budget)
    {
      var fault, crash := Fault();
      if fault { return if crash then Crash else Err; }
      if h > Height(Active(nodes.Get(n))) { return Err; }
      return Ok(At(Active(nodes.Get(n)), h));
    }

    method MempoolSize(n: Node) returns (r: Reply<nat>)
      modifies this`budget
      ensures r.Ok? ==> budget == old(budget)
      ensures !r.Ok? ==> budget < old(budget)
    {
      var fault, crash := Fault();
      if fault { return if crash then Crash else Err; }
      var size: nat := *;
      return Ok(size);
    }

    /** Write-ahead rule: the boundary must already be in the surviving record. */
    method InvalidateBlock(n: Node, b: Block) returns (r: Reply<()>)
      requires saved.boundary == Some(b)
      modifies this`nodes, this`budget
      ensures nodes == old(nodes) || nodes == old(nodes).Set(n, Invalidate(old(nodes).Get(n), b))
      ensures r.Ok? ==> budget == old(budget) && nodes == old(nodes).Set(n, Invalidate(old(nodes).Get(n), b))
      ensures !r.Ok? ==> budget < old(budget)
    {
      var fault, crash := Fault();
      var effect: bool := *;
      if !fault || effect { nodes := nodes.Set(n, Invalidate(nodes.Get(n), b)); }
      return if !fault then Ok(()) else if crash then Crash else Err;
    }

    method ReconsiderBlock(n: Node, b: Block) returns (r: Reply<()>)
      modifies this`nodes, this`budget
      ensures nodes == old(nodes) || nodes == old(nodes).Set(n, Reconsider(old(nodes).Get(n), b))
      ensures r.Ok? ==> budget == old(budget) && nodes == old(nodes).Set(n, Reconsider(old(nodes).Get(n), b))
      ensures !r.Ok? ==> budget < old(budget)
    {
      var fault, crash := Fault();
      var effect: bool := *;
      if !fault || effect { nodes := nodes.Set(n, Reconsider(nodes.Get(n), b)); }
      return if !fault then Ok(()) else if crash then Crash else Err;
    }

    /** Save the context in the job record. A record may turn resolved only while tips agree. */
    method Persist(c: Context) returns (r: Reply<()>)
      requires c.resolved && !saved.resolved ==> Agree(nodes)
      modifies this`saved, this`budget
      ensures saved == old(saved) || saved == c
      ensures r.Ok? ==> budget == old(budget) && saved == c
      ensures !r.Ok? ==> budget < old(budget)
    {
      var fault, crash := Fault();
      var effect: bool := *;
      if !fault || effect { saved := c; }
      return if !fault then Ok(()) else if crash then Crash else Err;
    }

    method AbortRequested() returns (asked: bool)
      modifies this`polls
      ensures asked == Asks(old(polls), 0) && polls == Disks.After(old(polls), 1)
    {
      asked := Asks(polls, 0);
      polls := Disks.After(polls, 1);
    }
  }

  // ---------------------------------------------------------------- executor

  datatype Failure =
    | Precondition       // refused before the first mutation
    | OriginalRestored   // the error text promises "original chain restored"
    | AfterDecision      // the outcome was reached but not recorded or not reported

  datatype Execution =
    | Done(rewound: nat, chainChanged: bool, aborted: bool)
    | Failed(reason: Failure)
    | Unfinished         // still rolling back after `patience` attempts
    | Crashed

  class CoordinatedRewindExecutor {
    const backend: Cluster

    constructor (backend: Cluster)
      ensures this.backend == backend
    {
      this.backend := backend;
    }

    method CommonTip() returns (r: Reply<Tip>)
      modifies backend`budget
      ensures r.Ok? ==> backend.budget == old(backend.budget)
      ensures r.Ok? ==> AllAt(backend.nodes, r.value.hash) && r.value == TipOf(backend.nodes.node1)
      ensures !r.Ok? && Agree(backend.nodes) ==> backend.budget < old(backend.budget)
      ensures backend.budget <= old(backend.budget)
    {
      var tips := backend.Tips();
      if !tips.Ok? { return Down(tips); }
      var node1 := tips.value.node1;
      for i := 0 to |ALL|
        invariant forall j :: 0 <= j < i ==> tips.value.Get(ALL[j]) == node1
      {
        if tips.value.Get(ALL[i]) != node1 { return Err; }
      }
      assert tips.value.Get(ALL[1]) == node1 && tips.value.Get(ALL[2]) == node1;
      return Ok(node1);
    }

    method TipsEqual(h: nat, b: Block) returns (r: Reply<bool>)
      modifies backend`budget
      ensures r.Ok? ==> backend.budget == old(backend.budget)
      ensures r.Ok? ==> (r.value <==> h == Height(b) && AllAt(backend.nodes, b))
      ensures !r.Ok? ==> backend.budget < old(backend.budget)
    {
      var tips := backend.Tips();
      if !tips.Ok? { return Down(tips); }
      return Ok(tips.value == PerNode(Tip(h, b), Tip(h, b), Tip(h, b)));
    }

    method WaitForExactTip(h: nat, b: Block) returns (r: Reply<()>)
      modifies backend`budget
      ensures r.Ok? ==> h == Height(b) && AllAt(backend.nodes, b) && backend.budget == old(backend.budget)
      ensures !r.Ok? && h == Height(b) && AllAt(backend.nodes, b) ==> backend.budget < old(backend.budget)
      ensures backend.budget <= old(backend.budget)
    {
      for i := 0 to POLLS
        invariant backend.budget == old(backend.budget)
        invariant i > 0 ==> !(h == Height(b) && AllAt(backend.nodes, b))
      {
        var equal := TipsEqual(h, b);
        if !equal.Ok? { return Down(equal); }
        if equal.value { return Ok(()); }
      }
      return Err;
    }

    method CommonChainContains(h: nat, b: Block) returns (r: Reply<bool>)
      modifies backend`budget
      ensures r.Ok? ==> backend.budget == old(backend.budget)
      ensures r.Ok? ==> (r.value <==> CommonlyContains(backend.nodes, h, b))
      ensures !r.Ok? ==> backend.budget < old(backend.budget)
    {
      var tips := backend.Tips();
      if !tips.Ok? { return Down(tips); }
      var first := tips.value.node1;
      if tips.value != PerNode(first, first, first) || first.height < h { return Ok(false); }
      for i := 0 to |ALL|
        invariant backend.budget == old(backend.budget)
        invariant i > 0 ==> At(first.hash, h) == b
      {
        var hash := backend.BlockHash(ALL[i], h);
        if !hash.Ok? { return Down(hash); }
        if hash.value != b { return Ok(false); }
      }
      return Ok(true);
    }

    /** One rollback attempt, on arbitrary nodes. `Ok` is only reported for a verified common
        chain holding the original tip. An attempt without a failed call fails exactly when
        the reconsidered nodes do not end on such a chain. */
    method RollbackOnce(c: Context) returns (r: Reply<()>, d: Context)
      requires Coherent(c)
      requires c.resolved ==> backend.saved.resolved || Settled(backend.nodes, c.boundary.value)
      modifies backend`nodes, backend`saved, backend`budget
      ensures SameRewind(c, d)
      ensures backend.saved == old(backend.saved) || SameRewind(backend.saved, c)
      ensures EachKeptOrReconsidered(backend.nodes, old(backend.nodes), c.boundary.value)
      ensures r.Ok? ==>
                && backend.nodes == ReconsiderAll(old(backend.nodes), c.boundary.value) && Lands(old(backend.nodes), c)
                && backend.saved == d && d.resolved && backend.budget == old(backend.budget) && d.perNode == ALL_RESTORED
      ensures r.Err? && backend.budget == old(backend.budget) ==>
                backend.nodes == ReconsiderAll(old(backend.nodes), c.boundary.value) && !Lands(old(backend.nodes), c)
      ensures r.Crash? ==> backend.budget < old(backend.budget)
      ensures backend.budget <= old(backend.budget)
      ensures d.resolved ==> backend.saved.resolved || Settled(backend.nodes, c.boundary.value)
    {
      d := c;
      ghost var before := backend.nodes;
      ghost var b := c.boundary.value;
      for i := 0 to |ALL|
        invariant SameRewind(c, d) && d.resolved == c.resolved
        invariant backend.saved == old(backend.saved) || SameRewind(backend.saved, c)
        invariant i > 0 ==> backend.saved == d
        invariant (i > 0 ==> d.perNode.node1 == Restored) && (i > 1 ==> d.perNode.node2 == Restored)
        invariant i > 2 ==> d.perNode.node3 == Restored
        invariant backend.nodes.node1 == if i > 0 then Reconsider(before.node1, b) else before.node1
        invariant backend.nodes.node2 == if i > 1 then Reconsider(before.node2, b) else before.node2
        invariant backend.nodes.node3 == if i > 2 then Reconsider(before.node3, b) else before.node3
        invariant backend.budget == old(backend.budget)
        invariant backend.saved.resolved || !d.resolved || Settled(before, b)
      {
        var n := ALL[i];
        var called := backend.ReconsiderBlock(n, c.boundary.value);
        if !called.Ok? { return Down(called), d; }
        d := d.(perNode := d.perNode.Set(n, Restored));
        var stored := backend.Persist(d);
        if !stored.Ok? { return Down(stored), d; }
      }
      r, d := VerifyRestored(before, c, d);
    }

    /** The second half of an attempt: poll for the original tip and record the success. */
    method VerifyRestored(ghost before: Nodes, c: Context, restored: Context) returns (r: Reply<()>, d: Context)
      requires Coherent(c) && SameRewind(c, restored) && backend.saved == restored
      requires backend.nodes == ReconsiderAll(before, c.boundary.value)
      modifies backend`saved, backend`budget
      ensures SameRewind(c, d) && SameRewind(backend.saved, c) && d.perNode == restored.perNode
      ensures r.Ok? ==> Lands(before, c) && backend.saved == d && d.resolved && backend.budget == old(backend.budget)
      ensures r.Err? && backend.budget == old(backend.budget) ==> !Lands(before, c)
      ensures r.Crash? ==> backend.budget < old(backend.budget)
      ensures backend.budget <= old(backend.budget)
      ensures d.resolved ==> backend.saved.resolved || Settled(backend.nodes, c.boundary.value)
    {
      d := restored;
      MidwayRestores(backend.nodes, before, c.boundary.value);
      for i := 0 to POLLS
        invariant d == restored && backend.saved == d && backend.budget == old(backend.budget)
        invariant i > 0 ==> !Lands(before, c)
      {
        var contained := CommonChainContains(c.originalHeight.value, c.originalTip.value);
        if !contained.Ok? { return Down(contained), d; }
        if contained.value {
          d := d.(resolved := true);
          var stored := backend.Persist(d);
          return stored, d;
        }
      }
      return Err, d;
    }

    /** Rollback attempts until one succeeds; only a crash stops earlier. `Err` stands for an
        attempt still to come after `patience` of them. If the nodes land, a patience above the
        number of failing calls always suffices; if they do not, none does. */
    method RollbackUntilSafe(c: Context, patience: nat) returns (r: Reply<()>)
      requires Coherent(c)
      requires c.resolved ==> backend.saved.resolved || Settled(backend.nodes, c.boundary.value)
      requires SameRewind(backend.saved, c)
      modifies backend`nodes, backend`saved, backend`budget
      ensures SameRewind(backend.saved, c)
      ensures EachKeptOrReconsidered(backend.nodes, old(backend.nodes), c.boundary.value)
      ensures r.Ok? ==>
                && backend.nodes == ReconsiderAll(old(backend.nodes), c.boundary.value) && Lands(old(backend.nodes), c)
                && backend.saved.resolved && backend.saved.perNode == ALL_RESTORED
      ensures r.Err? && Lands(old(backend.nodes), c) ==> patience + backend.budget <= old(backend.budget)
      ensures r.Crash? ==> backend.budget < old(backend.budget)
      ensures backend.budget <= old(backend.budget)
    {
      var d := c;
      ghost var before, b := backend.nodes, c.boundary.value;
      for attempt := 0 to patience
        invariant SameRewind(c, d) && Coherent(d)
        invariant d.resolved ==> backend.saved.resolved || Settled(backend.nodes, b)
        invariant SameRewind(backend.saved, c)
        invariant EachKeptOrReconsidered(backend.nodes, before, b)
        invariant backend.budget <= old(backend.budget)
        invariant Lands(before, c) ==> attempt + backend.budget <= old(backend.budget)
      {
        ghost var now := backend.nodes;
        KeptRestores(now, before, b);
        r, d := RollbackOnce(d);
        KeptTwice(backend.nodes, now, before, b);
        if !r.Err? { return; }
      }
      return Err;
    }

    /** Invalidate the boundary on one node and verify and record that it stopped at the target. */
    method InvalidateNode(n: Node, c: Context) returns (r: Reply<()>, d: Context)
      requires Coherent(c) && !c.resolved && SameRewind(backend.saved, c)
      modifies backend`nodes, backend`saved, backend`budget
      ensures SameRewind(c, d) && !d.resolved && (r.Ok? ==> d.perNode == c.perNode.Set(n, Invalidated))
      ensures SameRewind(backend.saved, c)
      ensures || backend.nodes == old(backend.nodes)
              || backend.nodes == old(backend.nodes).Set(n, Invalidate(old(backend.nodes).Get(n), c.boundary.value))
      ensures r.Ok? ==> backend.nodes == old(backend.nodes).Set(n, Invalidate(old(backend.nodes).Get(n), c.boundary.value))
      ensures r.Ok? ==> Active(backend.nodes.Get(n)) == c.targetTip.value && backend.saved == d
      ensures r.Ok? ==> backend.budget == old(backend.budget)
      ensures r.Err? && backend.budget == old(backend.budget) ==>
                Active(Invalidate(old(backend.nodes).Get(n), c.boundary.value)) != c.targetTip.value
      ensures r.Crash? ==> backend.budget < old(backend.budget)
      ensures backend.budget <= old(backend.budget)
    {
      d := c;
      r := backend.InvalidateBlock(n, c.boundary.value);
      if !r.Ok? { return; }
      var tips := backend.Tips();
      if !tips.Ok? { return Down(tips), d; }
      if tips.value.Get(n) != Tip(c.targetHeight.value, c.targetTip.value) { return Err, d; }
      d := d.(perNode := d.perNode.Set(n, Invalidated));
      r := backend.Persist(d);
    }

    /** Check the preconditions and record the recovery context, before any mutation. */
    method Prepare(blocks: nat) returns (r: Reply<Context>)
      requires backend.saved == NO_CONTEXT
      modifies backend`saved, backend`budget
      ensures r.Ok? ==> Permitted(backend.nodes, blocks) && r.value == backend.saved && backend.budget == old(backend.budget)
      ensures backend.saved == NO_CONTEXT || (Permitted(backend.nodes, blocks) && backend.saved == ContextOf(backend.nodes, blocks))
      ensures r.Ok? ==> backend.saved != NO_CONTEXT
      ensures !r.Ok? && Permitted(backend.nodes, blocks) ==> backend.budget < old(backend.budget)
      ensures backend.budget <= old(backend.budget)
    {
      if !(1 <= blocks <= MAX_REWIND_BLOCKS) { return Err; }
      var original := CommonTip();
      if !original.Ok? { return Down(original); }
      if original.value.height < blocks { return Err; }
      var targetHeight := original.value.height - blocks;
      if targetHeight < MIN_REWIND_TARGET_HEIGHT { return Err; }
      var targetTip := backend.BlockHash(Node2, targetHeight);
      if !targetTip.Ok? { return Down(targetTip); }
      var boundary := backend.BlockHash(Node2, targetHeight + 1);
      if !boundary.Ok? { return Down(boundary); }
      var c := Prepared(original.value, targetHeight, targetTip.value, boundary.value);
      var stored := backend.Persist(c);
      return if stored.Ok? then Ok(c) else Down(stored);
    }

    /** The whole job, on nodes that may know any number of branches. Whatever fails, and whether
        or not it was aborted, a return leaves the three nodes on one chain: exactly the target,
        or one holding the original tip. A rewind is done only if the boundary's invalidation
        stops every node at the target, and then only failing calls or an abort prevent it. It
        stays `Unfinished` only through failing calls or if the nodes do not land. A job that
        ends by itself was aborted exactly if one of its five polls found an abort requested. */
    method Execute(blocks: nat, patience: nat) returns (r: Execution)
      requires backend.saved == NO_CONTEXT
      modifies backend
      ensures backend.nodes != old(backend.nodes) ==> Permitted(old(backend.nodes), blocks)
      ensures r.Done? && !r.aborted ==>
                && Permitted(old(backend.nodes), blocks) && r.rewound == blocks && r.chainChanged
                && Rewound(backend.nodes, old(backend.nodes), blocks)
                && AllAt(backend.nodes, TargetOf(old(backend.nodes), blocks))
                && backend.saved.resolved && backend.saved.perNode == ALL_INVALIDATED
      ensures r.Done? && r.aborted ==>
                && Permitted(old(backend.nodes), blocks) && r.rewound == 0 && backend.saved.resolved
                && (if Asks(old(backend.polls), 0) then backend.nodes == old(backend.nodes) && backend.saved.perNode == NOTHING_DONE
                    else RolledBack(backend.nodes, old(backend.nodes), blocks) && backend.saved.perNode == ALL_RESTORED)
      ensures r.Failed? && r.reason == Precondition ==> backend.nodes == old(backend.nodes)
      ensures r.Failed? && r.reason == OriginalRestored ==>
                && Permitted(old(backend.nodes), blocks) && RolledBack(backend.nodes, old(backend.nodes), blocks)
                && backend.saved.resolved && backend.saved.perNode == ALL_RESTORED
      ensures r.Failed? && r.reason == AfterDecision ==>
                && Permitted(old(backend.nodes), blocks)
                && (Rewound(backend.nodes, old(backend.nodes), blocks) || backend.nodes == old(backend.nodes))
      ensures r.Unfinished? ==>
                && Permitted(old(backend.nodes), blocks)
                && (patience <= old(backend.budget) || !Lands(old(backend.nodes), ContextOf(old(backend.nodes), blocks)))
      ensures !Permitted(old(backend.nodes), blocks) ==> r == Failed(Precondition) || r.Crashed?
      ensures r == Failed(Precondition) && backend.budget == old(backend.budget) ==> !Permitted(old(backend.nodes), blocks)
      ensures r == Failed(AfterDecision) ==> backend.budget < old(backend.budget)
      ensures r.Done? ==> (r.aborted <==> !NoneAsks(old(backend.polls), ABORT_POLLS))
      ensures r.Done? && r.aborted ==> (r.chainChanged <==> NoneAsks(old(backend.polls), 2))
      ensures (&& Permitted(old(backend.nodes), blocks) && backend.budget == old(backend.budget)
               && Asks(old(backend.polls), 0)) ==> r == Done(0, false, true) && backend.nodes == old(backend.nodes)
      ensures (&& Permitted(old(backend.nodes), blocks) && Smooth(old(backend.nodes), BoundaryOf(old(backend.nodes), blocks))
               && backend.budget == old(backend.budget) && NoneAsks(old(backend.polls), ABORT_POLLS)) ==>
                r == Done(blocks, true, false)
      ensures (&& (r.Failed? || r.Crashed?) && Permitted(old(backend.nodes), blocks)
               && Smooth(old(backend.nodes), BoundaryOf(old(backend.nodes), blocks))) ==> backend.budget < old(backend.budget)
      ensures Agree(old(backend.nodes)) && (r.Done? || r.Failed?) ==> Agree(backend.nodes)
      ensures backend.saved == NO_CONTEXT ==> backend.nodes == old(backend.nodes)
      ensures backend.saved != NO_CONTEXT ==>
                && Permitted(old(backend.nodes), blocks)
                && SameRewind(backend.saved, ContextOf(old(backend.nodes), blocks))
                && Midway(backend.nodes, old(backend.nodes), BoundaryOf(old(backend.nodes), blocks))
      ensures backend.budget <= old(backend.budget)
    {
      ghost var before := backend.nodes;
      var prepared := Prepare(blocks);
      if !prepared.Ok? { return if prepared.Crash? then Crashed else Failed(Precondition); }
      var c := prepared.value;

      NoneAsksMore(backend.polls, 0);
      NoneAsksJoined(backend.polls, 1, 4);
      NoneAsksJoined(backend.polls, 1, 1);
      var abort := backend.AbortRequested();
      if abort {
        c := c.(resolved := true);
        var stored := backend.Persist(c);
        if !stored.Ok? { return if stored.Crash? then Crashed else Failed(AfterDecision); }
        return Done(0, false, true);
      }
      r := InvalidateNodes(before, blocks, c, patience);
    }

    /** Node by node, asking before each whether to abort; then the end of the job. */
    method InvalidateNodes(ghost before: Nodes, blocks: nat, prepared: Context, patience: nat) returns (r: Execution)
      requires Permitted(before, blocks) && SameRewind(prepared, ContextOf(before, blocks)) && !prepared.resolved
      requires Coherent(prepared) && SameRewind(backend.saved, prepared) && backend.nodes == before
      modifies backend
      ensures r.Done? && !r.aborted ==>
                && r.rewound == blocks && r.chainChanged
                && Rewound(backend.nodes, before, blocks) && AllAt(backend.nodes, TargetOf(before, blocks))
                && backend.saved.resolved && backend.saved.perNode == ALL_INVALIDATED
      ensures r.Done? && r.aborted ==>
                && r.rewound == 0 && RolledBack(backend.nodes, before, blocks)
                && backend.saved.resolved && backend.saved.perNode == ALL_RESTORED
      ensures r.Failed? ==> r.reason != Precondition
      ensures r.Failed? && r.reason == OriginalRestored ==>
                RolledBack(backend.nodes, before, blocks) && backend.saved.resolved && backend.saved.perNode == ALL_RESTORED
      ensures r == Failed(AfterDecision) ==> Rewound(backend.nodes, before, blocks) && backend.budget < old(backend.budget)
      ensures r.Unfinished? ==> patience <= old(backend.budget) || !Lands(before, ContextOf(before, blocks))
      ensures r.Done? ==> (r.aborted <==> !NoneAsks(old(backend.polls), 4))
      ensures r.Done? && r.aborted ==> (r.chainChanged <==> NoneAsks(old(backend.polls), 1))
      ensures (&& Smooth(before, BoundaryOf(before, blocks)) && backend.budget == old(backend.budget)
               && NoneAsks(old(backend.polls), 4)) ==> r == Done(blocks, true, false)
      ensures (r.Failed? || r.Crashed?) && Smooth(before, BoundaryOf(before, blocks)) ==> backend.budget < old(backend.budget)
      ensures SameRewind(backend.saved, prepared) && Midway(backend.nodes, before, prepared.boundary.value)
      ensures backend.budget <= old(backend.budget)
    {
      var c, chainChanged := prepared, false;
      ghost var polls := backend.polls;
      assert Disks.After(polls, 0) == polls;
      for i := 0 to |INVALIDATION_ORDER|
        invariant !c.resolved && SameRewind(backend.saved, c) && SameRewind(c, prepared)
        invariant chainChanged <==> i > 0
        invariant backend.nodes.node2 == if i > 0 then Invalidate(before.node2, c.boundary.value) else before.node2
        invariant backend.nodes.node3 == if i > 1 then Invalidate(before.node3, c.boundary.value) else before.node3
        invariant backend.nodes.node1 == if i > 2 then Invalidate(before.node1, c.boundary.value) else before.node1
        invariant backend.budget == old(backend.budget)
        invariant (i > 0 ==> c.perNode.node2 == Invalidated) && (i > 1 ==> c.perNode.node3 == Invalidated)
        invariant i > 2 ==> c.perNode.node1 == Invalidated
        invariant NoneAsks(polls, i) && backend.polls == Disks.After(polls, i)
        invariant Smooth(before, BoundaryOf(before, blocks)) ==>
                    AllAt(InvalidateAll(before, c.boundary.value), c.targetTip.value)
      {
        NoneAsksMore(polls, i);
        var abort := backend.AbortRequested();
        if abort {
          r := RollBack(before, blocks, c, Done(0, chainChanged, true), patience);
          return;
        }
        chainChanged := true;
        var reached: Reply<()>;
        reached, c := InvalidateNode(INVALIDATION_ORDER[i], c);
        if reached.Crash? { return Crashed; }
        if reached.Err? {
          r := RollBack(before, blocks, c, Failed(OriginalRestored), patience);
          return;
        }
      }
      NoneAsksMore(polls, 3);
      r := Conclude(before, blocks, c, chainChanged, patience);
    }

    /** The end of the job, once every node was invalidated. */
    method Conclude(ghost before: Nodes, blocks: nat, c: Context, chainChanged: bool, patience: nat) returns (r: Execution)
      requires Permitted(before, blocks) && SameRewind(c, ContextOf(before, blocks)) && !c.resolved && chainChanged
      requires Coherent(c) && SameRewind(backend.saved, c)
      requires backend.nodes == InvalidateAll(before, c.boundary.value)
      modifies backend
      ensures r.Done? && !r.aborted ==>
                && r.rewound == blocks && r.chainChanged && AllAt(backend.nodes, TargetOf(before, blocks))
                && backend.nodes == old(backend.nodes) && backend.saved.resolved && backend.saved.perNode == c.perNode
      ensures r.Done? && r.aborted ==>
                && r.rewound == 0 && RolledBack(backend.nodes, before, blocks)
                && backend.saved.resolved && backend.saved.perNode == ALL_RESTORED
      ensures r.Failed? ==> r.reason != Precondition
      ensures r.Failed? && r.reason == OriginalRestored ==>
                RolledBack(backend.nodes, before, blocks) && backend.saved.resolved && backend.saved.perNode == ALL_RESTORED
      ensures r.Failed? && r.reason == AfterDecision ==>
                AllAt(backend.nodes, TargetOf(before, blocks)) && backend.nodes == old(backend.nodes)
      ensures r.Unfinished? ==> patience <= old(backend.budget) || !Lands(before, ContextOf(before, blocks))
      ensures (r.Failed? || r.Crashed?) && AllAt(old(backend.nodes), TargetOf(before, blocks)) ==> backend.budget < old(backend.budget)
      ensures r == Failed(AfterDecision) ==> backend.budget < old(backend.budget)
      ensures r.Done? ==> (r.aborted <==> Asks(old(backend.polls), 0)) && r.chainChanged
      ensures (&& AllAt(old(backend.nodes), TargetOf(before, blocks)) && !Asks(old(backend.polls), 0)
               && backend.budget == old(backend.budget)) ==> r == Done(blocks, true, false)
      ensures SameRewind(backend.saved, c) && Midway(backend.nodes, before, c.boundary.value)
      ensures backend.budget <= old(backend.budget)
    {
      var abort := backend.AbortRequested();
      if abort {
        r := RollBack(before, blocks, c, Done(0, chainChanged, true), patience);
        return;
      }
      var exact := WaitForExactTip(c.targetHeight.value, c.targetTip.value);
      if exact.Crash? { return Crashed; }
      if exact.Err? {
        r := RollBack(before, blocks, c, Failed(OriginalRestored), patience);
        return;
      }
      var stored := backend.Persist(c.(resolved := true));
      if !stored.Ok? { return if stored.Crash? then Crashed else Failed(AfterDecision); }
      var tips := backend.Tips();
      if !tips.Ok? { return if tips.Crash? then Crashed else Failed(AfterDecision); }
      for i := 0 to |ALL|
        invariant backend.saved == c.(resolved := true) && backend.nodes == old(backend.nodes)
        invariant backend.budget == old(backend.budget)
      {
        var size := backend.MempoolSize(ALL[i]);
        if !size.Ok? { return if size.Crash? then Crashed else Failed(AfterDecision); }
      }
      return Done(blocks, chainChanged, false);
    }

    /** Roll back until safe, then report `outcome`. */
    method RollBack(ghost before: Nodes, ghost blocks: nat, c: Context, outcome: Execution, patience: nat) returns (r: Execution)
      requires Permitted(before, blocks) && SameRewind(c, ContextOf(before, blocks)) && !c.resolved
      requires Coherent(c) && SameRewind(backend.saved, c) && Midway(backend.nodes, before, c.boundary.value)
      requires outcome.Done? || outcome.Failed?
      modifies backend`nodes, backend`saved, backend`budget
      ensures r == outcome || r == Crashed || r == Unfinished
      ensures SameRewind(backend.saved, c) && Midway(backend.nodes, before, c.boundary.value)
      ensures r == outcome ==>
                RolledBack(backend.nodes, before, blocks) && backend.saved.resolved && backend.saved.perNode == ALL_RESTORED
      ensures r == Unfinished ==> patience <= old(backend.budget) || !Lands(before, ContextOf(before, blocks))
      ensures r == Crashed ==> backend.budget < old(backend.budget)
      ensures backend.budget <= old(backend.budget)
    {
      ghost var mid := backend.nodes;
      MidwayRestores(mid, before, c.boundary.value);
      var safe := RollbackUntilSafe(c, patience);
      RollingBackKeepsMidway(backend.nodes, mid, before, c.boundary.value);
      return if safe.Ok? then outcome else if safe.Crash? then Crashed else Unfinished;
    }

    /** Whether the interrupted rewind already reached a safe common rewound tip: exactly when
        the nodes agree on a chain with the target and without the original tip. */
    method CompletedRewindIsSafe(c: Context) returns (r: Reply<bool>)
      requires Coherent(c)
      modifies backend`budget
      ensures r.Ok? ==> (r.value <==> RewoundSafely(backend.nodes, c)) && backend.budget == old(backend.budget)
      ensures !r.Ok? ==> backend.budget < old(backend.budget)
      ensures backend.budget <= old(backend.budget)
    {
      var exact := TipsEqual(c.targetHeight.value, c.targetTip.value);
      if !exact.Ok? { return Down(exact); }
      TargetBelowOriginal(c);
      if exact.value { return Ok(true); }
      var tips := backend.Tips();
      if !tips.Ok? { return Down(tips); }
      var common := tips.value.node1;
      if tips.value != PerNode(common, common, common) || common.height < c.targetHeight.value { return Ok(false); }
      var rewound := CommonChainContains(c.targetHeight.value, c.targetTip.value);
      if !rewound.Ok? { return Down(rewound); }
      if !rewound.value { return Ok(false); }
      if common.height < c.originalHeight.value { return Ok(true); }
      var original := CommonChainContains(c.originalHeight.value, c.originalTip.value);
      if !original.Ok? { return Down(original); }
      return Ok(!original.value);
    }

    /** One restart-recovery attempt on the surviving record, for arbitrary nodes: so also after
        blocks were mined while the control plane was down. */
    method Recover() returns (r: Reply<()>)
      requires Complete(backend.saved) ==> Coherent(backend.saved)
      modifies backend`nodes, backend`saved, backend`budget
      ensures SameRewind(backend.saved, old(backend.saved))
      ensures old(backend.saved).boundary.None? ==> r.Ok? && backend.nodes == old(backend.nodes) && backend.saved == old(backend.saved)
      ensures old(backend.saved).boundary.Some? && !Complete(old(backend.saved)) ==> r.Err? && backend.nodes == old(backend.nodes)
      ensures Complete(old(backend.saved)) ==>
                && EachKeptOrReconsidered(backend.nodes, old(backend.nodes), backend.saved.boundary.value)
                && (RewoundSafely(old(backend.nodes), old(backend.saved)) ==> backend.nodes == old(backend.nodes))
      ensures Complete(old(backend.saved)) && r.Ok? ==>
                && backend.saved.resolved
                && (RewoundSafely(old(backend.nodes), old(backend.saved))
                    || (Lands(old(backend.nodes), old(backend.saved)) && backend.saved.perNode == ALL_RESTORED
                        && backend.nodes == ReconsiderAll(old(backend.nodes), backend.saved.boundary.value)))
      ensures Complete(old(backend.saved)) && r.Err? && backend.budget == old(backend.budget) ==>
                && !RewoundSafely(old(backend.nodes), old(backend.saved)) && !Lands(old(backend.nodes), old(backend.saved))
                && backend.nodes == ReconsiderAll(old(backend.nodes), backend.saved.boundary.value)
      ensures r.Crash? ==> backend.budget < old(backend.budget)
      ensures backend.budget <= old(backend.budget)
    {
      var c := backend.saved;
      if c.boundary.None? { return Ok(()); }
      if !Complete(c) { return Err; }
      var safe := CompletedRewindIsSafe(c);
      if !safe.Ok? { return Down(safe); }
      if safe.value {
        r := backend.Persist(c.(resolved := true));
        return;
      }
      var d: Context;
      r, d := RollbackOnce(c);
    }

    /** Restart recovery after a crash at any point of `Execute` or of an earlier recovery, at
        most `patience` attempts. It is finished only on one chain: with the original tip, or
        with the target and without the original tip. It finishes whatever the failing calls if
        the reconsidered nodes share the target, and without failing calls only then or when
        the rewind was complete. */
    method RecoverUntilOk(patience: nat) returns (finished: bool)
      requires backend.saved == NO_CONTEXT || Coherent(backend.saved)
      modifies backend`nodes, backend`saved, backend`budget
      ensures old(backend.saved) == NO_CONTEXT ==> backend.nodes == old(backend.nodes) && (patience > 0 ==> finished)
      ensures old(backend.saved) != NO_CONTEXT ==>
                && SameRewind(backend.saved, old(backend.saved))
                && EachKeptOrReconsidered(backend.nodes, old(backend.nodes), backend.saved.boundary.value)
                && (RewoundSafely(old(backend.nodes), old(backend.saved)) ==> backend.nodes == old(backend.nodes))
                && (finished ==> backend.saved.resolved
                                 && (RewoundSafely(backend.nodes, backend.saved)
                                     || CommonlyContains(backend.nodes, backend.saved.originalHeight.value, backend.saved.originalTip.value)))
                && (RestoredShareTarget(old(backend.nodes), old(backend.saved)) && patience >= old(backend.budget) + 2 ==> finished)
                && (finished && old(backend.budget) == 0 ==>
                      RewoundSafely(old(backend.nodes), old(backend.saved)) || RestoredShareTarget(old(backend.nodes), old(backend.saved)))
    {
      ghost var first, before := backend.saved, backend.nodes;
      ghost var settled := 0;
      for attempt := 0 to patience
        invariant first == NO_CONTEXT ==> attempt == 0 && backend.saved == first && backend.nodes == before
        invariant first != NO_CONTEXT ==>
                    && Coherent(backend.saved) && SameRewind(backend.saved, first)
                    && EachKeptOrReconsidered(backend.nodes, before, first.boundary.value)
                    && (RewoundSafely(before, first) ==> backend.nodes == before)
                    && attempt + backend.budget <= old(backend.budget) + settled
                    && (settled != 0 ==> backend.nodes == ReconsiderAll(before, first.boundary.value) && !Lands(before, first))
                    && (settled > 1 ==> !RestoredShareTarget(before, first))
                    && (old(backend.budget) == 0 ==> backend.nodes == before || settled != 0)
        invariant backend.budget <= old(backend.budget)
      {
        ghost var now, left := backend.nodes, backend.budget;
        var r := Recover();
        if first != NO_CONTEXT {
          AttemptsConverge(now, before, first);
          KeptRestores(now, before, first.boundary.value);
          KeptTwice(backend.nodes, now, before, first.boundary.value);
        }
        if r.Ok? { return true; }
        if backend.budget == left { settled := settled + 1; }
      }
      return false;
    }

    /** A rewind driven to its end across any crashes of the execution and of its recoveries, and
        across restarts out of rollbacks that do not end. */
    method RunThroughCrashes(blocks: nat, patience: nat) returns (finished: bool)
      requires backend.saved == NO_CONTEXT && Agree(backend.nodes)
      modifies backend
      ensures finished ==> Agree(backend.nodes)
      ensures finished && backend.nodes != old(backend.nodes) ==>
                && Permitted(old(backend.nodes), blocks)
                && (|| CommonlyContains(backend.nodes, Height(Active(old(backend.nodes).node1)), Active(old(backend.nodes).node1))
                    || Rewound(backend.nodes, old(backend.nodes), blocks)
                    || Stranded(backend.nodes, old(backend.nodes), blocks))
      ensures (&& Permitted(old(backend.nodes), blocks) && Smooth(old(backend.nodes), BoundaryOf(old(backend.nodes), blocks))
               && old(backend.budget) == 0 && NoneAsks(old(backend.polls), ABORT_POLLS)) ==>
                finished && Rewound(backend.nodes, old(backend.nodes), blocks)
      ensures (&& patience >= old(backend.budget) + 2
               && (Permitted(old(backend.nodes), blocks) ==> Lands(old(backend.nodes), ContextOf(old(backend.nodes), blocks)))) ==> finished
    {
      ghost var before := backend.nodes;
      var r := Execute(blocks, patience);
      if r.Done? || r.Failed? { return true; }
      ghost var mid, recorded := backend.nodes, backend.saved != NO_CONTEXT;
      if recorded {
        var c := ContextOf(before, blocks);
        MidwayRestores(mid, before, c.boundary.value);
        if Lands(before, c) { OriginalHoldsTarget(ReconsiderAll(before, c.boundary.value), c); }
      }
      finished := RecoverUntilOk(patience);
      if recorded {
        RollingBackKeepsMidway(backend.nodes, mid, before, BoundaryOf(before, blocks));
        if finished && RewoundSafely(backend.nodes, backend.saved) { MidwayTips(backend.nodes, before, blocks); }
      }
    }
  }

  // ---------------------------------------------------------------- supporting facts

  /** The checks of `Execute` before it records anything. */
  predicate Permitted(nodes: Nodes, blocks: nat) {
    && 1 <= blocks <= 100
    && Agree(nodes)
    && Height(Active(nodes.node1)) >= blocks + 204
  }

  function TargetOf(nodes: Nodes, blocks: nat): Block
    requires Permitted(nodes, blocks)
  {
    At(Active(nodes.node1), Height(Active(nodes.node1)) - blocks)
  }

  function BoundaryOf(nodes: Nodes, blocks: nat): (b: Block)
    requires Permitted(nodes, blocks)
    ensures b.Mined? && b.parent == TargetOf(nodes, blocks) && Contains(Active(nodes.node1), b)
  {
    var tip := Active(nodes.node1);
    ParentAt(tip, Height(tip) - blocks);
    AtHeight(tip, Height(tip) - blocks + 1);
    At(tip, Height(tip) - blocks + 1)
  }

  /** The context `Execute` records: complete, and about one rewind of the nodes' own chain. */
  function ContextOf(nodes: Nodes, blocks: nat): (c: Context)
    requires Permitted(nodes, blocks)
    ensures Coherent(c)
  {
    AtHeight(Active(nodes.node1), Height(Active(nodes.node1)) - blocks);
    Prepared(TipOf(nodes.node1), Height(Active(nodes.node1)) - blocks, TargetOf(nodes, blocks), BoundaryOf(nodes, blocks))
  }

  /** Every node reconsidered the boundary, and together they hold the original tip. */
  predicate RolledBack(nodes: Nodes, before: Nodes, blocks: nat)
    requires Permitted(before, blocks)
  {
    && nodes == ReconsiderAll(before, BoundaryOf(before, blocks))
    && CommonlyContains(nodes, Height(Active(before.node1)), Active(before.node1))
  }

  /** Every node invalidated the boundary, and together they hold the target. */
  predicate Rewound(nodes: Nodes, before: Nodes, blocks: nat)
    requires Permitted(before, blocks)
  {
    && nodes == InvalidateAll(before, BoundaryOf(before, blocks))
    && CommonlyContains(nodes, Height(TargetOf(before, blocks)), TargetOf(before, blocks))
  }

  /** Every node reconsidered the boundary, and together they left the original tip's chain. */
  predicate Stranded(nodes: Nodes, before: Nodes, blocks: nat)
    requires Permitted(before, blocks)
  {
    && nodes == ReconsiderAll(before, BoundaryOf(before, blocks))
    && CommonlyContains(nodes, Height(TargetOf(before, blocks)), TargetOf(before, blocks))
    && !CommonlyContains(nodes, Height(Active(before.node1)), Active(before.node1))
  }

  /** The reconsidered nodes agree on a chain with the target. */
  predicate RestoredShareTarget(nodes: Nodes, c: Context)
    requires Coherent(c)
  {
    CommonlyContains(ReconsiderAll(nodes, c.boundary.value), c.targetHeight.value, c.targetTip.value)
  }

  lemma ParentAt(tip: Block, h: nat)
    requires h < Height(tip)
    ensures At(tip, h + 1).Mined? && At(tip, h + 1).parent == At(tip, h)
  {
    if h + 1 < Height(tip) {
      ParentAt(tip.parent, h);
    }
  }

  lemma TargetBelowOriginal(c: Context)
    requires Coherent(c)
    ensures c.targetHeight.value < c.originalHeight.value
    ensures At(c.targetTip.value, c.targetHeight.value) == c.targetTip.value
    ensures Contains(c.originalTip.value, c.targetTip.value)
  {
    var b := c.boundary.value;
    assert Contains(b.parent, b.parent) && Contains(b, b.parent);
    ContainsTransitive(c.originalTip.value, b, b.parent);
  }

  /** What one recovery attempt without failing calls leaves for the next. */
  lemma AttemptsConverge(now: Nodes, before: Nodes, c: Context)
    requires Coherent(c) && EachKeptOrReconsidered(now, before, c.boundary.value)
    ensures Lands(now, c) <==> Lands(before, c)
    ensures Lands(before, c) ==> RestoredShareTarget(before, c)
    ensures now == ReconsiderAll(before, c.boundary.value) && !Lands(before, c) && RestoredShareTarget(before, c) ==>
              RewoundSafely(now, c)
    ensures now == ReconsiderAll(before, c.boundary.value) && RewoundSafely(now, c) ==> RestoredShareTarget(before, c)
  {
    KeptRestores(now, before, c.boundary.value);
    if Lands(before, c) { OriginalHoldsTarget(ReconsiderAll(before, c.boundary.value), c); }
  }

  /** A node caught in a rewind holds the boundary exactly unless it stands invalidated. */
  lemma CaughtTip(v: View, w: View, b: Block)
    requires b.Mined? && Contains(Active(w), b) && Caught(v, w, b)
    ensures Contains(Active(v), b) <==> v != Invalidate(w, b)
  {
    RestoredTip(w, b);
    BestAboveIsBest(w.known, b);
    BestIsPreferred(w.known, w.marks + {b});
    if Contains(Active(Invalidate(w, b)), b) {
      InvalidateMarks(w, b, Active(Invalidate(w, b)));
    }
  }

  /** Nodes that recovery takes for rewound are all invalidated, or all on a branch that the
      rollback brought up in place of the original one. */
  lemma MidwayTips(nodes: Nodes, before: Nodes, blocks: nat)
    requires Permitted(before, blocks)
    requires Midway(nodes, before, BoundaryOf(before, blocks)) && RewoundSafely(nodes, ContextOf(before, blocks))
    ensures Rewound(nodes, before, blocks) || Stranded(nodes, before, blocks)
  {
    var b := BoundaryOf(before, blocks);
    CaughtTip(nodes.node1, before.node1, b);
    CaughtTip(nodes.node2, before.node2, b);
    CaughtTip(nodes.node3, before.node3, b);
    assert Contains(Active(before.node1), Active(before.node1));
  }

  // ---------------------------------------------------------------- when a rollback lands

  /** Exactly when a rollback can end: the nodes bring up the same block above the boundary, and
      every known block above the boundary off the original chain is outranked by one on it. */
  lemma LandsExactly(nodes: Nodes, blocks: nat)
    requires Permitted(nodes, blocks)
    ensures var b, o, v := BoundaryOf(nodes, blocks), Active(nodes.node1), nodes.node1;
            Lands(nodes, ContextOf(nodes, blocks)) <==>
              && BestAbove(nodes.node2.known, b) == BestAbove(v.known, b) == BestAbove(nodes.node3.known, b)
              && forall d | d in v.known && Contains(d, b) && !Contains(d, o) ::
                   exists e :: e in v.known && Contains(e, o) && Outranks(v.known, e, d)
  {
    var b := BoundaryOf(nodes, blocks);
    RestoredTip(nodes.node1, b);
    RestoredTip(nodes.node2, b);
    RestoredTip(nodes.node3, b);
    OriginalComesBack(nodes.node1, b);
    ReconsiderUndoesInvalidate(nodes.node1, b);
  }

  /** Nodes that know the same single branch always rewind and always land. */
  lemma OneBranchLands(nodes: Nodes, blocks: nat, top: Block)
    requires Permitted(nodes, blocks)
    requires nodes.node1.known == nodes.node2.known == nodes.node3.known && TargetOf(nodes, blocks) in nodes.node1.known
    requires forall k | k in nodes.node1.known :: Contains(top, k)
    ensures Smooth(nodes, BoundaryOf(nodes, blocks)) && Lands(nodes, ContextOf(nodes, blocks))
  {
    var b := BoundaryOf(nodes, blocks);
    OneBranchIsEnough(nodes.node1, b, top);
    OneBranchIsEnough(nodes.node2, b, top);
    OneBranchIsEnough(nodes.node3, b, top);
    ReconsiderUndoesInvalidate(nodes.node1, b);
    RestoredTip(nodes.node1, b);
    RestoredTip(nodes.node2, b);
    RestoredTip(nodes.node3, b);
  }

  /** Rewind `p` blocks, mine `q < p` replacements, rewind `q + 1`: the rewind itself goes
      through, but its rollback never ends, and recovery takes the abandoned branch it brought
      up for a completed rewind. */
  lemma RewindMineRewindStrands(base: Block, p: nat, q: nat) returns (nodes: Nodes)
    requires Height(base) >= MIN_REWIND_TARGET_HEIGHT && 1 <= q < p && q < MAX_REWIND_BLOCKS
    ensures Permitted(nodes, q + 1) && Smooth(nodes, BoundaryOf(nodes, q + 1))
    ensures !Lands(nodes, ContextOf(nodes, q + 1))
    ensures Stranded(ReconsiderAll(nodes, BoundaryOf(nodes, q + 1)), nodes, q + 1)
    ensures RewoundSafely(ReconsiderAll(nodes, BoundaryOf(nodes, q + 1)), ContextOf(nodes, q + 1))
  {
    var fork := Mined(base, 0, 0);
    var first, cut, second := Grow(fork, p, 1), Grow(fork, 1, 1), Grow(fork, q, 2);
    GrowHolds(fork, p, 0, 1);
    GrowHolds(fork, q, 0, 2);
    GrowHolds(fork, p, 1, 1);
    GrowDiffers(fork, q, 1);
    GrowDiffers(fork, p, q);
    AbandonedBranchReturns(first, cut, second, fork);
    var v := AfterRewindAndMining(first, cut, second);
    nodes := PerNode(v, v, v);
    assert BoundaryOf(nodes, q + 1) == fork;
    ReconsiderUndoesInvalidate(v, fork);
    assert Contains(fork, base);
    ContainsTransitive(first, fork, base);
  }
}
