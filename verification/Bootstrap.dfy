/** The resumable funding sequence (crates/mining-controller/src/bootstrap.rs). */
module Bootstrap {
  import opened Chain
  import opened Replies

  const BOOTSTRAP_END: nat := 204
  const RPC_RETRY_ATTEMPTS: nat := 8

  const ADDR2: Address := 2
  const ADDR3: Address := 3
  const USER: Address := 1

  datatype Miner = Node2 | Node3
  datatype Stage = Stage(target: nat, miner: Miner, payee: Address)

  const STAGES: seq<Stage> := [
    Stage(1, Node2, ADDR2), Stage(2, Node3, ADDR3), Stage(3, Node2, USER), Stage(4, Node3, USER),
    Stage(54, Node2, ADDR2), Stage(104, Node3, ADDR3), Stage(154, Node2, ADDR2), Stage(204, Node3, ADDR3)]

  /** Who is paid at each height: node2, node3, twice the user, then 50-block batches. */
  function Plan(h: nat): Address {
    if h <= 1 then ADDR2 else if h <= 2 then ADDR3 else if h <= 4 then USER
    else if h <= 54 then ADDR2 else if h <= 104 then ADDR3 else if h <= 154 then ADDR2 else ADDR3
  }

  /** Height at which stage `k` takes over. */
  function StartOf(k: nat): nat
    requires k < |STAGES|
  {
    if k == 0 then 0 else STAGES[k - 1].target
  }

  /** Every block above `from` pays its planned address. */
  predicate PaidAsPlanned(tip: Block, from: nat) {
    tip.Mined? && Height(tip) > from ==> tip.payee == Plan(Height(tip)) && PaidAsPlanned(tip.parent, from)
  }

  lemma {:induction false} PaidAt(tip: Block, from: nat, h: nat)
    requires PaidAsPlanned(tip, from) && from < h <= Height(tip)
    ensures At(tip, h).Mined? && At(tip, h).payee == Plan(h)
  {
    if h < Height(tip) {
      PaidAt(tip.parent, from, h);
    }
  }

  /** Every block above `from` pays `payee`. */
  predicate AllPaidTo(tip: Block, from: nat, payee: Address) {
    tip.Mined? && Height(tip) > from ==> tip.payee == payee && AllPaidTo(tip.parent, from, payee)
  }

  /** Whether blocks from above `h` to the end of stage `k` may pay its address: the chain had
      reached the stage before (block 3 is forgiven, since 3 and 4 pay alike). */
  predicate InTime(k: nat, h: nat)
    requires k < |STAGES|
  {
    h >= StartOf(k) || (k == 3 && h == 2)
  }

  /** Blocks mined for a stage follow the plan if the miner's chain was in time. Otherwise they
      break it at the latest when they reach the height from which it would have been. */
  lemma {:induction false} PlannedExactlyInTime(k: nat, tip: Block, from: nat)
    requires k < |STAGES| && from <= Height(tip) <= STAGES[k].target && AllPaidTo(tip, from, STAGES[k].payee)
    ensures InTime(k, from) ==> PaidAsPlanned(tip, from)
    ensures !InTime(k, from) && InTime(k, Height(tip)) ==> !PaidAsPlanned(tip, from)
  {
    if Height(tip) > from {
      PlannedExactlyInTime(k, tip.parent, from);
    }
  }

  lemma {:induction false} ExtendPays(b: Block, n: nat, payee: Address, nonces: seq<int>)
    ensures Contains(Extend(b, n, payee, nonces), b) && Height(Extend(b, n, payee, nonces)) == Height(b) + n
    ensures AllPaidTo(Extend(b, n, payee, nonces), Height(b), payee)
  {
    if n > 0 {
      ExtendPays(b, n - 1, payee, nonces);
    }
  }

  /** A restart while node3 still lags behind a finished stage 5: the rest of stage 6, mined on
      node3's chain, does not pay as planned. */
  lemma LaggingMinerMisassigns(b: Block, nonces: seq<int>)
    requires 4 <= Height(b) < 54
    ensures STAGES[5] == Stage(104, Node3, ADDR3)
    ensures !PaidAsPlanned(Extend(b, 104 - Height(b), ADDR3, nonces), Height(b))
  {
    ExtendPays(b, 104 - Height(b), ADDR3, nonces);
    PlannedExactlyInTime(5, Extend(b, 104 - Height(b), ADDR3, nonces), Height(b));
  }

  /** The stage a run starts with. */
  function Next(h: nat, k: nat := 0): (j: nat)
    requires k < |STAGES| && h < BOOTSTRAP_END && StartOf(k) <= h
    ensures j < |STAGES| && StartOf(j) <= h < STAGES[j].target
    decreases |STAGES| - k
  {
    if h < STAGES[k].target then k else Next(h, k + 1)
  }

  lemma {:induction false} NextIs(h: nat, k: nat, j: nat)
    requires k <= j < |STAGES| && StartOf(j) <= h < STAGES[j].target && StartOf(k) <= h
    ensures Next(h, k) == j
    decreases j - k
  {
    if k < j {
      NextIs(h, k + 1, j);
    }
  }

  /** Both nodes. `budget` bounds the failing calls, `generates` counts generate requests. */
  class Network {
    var chain2: Block
    var chain3: Block
    var budget: nat
    ghost var generates: nat
    ghost var alive: bool      // the process has not died; a dead one makes no call

    function ChainOf(m: Miner): Block
      reads this
    {
      if m.Node2? then chain2 else chain3
    }

    function Other(m: Miner): Miner { if m.Node2? then Node3 else Node2 }

    /** The process starts again. */
    method Restart()
      modifies this`alive
      ensures alive
    {
      alive := true;
    }

    /** A height read is retried until it answers or the process dies. */
    method BlockCount(m: Miner) returns (r: Reply<nat>)
      requires alive
      modifies this`budget, this`alive
      ensures !r.Err? && (r.Ok? ==> r.value == Height(ChainOf(m)) && budget == old(budget))
      ensures r.Crash? ==> budget < old(budget)
      ensures alive <==> !r.Crash?
    {
      var crash: bool := *;
      if crash && budget > 0 {
        budget, alive := budget - 1, false;
        return Crash;
      }
      return Ok(Height(ChainOf(m)));
    }

    /** A failed or interrupted request may have mined any part of its blocks. */
    method GenerateToAddress(m: Miner, n: nat, payee: Address)
      returns (r: Reply<()>, ghost got: nat, ghost nonces: seq<int>)
      requires alive
      modifies this
      ensures ChainOf(Other(m)) == old(ChainOf(Other(m)))
      ensures got <= n && ChainOf(m) == Extend(old(ChainOf(m)), got, payee, nonces) && (r.Ok? ==> got == n)
      ensures r.Ok? ==> budget == old(budget)
      ensures !r.Ok? ==> budget < old(budget)
      ensures generates == old(generates) + 1
      ensures alive <==> !r.Crash?
    {
      generates := generates + 1;
      var fault, crash: bool, k: nat, salt: seq<int> := *, *, *, *;
      if !(fault && budget > 0) || k > n { k := n; }
      got, nonces := k, salt;
      var mined := Extend(ChainOf(m), k, payee, salt);
      if m.Node2? { chain2 := mined; } else { chain3 := mined; }
      if fault && budget > 0 {
        budget, alive := budget - 1, !crash;
        r := if crash then Crash else Err;
        return;
      }
      r := Ok(());
    }

    /** Wait until the witness has taken over the miner's higher chain; the process may die while
        waiting. */
    method WaitForWitness(m: Miner) returns (r: Reply<()>)
      requires Height(ChainOf(Other(m))) < Height(ChainOf(m))
      requires alive
      modifies this`chain2, this`chain3, this`budget, this`alive
      ensures !r.Err? && ChainOf(m) == old(ChainOf(m))
      ensures ChainOf(Other(m)) == old(ChainOf(Other(m))) || ChainOf(Other(m)) == ChainOf(m)
      ensures r.Ok? ==> chain2 == chain3 && budget == old(budget)
      ensures r.Crash? ==> budget < old(budget)
      ensures alive <==> !r.Crash?
    {
      var crash, synced: bool := *, *;
      crash := crash && budget > 0;
      if !crash || synced {
        if m.Node2? { chain3 := chain2; } else { chain2 := chain3; }
      }
      if crash {
        budget, alive := budget - 1, false;
        return Crash;
      }
      return Ok(());
    }
  }

  function Extend(b: Block, k: nat, payee: Address, nonces: seq<int>): Block {
    if k == 0 then b
    else Mined(Extend(b, k - 1, payee, nonces), payee, if k <= |nonces| then nonces[k - 1] else 0)
  }

  /** On top of planned blocks nothing is decided: the chain pays as planned iff its base did. */
  lemma {:induction false} PlannedOn(c: Block, b: Block, from: nat)
    requires Contains(c, b) && PaidAsPlanned(c, Height(b)) && from <= Height(b)
    ensures PaidAsPlanned(c, from) <==> PaidAsPlanned(b, from)
  {
    if Height(c) > Height(b) {
      PlannedOn(c.parent, b, from);
    }
  }

  lemma {:induction false} PaidToTransitive(c: Block, b: Block, from: nat, payee: Address)
    requires Contains(c, b) && AllPaidTo(c, Height(b), payee) && AllPaidTo(b, from, payee) && from <= Height(b)
    ensures AllPaidTo(c, from, payee)
  {
    if Height(c) > Height(b) {
      PaidToTransitive(c.parent, b, from, payee);
    }
  }

  /** A misassigned block stays on every chain grown from it. */
  lemma {:induction false} StaysMisassigned(c: Block, b: Block, from: nat)
    requires Contains(c, b) && !PaidAsPlanned(b, from)
    ensures !PaidAsPlanned(c, from)
  {
    if Height(c) > Height(b) {
      StaysMisassigned(c.parent, b, from);
    }
  }

  /** What stage `k`, mined on top of `base`, may leave: a chain up to the stage's end that pays
      as planned if the base was in time, and does not once it grew past where it should have
      begun otherwise. */
  ghost predicate Staged(tip: Block, base: Block, k: nat)
    requires k < |STAGES|
  {
    && Contains(tip, base) && Height(tip) <= STAGES[k].target
    && (InTime(k, Height(base)) ==> PaidAsPlanned(tip, Height(base)))
    && (!InTime(k, Height(base)) && InTime(k, Height(tip)) ==> !PaidAsPlanned(tip, Height(base)))
  }

  /** The miner's chain was staged, and the witness kept its own or took over the whole stage. */
  ghost predicate StageMoved(k: nat, b2: Block, b3: Block, now2: Block, now3: Block)
    requires k < |STAGES|
  {
    var done := now2 == now3 && Height(now2) == STAGES[k].target;
    if STAGES[k].miner.Node2? then Staged(now2, b2, k) && (now3 == b3 || done)
    else Staged(now3, b3, k) && (now2 == b2 || done)
  }

  /** Mine what is missing of stage `k`, whatever the witness has. Success means exactly the
      stage's target, on both nodes. It gives up only after eight requests that all failed, asks
      once if none does, and not at all when nothing is missing. */
  method MineStage(net: Network, k: nat) returns (r: Reply<nat>)
    requires k < |STAGES|
    requires Height(net.ChainOf(STAGES[k].miner)) <= STAGES[k].target
    requires Height(net.ChainOf(net.Other(STAGES[k].miner))) < STAGES[k].target
    requires net.alive
    modifies net
    ensures StageMoved(k, old(net.chain2), old(net.chain3), net.chain2, net.chain3)
    ensures r.Ok? ==> net.chain2 == net.chain3 && r.value == Height(net.chain2) == STAGES[k].target && net.budget <= old(net.budget)
    ensures !r.Ok? ==> net.budget < old(net.budget)
    ensures net.generates <= old(net.generates) + RPC_RETRY_ATTEMPTS
    ensures r.Err? ==> net.generates == old(net.generates) + 8 && net.budget + 8 <= old(net.budget)
    ensures Height(old(net.ChainOf(STAGES[k].miner))) == STAGES[k].target ==> net.generates == old(net.generates)
    ensures net.budget == old(net.budget) && Height(old(net.ChainOf(STAGES[k].miner))) < STAGES[k].target ==>
              net.generates == old(net.generates) + 1
    ensures net.alive <==> !r.Crash?
  {
    var stage := STAGES[k];
    ghost var base := net.ChainOf(stage.miner);
    var reached := MineMissing(net, stage);
    PlannedExactlyInTime(k, net.ChainOf(stage.miner), Height(base));
    if !reached.Ok? { return reached; }
    var synced := net.WaitForWitness(stage.miner);
    return if synced.Crash? then Crash else reached;
  }

  /** The attempts of a stage, and the final look at the miner's height. */
  method MineMissing(net: Network, stage: Stage) returns (r: Reply<nat>)
    requires Height(net.ChainOf(stage.miner)) <= stage.target
    requires net.alive
    modifies net
    ensures net.ChainOf(net.Other(stage.miner)) == old(net.ChainOf(net.Other(stage.miner)))
    ensures Grown(net.ChainOf(stage.miner), old(net.ChainOf(stage.miner)), stage)
    ensures r.Ok? ==> r.value == Height(net.ChainOf(stage.miner)) == stage.target
    ensures net.budget <= old(net.budget) && (!r.Ok? ==> net.budget < old(net.budget))
    ensures net.generates <= old(net.generates) + RPC_RETRY_ATTEMPTS
    ensures r.Err? ==> net.generates == old(net.generates) + 8 && net.budget + 8 <= old(net.budget)
    ensures Height(old(net.ChainOf(stage.miner))) == stage.target ==> net.generates == old(net.generates)
    ensures net.budget == old(net.budget) && Height(old(net.ChainOf(stage.miner))) < stage.target ==>
              net.generates == old(net.generates) + 1
    ensures net.alive <==> !r.Crash?
  {
    ghost var tries := 0;
    for attempt := 1 to RPC_RETRY_ATTEMPTS + 1
      invariant net.ChainOf(net.Other(stage.miner)) == old(net.ChainOf(net.Other(stage.miner)))
      invariant Grown(net.ChainOf(stage.miner), old(net.ChainOf(stage.miner)), stage)
      invariant net.alive && net.generates == old(net.generates) + tries && tries < attempt && net.budget <= old(net.budget)
      invariant tries == 0 ==> net.ChainOf(stage.miner) == old(net.ChainOf(stage.miner))
      invariant Height(old(net.ChainOf(stage.miner))) == stage.target ==> tries == 0
      invariant Height(net.ChainOf(stage.miner)) < stage.target ==> tries == attempt - 1 && net.budget + tries <= old(net.budget)
      invariant net.budget == old(net.budget) ==> tries <= 1
    {
      var count := net.BlockCount(stage.miner);
      if count.Crash? { return Crash; }
      if count.value >= stage.target { break; }
      tries := tries + 1;
      var mined := MineOnce(net, stage, count.value, old(net.ChainOf(stage.miner)));
      if mined.Crash? { return Crash; }
    }
    var height := net.BlockCount(stage.miner);
    if height.Crash? { return Crash; }
    return if height.value < stage.target then Err else height;
  }

  /** The chain grew from the base, no further than the stage, and pays the stage's address. */
  ghost predicate Grown(tip: Block, base: Block, stage: Stage) {
    Contains(tip, base) && Height(tip) <= stage.target && AllPaidTo(tip, Height(base), stage.payee)
  }

  /** One request for what is missing. */
  method MineOnce(net: Network, stage: Stage, height: nat, ghost base: Block) returns (r: Reply<()>)
    requires height == Height(net.ChainOf(stage.miner)) < stage.target && Grown(net.ChainOf(stage.miner), base, stage)
    requires net.alive
    modifies net
    ensures net.ChainOf(net.Other(stage.miner)) == old(net.ChainOf(net.Other(stage.miner)))
    ensures Grown(net.ChainOf(stage.miner), base, stage) && net.generates == old(net.generates) + 1
    ensures r.Ok? ==> Height(net.ChainOf(stage.miner)) == stage.target && net.budget == old(net.budget)
    ensures !r.Ok? ==> net.budget < old(net.budget)
    ensures net.alive <==> !r.Crash?
  {
    ghost var now := net.ChainOf(stage.miner);
    var mined, got, nonces := net.GenerateToAddress(stage.miner, stage.target - height, stage.payee);
    ExtendPays(now, got, stage.payee, nonces);
    PaidToTransitive(net.ChainOf(stage.miner), now, Height(base), stage.payee);
    ContainsTransitive(net.ChainOf(stage.miner), now, base);
    return mined;
  }

  // ---------------------------------------------------------------- whole runs

  /** States a run may start from. Node3 may lag behind node2, node2 behind node3's part of a
      stage, and the chains may have split in a stage of node3's. */
  predicate Resumable(c2: Block, c3: Block) {
    Height(c2) < BOOTSTRAP_END ==>
      var k := Next(Height(c2));
      if STAGES[k].miner.Node2? then Contains(c2, c3) else Height(c3) <= STAGES[k].target
  }

  /** The chain the run builds on. */
  function Leading(c2: Block, c3: Block): Block {
    if Height(c2) < BOOTSTRAP_END && STAGES[Next(Height(c2))].miner.Node3? then c3 else c2
  }

  /** The next unfinished stage is node3's and node3 is not there yet. */
  predicate Lags(c2: Block, c3: Block) {
    Height(c2) < BOOTSTRAP_END && var k := Next(Height(c2)); STAGES[k].miner.Node3? && !InTime(k, Height(c3))
  }

  /** What a run from `c2` and `c3` may leave. Blocks on top of the leading chain pay as planned
      if node3 did not lag. If it did, it still lags, or its chain is misassigned and node2's is
      the old one or misassigned too. */
  ghost predicate Left(now2: Block, now3: Block, c2: Block, c3: Block) {
    var leading := Leading(c2, c3);
    && (now2 == c2 || Contains(now2, leading)) && (now3 == c3 || Contains(now3, leading))
    && (!Lags(c2, c3) ==> (now2 == c2 || PaidAsPlanned(now2, Height(leading))) && (now3 == c3 || PaidAsPlanned(now3, Height(leading))))
    && (Lags(c2, c3) ==> (now2 == c2 && Contains(now3, c3) && Lags(now2, now3))
                         || (!PaidAsPlanned(now3, Height(c3)) && (now2 == c2 || !PaidAsPlanned(now2, Height(c3)))))
  }

  /** A stage of a run from `c2` and `c3`. */
  method MineDueStage(net: Network, k: int, ghost c2: Block, ghost c3: Block) returns (r: Reply<nat>)
    requires 0 <= k < |STAGES| && StartOf(k) <= Height(net.chain2) < STAGES[k].target
    requires Resumable(c2, c3) && Underway(net.chain2, net.chain3, c2, c3, k)
    requires net.alive
    modifies net
    ensures Height(c2) < BOOTSTRAP_END
    ensures r.Ok? ==>
              && Underway(net.chain2, net.chain3, c2, c3, k + 1) && r.value == Height(net.chain2) == STAGES[k].target
              && net.budget <= old(net.budget)
    ensures !r.Ok? ==> Broken(net.chain2, net.chain3, c2, c3) && net.budget < old(net.budget)
    ensures net.generates <= old(net.generates) + RPC_RETRY_ATTEMPTS
    ensures net.alive <==> !r.Crash?
  {
    ghost var b2, b3 := net.chain2, net.chain3;
    DueNow(k, b2, b3, c2, c3);
    r := MineStage(net, k);
    StageLeaves(k, b2, b3, net.chain2, net.chain3, c2, c3);
  }

  /** An interrupted run from `c2` and `c3`. */
  ghost predicate Broken(now2: Block, now3: Block, c2: Block, c3: Block) {
    && Resumable(now2, now3) && Left(now2, now3, c2, c3)
    && Height(now2) <= BOOTSTRAP_END && Height(now3) <= BOOTSTRAP_END
    && (Height(now2) == BOOTSTRAP_END ==> now2 == now3)
  }

  /** A whole run from `c2` and `c3`: both nodes at 204, and planned blocks exactly if node3 did
      not lag. */
  ghost predicate Ended(now2: Block, now3: Block, c2: Block, c3: Block) {
    && now2 == now3 && Height(now2) == BOOTSTRAP_END && Contains(now2, Leading(c2, c3))
    && (PaidAsPlanned(now2, Height(Leading(c2, c3))) <==> !Lags(c2, c3))
  }

  /** One run of the sequence, however far each node is. A successful run ends at 204 on both
      nodes, and what it mined pays as planned exactly if node3 did not lag behind its own next
      stage. */
  method Run(net: Network) returns (r: Reply<()>)
    requires Resumable(net.chain2, net.chain3)
    requires net.alive
    modifies net
    ensures Height(old(net.chain2)) >= BOOTSTRAP_END ==>
              net.chain2 == old(net.chain2) && net.chain3 == old(net.chain3) && net.generates == old(net.generates)
    ensures Height(old(net.chain2)) < BOOTSTRAP_END ==>
              if r.Ok? then Ended(net.chain2, net.chain3, old(net.chain2), old(net.chain3))
              else Broken(net.chain2, net.chain3, old(net.chain2), old(net.chain3))
    ensures (!r.Ok? ==> net.budget < old(net.budget)) && net.budget <= old(net.budget)
    ensures net.generates <= old(net.generates) + |STAGES| * RPC_RETRY_ATTEMPTS
    ensures net.alive <==> !r.Crash?
  {
    ghost var c2, c3 := net.chain2, net.chain3;
    if Height(c2) < BOOTSTRAP_END { NothingMined(c2, c3); }
    var first := net.BlockCount(Node2);
    if first.Crash? { return Crash; }
    var height := first.value;
    for k := 0 to |STAGES|
      invariant height == Height(net.chain2) && (k > 0 ==> STAGES[k - 1].target <= height)
      invariant Underway(net.chain2, net.chain3, c2, c3, k)
      invariant Height(c2) >= BOOTSTRAP_END ==> net.generates == old(net.generates)
      invariant net.generates <= old(net.generates) + k * RPC_RETRY_ATTEMPTS
      invariant net.alive && net.budget <= old(net.budget)
    {
      if height >= STAGES[k].target { continue; }
      var mined := MineDueStage(net, k, c2, c3);
      if !mined.Ok? { return if mined.Crash? then Crash else Err; }
      height := mined.value;
    }
    EndsWhole(net.chain2, net.chain3, c2, c3);
    var last := net.BlockCount(Node2);
    return if last.Crash? then Crash else Ok(());
  }

  /** Before stage `k` of a run: nothing was due yet, or both nodes stand at the end of the
      stage before. */
  ghost predicate Underway(now2: Block, now3: Block, c2: Block, c3: Block, k: int)
    requires 0 <= k <= |STAGES|
  {
    || (now2 == c2 && now3 == c3)
    || (&& k > 0 && now2 == now3 && Height(now2) == STAGES[k - 1].target && Height(c2) < BOOTSTRAP_END
        && Contains(now2, Leading(c2, c3)) && (PaidAsPlanned(now2, Height(Leading(c2, c3))) <==> !Lags(c2, c3)))
  }

  /** Stage `k` is the one due. */
  predicate Due(k: int, b2: Block, b3: Block) {
    && 0 <= k < |STAGES| && StartOf(k) <= Height(b2) < STAGES[k].target
    && if STAGES[k].miner.Node2? then Contains(b2, b3) else Height(b3) <= STAGES[k].target
  }

  lemma DueIsResumable(k: int, b2: Block, b3: Block)
    requires 0 <= k < |STAGES| && StartOf(k) <= Height(b2) < STAGES[k].target
    ensures Resumable(b2, b3) <==> Due(k, b2, b3)
    ensures Leading(b2, b3) == if STAGES[k].miner.Node3? then b3 else b2
    ensures Lags(b2, b3) <==> STAGES[k].miner.Node3? && !InTime(k, Height(b3))
  {
    NextIs(Height(b2), 0, k);
  }

  /** The two nodes take turns. */
  lemma Turns(k: int)
    requires 0 <= k < |STAGES|
    ensures STAGES[k].miner.Node2? <==> k % 2 == 0
  {
  }

  lemma StaysResumable(k: int, b2: Block, b3: Block, now2: Block, now3: Block)
    requires Due(k, b2, b3) && StageMoved(k, b2, b3, now2, now3)
    ensures Resumable(now2, now3)
  {
    if Height(now2) < STAGES[k].target {
      DueIsResumable(k, now2, now3);
      if STAGES[k].miner.Node2? { ContainsTransitive(now2, b2, b3); }
    } else if k + 1 < |STAGES| {
      DueIsResumable(k + 1, now2, now3);
      Turns(k);
      Turns(k + 1);
    }
  }

  /** A stage the run comes to is due. */
  lemma DueNow(k: int, b2: Block, b3: Block, c2: Block, c3: Block)
    requires 0 <= k < |STAGES| && Resumable(c2, c3) && Underway(b2, b3, c2, c3, k)
    requires StartOf(k) <= Height(b2) < STAGES[k].target
    ensures Due(k, b2, b3) && Height(c2) < BOOTSTRAP_END
  {
    if b2 == c2 && b3 == c3 { DueIsResumable(k, c2, c3); }
  }

  lemma EndsWhole(now2: Block, now3: Block, c2: Block, c3: Block)
    requires Underway(now2, now3, c2, c3, |STAGES|) && Height(now2) >= BOOTSTRAP_END
    ensures Height(c2) < BOOTSTRAP_END ==> Ended(now2, now3, c2, c3) && Broken(now2, now3, c2, c3)
    ensures Height(c2) >= BOOTSTRAP_END ==> now2 == c2 && now3 == c3
  {
  }

  lemma NothingMined(c2: Block, c3: Block)
    requires Resumable(c2, c3) && Height(c2) < BOOTSTRAP_END
    ensures Broken(c2, c3, c2, c3)
  {
    DueIsResumable(Next(Height(c2)), c2, c3);
    assert Contains(c3, c3);
  }

  lemma StageBounds(k: int, b2: Block, b3: Block, now2: Block, now3: Block)
    requires Due(k, b2, b3) && StageMoved(k, b2, b3, now2, now3)
    ensures Height(now2) <= BOOTSTRAP_END && Height(now3) <= BOOTSTRAP_END
    ensures Height(now2) == BOOTSTRAP_END ==> now2 == now3
  {
    Turns(k);
  }

  lemma FirstStageLeaves(k: int, c2: Block, c3: Block, now2: Block, now3: Block)
    requires Due(k, c2, c3) && StageMoved(k, c2, c3, now2, now3)
    ensures Left(now2, now3, c2, c3)
    ensures now2 == now3 && Height(now2) == STAGES[k].target ==> Underway(now2, now3, c2, c3, k + 1)
  {
    DueIsResumable(k, c2, c3);
    if Height(now2) < STAGES[k].target { DueIsResumable(k, now2, now3); }
  }

  lemma LaterStageLeaves(k: int, b: Block, now2: Block, now3: Block, c2: Block, c3: Block)
    requires 0 < k < |STAGES| && Height(b) == StartOf(k) && StageMoved(k, b, b, now2, now3)
    requires Height(c2) < BOOTSTRAP_END && Contains(b, Leading(c2, c3))
    requires PaidAsPlanned(b, Height(Leading(c2, c3))) <==> !Lags(c2, c3)
    ensures Left(now2, now3, c2, c3)
    ensures now2 == now3 && Height(now2) == STAGES[k].target ==> Underway(now2, now3, c2, c3, k + 1)
  {
    var leading := Leading(c2, c3);
    ContainsTransitive(now2, b, leading);
    ContainsTransitive(now3, b, leading);
    PlannedOn(now2, b, Height(leading));
    PlannedOn(now3, b, Height(leading));
  }

  lemma StageLeaves(k: int, b2: Block, b3: Block, now2: Block, now3: Block, c2: Block, c3: Block)
    requires Due(k, b2, b3) && Underway(b2, b3, c2, c3, k) && StageMoved(k, b2, b3, now2, now3)
    ensures Broken(now2, now3, c2, c3)
    ensures now2 == now3 && Height(now2) == STAGES[k].target ==> Underway(now2, now3, c2, c3, k + 1)
  {
    StageBounds(k, b2, b3, now2, now3);
    StaysResumable(k, b2, b3, now2, now3);
    if b2 == c2 && b3 == c3 {
      FirstStageLeaves(k, c2, c3, now2, now3);
    } else {
      LaterStageLeaves(k, b2, now2, now3, c2, c3);
    }
  }

  // ---------------------------------------------------------------- restarts

  lemma {:induction false} PlannedAbove(tip: Block, from: nat, above: nat)
    requires PaidAsPlanned(tip, from) && from <= above
    ensures PaidAsPlanned(tip, above)
  {
    if tip.Mined? && Height(tip) > above {
      PlannedAbove(tip.parent, from, above);
    }
  }

  /** After restarts that started from `b`; `lagged` tells whether node3 lagged at one of them. */
  ghost predicate Restarted(c2: Block, c3: Block, b: Block, lagged: bool) {
    && Contains(c2, b) && Contains(c3, b)
    && (!lagged ==> PaidAsPlanned(c2, Height(b)) && PaidAsPlanned(c3, Height(b)))
    && (lagged ==> Lags(c2, c3) || (!PaidAsPlanned(c3, Height(b)) && (Leading(c2, c3) == c3 || !PaidAsPlanned(c2, Height(b)))))
  }

  lemma RestartKeeps(now2: Block, now3: Block, c2: Block, c3: Block, b: Block, lagged: bool)
    requires Height(c2) < BOOTSTRAP_END && Restarted(c2, c3, b, lagged) && (Lags(c2, c3) ==> lagged)
    requires Left(now2, now3, c2, c3)
    ensures Restarted(now2, now3, b, lagged)
  {
    ChainRestarted(now2, c2, c3, b, lagged);
    ChainRestarted(now3, c2, c3, b, lagged);
    if now2 == c2 { DueIsLeading(c2, c3, now3); }
  }

  /** Which chain leads depends on node2's height alone. */
  lemma DueIsLeading(c2: Block, c3: Block, now3: Block)
    ensures Leading(c2, c3) == c3 && Leading(c2, now3) != now3 ==> c2 == c3
  {
  }

  lemma ChainRestarted(tip: Block, c2: Block, c3: Block, b: Block, lagged: bool)
    requires Restarted(c2, c3, b, lagged) && (Lags(c2, c3) ==> lagged)
    ensures Contains(tip, Leading(c2, c3)) ==> Contains(tip, b)
    ensures Contains(tip, Leading(c2, c3)) && PaidAsPlanned(tip, Height(Leading(c2, c3))) && !lagged ==> PaidAsPlanned(tip, Height(b))
    ensures Contains(tip, Leading(c2, c3)) && lagged && !Lags(c2, c3) ==> !PaidAsPlanned(tip, Height(b))
    ensures !PaidAsPlanned(tip, Height(Leading(c2, c3))) ==> !PaidAsPlanned(tip, Height(b))
  {
    var leading := Leading(c2, c3);
    if PaidAsPlanned(tip, Height(b)) { PlannedAbove(tip, Height(b), Height(leading)); }
    if Contains(tip, leading) {
      ContainsTransitive(tip, leading, b);
      if PaidAsPlanned(tip, Height(leading)) { PlannedOn(tip, leading, Height(b)); }
      if !PaidAsPlanned(leading, Height(b)) { StaysMisassigned(tip, leading, Height(b)); }
    }
  }

  /** A run from `a` failed and left `b` to start from again. */
  ghost predicate FollowsOn(a: (Block, Block), b: (Block, Block)) {
    if Height(a.0) < BOOTSTRAP_END then Broken(b.0, b.1, a.0, a.1) else b == a
  }

  ghost predicate Restarts(starts: seq<(Block, Block)>) {
    forall i | 0 < i < |starts| :: FollowsOn(starts[i - 1], starts[i])
  }

  /** Node3 lagged at no start. */
  predicate NeverLagged(starts: seq<(Block, Block)>) {
    forall i | 0 <= i < |starts| :: !Lags(starts[i].0, starts[i].1)
  }

  /** Restart after every failed or interrupted run, in whatever state it left the nodes; `starts`
      are the states the runs began with. The sequence ends at 204 on both nodes, by a run from
      the last of them, and pays as planned exactly if at none of them node3 lagged behind its
      own next stage. */
  method RunThroughRestarts(net: Network) returns (starts: seq<(Block, Block)>)
    requires net.alive && net.chain2 == net.chain3
    modifies net
    ensures starts != [] && starts[0] == (old(net.chain2), old(net.chain3)) && Restarts(starts)
    ensures |starts| - 1 + net.budget <= old(net.budget)
    ensures var last := starts[|starts| - 1];
            if Height(last.0) < BOOTSTRAP_END then Ended(net.chain2, net.chain3, last.0, last.1)
            else net.chain2 == last.0 && net.chain3 == last.1
    ensures net.chain2 == net.chain3 && Contains(net.chain2, old(net.chain2))
    ensures Height(net.chain2) == if Height(old(net.chain2)) < BOOTSTRAP_END then BOOTSTRAP_END else Height(old(net.chain2))
    ensures PaidAsPlanned(net.chain2, Height(old(net.chain2))) <==> NeverLagged(starts)
    ensures old(net.budget) == 0 ==> |starts| == 1 && PaidAsPlanned(net.chain2, Height(old(net.chain2)))
  {
    starts := [(net.chain2, net.chain3)];
    ghost var b := net.chain2;
    StartsSound(b);
    assert starts[..0] == [];
    while true
      invariant Sofar(starts, net.chain2, net.chain3, b)
      invariant net.alive && |starts| - 1 + net.budget <= old(net.budget)
      decreases net.budget
    {
      ghost var c2, c3 := net.chain2, net.chain3;
      var r := Run(net);
      if r.Ok? {
        LastRun(starts, c2, c3, b, net.chain2, net.chain3);
        return;
      }
      BrokenRun(starts, c2, c3, b, net.chain2, net.chain3);
      starts := starts + [(net.chain2, net.chain3)];
      net.Restart();
    }
  }

  /** Runs began at `starts`, the last of which is where the nodes stand. */
  ghost predicate Sofar(starts: seq<(Block, Block)>, c2: Block, c3: Block, b: Block) {
    && starts != [] && starts[0] == (b, b) && starts[|starts| - 1] == (c2, c3) && Restarts(starts)
    && Resumable(c2, c3) && Restarted(c2, c3, b, !NeverLagged(starts[..|starts| - 1]))
    && (Height(b) < BOOTSTRAP_END ==> Height(c2) <= BOOTSTRAP_END && Height(c3) <= BOOTSTRAP_END)
    && (Height(b) >= BOOTSTRAP_END ==> c2 == b)
    && (Height(c2) >= BOOTSTRAP_END ==> c2 == c3)
  }

  lemma BrokenRun(starts: seq<(Block, Block)>, c2: Block, c3: Block, b: Block, now2: Block, now3: Block)
    requires Sofar(starts, c2, c3, b) && FollowsOn((c2, c3), (now2, now3))
    ensures Sofar(starts + [(now2, now3)], now2, now3, b)
  {
    var more := starts + [(now2, now3)];
    assert more[..|more| - 1] == starts;
    OneMoreStart(starts, b);
    if Height(c2) < BOOTSTRAP_END { RestartKeeps(now2, now3, c2, c3, b, !NeverLagged(starts)); }
  }

  lemma LastRun(starts: seq<(Block, Block)>, c2: Block, c3: Block, b: Block, now2: Block, now3: Block)
    requires Sofar(starts, c2, c3, b)
    requires if Height(c2) < BOOTSTRAP_END then Ended(now2, now3, c2, c3) else now2 == c2 && now3 == c3
    ensures now2 == now3 && Contains(now2, b) && (PaidAsPlanned(now2, Height(b)) <==> NeverLagged(starts))
    ensures Height(now2) == if Height(b) < BOOTSTRAP_END then BOOTSTRAP_END else Height(b)
    ensures |starts| == 1 ==> NeverLagged(starts)
  {
    OneMoreStart(starts, b);
    if |starts| == 1 { assert starts == [(b, b)]; }
    if Height(c2) < BOOTSTRAP_END { ChainRestarted(now2, c2, c3, b, !NeverLagged(starts)); }
  }

  /** Whether node3 lagged at a start counts from there on. */
  lemma OneMoreStart(starts: seq<(Block, Block)>, b: Block)
    requires starts != []
    ensures var last := starts[|starts| - 1];
            && (NeverLagged(starts) <==> NeverLagged(starts[..|starts| - 1]) && !Lags(last.0, last.1))
            && (Restarted(last.0, last.1, b, !NeverLagged(starts[..|starts| - 1])) ==> Restarted(last.0, last.1, b, !NeverLagged(starts)))
            && (starts == [(b, b)] ==> NeverLagged(starts))
  {
    var most, last := starts[..|starts| - 1], starts[|starts| - 1];
    assert forall i | 0 <= i < |most| :: most[i] == starts[i];
    if starts == [(b, b)] && Height(b) < BOOTSTRAP_END { DueIsResumable(Next(Height(b)), b, b); }
  }

  lemma StartsSound(b: Block)
    ensures Resumable(b, b) && Restarted(b, b, b, false)
  {
    if Height(b) < BOOTSTRAP_END { DueIsResumable(Next(Height(b)), b, b); }
  }
}
