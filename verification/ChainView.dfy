/** The mining controller's bounded view of the recent chain
    (crates/mining-controller/src/chain_view.rs). */
module ChainViews {
  import opened Chain
  import opened Options

  const REORG_WINDOW: nat := 100

  datatype Reorg = Reorg(fork: nat, replacedUpTo: nat, tip: nat)

  type Seen = map<nat, Block>

  function Min(a: nat, b: nat): nat { if a <= b then a else b }
  function Floor(height: nat): nat { if height >= REORG_WINDOW then height - REORG_WINDOW else 0 }

  predicate IsLeast(m: nat, s: set<nat>) { m in s && forall k | k in s :: m <= k }
  predicate IsGreatest(m: nat, s: set<nat>) { m in s && forall k | k in s :: k <= m }

  lemma {:induction false} HasLeast(s: set<nat>)
    requires s != {}
    ensures exists m :: IsLeast(m, s)
  {
    var x :| x in s;
    var rest := s - {x};
    if rest == {} {
      assert s == {x} && IsLeast(x, s);
    } else {
      HasLeast(rest);
      var m :| IsLeast(m, rest);
      assert forall k | k in s :: k == x || k in rest;
      assert IsLeast(Min(x, m), s);
    }
  }

  function Least(s: set<nat>): (m: nat)
    requires s != {}
    ensures m in s && forall k | k in s :: m <= k
  {
    HasLeast(s);
    var m :| IsLeast(m, s);
    m
  }

  lemma {:induction false} HasGreatest(s: set<nat>)
    requires s != {}
    ensures exists m :: IsGreatest(m, s)
  {
    var x :| x in s;
    var rest := s - {x};
    if rest == {} {
      assert s == {x} && IsGreatest(x, s);
    } else {
      HasGreatest(rest);
      var m :| IsGreatest(m, rest);
      assert forall k | k in s :: k == x || k in rest;
      assert IsGreatest(if x >= m then x else m, s);
    }
  }

  function Greatest(s: set<nat>): (m: nat)
    requires s != {}
    ensures m in s && forall k | k in s :: k <= m
  {
    HasGreatest(s);
    var m :| IsGreatest(m, s);
    m
  }

  function Recent(seen: Seen, floor: nat): Seen { map h | h in seen && h >= floor :: seen[h] }

  function Dropped(seen: Seen, floor: nat): set<Block> { set h | h in seen && h < floor :: seen[h] }

  function UpTo(seen: Seen, fork: nat): Seen { map h | h in seen && h <= fork :: seen[h] }

  function Above(seen: Seen, fork: nat): set<Block> { set h | h in seen && h > fork :: seen[h] }

  lemma CutStep(all: Seen, cut: nat)
    requires Recent(all, cut) != map[]
    ensures var h := Least(Recent(all, cut).Keys);
            && Recent(all, h + 1) == Recent(all, cut) - {h}
            && Dropped(all, h + 1) == Dropped(all, cut) + {all[h]}
  {
    var h := Least(Recent(all, cut).Keys);
    assert h in Recent(all, cut);
    forall k | k in all && k < h ensures k < cut {
      assert k >= cut ==> k in Recent(all, cut);
    }
    forall b | b in Dropped(all, h + 1) ensures b in Dropped(all, cut) + {all[h]} {
      var k :| k in all && k < h + 1 && b == all[k];
    }
  }

  lemma CutEnd(all: Seen, cut: nat, floor: nat)
    requires cut <= floor
    requires Recent(all, cut) == map[] || floor <= Least(Recent(all, cut).Keys)
    ensures Recent(all, cut) == Recent(all, floor) && Dropped(all, cut) == Dropped(all, floor)
  {
    forall k | k in all && cut <= k ensures k >= floor {
      assert k in Recent(all, cut);
    }
  }

  // ---------------------------------------------------------------- what a view means

  /** Recorded heights below `limit` carry the hashes of `chain`. */
  ghost predicate AgreesWith(seen: Seen, limit: nat, chain: Block) {
    forall h | h in seen && h < limit :: h <= Height(chain) && seen[h] == At(chain, h)
  }

  /** From the first recorded height on, nothing below `limit` is missing. */
  ghost predicate NoGaps(seen: Seen, limit: nat) {
    forall g, h | g in seen && g <= h < limit :: h in seen
  }

  ghost predicate OwnHeights(seen: Seen) {
    forall h | h in seen :: Height(seen[h]) == h
  }

  /** What the view recorded up to height `last` is `chain`'s; entries above are leftovers. */
  ghost predicate Tracks(seen: Seen, last: nat, chain: Block) {
    last <= Height(chain) && AgreesWith(seen, last + 1, chain)
  }

  /** The view follows `chain` up to height `last`, and without gaps. */
  ghost predicate Follows(seen: Seen, last: nat, chain: Block) {
    Tracks(seen, last, chain) && NoGaps(seen, last + 1) && OwnHeights(seen)
  }

  /** Some recorded height at or below `base` differs from the node's chain. */
  ghost predicate Differs(seen: Seen, base: nat, node: Block) {
    exists h :: h in seen && h <= base && (h > Height(node) || seen[h] != At(node, h))
  }

  /** The test the controller makes: only the entry at `base` is compared. */
  predicate Detects(seen: Seen, base: nat, node: Block)
    requires base <= Height(node)
  {
    base in seen && seen[base] != At(node, base)
  }

  /** The true fork between the two chains, or one below the window when it lies deeper. */
  ghost predicate ForkOf(fork: nat, seen: Seen, base: nat, chain: Block, node: Block)
    requires base <= Height(chain) && base <= Height(node)
  {
    && fork < base
    && At(chain, fork + 1) != At(node, fork + 1)
    && (fork in seen ==> At(chain, fork) == At(node, fork))
    && (fork !in seen ==> seen != map[] && fork == Least(seen.Keys) - 1)
  }

  lemma MatchBelow(chain: Block, node: Block, h: nat, g: nat)
    requires g <= h <= Height(chain) && h <= Height(node) && At(chain, h) == At(node, h)
    ensures At(chain, g) == At(node, g)
  {
    AtAt(chain, h, g);
    AtAt(node, h, g);
  }

  /** Comparing one entry is enough, because a hash determines its ancestors: a rewritten
      history is detected exactly if the entry to compare is recorded. */
  lemma DetectionIsExact(seen: Seen, last: nat, chain: Block, node: Block)
    requires Tracks(seen, last, chain)
    ensures var base := Min(last, Height(node));
            && (Detects(seen, base, node) <==> base in seen && Differs(seen, base, node))
            && (NoGaps(seen, last + 1) && Differs(seen, base, node) ==> base in seen)
  {
    var base := Min(last, Height(node));
    if base in seen && !Detects(seen, base, node) {
      forall h | h in seen && h <= base ensures h <= Height(node) && seen[h] == At(node, h) {
        MatchBelow(chain, node, base, h);
      }
    }
  }

  /** One recorded block extends the agreement by one height and leaves no gap. */
  lemma RecordKeeps(seen: Seen, h: nat, node: Block)
    requires h <= Height(node) && OwnHeights(seen)
    ensures var after := Recent(seen[h := At(node, h)], Floor(h));
            && OwnHeights(after) && h in after
            && (AgreesWith(seen, h, node) ==> AgreesWith(after, h + 1, node))
            && (NoGaps(seen, h) ==> NoGaps(after, h + 1))
  {
    AtHeight(node, h);
    RecordLeavesNoGap(seen, h, At(node, h));
  }

  lemma RecordLeavesNoGap(seen: Seen, h: nat, block: Block)
    ensures NoGaps(seen, h) ==> NoGaps(Recent(seen[h := block], Floor(h)), h + 1)
  {
  }

  /** Evicting old heights never forgets that a block still ahead of the walk is ours. */
  lemma DropsNothingAhead(seen: Seen, floor: nat, node: Block, k: nat)
    requires OwnHeights(seen) && floor <= k <= Height(node)
    ensures At(node, k) !in Dropped(seen, floor)
  {
    AtHeight(node, k);
  }

  lemma OwnAhead(seen: Seen, own: set<Block>, h: nat, node: Block)
    requires h <= Height(node) && OwnHeights(seen)
    ensures var next := seen[h := At(node, h)];
            var after := (if At(node, h) in own then own + {At(node, h)} else own) - Dropped(next, Floor(h));
            forall k | h < k <= Height(node) :: At(node, k) in after <==> At(node, k) in own
  {
    AtHeight(node, h);
    forall k | h < k <= Height(node) ensures At(node, k) !in Dropped(seen[h := At(node, h)], Floor(h)) {
      DropsNothingAhead(seen[h := At(node, h)], Floor(h), node, k);
    }
  }

  /** The reported fork is the true one, or lies just below the window. */
  lemma ForkIsTrue(seen: Seen, last: nat, chain: Block, node: Block, fork: nat)
    requires Follows(seen, last, chain) && Detects(seen, Min(last, Height(node)), node)
    requires || (fork in seen && fork <= Min(last, Height(node)) && seen[fork] == At(node, fork))
             || fork == Least(seen.Keys) - Min(1, Least(seen.Keys))
    requires forall h | h in seen && h <= Min(last, Height(node)) && seen[h] == At(node, h) ::
               h <= fork && fork in seen && seen[fork] == At(node, fork)
    ensures ForkOf(fork, seen, Min(last, Height(node)), chain, node)
  {
    var least := Least(seen.Keys);
    AtHeight(node, 0);
    assert 0 in seen ==> Height(seen[0]) == 0;
    if fork in seen && seen[fork] == At(node, fork) {
      assert fork + 1 in seen;
    } else {
      assert fork + 1 == least && fork !in seen;
    }
  }

  /** What survives below a fork chosen by `FindFork` agrees with the node. */
  lemma BelowForkAgrees(seen: Seen, last: nat, chain: Block, node: Block, fork: nat)
    requires Tracks(seen, last, chain) && OwnHeights(seen) && fork <= Min(last, Height(node))
    requires (fork in seen && seen[fork] == At(node, fork)) || (seen != map[] && fork == Least(seen.Keys) - Min(1, Least(seen.Keys)))
    ensures AgreesWith(UpTo(seen, fork), fork + 1, node)
    ensures NoGaps(seen, last + 1) ==> NoGaps(UpTo(seen, fork), fork + 1)
  {
    var kept := UpTo(seen, fork);
    AtHeight(node, 0);
    forall h | h in kept ensures h <= Height(node) && kept[h] == At(node, h) {
      if fork in seen && seen[fork] == At(node, fork) {
        MatchBelow(chain, node, fork, h);
      }
    }
  }

  /** The walked heights from `start` to below `stop` whose blocks are not ours. */
  ghost predicate Flagged(external: set<nat>, start: nat, stop: nat, node: Block, own: set<Block>) {
    stop <= Height(node) + 1 && forall h :: FlaggedAt(external, start, stop, node, own, h)
  }

  predicate FlaggedAt(external: set<nat>, start: nat, stop: nat, node: Block, own: set<Block>, h: nat)
    requires stop <= Height(node) + 1
  {
    h in external <==> start <= h < stop && At(node, h) !in own
  }

  lemma FlaggedMore(external: set<nat>, start: nat, stop: nat, node: Block, own: set<Block>)
    requires start <= stop <= Height(node) && Flagged(external, start, stop, node, own)
    ensures Flagged(if At(node, stop) in own then external else external + {stop}, start, stop + 1, node, own)
  {
    var more, next := if At(node, stop) in own then external else external + {stop}, stop + 1;
    forall h: nat ensures FlaggedAt(more, start, next, node, own, h) {
      assert FlaggedAt(external, start, stop, node, own, h);
    }
  }

  /** What a view knows after walking the heights from `start` to below `stop`, before it forgets. */
  function Walked(kept: Seen, start: nat, stop: nat, node: Block): Seen
    requires stop <= Height(node) + 1
  {
    if stop <= start then kept else Walked(kept, start, stop - 1, node)[stop - 1 := At(node, stop - 1)]
  }

  /** The walk puts the node's blocks over what was kept. */
  lemma {:induction false} WalkedAt(kept: Seen, start: nat, stop: nat, node: Block, h: nat)
    requires stop <= Height(node) + 1
    ensures h in Walked(kept, start, stop, node) <==> start <= h < stop || h in kept
    ensures h in Walked(kept, start, stop, node) ==>
              Walked(kept, start, stop, node)[h] == if start <= h < stop then At(node, h) else kept[h]
  {
    if start < stop { WalkedAt(kept, start, stop - 1, node, h); }
  }

  /** Forgetting at every step forgets what forgetting once at the end would. */
  lemma ForgetsTwice(all: Seen, floor: nat, h: nat, b: Block, later: nat)
    requires floor <= later <= h
    ensures var next := Recent(all, floor)[h := b];
            && Recent(next, later) == Recent(all[h := b], later)
            && Dropped(all, floor) + Dropped(next, later) == Dropped(all[h := b], later)
  {
    var next, more := Recent(all, floor)[h := b], all[h := b];
    forall c | c in Dropped(more, later) ensures c in Dropped(all, floor) + Dropped(next, later) {
      var k :| k in more && k < later && more[k] == c;
      if k < floor { assert k in all && all[k] == c; } else { assert k in next && next[k] == c; }
    }
    forall c | c in Dropped(all, floor) ensures c in Dropped(more, later) {
      var k :| k in all && k < floor && all[k] == c;
      assert k in more && more[k] == c;
    }
    forall c | c in Dropped(next, later) ensures c in Dropped(more, later) {
      var k :| k in next && k < later && next[k] == c;
      assert k in more && more[k] == c;
    }
  }

  /** The view after a walk: what was kept and walked, less all that lies a window below the last
      block, of which `own` forgets the hashes too. */
  predicate WalkedTo(seen: Seen, own: set<Block>, kept: Seen, mine: set<Block>, start: nat, stop: nat, node: Block)
    requires stop <= Height(node) + 1
  {
    if start < stop then
      var all := Walked(kept, start, stop, node);
      seen == Recent(all, Floor(stop - 1)) && own == mine - Dropped(all, Floor(stop - 1))
    else seen == kept && own == mine
  }

  lemma WalksOn(seen: Seen, own: set<Block>, kept: Seen, mine: set<Block>, start: nat, stop: nat, node: Block,
                after: Seen, less: set<Block>)
    requires start <= stop <= Height(node) && WalkedTo(seen, own, kept, mine, start, stop, node)
    requires var next := seen[stop := At(node, stop)];
             after == Recent(next, Floor(stop)) && less == own - Dropped(next, Floor(stop))
    ensures WalkedTo(after, less, kept, mine, start, stop + 1, node)
  {
    var all, floor := Walked(kept, start, stop, node), if start < stop then Floor(stop - 1) else 0;
    assert Recent(kept, 0) == kept && Dropped(kept, 0) == {};
    ForgetsTwice(all, floor, stop, At(node, stop), Floor(stop));
  }

  /** What the test of one entry says, when the node answered it. */
  lemma UndetectedAgrees(seen: Seen, last: nat, chain: Block, node: Block)
    requires Tracks(seen, last, chain)
    requires !Detects(seen, Min(last, Height(node)), node)
    ensures !Differs(seen, Min(last, Height(node)), node) ==> AgreesWith(seen, Min(last, Height(node)) + 1, node)
    ensures NoGaps(seen, last + 1) || Min(last, Height(node)) in seen ==> !Differs(seen, Min(last, Height(node)), node)
  {
    DetectionIsExact(seen, last, chain, node);
  }

  /** A node whose chain does not change during one call. Hashes at the heights in `down` are
      not answered; a flaky node may fail any other call too. */
  class NodeClient {
    const tip: Block
    const flaky: bool
    const down: set<nat>

    constructor (tip: Block, flaky: bool, down: set<nat>)
      ensures this.tip == tip && this.flaky == flaky && this.down == down && (!flaky && down == {} ==> Healthy())
    {
      this.tip, this.flaky, this.down := tip, flaky, down;
    }

    predicate Healthy() { !flaky && down == {} }

    method GetBlockCount() returns (r: Option<nat>)
      ensures r.Some? ==> r.value == Height(tip)
      ensures !flaky ==> r.Some?
    {
      var fail: bool := *;
      return if fail && flaky then None else Some(Height(tip));
    }

    method GetBlockHash(h: nat) returns (r: Option<Block>)
      ensures r.Some? ==> h <= Height(tip) && r.value == At(tip, h)
      ensures !flaky && h !in down && h <= Height(tip) ==> r.Some?
      ensures h in down ==> r.None?
    {
      var fail: bool := *;
      return if (fail && flaky) || h in down || h > Height(tip) then None else Some(At(tip, h));
    }
  }

  class ChainView {
    var seen: Seen
    var own: set<Block>

    constructor ()
      ensures seen == map[] && own == {}
    {
      seen, own := map[], {};
    }

    /** Insert one block and forget everything more than a window below it. */
    method Record(height: nat, hash: Block, minedByUs: bool)
      modifies this
      ensures seen == Recent(old(seen)[height := hash], if height >= 100 then height - 100 else 0)
      ensures own == (if minedByUs then old(own) + {hash} else old(own)) - Dropped(old(seen)[height := hash], Floor(height))
    {
      seen := seen[height := hash];
      if minedByUs { own := own + {hash}; }
      var floor := Floor(height);
      ghost var all, mine, cut := seen, own, 0;
      while seen != map[]
        invariant cut <= floor && seen == Recent(all, cut) && own == mine - Dropped(all, cut)
        decreases floor - cut
      {
        var h := Least(seen.Keys);
        if h >= floor { break; }
        CutStep(all, cut);
        assert cut <= h && seen[h] == all[h];
        own, seen := own - {seen[h]}, seen - {h};
        cut := h + 1;
      }
      CutEnd(all, cut, floor);
    }

    /** Highest recorded height at or below `below` that still matches the node. */
    method FindFork(node: NodeClient, below: nat) returns (fork: nat)
      ensures || (fork in seen && fork <= below && fork <= Height(node.tip) && seen[fork] == At(node.tip, fork))
              || fork == if seen == map[] then 0 else Least(seen.Keys) - Min(1, Least(seen.Keys))
      ensures node.Healthy() && below <= Height(node.tip) ==>
                forall h | h in seen && h <= below && seen[h] == At(node.tip, h) ::
                  h <= fork && fork in seen && seen[fork] == At(node.tip, fork)
    {
      var todo := set h | h in seen && h <= below;
      while todo != {}
        invariant forall h | h in todo :: h in seen && h <= below
        invariant node.Healthy() && below <= Height(node.tip) ==>
                    forall h | h in seen && h <= below && h !in todo :: seen[h] != At(node.tip, h)
        decreases |todo|
      {
        var h := Greatest(todo);
        var hash := node.GetBlockHash(h);
        if hash == Some(seen[h]) { return h; }
        todo := todo - {h};
      }
      if seen == map[] { return 0; }
      var least := Least(seen.Keys);
      return least - Min(1, least);
    }

    /** Reconcile the view with the node. `stop` is the first height that was not walked; zero
        if the node did not answer at all, and the whole walk is done when it is `tip + 1`.
        Heights in `external` were reported as mined by someone else. A healthy node's
        rewritten history is reported exactly if the entry at min(last, tip) is recorded, which
        it is in a view without gaps. The view then holds what was kept below the fork and
        walked above it, over the last window, and `own` forgot what it no longer holds. */
    method Sync(node: NodeClient, last: nat, ghost chain: Block)
      returns (tip: nat, reorg: Option<Reorg>, external: set<nat>, stop: nat)
      requires OwnHeights(seen)
      modifies this
      ensures OwnHeights(seen)
      ensures stop == 0 ==> tip == last && seen == old(seen) && own == old(own) && reorg.None?
      ensures stop > 0 ==> tip == Height(node.tip) && stop <= tip + 1 && (node.Healthy() ==> stop == tip + 1)
      ensures !node.flaky ==> stop > 0
      ensures stop > 0 && Tracks(old(seen), last, chain) && (reorg.Some? || !Differs(old(seen), Min(last, tip), node.tip)) ==>
                AgreesWith(seen, stop, node.tip)
      ensures stop > 0 && Follows(old(seen), last, chain) ==> NoGaps(seen, stop) && AgreesWith(seen, stop, node.tip)
      ensures node.Healthy() && Tracks(old(seen), last, chain) ==>
                (reorg.Some? <==> Min(last, tip) in old(seen) && Differs(old(seen), Min(last, tip), node.tip))
      ensures node.Healthy() && Follows(old(seen), last, chain) ==> (reorg.Some? <==> Differs(old(seen), Min(last, tip), node.tip))
      ensures reorg.Some? ==> reorg.value.replacedUpTo == last && reorg.value.tip == tip
      ensures node.Healthy() && reorg.Some? && Follows(old(seen), last, chain) ==>
                ForkOf(reorg.value.fork, old(seen), Min(last, tip), chain, node.tip)
      ensures stop > 0 && reorg.None? && tip <= last ==> seen == old(seen)
      ensures stop == tip + 1 && (reorg.Some? || last < tip) ==> tip in seen
      ensures stop > 0 ==>
                if reorg.Some? then Flagged(external, reorg.value.fork + 1, stop, node.tip, old(own) - Above(old(seen), reorg.value.fork))
                else Flagged(external, last + 1, stop, node.tip, old(own))
      ensures stop > 0 ==>
                if reorg.Some? then
                  WalkedTo(seen, own, UpTo(old(seen), reorg.value.fork), old(own) - Above(old(seen), reorg.value.fork),
                           reorg.value.fork + 1, stop, node.tip)
                else WalkedTo(seen, own, old(seen), old(own), last + 1, stop, node.tip)
      ensures (&& !node.flaky && last !in node.down && last + 1 in node.down && last < Height(node.tip)
               && !Differs(old(seen), last, node.tip)) ==> stop == last + 1 && seen == old(seen) && reorg.None?
    {
      var count := node.GetBlockCount();
      if count.None? { return last, None, {}, 0; }
      tip := count.value;
      var base := Min(last, tip);
      var reorged := Compare(node, base);
      Compared(node, last, chain, reorged);
      reorg := None;
      var start := last + 1;
      if reorged {
        var fork := ForgetReplaced(node, base, last, chain);
        reorg := Some(Reorg(fork, last, tip));
        start := fork + 1;
      }
      external, stop := WalkUp(node, start, tip);
    }

    /** Whether the entry at `base` is recorded and not confirmed by the node. */
    method Compare(node: NodeClient, base: nat) returns (reorged: bool)
      requires base <= Height(node.tip)
      ensures Detects(seen, base, node.tip) ==> reorged
      ensures base in seen && base in node.down ==> reorged
      ensures reorged ==> base in seen && (Detects(seen, base, node.tip) || node.flaky || base in node.down)
    {
      if base !in seen { return false; }
      var hash := node.GetBlockHash(base);
      return hash != Some(seen[base]);
    }

    lemma Compared(node: NodeClient, last: nat, chain: Block, reorged: bool)
      requires Detects(seen, Min(last, Height(node.tip)), node.tip) ==> reorged
      requires node.Healthy() && reorged ==> Detects(seen, Min(last, Height(node.tip)), node.tip)
      ensures Tracks(seen, last, chain) && !reorged && !Differs(seen, Min(last, Height(node.tip)), node.tip) ==>
                AgreesWith(seen, Min(last, Height(node.tip)) + 1, node.tip)
      ensures Follows(seen, last, chain) && !reorged ==> AgreesWith(seen, Min(last, Height(node.tip)) + 1, node.tip)
      ensures node.Healthy() && Tracks(seen, last, chain) ==>
                (reorged <==> Min(last, Height(node.tip)) in seen && Differs(seen, Min(last, Height(node.tip)), node.tip))
      ensures node.Healthy() && Follows(seen, last, chain) ==>
                (reorged <==> Differs(seen, Min(last, Height(node.tip)), node.tip))
    {
      if Tracks(seen, last, chain) {
        DetectionIsExact(seen, last, chain, node.tip);
        if !reorged { UndetectedAgrees(seen, last, chain, node.tip); }
      }
    }

    /** The entry at `base` no longer matches: find the fork and forget everything above it. */
    method ForgetReplaced(node: NodeClient, base: nat, ghost last: nat, ghost chain: Block) returns (fork: nat)
      requires OwnHeights(seen) && base in seen && base == Min(last, Height(node.tip))
      requires node.Healthy() ==> Detects(seen, base, node.tip)
      modifies this
      ensures seen == UpTo(old(seen), fork) && own == old(own) - Above(old(seen), fork) && fork <= base
      ensures OwnHeights(seen)
      ensures Tracks(old(seen), last, chain) ==> AgreesWith(seen, fork + 1, node.tip)
      ensures Follows(old(seen), last, chain) ==> NoGaps(seen, fork + 1)
      ensures node.Healthy() && Follows(old(seen), last, chain) ==> ForkOf(fork, old(seen), base, chain, node.tip)
    {
      fork := FindFork(node, base);
      if Tracks(seen, last, chain) { BelowForkAgrees(seen, last, chain, node.tip, fork); }
      if node.Healthy() && Follows(seen, last, chain) { ForkIsTrue(seen, last, chain, node.tip, fork); }
      own := own - Above(seen, fork);
      seen := UpTo(seen, fork);
    }

    /** Record the node's blocks from `start` to `tip`, flagging those that are not ours. */
    method WalkUp(node: NodeClient, start: nat, tip: nat) returns (external: set<nat>, stop: nat)
      requires tip == Height(node.tip) && OwnHeights(seen)
      modifies this
      ensures Min(start, tip + 1) <= stop <= tip + 1 && (node.Healthy() ==> stop == tip + 1)
      ensures OwnHeights(seen) && (NoGaps(old(seen), start) ==> NoGaps(seen, stop))
      ensures AgreesWith(old(seen), Min(start, tip + 1), node.tip) ==> AgreesWith(seen, stop, node.tip)
      ensures Flagged(external, start, stop, node.tip, old(own))
      ensures WalkedTo(seen, own, old(seen), old(own), start, stop, node.tip)
      ensures start in node.down && start <= tip ==> stop == start
      ensures start < stop ==> stop - 1 in seen
    {
      external := {};
      if start > tip { return external, tip + 1; }
      stop := start;
      while stop <= tip
        invariant start <= stop <= tip + 1 && OwnHeights(seen)
        invariant AgreesWith(old(seen), start, node.tip) ==> AgreesWith(seen, stop, node.tip)
        invariant NoGaps(old(seen), start) ==> NoGaps(seen, stop)
        invariant Flagged(external, start, stop, node.tip, old(own))
        invariant forall h | stop <= h <= tip :: At(node.tip, h) in own <==> At(node.tip, h) in old(own)
        invariant WalkedTo(seen, own, old(seen), old(own), start, stop, node.tip)
        invariant start in node.down ==> stop == start
        invariant start < stop ==> stop - 1 in seen
        decreases tip + 1 - stop
      {
        ghost var known, mine := seen, own;
        FlaggedMore(external, start, stop, node.tip, old(own));
        var recorded := WalkOne(node, stop);
        if recorded.None? { return; }
        if !recorded.value { external := external + {stop}; }
        RecordKeeps(known, stop, node.tip);
        OwnAhead(known, mine, stop, node.tip);
        WalksOn(known, mine, old(seen), old(own), start, stop, node.tip, seen, own);
        stop := stop + 1;
      }
    }

    /** Record one block of the node; whether it is ours, or none if the node did not answer. */
    method WalkOne(node: NodeClient, h: nat) returns (r: Option<bool>)
      requires h <= Height(node.tip)
      modifies this
      ensures r.None? ==> seen == old(seen) && own == old(own) && !node.Healthy()
      ensures r.Some? ==>
                && h !in node.down && (r.value <==> At(node.tip, h) in old(own))
                && seen == Recent(old(seen)[h := At(node.tip, h)], Floor(h))
                && own == old(own) - Dropped(old(seen)[h := At(node.tip, h)], Floor(h))
    {
      var hash := node.GetBlockHash(h);
      if hash.None? { return None; }
      var minedByUs := hash.value in own;
      if minedByUs { assert own + {hash.value} == own; }
      Record(h, hash.value, minedByUs);
      return Some(minedByUs);
    }

    /** Seed an empty view with the last window of a node's chain. */
    method Seed(node: NodeClient, last: nat)
      requires seen == map[] && last == Height(node.tip) && node.Healthy()
      modifies this
      ensures Follows(seen, last, node.tip) && last in seen && forall h | h in seen :: h <= last
    {
      for h := Floor(last) to last + 1
        invariant AgreesWith(seen, h, node.tip) && NoGaps(seen, h) && OwnHeights(seen) && (h > Floor(last) ==> h - 1 in seen)
        invariant forall g | g in seen :: g < h
      {
        SeedOne(node, h);
      }
    }

    method SeedOne(node: NodeClient, h: nat)
      requires h <= Height(node.tip) && node.Healthy()
      requires AgreesWith(seen, h, node.tip) && NoGaps(seen, h) && OwnHeights(seen) && forall g | g in seen :: g < h
      modifies this
      ensures AgreesWith(seen, h + 1, node.tip) && NoGaps(seen, h + 1) && OwnHeights(seen) && h in seen
      ensures forall g | g in seen :: g <= h
    {
      var hash := node.GetBlockHash(h);
      RecordKeeps(seen, h, node.tip);
      Record(h, hash.value, false);
    }

    /** The controller records the block it mined on the synced tip. */
    method RecordMined(block: Block, last: nat)
      requires block.Mined? && OwnHeights(seen) && last == Height(block.parent)
      modifies this
      ensures OwnHeights(seen) && (Follows(old(seen), last, block.parent) ==> Follows(seen, last + 1, block))
      ensures last + 1 in seen && seen[last + 1] == block && block in own
    {
      if Follows(seen, last, block.parent) { assert AgreesWith(seen, last + 1, block); }
      RecordKeeps(seen, last + 1, block);
      Record(last + 1, block, true);
    }

    /** Any number of rounds, each against whatever chain the node has by then, with nodes that
        fail any call and blocks that are not mined: until a walk is interrupted, the view
        follows the chain it last saw. Healthy nodes interrupt none. */
    method Rounds(first: NodeClient, nodes: seq<NodeClient>, payee: Address)
      returns (last: nat, ghost chain: Block, ghost interrupted: bool)
      requires seen == map[] && first.Healthy()
      modifies this
      ensures !interrupted ==> Follows(seen, last, chain) && last == Height(chain) && seen != map[]
      ensures (forall n | n in nodes :: n.Healthy()) ==> !interrupted
    {
      last := Height(first.tip);
      chain := first.tip;
      interrupted := false;
      Seed(first, last);
      for i := 0 to |nodes|
        invariant OwnHeights(seen) && (!interrupted ==> Follows(seen, last, chain) && last == Height(chain) && seen != map[])
        invariant (forall n | n in nodes :: n.Healthy()) ==> !interrupted
      {
        var tip, reorg, external, stop := Sync(nodes[i], last, chain);
        if stop > 0 { chain := nodes[i].tip; }
        interrupted := interrupted || 0 < stop <= tip;
        last := tip;
        var generated: bool := *;
        if generated && stop > 0 {
          var mined := Mined(nodes[i].tip, payee, i);
          RecordMined(mined, tip);
          last, chain := tip + 1, mined;
        }
      }
    }

    /** An interrupted walk is not picked up: seed a view, let the chain grow while one hash is
        not answered and no block is mined, then rewrite the seeded tip. The next round, against
        a healthy node, reports nothing, and the view keeps the replaced block. */
    method InterruptedWalkHidesReorg(first: NodeClient, grown: NodeClient, rewritten: NodeClient) returns (reorg: Option<Reorg>)
      requires seen == map[] && first.Healthy() && rewritten.Healthy()
      requires Height(first.tip) < Height(grown.tip) && Contains(grown.tip, first.tip)
      requires !grown.flaky && grown.down == {Height(first.tip) + 1}
      requires Height(first.tip) < Height(rewritten.tip) <= Height(grown.tip) && !Contains(rewritten.tip, first.tip)
      modifies this
      ensures reorg.None?
      ensures Height(first.tip) in seen && seen[Height(first.tip)] != At(rewritten.tip, Height(first.tip))
    {
      var last := Height(first.tip);
      Seed(first, last);
      forall h | h in seen ensures seen[h] == At(grown.tip, h) {
        AtAt(grown.tip, last, h);
      }
      var reached, none, external, stop := Sync(grown, last, first.tip);
      assert Tracks(seen, reached, grown.tip);
      reached, reorg, external, stop := Sync(rewritten, reached, grown.tip);
    }
  }
}
