/** What one node knows and how it picks its tip: Bitcoin Core's `invalidateblock`,
    `reconsiderblock` and chain selection, as crates/control-plane/src/rewind_job.rs uses them.

    A node keeps every block it ever received. Its tip is the highest known block with no
    invalid ancestor; among equals the one that arrived first. `known` lists the blocks in
    order of arrival, `marks` those the node was told to treat as invalid. */
module NodeViews {
  import opened Chain

  datatype View = View(known: seq<Block>, marks: set<Block>)

  predicate Marked(b: Block, marks: set<Block>) {
    b in marks || (b.Mined? && Marked(b.parent, marks))
  }

  function Best(known: seq<Block>, marks: set<Block>): Block {
    if known == [] then Genesis
    else
      var later := Best(known[1..], marks);
      if !Marked(known[0], marks) && Height(known[0]) >= Height(later) then known[0] else later
  }

  function Active(v: View): Block { Best(v.known, v.marks) }

  function Invalidate(v: View, b: Block): View { v.(marks := v.marks + {b}) }

  /** reconsiderblock clears the flag of the block, its ancestors and its descendants. */
  function Reconsider(v: View, b: Block): View {
    v.(marks := set m | m in v.marks && !Contains(m, b) && !Contains(b, m))
  }

  // ---------------------------------------------------------------- marks

  lemma {:induction false} MarkedExactly(tip: Block, marks: set<Block>)
    ensures Marked(tip, marks) <==> exists m :: m in marks && Contains(tip, m)
  {
    if tip.Mined? {
      MarkedExactly(tip.parent, marks);
      forall m | m in marks && Contains(tip.parent, m) ensures Contains(tip, m) {
      }
      if tip in marks { assert Contains(tip, tip); }
      forall m | m in marks && Contains(tip, m) ensures m == tip || Contains(tip.parent, m) {
      }
    } else {
      if tip in marks { assert Contains(tip, tip); }
    }
  }

  lemma MarkedBelow(tip: Block, b: Block, marks: set<Block>)
    requires Contains(tip, b) && Marked(b, marks)
    ensures Marked(tip, marks)
  {
    MarkedExactly(b, marks);
    var m :| m in marks && Contains(b, m);
    ContainsTransitive(tip, b, m);
    MarkedExactly(tip, marks);
  }

  lemma InvalidateMarks(v: View, b: Block, k: Block)
    ensures Marked(k, Invalidate(v, b).marks) <==> Marked(k, v.marks) || Contains(k, b)
  {
    MarkedExactly(k, v.marks);
    MarkedExactly(k, Invalidate(v, b).marks);
  }

  // ---------------------------------------------------------------- chain selection

  /** Order of arrival. */
  function First(known: seq<Block>, b: Block): nat {
    if known == [] || known[0] == b then 0 else 1 + First(known[1..], b)
  }

  /** The node prefers `d` to `e`. */
  predicate Outranks(known: seq<Block>, d: Block, e: Block) {
    Height(d) > Height(e) || (Height(d) == Height(e) && First(known, d) < First(known, e))
  }

  lemma {:induction false} FirstTells(known: seq<Block>, d: Block, e: Block)
    requires d in known && e in known && First(known, d) == First(known, e)
    ensures d == e
  {
    if known[0] != d && known[0] != e {
      FirstTells(known[1..], d, e);
    }
  }

  /** `t` is preferred to every other candidate. */
  ghost predicate Preferred(known: seq<Block>, marks: set<Block>, t: Block) {
    forall k | k in known && !Marked(k, marks) :: k == t || Outranks(known, t, k)
  }

  lemma {:induction false} BestIsPreferred(known: seq<Block>, marks: set<Block>)
    ensures var t := Best(known, marks);
            (t == Genesis || (t in known && !Marked(t, marks))) && Preferred(known, marks, t)
  {
    if known != [] {
      var rest := known[1..];
      BestIsPreferred(rest, marks);
      var later, t := Best(rest, marks), Best(known, marks);
      forall k | k in known && !Marked(k, marks) ensures k == t || Outranks(known, t, k) {
        if k != known[0] {
          assert k in rest;
          assert k == later || Outranks(rest, later, k);
        }
      }
    }
  }

  lemma PreferredIsBest(known: seq<Block>, marks: set<Block>, t: Block)
    requires t in known && !Marked(t, marks) && Preferred(known, marks, t)
    ensures Best(known, marks) == t
  {
    BestIsPreferred(known, marks);
  }

  /** The preferred candidate is the only one to be preferred. */
  lemma PreferredExactly(known: seq<Block>, marks: set<Block>, t: Block)
    requires t in known && !Marked(t, marks)
    ensures Best(known, marks) == t <==> Preferred(known, marks, t)
  {
    BestIsPreferred(known, marks);
    if Preferred(known, marks, t) { PreferredIsBest(known, marks, t); }
  }

  lemma ActiveIsKnown(v: View)
    requires Active(v).Mined?
    ensures Active(v) in v.known && !Marked(Active(v), v.marks)
  {
    BestIsPreferred(v.known, v.marks);
  }

  /** The tip lies on a block's chain exactly when every candidate off that chain is outranked
      by one on it. */
  lemma BestHolds(known: seq<Block>, marks: set<Block>, x: Block)
    requires x.Mined? && exists k :: k in known && !Marked(k, marks) && Contains(k, x)
    ensures Contains(Best(known, marks), x) <==>
              forall d | d in known && !Marked(d, marks) && !Contains(d, x) ::
                exists e :: e in known && !Marked(e, marks) && Contains(e, x) && Outranks(known, e, d)
  {
    BestIsPreferred(known, marks);
    var t := Best(known, marks);
    var w :| w in known && !Marked(w, marks) && Contains(w, x);
    assert t == w || Outranks(known, t, w);
    if Contains(t, x) {
      forall d | d in known && !Marked(d, marks) && !Contains(d, x)
        ensures exists e :: e in known && !Marked(e, marks) && Contains(e, x) && Outranks(known, e, d)
      {
        assert t in known && Outranks(known, t, d);
      }
    } else {
      assert t in known;
      forall e | e in known && !Marked(e, marks) && Contains(e, x) ensures !Outranks(known, e, t) {
        assert e == t || Outranks(known, t, e);
      }
    }
  }

  // ---------------------------------------------------------------- invalidating and reconsidering

  /** Invalidating a block of the active chain stops the node at its parent exactly when no
      other valid chain the node knows outranks the parent. */
  lemma StopsAtParentExactly(v: View, b: Block)
    requires b.Mined? && Contains(Active(v), b) && b.parent in v.known
    ensures Active(Invalidate(v, b)) == b.parent <==>
              forall k | k in v.known && !Marked(k, v.marks) && !Contains(k, b) ::
                k == b.parent || Outranks(v.known, b.parent, k)
  {
    var marks := Invalidate(v, b).marks;
    forall k ensures Marked(k, marks) <==> Marked(k, v.marks) || Contains(k, b) {
      InvalidateMarks(v, b, k);
    }
    ParentIsValid(v, b);
    PreferredExactly(v.known, marks, b.parent);
  }

  lemma ParentIsValid(v: View, b: Block)
    requires b.Mined? && Contains(Active(v), b)
    ensures !Marked(b.parent, v.marks) && !Marked(b, v.marks) && Contains(b, b.parent) && !Contains(b.parent, b)
  {
    ActiveIsKnown(v);
    assert Contains(b.parent, b.parent);
    if Marked(b, v.marks) { MarkedBelow(Active(v), b, v.marks); }
  }

  /** The highest known block on top of `b`, the first to arrive among equals. */
  function BestAbove(known: seq<Block>, b: Block): Block {
    if known == [] then b
    else
      var later := BestAbove(known[1..], b);
      if Contains(known[0], b) && Height(known[0]) >= Height(later) then known[0] else later
  }

  lemma {:induction false} BestAboveIsBest(known: seq<Block>, b: Block)
    ensures var t := BestAbove(known, b);
            && (t == b || t in known) && Contains(t, b)
            && forall k | k in known && Contains(k, b) :: k == t || Outranks(known, t, k)
  {
    if known == [] {
      assert Contains(b, b);
    } else {
      var rest := known[1..];
      BestAboveIsBest(rest, b);
      var later, t := BestAbove(rest, b), BestAbove(known, b);
      forall k | k in known && Contains(k, b) ensures k == t || Outranks(known, t, k) {
        if k != known[0] {
          assert k in rest;
          assert k == later || Outranks(rest, later, k);
        }
      }
    }
  }

  lemma ReconsiderTwice(v: View, b: Block)
    ensures Reconsider(Reconsider(v, b), b) == Reconsider(v, b)
  {
    assert Reconsider(Reconsider(v, b), b).marks == Reconsider(v, b).marks;
  }

  /** A mark set by an invalidation is gone after the reconsideration, like it had never been. */
  lemma ReconsiderUndoesInvalidate(v: View, b: Block)
    ensures Reconsider(Invalidate(v, b), b) == Reconsider(v, b)
  {
    assert Contains(b, b);
    assert Reconsider(Invalidate(v, b), b).marks == Reconsider(v, b).marks;
  }

  /** Reconsidering unmarks everything above the block, and nothing off an unmarked chain. */
  lemma ReconsiderMarks(v: View, b: Block, k: Block)
    ensures Contains(k, b) ==> !Marked(k, Reconsider(v, b).marks)
    ensures !Marked(b, v.marks) && !Contains(k, b) ==> (Marked(k, Reconsider(v, b).marks) <==> Marked(k, v.marks))
  {
    var marks := Reconsider(v, b).marks;
    MarkedExactly(k, v.marks);
    MarkedExactly(k, marks);
    MarkedExactly(b, v.marks);
    if Contains(k, b) && Marked(k, marks) {
      var m :| m in marks && Contains(k, m);
      if Height(m) <= Height(b) { Comparable(k, m, b); } else { Comparable(k, b, m); }
    }
    if !Marked(b, v.marks) && !Contains(k, b) && Marked(k, v.marks) {
      var m :| m in v.marks && Contains(k, m);
      if Contains(m, b) { ContainsTransitive(k, m, b); }
      assert m in marks;
    }
  }

  /** Reconsidering a block of the active chain brings up the highest known block above it,
      whichever branch that is on. */
  lemma RestoredTip(v: View, b: Block)
    requires b.Mined? && Contains(Active(v), b)
    ensures Active(Reconsider(v, b)) == BestAbove(v.known, b)
  {
    var marks, tip, t := Reconsider(v, b).marks, Active(v), BestAbove(v.known, b);
    ActiveIsKnown(v);
    BestAboveIsBest(v.known, b);
    BestIsPreferred(v.known, v.marks);
    ParentIsValid(v, b);
    assert t == tip || Outranks(v.known, t, tip);
    ReconsiderMarks(v, b, t);
    forall k | k in v.known && !Marked(k, marks) ensures k == t || Outranks(v.known, t, k) {
      ReconsiderMarks(v, b, k);
      if !Contains(k, b) { assert k == tip || Outranks(v.known, tip, k); }
    }
    PreferredIsBest(v.known, marks, t);
  }

  /** Undoing a rewind brings back a chain holding the original tip exactly when every known
      block above the boundary that is off that chain is outranked by one on it. */
  lemma OriginalComesBack(v: View, b: Block)
    requires b.Mined? && Contains(Active(v), b)
    ensures Contains(Active(Reconsider(Invalidate(v, b), b)), Active(v)) <==>
              forall d | d in v.known && Contains(d, b) && !Contains(d, Active(v)) ::
                exists e :: e in v.known && Contains(e, Active(v)) && Outranks(v.known, e, d)
  {
    var o, t := Active(v), BestAbove(v.known, b);
    ReconsiderUndoesInvalidate(v, b);
    RestoredTip(v, b);
    ActiveIsKnown(v);
    BestAboveIsBest(v.known, b);
    assert Contains(o, o);
    assert t == o || Outranks(v.known, t, o);
    if Contains(t, o) {
      assert t in v.known;
    } else {
      assert t in v.known;
      forall e | e in v.known && Contains(e, o) ensures !Outranks(v.known, e, t) {
        ContainsTransitive(e, o, b);
        assert e == t || Outranks(v.known, t, e);
      }
    }
  }

  /** It brings back the very tip exactly when nothing known above the boundary outranks it. */
  lemma RollbackIsExact(v: View, b: Block)
    requires b.Mined? && Contains(Active(v), b)
    ensures Active(Reconsider(Invalidate(v, b), b)) == Active(v) <==>
              forall d | d in v.known && Contains(d, b) :: !Outranks(v.known, d, Active(v))
  {
    var o, t := Active(v), BestAbove(v.known, b);
    ReconsiderUndoesInvalidate(v, b);
    RestoredTip(v, b);
    ActiveIsKnown(v);
    BestAboveIsBest(v.known, b);
    assert t == o || Outranks(v.known, t, o);
    if t == o {
      forall d | d in v.known && Contains(d, b) ensures !Outranks(v.known, d, o) {
        assert d == o || Outranks(v.known, o, d);
      }
    } else {
      assert t in v.known;
    }
  }

  /** An invalidation leaves the node on the parent's chain exactly when every other valid
      block off that chain is outranked by a valid one on it. */
  lemma NeverBelowParent(v: View, b: Block)
    requires b.Mined? && b.parent.Mined? && Contains(Active(v), b) && b.parent in v.known
    ensures var marks := Invalidate(v, b).marks;
            Contains(Active(Invalidate(v, b)), b.parent) <==>
              forall d | d in v.known && !Marked(d, marks) && !Contains(d, b.parent) ::
                exists e :: e in v.known && !Marked(e, marks) && Contains(e, b.parent) && Outranks(v.known, e, d)
  {
    ParentIsValid(v, b);
    InvalidateMarks(v, b, b.parent);
    assert Contains(b.parent, b.parent);
    BestHolds(v.known, Invalidate(v, b).marks, b.parent);
  }

  /** Nodes that know only one branch: the case in which a rewind always stops at the parent and
      a rollback always restores a descendant of the original tip. */
  lemma OneBranchIsEnough(v: View, b: Block, top: Block)
    requires b.Mined? && Contains(Active(v), b) && b.parent in v.known
    requires forall k | k in v.known :: Contains(top, k)
    ensures Active(Invalidate(v, b)) == b.parent
    ensures Contains(Active(Reconsider(Invalidate(v, b), b)), Active(v))
  {
    var o := Active(v);
    ActiveIsKnown(v);
    ContainsTransitive(top, o, b);
    ContainsTransitive(top, b, b.parent);
    forall k | k in v.known && !Contains(k, b) ensures k == b.parent || Outranks(v.known, b.parent, k) {
      if Height(k) >= Height(b) { Comparable(top, b, k); } else { Comparable(top, k, b.parent); }
    }
    StopsAtParentExactly(v, b);
    forall d | d in v.known && Contains(d, b) && !Contains(d, o)
      ensures exists e :: e in v.known && Contains(e, o) && Outranks(v.known, e, d)
    {
      if Height(d) >= Height(o) { Comparable(top, o, d); }
      assert Contains(o, o) && Outranks(v.known, o, d);
    }
    OriginalComesBack(v, b);
  }

  // ---------------------------------------------------------------- a rewind after a rewind

  /** The blocks of a chain, in order. */
  function Upto(tip: Block): seq<Block> {
    if tip.Mined? then Upto(tip.parent) + [tip] else [tip]
  }

  lemma {:induction false} UptoIsChain(tip: Block, k: Block)
    ensures k in Upto(tip) <==> Contains(tip, k)
  {
    if tip.Mined? {
      UptoIsChain(tip.parent, k);
    }
  }

  /** More blocks arrive. */
  function Learn(v: View, blocks: seq<Block>): View { v.(known := v.known + blocks) }

  lemma {:induction false} FirstStays(known: seq<Block>, more: seq<Block>, b: Block)
    requires b in known
    ensures First(known + more, b) == First(known, b)
  {
    if known[0] != b {
      assert (known + more)[1..] == known[1..] + more;
      FirstStays(known[1..], more, b);
    }
  }

  /** A block that arrives again does not move the tip. */
  lemma LearntBefore(v: View, b: Block)
    requires b in v.known
    ensures Active(Learn(v, [b])) == Active(v)
  {
    var more := Learn(v, [b]);
    BestIsPreferred(v.known, v.marks);
    BestIsPreferred(more.known, v.marks);
    assert forall k :: k in more.known <==> k in v.known;
    forall k | k in v.known ensures First(more.known, k) == First(v.known, k) {
      FirstStays(v.known, [b], k);
    }
  }

  /** A node that followed one branch, was rewound below `cut` on it, and then followed another. */
  function AfterRewindAndMining(first: Block, cut: Block, second: Block): View {
    Learn(Invalidate(View(Upto(first), {}), cut), Upto(second))
  }

  /** Rewind, mine a shorter replacement, rewind again to below the fork, and roll back: the
      node ends on the abandoned branch, off the tip the second rewind started from. */
  lemma AbandonedBranchReturns(first: Block, cut: Block, second: Block, b: Block)
    requires b.Mined? && Contains(first, b) && Contains(second, b)
    requires Contains(first, cut) && !Contains(second, cut)
    requires Height(cut) <= Height(second) < Height(first) && !Contains(first, second)
    ensures var v := AfterRewindAndMining(first, cut, second);
            && Active(v) == second && Active(Invalidate(v, b)) == b.parent
            && Active(Reconsider(Invalidate(v, b), b)) == first
  {
    var v := AfterRewindAndMining(first, cut, second);
    forall k ensures k in v.known <==> Contains(first, k) || Contains(second, k) {
      UptoIsChain(first, k);
      UptoIsChain(second, k);
    }
    assert Contains(second, second) && Contains(first, first);
    MarkedExactly(second, v.marks);
    forall k | k in v.known && !Marked(k, v.marks) ensures k == second || Outranks(v.known, second, k) {
      MarkedExactly(k, v.marks);
      if !Contains(second, k) && Height(k) >= Height(cut) { Comparable(first, cut, k); }
    }
    PreferredIsBest(v.known, v.marks, second);
    assert Contains(b, b.parent);
    ContainsTransitive(first, b, b.parent);
    forall k | k in v.known && !Contains(k, b) ensures k == b.parent || Outranks(v.known, b.parent, k) {
      var top := if Contains(first, k) then first else second;
      if Height(k) >= Height(b) {
        Comparable(top, b, k);
      } else {
        ContainsTransitive(top, b, b.parent);
        Comparable(top, k, b.parent);
      }
    }
    StopsAtParentExactly(v, b);
    ReconsiderUndoesInvalidate(v, b);
    RestoredTip(v, b);
    BestAboveIsBest(v.known, b);
  }

  /** `k` blocks on top of `b`. */
  function Grow(b: Block, k: nat, nonce: int): (tip: Block)
    ensures Height(tip) == Height(b) + k
  {
    if k == 0 then b else Mined(Grow(b, k - 1, nonce), 0, nonce)
  }

  lemma {:induction false} GrowHolds(b: Block, k: nat, j: nat, nonce: int)
    requires j <= k
    ensures Contains(Grow(b, k, nonce), Grow(b, j, nonce))
  {
    if j < k {
      GrowHolds(b, k - 1, j, nonce);
    }
  }

  lemma {:induction false} GrowDiffers(b: Block, k: nat, j: nat)
    requires 1 <= j <= k
    ensures !Contains(Grow(b, k, 1), Grow(b, j, 2)) && !Contains(Grow(b, k, 2), Grow(b, j, 1))
  {
    if j < k {
      GrowDiffers(b, k - 1, j);
    }
  }
}
