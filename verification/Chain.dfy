/** Block chains as values.

    A block is identified by its hash, and a hash determines every ancestor. Both facts are
    built into the representation: a block carries its parent, so block equality is hash
    equality and equal tips mean equal chains. All chains share one genesis block. */
module Chain {

  type Address = int

  datatype Block = Genesis | Mined(parent: Block, payee: Address, nonce: int)

  function Height(b: Block): nat {
    match b
    case Genesis => 0
    case Mined(p, _, _) => Height(p) + 1
  }

  /** The block at height `h` of the chain ending in `tip` (getblockhash). */
  function At(tip: Block, h: nat): Block
    requires h <= Height(tip)
  {
    if h == Height(tip) then tip else At(tip.parent, h)
  }

  /** `b` lies on the chain ending in `tip`. */
  predicate Contains(tip: Block, b: Block) {
    Height(b) <= Height(tip) && At(tip, Height(b)) == b
  }

  lemma AtHeight(tip: Block, h: nat)
    requires h <= Height(tip)
    ensures Height(At(tip, h)) == h && Contains(tip, At(tip, h))
  {
    if h < Height(tip) {
      AtHeight(tip.parent, h);
    }
  }

  lemma {:induction false} AtAt(tip: Block, h: nat, g: nat)
    requires g <= h <= Height(tip)
    ensures Height(At(tip, h)) == h && At(At(tip, h), g) == At(tip, g)
  {
    if h < Height(tip) {
      AtAt(tip.parent, h, g);
    }
  }

  lemma ContainsTransitive(a: Block, b: Block, c: Block)
    requires Contains(a, b) && Contains(b, c)
    ensures Contains(a, c)
  {
    AtAt(a, Height(b), Height(c));
  }

  /** Two blocks of one chain are comparable. */
  lemma Comparable(tip: Block, a: Block, b: Block)
    requires Contains(tip, a) && Contains(tip, b) && Height(a) <= Height(b)
    ensures Contains(b, a)
  {
    AtAt(tip, Height(b), Height(a));
  }
}
