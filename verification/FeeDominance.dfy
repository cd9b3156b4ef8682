/** The arming check of a faucet transfer: with floored, ceiled and saturating 64-bit
    arithmetic, passing it still means exact dominance over every mempool competitor
    (crates/control-plane/src/faucet_job.rs, crates/control-plane/src/jobs.rs). */
module FeeDominance {
  import opened Words

  const PRIORITY_DELTA: nat := 10_000_000_000
  const DOMINANCE_FACTOR: nat := 100

  datatype Entry = Entry(modifiedFee: u64, vsize: u64)
  datatype Verification = Verification(
    baseFee: u64, modifiedFee: u64, feeDelta: int, vsize: u64, ancestorCount: u64,
    greatestCompetitor: u64, minimumRate: u64)

  function Max(a: u64, b: u64): u64 { if a >= b then a else b }
  function SaturatingMul(a: u64, b: u64): u64 { if a * b <= U64_MAX then a * b else U64_MAX }

  /** Rust's u64::div_ceil. */
  function DivCeil(value: u64, divisor: u64): (q: u64)
    requires divisor > 0
    ensures (q as int - 1) * divisor < value <= q * divisor
  {
    Division(value, divisor);
    if value % divisor == 0 then value / divisor else value / divisor + 1
  }

  /** What a rounded-up quotient needs: the remainder is less than the divisor, and a nonzero
      remainder leaves room for one more. */
  lemma Division(value: nat, divisor: nat)
    requires divisor > 0
    ensures value / divisor * divisor <= value < (value / divisor + 1) * divisor
    ensures (value / divisor) * divisor == value - value % divisor
    ensures (value / divisor - 1) * divisor == value / divisor * divisor - divisor
    ensures value / divisor <= value
    ensures value % divisor != 0 ==> value / divisor < value
  {
    var q := value / divisor;
    assert value == q * divisor + value % divisor;
    assert (q + 1) * divisor == q * divisor + divisor;
    ScaleUp(divisor, 1, q);
  }

  function RateOf(e: Entry): u64 { DivCeil(e.modifiedFee, Max(e.vsize, 1)) }

  /** The largest rounded-up competing rate, zero in an otherwise empty mempool. */
  function Greatest(others: seq<Entry>): u64 {
    if others == [] then 0 else Max(RateOf(others[0]), Greatest(others[1..]))
  }

  lemma {:induction false} GreatestCovers(others: seq<Entry>, i: nat)
    requires i < |others|
    ensures RateOf(others[i]) <= Greatest(others)
  {
    if i > 0 {
      GreatestCovers(others[1..], i - 1);
    }
  }

  /** What one miner reports about the transfer and the rest of its mempool. */
  function Verify(baseFee: u64, modifiedFee: u64, feeDelta: int, vsize: u64, ancestorCount: u64,
                  others: seq<Entry>, mempoolMinimum: u64): Verification {
    Verification(baseFee, modifiedFee, feeDelta, vsize, ancestorCount, Greatest(others), DivCeil(mempoolMinimum, 1000))
  }

  /** The decision for one miner. */
  predicate Armed(v: Verification, preparedVsize: u64, spamBound: u64) {
    && v.baseFee == 0 && v.modifiedFee == PRIORITY_DELTA && v.feeDelta == PRIORITY_DELTA
    && v.vsize == preparedVsize && v.ancestorCount == 1
    && PRIORITY_DELTA / Max(preparedVsize, 1)
       >= SaturatingMul(Max(Max(v.greatestCompetitor, v.minimumRate), spamBound), DOMINANCE_FACTOR)
  }

  lemma ScaleUp(a: nat, b: nat, c: nat)
    requires a >= b
    ensures a * c >= b * c
  {
  }

  /** A floored rate that reaches `factor` times a ceiled rate dominates the exact ratio. */
  lemma FlooredBeatsCeiled(delta: nat, vsize: nat, rate: nat, factor: nat, competitor: nat, fee: nat, otherVsize: nat)
    requires rate * vsize <= delta && rate >= competitor * factor && competitor * otherVsize >= fee
    ensures delta * otherVsize >= factor * fee * vsize
  {
    calc >= {
      delta * otherVsize;
      { ScaleUp(delta, rate * vsize, otherVsize); }
      rate * vsize * otherVsize;
      { ScaleUp(rate, competitor * factor, vsize * otherVsize); assert rate * vsize * otherVsize == rate * (vsize * otherVsize); }
      competitor * factor * (vsize * otherVsize);
      { assert competitor * factor * (vsize * otherVsize) == (competitor * otherVsize) * (factor * vsize); }
      (competitor * otherVsize) * (factor * vsize);
      { ScaleUp(competitor * otherVsize, fee, factor * vsize); }
      fee * (factor * vsize);
    }
    assert fee * (factor * vsize) == factor * fee * vsize;
  }

  lemma {:induction false} GreatestIsOne(others: seq<Entry>)
    ensures Greatest(others) == 0 || exists i :: 0 <= i < |others| && Greatest(others) == RateOf(others[i])
  {
    if others != [] && RateOf(others[0]) < Greatest(others[1..]) {
      GreatestIsOne(others[1..]);
      var i :| 0 <= i < |others[1..]| && Greatest(others[1..]) == RateOf(others[1..][i]);
      assert others[i + 1] == others[1..][i];
    }
  }

  /** The rate is at least the bound exactly if the bound times the size fits the delta. */
  lemma RateReaches(vsize: u64, bound: nat)
    ensures PRIORITY_DELTA / Max(vsize, 1) >= bound <==> bound * Max(vsize, 1) <= PRIORITY_DELTA
  {
    var d := Max(vsize, 1);
    var rate := PRIORITY_DELTA / d;
    Division(PRIORITY_DELTA, d);
    if rate >= bound { ScaleUp(rate, bound, d); } else { ScaleUp(bound, rate + 1, d); }
  }

  /** The fields a miner must report for the transaction itself. */
  predicate AsPrepared(v: Verification, preparedVsize: u64) {
    v.baseFee == 0 && v.modifiedFee == v.feeDelta == 10_000_000_000 && v.vsize == preparedVsize && v.ancestorCount == 1
  }

  /** A rate that the transaction outbids a hundredfold, size by size. */
  predicate Outbid(rate: nat, vsize: u64) { rate * 100 * Max(vsize, 1) <= 10_000_000_000 }

  lemma OutbidExactly(rate: u64, vsize: u64)
    ensures PRIORITY_DELTA / Max(vsize, 1) >= SaturatingMul(rate, DOMINANCE_FACTOR) <==> Outbid(rate, vsize)
  {
    RateFits(vsize);
    RateReaches(vsize, rate * DOMINANCE_FACTOR);
  }

  /** Exactly when a miner's report passes: the transaction is there as prepared, and every
      competitor's rounded-up rate, the node's minimum and the spam engine's bound are outbid. */
  lemma ArmedExactly(m: MinerView, vsize: u64, spamBound: u64)
    ensures Armed(Report(m), vsize, spamBound) <==>
              && AsPrepared(Report(m), vsize)
              && (forall i | 0 <= i < |m.others| :: Outbid(RateOf(m.others[i]), vsize))
              && Outbid(DivCeil(m.mempoolMinimum, 1000), vsize) && Outbid(spamBound, vsize)
  {
    var v := Report(m);
    var competitor := Max(Max(v.greatestCompetitor, v.minimumRate), spamBound);
    OutbidExactly(competitor, vsize);
    forall rate: nat | rate <= competitor && Outbid(competitor, vsize) ensures Outbid(rate, vsize) {
      ScaleUp(competitor * 100, rate * 100, Max(vsize, 1));
    }
    forall i | 0 <= i < |m.others| ensures RateOf(m.others[i]) <= competitor {
      GreatestCovers(m.others, i);
    }
    GreatestIsOne(m.others);
    assert Outbid(0, vsize);
  }

  /** Passing the check means exact integer dominance over a competitor, over the node's
      minimum rate (per 1000 vB) and over the spam engine's bound. */
  lemma ArmedDominates(v: Verification, vsize: u64, spamBound: u64, others: seq<Entry>, mempoolMinimum: u64, i: nat)
    requires v == Verify(v.baseFee, v.modifiedFee, v.feeDelta, v.vsize, v.ancestorCount, others, mempoolMinimum)
    requires Armed(v, vsize, spamBound)
    ensures i < |others| && others[i].vsize > 0 ==>
              PRIORITY_DELTA * others[i].vsize >= DOMINANCE_FACTOR * others[i].modifiedFee * vsize
    ensures PRIORITY_DELTA * 1000 >= DOMINANCE_FACTOR * mempoolMinimum * vsize
    ensures PRIORITY_DELTA >= DOMINANCE_FACTOR * spamBound * vsize
  {
    var rate := PRIORITY_DELTA / Max(vsize, 1);
    var competitor := Max(Max(v.greatestCompetitor, v.minimumRate), spamBound);
    RateFits(vsize);
    assert rate >= competitor * DOMINANCE_FACTOR;
    if i < |others| && others[i].vsize > 0 {
      GreatestCovers(others, i);
      ScaleUp(competitor, RateOf(others[i]), others[i].vsize);
      FlooredBeatsCeiled(PRIORITY_DELTA, vsize, rate, DOMINANCE_FACTOR, competitor, others[i].modifiedFee, others[i].vsize);
    }
    FlooredBeatsCeiled(PRIORITY_DELTA, vsize, rate, DOMINANCE_FACTOR, competitor, mempoolMinimum, 1000);
    FlooredBeatsCeiled(PRIORITY_DELTA, vsize, rate, DOMINANCE_FACTOR, competitor, spamBound, 1);
  }

  /** One miner's mempool as the check reads it. */
  datatype MinerView = MinerView(
    baseFee: u64, modifiedFee: u64, feeDelta: int, vsize: u64, ancestorCount: u64, others: seq<Entry>, mempoolMinimum: u64)

  function Report(m: MinerView): Verification {
    Verify(m.baseFee, m.modifiedFee, m.feeDelta, m.vsize, m.ancestorCount, m.others, m.mempoolMinimum)
  }

  /** The transfer dominates every entry of the miner's mempool that has a size. */
  predicate Dominates(m: MinerView, vsize: u64) {
    forall i | 0 <= i < |m.others| && m.others[i].vsize > 0 ::
      PRIORITY_DELTA * m.others[i].vsize >= DOMINANCE_FACTOR * m.others[i].modifiedFee * vsize
  }

  /** The check over the miners, one after the other, giving up at the first that fails. */
  method VerifyPriority(miners: seq<MinerView>, vsize: u64, spamBound: u64) returns (armed: bool)
    ensures armed <==> forall k | 0 <= k < |miners| :: Armed(Report(miners[k]), vsize, spamBound)
    ensures armed ==> forall k, i | 0 <= k < |miners| && 0 <= i < |miners[k].others| && miners[k].others[i].vsize > 0 ::
              PRIORITY_DELTA * miners[k].others[i].vsize >= DOMINANCE_FACTOR * miners[k].others[i].modifiedFee * vsize
  {
    for k := 0 to |miners|
      invariant forall h | 0 <= h < k :: Armed(Report(miners[h]), vsize, spamBound) && Dominates(miners[h], vsize)
    {
      var m := miners[k];
      if !Armed(Report(m), vsize, spamBound) { return false; }
      forall i | 0 <= i < |m.others| && m.others[i].vsize > 0
        ensures PRIORITY_DELTA * m.others[i].vsize >= DOMINANCE_FACTOR * m.others[i].modifiedFee * vsize
      {
        ArmedDominates(Report(m), vsize, spamBound, m.others, m.mempoolMinimum, i);
      }
    }
    return true;
  }

  lemma RateFits(vsize: u64)
    ensures (PRIORITY_DELTA / Max(vsize, 1)) * vsize <= PRIORITY_DELTA
    ensures PRIORITY_DELTA / Max(vsize, 1) <= PRIORITY_DELTA < U64_MAX
  {
    var d := Max(vsize, 1);
    assert (PRIORITY_DELTA / d) * d + PRIORITY_DELTA % d == PRIORITY_DELTA;
    ScaleUp(d, 1, PRIORITY_DELTA / d);
  }

  // ---------------------------------------------------------------- the signed transaction

  datatype OutPoint = OutPoint(txid: nat, vout: nat)
  datatype Funding = Funding(outpoint: OutPoint, amount: u64)
  datatype TxOut = TxOut(script: int, amount: u64)
  datatype Transaction = Transaction(version: int, lockTime: nat, inputs: seq<(OutPoint, nat)>, outputs: seq<TxOut>)

  const SEQUENCE_MAX: nat := 0xFFFF_FFFF

  function OutputTotal(outputs: seq<TxOut>): nat {
    if outputs == [] then 0 else outputs[0].amount + OutputTotal(outputs[1..])
  }

  function InputTotal(inputs: seq<Funding>): nat {
    if inputs == [] then 0 else inputs[0].amount + InputTotal(inputs[1..])
  }

  /** The checks made on the signed transaction. Inputs are compared as sets. */
  predicate Accepted(tx: Transaction, inputs: seq<Funding>, outputs: seq<TxOut>, change: TxOut, inputSats: nat) {
    && tx.version == 2 && tx.lockTime == 0
    && (forall i | i in tx.inputs :: i.1 == SEQUENCE_MAX)
    && (set i | i in tx.inputs :: i.0) == (set f | f in inputs :: f.outpoint)
    && tx.outputs == outputs + [change]
    && OutputTotal(tx.outputs) <= U64_MAX
    && OutputTotal(tx.outputs) == inputSats
  }

  /** Value the transaction really spends, given what each outpoint is worth. */
  function Spent(tx: Transaction, worth: map<OutPoint, u64>): nat
    requires forall i | i in tx.inputs :: i.0 in worth
  {
    SpentBy(tx.inputs, worth)
  }

  function SpentBy(inputs: seq<(OutPoint, nat)>, worth: map<OutPoint, u64>): nat
    requires forall i | i in inputs :: i.0 in worth
  {
    if inputs == [] then 0 else worth[inputs[0].0] + SpentBy(inputs[1..], worth)
  }

  predicate DistinctSpends(inputs: seq<(OutPoint, nat)>) {
    inputs != [] ==> (forall i | i in inputs[1..] :: i.0 != inputs[0].0) && DistinctSpends(inputs[1..])
  }

  /** The value of listed inputs whose outpoint is listed again. */
  function Repeated(inputs: seq<Funding>): nat {
    if inputs == [] then 0
    else (if exists f :: f in inputs[1..] && f.outpoint == inputs[0].outpoint then inputs[0].amount else 0) + Repeated(inputs[1..])
  }

  lemma {:induction false} SpentByRemoves(inputs: seq<(OutPoint, nat)>, worth: map<OutPoint, u64>, k: nat)
    requires k < |inputs| && DistinctSpends(inputs) && forall i | i in inputs :: i.0 in worth
    ensures var rest := inputs[..k] + inputs[k + 1..];
            && (forall i | i in rest :: i in inputs && i.0 != inputs[k].0)
            && DistinctSpends(rest) && SpentBy(inputs, worth) == worth[inputs[k].0] + SpentBy(rest, worth)
            && (forall i | i in inputs :: i == inputs[k] || i in rest)
  {
    var rest := inputs[..k] + inputs[k + 1..];
    if k == 0 {
      assert rest == inputs[1..];
    } else {
      SpentByRemoves(inputs[1..], worth, k - 1);
      var tail := inputs[1..][..k - 1] + inputs[1..][k..];
      assert rest == [inputs[0]] + tail;
      assert rest[1..] == tail;
    }
  }

  /** Equal outpoint sets: a transaction, which spends each outpoint once, spends what the list is
      worth less what the list repeats. */
  lemma {:induction false} SameSetSameValue(inputs: seq<(OutPoint, nat)>, funding: seq<Funding>, worth: map<OutPoint, u64>)
    requires DistinctSpends(inputs)
    requires forall f | f in funding :: f.outpoint in worth && worth[f.outpoint] == f.amount
    requires (set i | i in inputs :: i.0) == (set f | f in funding :: f.outpoint)
    ensures forall i | i in inputs :: i.0 in worth
    ensures SpentBy(inputs, worth) + Repeated(funding) == InputTotal(funding)
  {
    var points, funded := set i | i in inputs :: i.0, set f | f in funding :: f.outpoint;
    forall i | i in inputs ensures i.0 in worth {
      assert i.0 in points;
    }
    assert inputs != [] ==> inputs[0].0 in points;
    if funding != [] {
      var tail := set f | f in funding[1..] :: f.outpoint;
      assert funding[0].outpoint in funded;
      if exists f :: f in funding[1..] && f.outpoint == funding[0].outpoint {
        assert tail == funded;
        SameSetSameValue(inputs, funding[1..], worth);
      } else {
        var k :| 0 <= k < |inputs| && inputs[k].0 == funding[0].outpoint;
        SpentByRemoves(inputs, worth, k);
        var rest := inputs[..k] + inputs[k + 1..];
        assert (set i | i in rest :: i.0) == points - {funding[0].outpoint};
        assert tail == funded - {funding[0].outpoint};
        SameSetSameValue(rest, funding[1..], worth);
      }
    }
  }

  lemma {:induction false} RepeatedExactly(inputs: seq<Funding>)
    ensures Repeated(inputs) == 0 <==>
              forall i, j | 0 <= i < j < |inputs| :: inputs[i].outpoint == inputs[j].outpoint ==> inputs[i].amount == 0
  {
    if inputs != [] {
      var rest := inputs[1..];
      RepeatedExactly(rest);
      assert forall i | 0 <= i < |rest| :: rest[i] == inputs[i + 1];
      if forall i, j | 0 <= i < j < |inputs| :: inputs[i].outpoint == inputs[j].outpoint ==> inputs[i].amount == 0 {
        forall i, j | 0 <= i < j < |rest| ensures rest[i].outpoint == rest[j].outpoint ==> rest[i].amount == 0 {
          assert inputs[i + 1] == rest[i] && inputs[j + 1] == rest[j];
        }
      }
    }
  }

  /** An accepted transaction pays the recipients in order, then the change, and neither waits for a
      height nor may be replaced (BIP 125). It pays what it spends, so its fee is exactly zero, if and only if no
      listed input with a value is listed twice. */
  lemma AcceptedPaysNoFee(tx: Transaction, inputs: seq<Funding>, outputs: seq<TxOut>, change: TxOut, worth: map<OutPoint, u64>)
    requires Accepted(tx, inputs, outputs, change, InputTotal(inputs)) && DistinctSpends(tx.inputs)
    requires forall f | f in inputs :: f.outpoint in worth && worth[f.outpoint] == f.amount
    ensures forall i | i in tx.inputs :: i.0 in worth
    ensures OutputTotal(tx.outputs) == OutputTotal(outputs) + change.amount
    ensures OutputTotal(tx.outputs) == Spent(tx, worth) + Repeated(inputs)
    ensures tx.outputs[..|outputs|] == outputs && tx.outputs[|outputs|..] == [change]
    ensures tx.lockTime == 0 && forall i | i in tx.inputs :: i.1 >= 0xFFFF_FFFE
  {
    SameSetSameValue(tx.inputs, inputs, worth);
    OutputTotalOfChange(outputs, change);
  }

  lemma {:induction false} OutputTotalOfChange(outputs: seq<TxOut>, change: TxOut)
    ensures OutputTotal(outputs + [change]) == OutputTotal(outputs) + change.amount
  {
    if outputs != [] {
      assert (outputs + [change])[1..] == outputs[1..] + [change];
      OutputTotalOfChange(outputs[1..], change);
    }
  }
}
