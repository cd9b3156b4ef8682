/** Deterministic faucet funding (crates/control-plane/src/faucet_job.rs and the source choice
    of crates/control-plane/src/jobs.rs). Amounts are 64-bit; every checked, saturating or
    plain operation of the program is written out. */
module CoinSelection {
  import opened Options
  import opened Words
  import Sorting

  const MINIMUM_CHANGE: nat := 546

  /** A transaction id is 64 lower-case hexadecimal digits, whose textual order is the order
      of the numbers they denote. */
  type TxId = nat

  datatype Input = Input(txid: TxId, vout: nat, amount: u64, confirmations: nat)
  datatype Error = TotalOverflow | AmountOverflow | Insufficient | BreaksReserve
  datatype Result<T> = Ok(value: T) | Err(error: Error)

  function CheckedAdd(a: u64, b: u64): Option<u64> { if a + b <= U64_MAX then Some(a + b) else None }
  function SaturatingAdd(a: u64, b: u64): u64 { if a + b <= U64_MAX then a + b else U64_MAX }
  function SaturatingSub(a: u64, b: u64): u64 { if a >= b then a - b else 0 }

  // ---------------------------------------------------------------- the candidate order

  /** Larger amounts first, then more confirmations, then the outpoint. */
  predicate Before(a: Input, b: Input) {
    if a.amount != b.amount then a.amount > b.amount
    else if a.confirmations != b.confirmations then a.confirmations > b.confirmations
    else if a.txid != b.txid then a.txid < b.txid
    else a.vout < b.vout
  }

  predicate AtMost(a: Input, b: Input) { a == b || Before(a, b) }

  lemma OrderIsTotal(a: Input, b: Input)
    ensures AtMost(a, b) || AtMost(b, a)
    ensures AtMost(a, b) && AtMost(b, a) ==> a == b
  {
  }

  lemma OrderIsTransitive(a: Input, b: Input, c: Input)
    requires AtMost(a, b) && AtMost(b, c)
    ensures AtMost(a, c)
  {
  }

  predicate Sorted(s: seq<Input>) { Sorting.Sorted(AtMost, s) }

  /** What sorting by the candidate order yields. */
  function InOrder(s: seq<Input>): seq<Input> { Sorting.Sort(AtMost, s) }

  lemma {:induction false} InsertKeepsTotal(x: Input, s: seq<Input>)
    ensures Total(Sorting.Insert(AtMost, x, s)) == x.amount + Total(s)
  {
    if s != [] && !AtMost(x, s[0]) {
      InsertKeepsTotal(x, s[1..]);
    }
  }

  lemma {:induction false} InOrderKeeps(s: seq<Input>)
    ensures multiset(InOrder(s)) == multiset(s)
    ensures |InOrder(s)| == |s| && Total(InOrder(s)) == Total(s)
  {
    Sorting.SortKeeps(AtMost, s);
    if s != [] {
      InOrderKeeps(s[1..]);
      InsertKeepsTotal(s[0], InOrder(s[1..]));
    }
  }

  lemma InOrderSorts(s: seq<Input>)
    ensures Sorted(InOrder(s))
  {
    forall a, b ensures AtMost(a, b) || AtMost(b, a) {
      OrderIsTotal(a, b);
    }
    forall a, b, c | AtMost(a, b) && AtMost(b, c) ensures AtMost(a, c) {
      OrderIsTransitive(a, b, c);
    }
    Sorting.SortSorts(AtMost, s);
  }

  lemma {:induction false} SortedPairs(s: seq<Input>, i: nat, j: nat)
    requires Sorted(s) && i < j < |s|
    ensures AtMost(s[i], s[j])
  {
    if i == 0 {
      assert s[j] == s[1..][j - 1];
    } else {
      SortedPairs(s[1..], i - 1, j - 1);
    }
  }

  /** The order, key by key: what comes first is worth more, else is confirmed more often, else has
      the smaller txid, else the smaller output index. */
  lemma OrderedByKeys(s: seq<Input>, i: nat, j: nat)
    requires i < j < |InOrder(s)|
    ensures var a, b := InOrder(s)[i], InOrder(s)[j];
            && a.amount >= b.amount
            && (a.amount == b.amount ==> a.confirmations >= b.confirmations)
            && (a.amount == b.amount && a.confirmations == b.confirmations ==> a.txid <= b.txid)
            && (a.amount == b.amount && a.confirmations == b.confirmations && a.txid == b.txid ==> a.vout <= b.vout)
  {
    InOrderSorts(s);
    SortedPairs(InOrder(s), i, j);
  }

  lemma TailOf(s: seq<Input>)
    requires s != []
    ensures multiset(s[1..]) == multiset(s) - multiset{s[0]}
  {
    assert s == [s[0]] + s[1..];
  }

  lemma SameHead(s: seq<Input>, t: seq<Input>)
    requires Sorted(s) && Sorted(t) && s != [] && t != [] && s[0] in t && t[0] in s
    ensures s[0] == t[0]
  {
    OrderIsTotal(s[0], t[0]);
  }

  /** Candidates in any order sort to the same sequence. */
  lemma {:induction false} SortedIsUnique(s: seq<Input>, t: seq<Input>)
    requires Sorted(s) && Sorted(t) && multiset(s) == multiset(t)
    ensures s == t
  {
    assert |multiset(s)| == |s| && |multiset(t)| == |t|;
    if s != [] {
      assert s[0] in multiset(t) && t[0] in multiset(s);
      SameHead(s, t);
      TailOf(s);
      TailOf(t);
      SortedIsUnique(s[1..], t[1..]);
      assert s == [s[0]] + s[1..] && t == [t[0]] + t[1..];
    }
  }

  predicate Descending(s: seq<Input>) {
    s != [] ==> (forall x | x in s[1..] :: x.amount <= s[0].amount) && Descending(s[1..])
  }

  lemma {:induction false} SortedDescends(s: seq<Input>)
    requires Sorted(s)
    ensures Descending(s)
  {
    if s != [] {
      SortedDescends(s[1..]);
    }
  }

  lemma InOrderDescends(s: seq<Input>)
    ensures Descending(InOrder(s))
  {
    InOrderSorts(s);
    SortedDescends(InOrder(s));
  }

  // ---------------------------------------------------------------- totals

  function Total(s: seq<Input>): nat {
    if s == [] then 0 else s[0].amount + Total(s[1..])
  }

  /** The program's overflow-checked left fold. */
  function CheckedTotal(s: seq<Input>, sofar: u64): Option<u64> {
    if s == [] then Some(sofar)
    else match CheckedAdd(sofar, s[0].amount)
      case None => None
      case Some(next) => CheckedTotal(s[1..], next)
  }

  /** The fold fails exactly when the mathematical total does not fit. */
  lemma {:induction false} CheckedTotalIsTotal(s: seq<Input>, sofar: u64)
    ensures CheckedTotal(s, sofar) == if sofar + Total(s) <= U64_MAX then Some(sofar + Total(s)) else None
  {
    if s != [] && sofar + s[0].amount <= U64_MAX {
      CheckedTotalIsTotal(s[1..], sofar + s[0].amount);
    }
  }

  /** Total of the first `k` inputs. */
  function PrefixTotal(s: seq<Input>, k: nat): nat
    requires k <= |s|
  {
    if k == 0 then 0 else PrefixTotal(s, k - 1) + s[k - 1].amount
  }

  lemma {:induction false} PrefixGrows(s: seq<Input>, j: nat, k: nat)
    requires j <= k <= |s|
    ensures PrefixTotal(s, j) <= PrefixTotal(s, k)
  {
    if j < k {
      PrefixGrows(s, j, k - 1);
    }
  }

  lemma {:induction false} PrefixOfTail(s: seq<Input>, k: nat)
    requires 0 < k <= |s|
    ensures PrefixTotal(s, k) == s[0].amount + PrefixTotal(s[1..], k - 1)
  {
    if k > 1 {
      PrefixOfTail(s, k - 1);
    }
  }

  lemma {:induction false} PrefixIsTotal(s: seq<Input>)
    ensures PrefixTotal(s, |s|) == Total(s)
  {
    if s != [] {
      PrefixOfTail(s, |s|);
      PrefixIsTotal(s[1..]);
    }
  }

  lemma {:induction false} PrefixOfTake(s: seq<Input>, n: nat, k: nat)
    requires k <= n <= |s|
    ensures PrefixTotal(s[..n], k) == PrefixTotal(s, k)
  {
    if k > 0 {
      PrefixOfTake(s, n, k - 1);
    }
  }

  lemma {:induction false} TotalWithout(s: seq<Input>, i: nat)
    requires i < |s|
    ensures Total(s) == s[i].amount + Total(s[..i] + s[i + 1..])
    ensures multiset(s[..i] + s[i + 1..]) == multiset(s) - multiset{s[i]}
  {
    assert s == s[..i] + [s[i]] + s[i + 1..];
    if i > 0 {
      TotalWithout(s[1..], i - 1);
      assert (s[..i] + s[i + 1..])[1..] == s[1..][..i - 1] + s[1..][i..];
      assert s[1..][i - 1] == s[i];
    } else {
      assert s[..0] + s[1..] == s[1..];
    }
  }

  lemma HeadIsLargest(sorted: seq<Input>, x: Input)
    requires Descending(sorted) && x in multiset(sorted)
    ensures sorted != [] && x.amount <= sorted[0].amount
  {
    assert x in sorted;
    assert sorted == [sorted[0]] + sorted[1..];
  }

  lemma Shrink(pick: multiset<Input>, all: multiset<Input>, head: Input, x: Input)
    requires pick <= all && x in pick && (x == head || head !in pick)
    ensures pick - multiset{x} <= all - multiset{head}
  {
  }

  /** Give up the largest candidate, or any pick when it was not picked. */
  lemma RemoveOne(sorted: seq<Input>, pick: seq<Input>) returns (rest: seq<Input>)
    requires Descending(sorted) && multiset(pick) <= multiset(sorted) && pick != []
    ensures sorted != [] && multiset(rest) <= multiset(sorted[1..]) && |rest| == |pick| - 1
    ensures Total(pick) <= sorted[0].amount + Total(rest)
  {
    assert pick[0] in multiset(sorted);
    HeadIsLargest(sorted, pick[0]);
    var i := Exchangeable(sorted[0], pick);
    var x := pick[i];
    HeadIsLargest(sorted, x);
    TotalWithout(pick, i);
    rest := pick[..i] + pick[i + 1..];
    TailOf(sorted);
    Shrink(multiset(pick), multiset(sorted), sorted[0], x);
  }

  /** Exchange argument: no choice of candidates beats the same number of largest ones. */
  lemma {:induction false} LargestDominate(sorted: seq<Input>, pick: seq<Input>)
    requires Descending(sorted) && multiset(pick) <= multiset(sorted)
    ensures |pick| <= |sorted| && Total(pick) <= PrefixTotal(sorted, |pick|)
  {
    if pick != [] {
      var rest := RemoveOne(sorted, pick);
      LargestDominate(sorted[1..], rest);
      PrefixOfTail(sorted, |pick|);
    }
  }

  lemma LeastPrefixIsMinimal(sorted: seq<Input>, pick: seq<Input>, need: nat, n: nat)
    requires Descending(sorted) && multiset(pick) <= multiset(sorted) && Total(pick) >= need
    requires LeastPrefix(sorted, need, n)
    ensures |pick| >= n
  {
    LargestDominate(sorted, pick);
    if |pick| < n { PrefixGrows(sorted, |pick|, n - 1); }
  }

  /** The largest candidate itself when it was picked, else any pick. */
  ghost function Exchangeable(head: Input, pick: seq<Input>): (i: nat)
    requires pick != []
    ensures i < |pick| && (pick[i] == head || head !in multiset(pick))
  {
    if head in multiset(pick) then assert head in pick; var i :| 0 <= i < |pick| && pick[i] == head; i else 0
  }

  // ---------------------------------------------------------------- selection

  /** `n` is the least number of leading inputs that reaches `need`. */
  predicate LeastPrefix(sorted: seq<Input>, need: nat, n: nat) {
    n <= |sorted| && PrefixTotal(sorted, n) >= need && (n > 0 ==> PrefixTotal(sorted, n - 1) < need)
  }

  /** Number of largest candidates needed to reach `need`. */
  function Needed(sorted: seq<Input>, need: nat, k: nat): (n: nat)
    requires k <= |sorted| && PrefixTotal(sorted, |sorted|) >= need
    requires k > 0 ==> PrefixTotal(sorted, k - 1) < need
    ensures LeastPrefix(sorted, need, n)
    decreases |sorted| - k
  {
    if PrefixTotal(sorted, k) >= need then k else Needed(sorted, need, k + 1)
  }

  lemma LeastPrefixIsUnique(sorted: seq<Input>, need: nat, m: nat, n: nat)
    requires LeastPrefix(sorted, need, m) && LeastPrefix(sorted, need, n)
    ensures m == n
  {
    if m < n { PrefixGrows(sorted, m, n - 1); }
    if n < m { PrefixGrows(sorted, n, m - 1); }
  }

  /** What `SelectInputs` returns, as a function of the request. */
  function Selection(candidates: seq<Input>, recipient: u64, reserve: u64): Result<seq<Input>> {
    if Total(candidates) > U64_MAX then Err(TotalOverflow)
    else if recipient + MINIMUM_CHANGE + reserve > U64_MAX then Err(AmountOverflow)
    else if Total(candidates) < recipient + MINIMUM_CHANGE + reserve then Err(Insufficient)
    else
      var sorted := InOrder(candidates);
      InOrderKeeps(candidates);
      PrefixIsTotal(sorted);
      var n := Needed(sorted, recipient + MINIMUM_CHANGE, 0);
      if Total(candidates) < PrefixTotal(sorted, n) + reserve then Err(BreaksReserve) else Ok(sorted[..n])
  }

  method SelectInputs(candidates: seq<Input>, recipient: u64, reserve: u64) returns (r: Result<seq<Input>>)
    ensures r == Selection(candidates, recipient, reserve)
  {
    CheckedTotalIsTotal(candidates, 0);
    var total := CheckedTotal(candidates, 0);
    if total.None? { return Err(TotalOverflow); }
    var withChange := CheckedAdd(recipient, MINIMUM_CHANGE);
    if withChange.None? { return Err(AmountOverflow); }
    var required := CheckedAdd(withChange.value, reserve);
    if required.None? { return Err(AmountOverflow); }
    if total.value < required.value { return Err(Insufficient); }

    var sorted := InOrder(candidates);
    InOrderKeeps(candidates);
    PrefixIsTotal(sorted);
    ghost var n := Needed(sorted, recipient + MINIMUM_CHANGE, 0);
    r := TakeUntil(sorted, total.value, recipient, reserve, n);
  }

  /** The selection loop over the sorted candidates. */
  method TakeUntil(sorted: seq<Input>, total: u64, recipient: u64, reserve: u64, ghost n: nat) returns (r: Result<seq<Input>>)
    requires PrefixTotal(sorted, |sorted|) == total >= recipient + MINIMUM_CHANGE + reserve
    requires LeastPrefix(sorted, recipient + MINIMUM_CHANGE, n)
    ensures r == if total < PrefixTotal(sorted, n) + reserve then Err(BreaksReserve) else Ok(sorted[..n])
  {
    var selected: seq<Input> := [];
    var selectedTotal: u64 := 0;
    for i := 0 to |sorted|
      invariant selected == sorted[..i] && selectedTotal == PrefixTotal(sorted, i)
      invariant i >= n ==> total < PrefixTotal(sorted, n) + reserve
    {
      PrefixGrows(sorted, i + 1, |sorted|);
      if i + 1 < n { PrefixGrows(sorted, i + 1, n - 1); }
      if n <= i { PrefixGrows(sorted, n, i + 1); }
      var sum := CheckedAdd(selectedTotal, sorted[i].amount);
      if sum.None? { return Err(TotalOverflow); }
      selectedTotal := sum.value;
      selected := selected + [sorted[i]];
      var target: u64 := recipient + MINIMUM_CHANGE;
      var left: u64 := total - selectedTotal;
      assert selected == sorted[..i + 1];
      if selectedTotal >= target && left >= reserve { return Ok(selected); }
    }
    return Err(BreaksReserve);
  }

  /** A selection is drawn from the candidates, pays recipient and change, and leaves at least
      the reserve behind. */
  lemma SelectionIsSound(candidates: seq<Input>, recipient: u64, reserve: u64)
    requires Selection(candidates, recipient, reserve).Ok?
    ensures var chosen := Selection(candidates, recipient, reserve).value;
            && multiset(chosen) <= multiset(candidates)
            && Total(chosen) >= recipient + 546
            && Total(candidates) >= Total(chosen) + reserve
  {
    var sorted := InOrder(candidates);
    InOrderKeeps(candidates);
    PrefixIsTotal(sorted);
    var n := Needed(sorted, recipient + MINIMUM_CHANGE, 0);
    assert sorted == sorted[..n] + sorted[n..];
    PrefixOfTake(sorted, n, n);
    PrefixIsTotal(sorted[..n]);
  }

  /** No choice of candidates that reaches the amount uses fewer inputs than the selection. */
  lemma SelectionIsMinimal(candidates: seq<Input>, recipient: u64, reserve: u64, pick: seq<Input>)
    requires Selection(candidates, recipient, reserve).Ok?
    requires multiset(pick) <= multiset(candidates) && Total(pick) >= recipient + 546
    ensures |pick| >= |Selection(candidates, recipient, reserve).value|
  {
    InOrderKeeps(candidates);
    InOrderDescends(candidates);
    PrefixIsTotal(InOrder(candidates));
    var n := Needed(InOrder(candidates), recipient + MINIMUM_CHANGE, 0);
    LeastPrefixIsMinimal(InOrder(candidates), pick, recipient + MINIMUM_CHANGE, n);
  }

  /** Once the total suffices, selection fails exactly when the least number of largest
      candidates that reaches the amount would break the reserve. */
  lemma FailsExactlyOnReserve(candidates: seq<Input>, recipient: u64, reserve: u64, n: nat)
    requires recipient + MINIMUM_CHANGE + reserve <= Total(candidates) <= U64_MAX
    requires LeastPrefix(InOrder(candidates), recipient + MINIMUM_CHANGE, n)
    ensures Selection(candidates, recipient, reserve).Err? <==> Total(candidates) < PrefixTotal(InOrder(candidates), n) + reserve
  {
    InOrderKeeps(candidates);
    PrefixIsTotal(InOrder(candidates));
    var m := Needed(InOrder(candidates), recipient + MINIMUM_CHANGE, 0);
    LeastPrefixIsUnique(InOrder(candidates), recipient + MINIMUM_CHANGE, n, m);
  }

  /** The outcome does not depend on the order in which the wallet listed its coins. */
  lemma SelectionIgnoresOrder(a: seq<Input>, b: seq<Input>, recipient: u64, reserve: u64)
    requires multiset(a) == multiset(b)
    ensures Selection(a, recipient, reserve) == Selection(b, recipient, reserve)
  {
    InOrderKeeps(a);
    InOrderKeeps(b);
    InOrderSorts(a);
    InOrderSorts(b);
    SortedIsUnique(InOrder(a), InOrder(b));
  }

  // ---------------------------------------------------------------- wallet choice

  datatype Source = Node2 | Node3
  datatype Requested = OnlyNode2 | OnlyNode3 | Auto

  predicate CanFund(total: u64, recipient: u64, reserve: u64) {
    total >= reserve && total - reserve >= SaturatingAdd(recipient, MINIMUM_CHANGE)
  }

  function ChooseSource(requested: Requested, total2: u64, total3: u64, recipient: u64, reserve: u64): Option<Source> {
    match requested
    case OnlyNode2 => if CanFund(total2, recipient, reserve) then Some(Node2) else None
    case OnlyNode3 => if CanFund(total3, recipient, reserve) then Some(Node3) else None
    case Auto =>
      if CanFund(total2, recipient, reserve) && SaturatingSub(total2, reserve) >= SaturatingSub(total3, reserve) then Some(Node2)
      else if CanFund(total3, recipient, reserve) then Some(Node3)
      else None
  }

  predicate Allows(requested: Requested, source: Source) {
    match requested case OnlyNode2 => source == Node2 case OnlyNode3 => source == Node3 case Auto => true
  }

  /** The choice finds a wallet exactly if one that the request allows can pay, and the automatic one
      takes the richer. */
  lemma ChoiceFindsAWallet(requested: Requested, total2: u64, total3: u64, recipient: u64, reserve: u64)
    ensures var choice := ChooseSource(requested, total2, total3, recipient, reserve);
            && (choice.None? <==>
                 && (Allows(requested, Node2) ==> !CanFund(total2, recipient, reserve))
                 && (Allows(requested, Node3) ==> !CanFund(total3, recipient, reserve)))
            && (choice == Some(Node2) ==> CanFund(total2, recipient, reserve) && Allows(requested, Node2))
            && (choice == Some(Node3) ==> CanFund(total3, recipient, reserve) && Allows(requested, Node3))
            && (requested == Auto && choice == Some(Node2) ==> total2 >= total3)
            && (requested == Auto && choice == Some(Node3) ==> total3 > total2 || !CanFund(total2, recipient, reserve))
  {
  }

  /** The wallet test and the selection's own total check agree unless the recipient amount
      lies within the change allowance of the 64-bit limit. */
  lemma WalletTestMatchesSelection(candidates: seq<Input>, recipient: u64, reserve: u64)
    requires Total(candidates) <= U64_MAX
    ensures (CanFund(Total(candidates), recipient, reserve) <==>
               Selection(candidates, recipient, reserve) !in {Err(AmountOverflow), Err(Insufficient)})
            <==> !(recipient > U64_MAX - MINIMUM_CHANGE && Total(candidates) == U64_MAX && reserve == 0)
  {
  }
}
