/** The ledger of faucet transfers: at most one pending, terminal ones without recovery material,
    and a bounded history (crates/control-plane/src/faucet_store.rs). */
module FaucetLedger {
  import opened Options
  import opened Pruning

  const MAX_TERMINAL_HISTORY: nat := 100

  type TxId = nat

  datatype Delivery =
    | Armed | Recovering
    | Confirmed | DeliveryFailed | AbortedAfterSubmission | OrphanedAfterConfirmation

  datatype Transfer = Transfer(txid: TxId, delivery: Delivery, rawTx: Option<string>, inputs: seq<nat>)

  predicate IsPending(t: Transfer) { t.delivery in {Armed, Recovering} }

  /** Terminal records carry nothing a resubmission would need. */
  predicate Cleared(t: Transfer) { IsPending(t) || (t.rawTx.None? && t.inputs == []) }

  function Pendings(s: seq<Transfer>): nat { |Only(IsPending, s)| }

  function Terminals(s: seq<Transfer>): nat { |s| - Pendings(s) }

  ghost predicate Distinct(s: seq<Transfer>) {
    forall i, j | 0 <= i < j < |s| :: s[i].txid != s[j].txid
  }

  /** What every operation keeps. */
  ghost predicate Tidy(s: seq<Transfer>) {
    Distinct(s) && Terminals(s) <= MAX_TERMINAL_HISTORY && forall i | 0 <= i < |s| :: Cleared(s[i])
  }

  ghost predicate Sound(s: seq<Transfer>) { Tidy(s) && Pendings(s) <= 1 }

  /** In a tidy ledger a finished record carries nothing a resubmission would need. */
  lemma TidyIsCleared(s: seq<Transfer>, r: Transfer)
    requires Tidy(s) && r in s && r.delivery !in {Armed, Recovering}
    ensures r.rawTx == None && r.inputs == []
  {
    var i :| 0 <= i < |s| && s[i] == r;
    assert Cleared(s[i]);
  }

  // ---------------------------------------------------------------- counting

  function PendingCount(t: Transfer): nat { if IsPending(t) then 1 else 0 }

  lemma UpdateCounts(s: seq<Transfer>, at: nat, t: Transfer)
    requires at < |s|
    ensures Pendings(s[at := t]) == Pendings(s) - PendingCount(s[at]) + PendingCount(t)
  {
    assert s == s[..at] + ([s[at]] + s[at + 1..]) && s[at := t] == s[..at] + ([t] + s[at + 1..]);
    OnlyConcat(IsPending, s[..at], [s[at]] + s[at + 1..]);
    OnlyConcat(IsPending, s[..at], [t] + s[at + 1..]);
  }

  lemma AppendCounts(s: seq<Transfer>, t: Transfer)
    ensures Pendings(s + [t]) == Pendings(s) + PendingCount(t)
  {
    OnlyConcat(IsPending, s, [t]);
  }

  lemma {:induction false} NoneIsPending(s: seq<Transfer>)
    ensures Pendings(s) == 0 <==> forall i | 0 <= i < |s| :: !IsPending(s[i])
  {
    if s != [] {
      NoneIsPending(s[1..]);
      assert forall i | 0 < i < |s| :: s[i] == s[1..][i - 1];
      assert forall i | 0 <= i < |s[1..]| :: s[1..][i] == s[i + 1];
    }
  }

  // ---------------------------------------------------------------- pruning

  function Surplus(s: seq<Transfer>): nat {
    if Terminals(s) > MAX_TERMINAL_HISTORY then Terminals(s) - MAX_TERMINAL_HISTORY else 0
  }

  function Trimmed(s: seq<Transfer>): seq<Transfer> { DropOldest(IsPending, s, Surplus(s)) }

  /** Pruning keeps every pending record and the newest hundred terminal ones, in order: there is
      a cut before which only pending records stay and after which everything does. */
  lemma TrimmedKeepsNewest(s: seq<Transfer>) returns (cut: nat)
    ensures cut <= |s| && Trimmed(s) == Only(IsPending, s[..cut]) + s[cut..]
    ensures Pendings(Trimmed(s)) == Pendings(s)
    ensures Terminals(Trimmed(s)) == Terminals(s) - Surplus(s) <= MAX_TERMINAL_HISTORY
  {
    cut := DropCutsOnce(IsPending, s, Surplus(s));
    assert s == s[..cut] + s[cut..];
    OnlyConcat(IsPending, s[..cut], s[cut..]);
    OnlyOfOnly(IsPending, s[..cut]);
    OnlyOfOnly(IsPending, s);
    OnlyConcat(IsPending, Only(IsPending, s[..cut]), s[cut..]);
    if cut == |s| { assert s[..cut] == s; }
  }

  lemma {:induction false} DropKeepsDistinct(s: seq<Transfer>, k: nat)
    requires Distinct(s)
    ensures Distinct(DropOldest(IsPending, s, k))
    decreases s
  {
    if k > 0 && s != [] {
      var rest := s[1..];
      assert forall i | 0 <= i < |rest| :: rest[i] == s[i + 1];
      var fewer := DropOldest(IsPending, rest, if IsPending(s[0]) then k else k - 1);
      DropKeepsDistinct(rest, if IsPending(s[0]) then k else k - 1);
      DropsOnly(IsPending, rest, if IsPending(s[0]) then k else k - 1);
      forall i | 0 <= i < |fewer| ensures fewer[i].txid != s[0].txid {
        assert fewer[i] in rest;
      }
    }
  }

  /** Pruning a ledger that is in order up to its length keeps its pending transfers and makes it
      tidy; so it makes it sound exactly if at most one is pending. */
  lemma TrimmedIsSound(s: seq<Transfer>)
    requires Distinct(s) && forall i | 0 <= i < |s| :: Cleared(s[i])
    ensures Tidy(Trimmed(s)) && (Sound(Trimmed(s)) <==> Pendings(s) <= 1)
  {
    var _ := TrimmedKeepsNewest(s);
    DropKeepsDistinct(s, Surplus(s));
    DropsOnly(IsPending, s, Surplus(s));
    forall i | 0 <= i < |Trimmed(s)| ensures Cleared(Trimmed(s)[i]) {
      assert Trimmed(s)[i] in s;
    }
  }

  /** In a sound ledger the pending record is unique. */
  lemma OnePending(s: seq<Transfer>, i: nat, j: nat)
    requires Pendings(s) <= 1 && i < |s| && j < |s| && IsPending(s[i]) && IsPending(s[j])
    ensures i == j
  {
    if i < j { TwoCount(s, i, j); } else if j < i { TwoCount(s, j, i); }
  }

  lemma TwoCount(s: seq<Transfer>, i: nat, j: nat)
    requires i < j < |s| && IsPending(s[i]) && IsPending(s[j])
    ensures Pendings(s) >= 2
  {
    assert s == s[..j] + s[j..] && s[..j] == s[..i] + s[i..j];
    OnlyConcat(IsPending, s[..j], s[j..]);
    OnlyConcat(IsPending, s[..i], s[i..j]);
    assert s[i..j][0] == s[i] && s[j..][0] == s[j];
  }

  // ---------------------------------------------------------------- the store

  /** Position of the record with this txid, or the length. */
  function Find(s: seq<Transfer>, txid: TxId): (at: nat)
    ensures at <= |s| && (at < |s| ==> s[at].txid == txid) && forall i | 0 <= i < at :: s[i].txid != txid
  {
    if s == [] then 0 else if s[0].txid == txid then 0 else
      var rest := Find(s[1..], txid);
      assert forall i | 0 < i <= rest :: s[i] == s[1..][i - 1];
      rest + 1
  }

  datatype Mark = Rearm | Recover | Confirm | Fail(state: Delivery) | Orphan

  function Marked(t: Transfer, m: Mark): Transfer {
    match m
    case Rearm => t.(delivery := Armed)
    case Recover => t.(delivery := Recovering)
    case Confirm => t.(delivery := Confirmed, rawTx := None, inputs := [])
    case Fail(state) => t.(delivery := state, rawTx := None, inputs := [])
    case Orphan => t.(delivery := OrphanedAfterConfirmation, rawTx := None, inputs := [])
  }

  /** What arming a transfer does to the ledger, before pruning; nothing when refused. */
  function Arming(s: seq<Transfer>, t: Transfer): Option<seq<Transfer>> {
    if !IsPending(t) then None
    else if Find(s, t.txid) < |s| then Some(s[Find(s, t.txid) := t])
    else if Pendings(s) > 0 then None
    else Some(s + [t])
  }

  /** Arming keeps one pending transfer exactly when it does not bring back a finished record
      while another transfer is pending: a new txid is always safe, and so is the pending
      record's own. */
  lemma ArmingKeepsOnePending(s: seq<Transfer>, t: Transfer)
    requires Tidy(s) && Pendings(s) <= 1 && Arming(s, t).Some?
    ensures var at := Find(s, t.txid);
            Pendings(Arming(s, t).value) <= 1 <==> at == |s| || IsPending(s[at]) || Pendings(s) == 0
    ensures Distinct(Arming(s, t).value)
  {
    var at := Find(s, t.txid);
    ArmingIsTidy(s, t);
    if at < |s| { UpdateCounts(s, at, t); } else { AppendCounts(s, t); }
  }

  lemma ArmingIsTidy(s: seq<Transfer>, t: Transfer)
    requires Tidy(s) && Arming(s, t).Some?
    ensures var armed := Arming(s, t).value; Distinct(armed) && forall i | 0 <= i < |armed| :: Cleared(armed[i])
  {
  }

  /** A mark keeps one pending transfer exactly when it does not bring back a finished record
      while another transfer is pending. */
  lemma MarkingKeepsOnePending(s: seq<Transfer>, at: nat, m: Mark)
    requires Sound(s) && at < |s|
    ensures Pendings(s[at := Marked(s[at], m)]) <= 1 <==>
              (IsPending(Marked(s[at], m)) ==> IsPending(s[at]) || Pendings(s) == 0)
    ensures Distinct(s[at := Marked(s[at], m)])
  {
    UpdateCounts(s, at, Marked(s[at], m));
  }

  lemma MarkingIsTidy(s: seq<Transfer>, at: nat, m: Mark)
    requires Tidy(s) && at < |s| && Allowed(m)
    ensures var marked := s[at := Marked(s[at], m)]; Distinct(marked) && forall i | 0 <= i < |marked| :: Cleared(marked[i])
  {
    assert Cleared(s[at]);
  }

  /** Bringing the record back as pending would leave two. */
  predicate Revives(s: seq<Transfer>, txid: TxId) {
    var at := Find(s, txid);
    at < |s| && !IsPending(s[at]) && Pendings(s) > 0
  }

  ghost predicate Known(s: seq<Transfer>, txid: TxId) { exists i | 0 <= i < |s| :: s[i].txid == txid }

  /** Arming takes a pending record that is known, or new while nothing is pending. */
  ghost predicate Taken(s: seq<Transfer>, t: Transfer) {
    IsPending(t) && (Known(s, t.txid) || forall i | 0 <= i < |s| :: !IsPending(s[i]))
  }

  /** A pending record at the end survives pruning there. */
  lemma LastStays(s: seq<Transfer>, t: Transfer)
    requires IsPending(t)
    ensures var kept := Trimmed(s + [t]); kept != [] && kept[|kept| - 1] == t
  {
    var all := s + [t];
    var cut := TrimmedKeepsNewest(all);
    if cut == |all| {
      assert all[..cut] == all;
      OnlyConcat(IsPending, s, [t]);
    }
  }

  /** What pruning leaves of an armed ledger. */
  lemma ArmedIsKept(s: seq<Transfer>, t: Transfer)
    requires Tidy(s) && Arming(s, t).Some?
    ensures var kept := Trimmed(Arming(s, t).value);
            && Tidy(kept) && t in kept && (forall r | r in kept && r != t :: r in s)
            && (Sound(s) ==> (Sound(kept) <==> !Revives(s, t.txid)))
            && (Find(s, t.txid) == |s| ==> kept[|kept| - 1] == t)
  {
    var at, armed := Find(s, t.txid), Arming(s, t).value;
    if Sound(s) { ArmingKeepsOnePending(s, t); }
    ArmingIsTidy(s, t);
    TrimmedIsSound(armed);
    DropsOnly(IsPending, armed, Surplus(armed));
    assert armed[if at < |s| then at else |s|] == t;
    if at == |s| { LastStays(s, t); }
  }

  /** The records with the delivery set aside. */
  ghost function Rearmed(s: seq<Transfer>): seq<Transfer> {
    seq(|s|, i requires 0 <= i < |s| => s[i].(delivery := Armed))
  }

  /** Apart from the marked record the ledger keeps what it keeps. */
  lemma MarkedAmong(s: seq<Transfer>, at: nat, m: Mark)
    requires at < |s| && Distinct(s)
    ensures forall r | r in Trimmed(s[at := Marked(s[at], m)]) :: r.txid == s[at].txid || r in s
    ensures forall r | r in Trimmed(s[at := Marked(s[at], m)]) && r.txid == s[at].txid :: r == Marked(s[at], m)
    ensures IsPending(Marked(s[at], m)) ==> Marked(s[at], m) in Trimmed(s[at := Marked(s[at], m)])
  {
    var marked := s[at := Marked(s[at], m)];
    DropsOnly(IsPending, marked, Surplus(marked));
    assert marked[at] in marked;
    forall r | r in Trimmed(marked) ensures r.txid == s[at].txid || r in s {
      assert r in marked;
    }
  }

  class FaucetStore {
    const calm: bool              // no save fails
    var transfers: seq<Transfer>
    var disk: seq<Transfer>

    ghost predicate Valid()
      reads this
    {
      Tidy(transfers) && Tidy(disk)
    }

    /** At most one transfer is pending. */
    ghost predicate SoundBoth()
      reads this
    {
      Sound(transfers) && Sound(disk)
    }

    /** Opening refuses a file with two pending transfers. */
    constructor Open(file: seq<Transfer>, calm: bool)
      requires Pendings(file) <= 1 ==> Sound(file)
      ensures Pendings(file) <= 1 ==> Valid() && SoundBoth() && transfers == disk == file
      ensures Pendings(file) > 1 ==> transfers == disk == []
      ensures this.calm == calm
    {
      this.calm := calm;
      if Pendings(file) <= 1 {
        transfers, disk := file, file;
      } else {
        transfers, disk := [], [];
      }
    }

    method Pending() returns (t: Option<Transfer>)
      requires Valid()
      ensures t.Some? <==> Pendings(transfers) > 0
      ensures t.Some? ==> t.value in transfers && t.value.delivery in {Armed, Recovering}
      ensures t.None? ==> forall r | r in transfers :: r.delivery !in {Armed, Recovering}
    {
      NoneIsPending(transfers);
      for i := 0 to |transfers|
        invariant forall k | 0 <= k < i :: !IsPending(transfers[k])
      {
        if IsPending(transfers[i]) { return Some(transfers[i]); }
      }
      return None;
    }

    /** Remove the oldest terminal record until at most a hundred are left. */
    method Trim()
      modifies this`transfers
      ensures transfers == Trimmed(old(transfers))
    {
      while Terminals(transfers) > MAX_TERMINAL_HISTORY
        invariant Trimmed(transfers) == Trimmed(old(transfers))
        decreases |transfers|
      {
        var index := 0;
        while index < |transfers| && IsPending(transfers[index])
          invariant index <= |transfers|
          invariant forall k | 0 <= k < index :: IsPending(transfers[k])
        {
          index := index + 1;
        }
        if index == |transfers| { AllKept(IsPending, transfers); }
        RemovesFirst(IsPending, transfers, index, Surplus(transfers));
        RemoveCounts(transfers, index);
        transfers := transfers[..index] + transfers[index + 1..];
      }
    }

    method Save() returns (ok: bool)
      modifies this`disk
      ensures disk == (if ok then transfers else old(disk)) && (calm ==> ok)
    {
      ok := *;
      ok := ok || calm;
      if ok { disk := transfers; }
    }

    /** Arm a transfer: a new txid only if nothing is pending, a known one in any case. A sound
        ledger stays sound exactly if that does not revive a finished record beside a pending
        one. */
    method Arm(t: Transfer) returns (ok: bool)
      requires Valid()
      modifies this
      ensures Valid()
      ensures transfers == if Arming(old(transfers), t).Some? then Trimmed(Arming(old(transfers), t).value) else old(transfers)
      ensures Sound(old(transfers)) ==> (Sound(transfers) <==> !(IsPending(t) && Revives(old(transfers), t.txid)))
      ensures ok ==> disk == transfers && t in transfers
      ensures disk == old(disk) || disk == transfers
      ensures Taken(old(transfers), t) ==> t in transfers && (calm ==> ok)
      ensures Taken(old(transfers), t) && !Known(old(transfers), t.txid) ==> transfers[|transfers| - 1] == t
      ensures !Taken(old(transfers), t) ==> !ok && transfers == old(transfers) && disk == old(disk)
      ensures forall r | r in transfers && r != t :: r in old(transfers)
    {
      NoneIsPending(transfers);
      if !IsPending(t) { return false; }
      var at := Find(transfers, t.txid);
      var current := Pending();
      if at == |transfers| && current.Some? { return false; }
      ArmedIsKept(transfers, t);
      transfers := if at < |transfers| then transfers[at := t] else transfers + [t];
      Trim();
      ok := Save();
    }

    /** Mark a record; a failure mark must name a failure. A sound ledger stays sound exactly if
        no finished record is re-armed or recovered beside a pending one. */
    method Update(txid: TxId, m: Mark) returns (ok: bool)
      requires Valid()
      modifies this
      ensures Valid()
      ensures var at := Find(old(transfers), txid);
              transfers == if at < |old(transfers)| && Allowed(m) then Trimmed(old(transfers)[at := Marked(old(transfers)[at], m)])
                           else old(transfers)
      ensures Sound(old(transfers)) ==> (Sound(transfers) <==> !(m in {Rearm, Recover} && Revives(old(transfers), txid)))
      ensures ok ==> disk == transfers
      ensures disk == old(disk) || disk == transfers
      ensures (ok ==> Known(old(transfers), txid) && Allowed(m)) && (calm && Known(old(transfers), txid) && Allowed(m) ==> ok)
      ensures Known(old(transfers), txid) && Allowed(m) ==>
                forall r | r in transfers && r.txid == txid ::
                  && (r.delivery == Armed <==> m == Rearm) && (r.delivery == Recovering <==> m == Recover)
                  && (r.delivery == Confirmed <==> m == Confirm) && (r.delivery == OrphanedAfterConfirmation <==> m == Orphan)
                  && (m.Fail? ==> r.delivery == m.state)
                  && (if m in {Rearm, Recover} then r.(delivery := Armed) in Rearmed(old(transfers)) else r.rawTx == None && r.inputs == [])
      ensures forall r | r in transfers && r.txid != txid :: r in old(transfers)
      ensures m in {Rearm, Recover} && Known(old(transfers), txid) ==> Known(transfers, txid)
    {
      if !Allowed(m) { return false; }
      var at := Find(transfers, txid);
      if at == |transfers| { return false; }
      if Sound(transfers) { MarkingKeepsOnePending(transfers, at, m); }
      MarkingIsTidy(transfers, at, m);
      TrimmedIsSound(transfers[at := Marked(transfers[at], m)]);
      MarkedAmong(transfers, at, m);
      assert m in {Rearm, Recover} ==> Rearmed(transfers)[at] == Marked(transfers[at], m).(delivery := Armed);
      transfers := transfers[at := Marked(transfers[at], m)];
      Trim();
      ok := Save();
    }

    /** The coordinator arms a transfer it built or the one a record of its own job names, and
        re-arms or recovers only what is pending, so it revives no finished record beside a
        pending one. Over any run of such use, with any failed saves and restarts, at most one
        transfer is pending, in the process and on disk. */
    method AnyRun(steps: nat)
      requires Valid() && SoundBoth()
      modifies this
      ensures Valid() && SoundBoth()
    {
      for k := 0 to steps
        invariant Valid() && SoundBoth()
      {
        var t: Transfer, m: Mark, restart: bool, arm: bool := *, *, *, *;
        if restart {
          transfers := disk;
        } else if arm && !Revives(transfers, t.txid) {
          var _ := Arm(t);
        } else if !arm && !(m in {Rearm, Recover} && Revives(transfers, t.txid)) {
          var _ := Update(t.txid, m);
        }
      }
    }

    /** Any use, reviving or not: the ledger stays tidy, and a sound one stays sound at a use if
        and only if that revives nothing. `states` are the ledgers the uses found, and the last. */
    method AnyUse(uses: seq<Use>) returns (states: seq<seq<Transfer>>)
      requires Valid() && SoundBoth()
      modifies this
      ensures Valid() && |states| == |uses| + 1 && states[0] == old(transfers) && states[|uses|] == transfers
      ensures AllUsed(states, uses)
      ensures Harmless(states, uses) ==> SoundBoth()
    {
      states := [transfers];
      ghost var made: seq<Use> := [];
      for k := 0 to |uses|
        invariant Valid() && |states| == k + 1 && states[0] == old(transfers) && states[k] == transfers
        invariant made == uses[..k] && AllUsed(states, made)
        invariant Harmless(states, made) ==> SoundBoth()
      {
        UseOnce(uses[k]);
        OneMoreUse(states, made, uses[k], transfers);
        states, made := states + [transfers], made + [uses[k]];
      }
      assert made == uses;
    }

    method UseOnce(u: Use)
      requires Valid()
      modifies this
      ensures Valid() && UsedAs(old(transfers), u, transfers)
      ensures Sound(old(transfers)) ==> (Sound(transfers) <==> !RevivedBy(old(transfers), u))
      ensures old(SoundBoth()) && !RevivedBy(old(transfers), u) ==> SoundBoth()
    {
      match u {
        case Arms(t) => var _ := Arm(t);
        case Marks(txid, m) => var _ := Update(txid, m);
      }
    }
  }

  /** Use `i` is as specified, and keeps a sound ledger sound exactly if it revives nothing. */
  ghost predicate UsedAt(states: seq<seq<Transfer>>, uses: seq<Use>, i: int)
    requires |states| == |uses| + 1
  {
    0 <= i < |uses| ==>
      && UsedAs(states[i], uses[i], states[i + 1])
      && (Sound(states[i]) ==> (Sound(states[i + 1]) <==> !RevivedBy(states[i], uses[i])))
  }

  ghost predicate AllUsed(states: seq<seq<Transfer>>, uses: seq<Use>)
    requires |states| == |uses| + 1
  {
    forall i :: UsedAt(states, uses, i)
  }

  /** No use revived a finished record beside a pending one. */
  predicate Harmless(states: seq<seq<Transfer>>, uses: seq<Use>)
    requires |states| == |uses| + 1
  {
    forall i | 0 <= i < |uses| :: !RevivedBy(states[i], uses[i])
  }

  lemma OneMoreUse(states: seq<seq<Transfer>>, uses: seq<Use>, u: Use, now: seq<Transfer>)
    requires |states| == |uses| + 1 && AllUsed(states, uses)
    requires UsedAs(states[|uses|], u, now) && (Sound(states[|uses|]) ==> (Sound(now) <==> !RevivedBy(states[|uses|], u)))
    ensures var more, states' := uses + [u], states + [now];
            && AllUsed(states', more)
            && (Harmless(states', more) <==> Harmless(states, uses) && !RevivedBy(states[|uses|], u))
  {
    var more, states' := uses + [u], states + [now];
    forall i ensures UsedAt(states', more, i) {
      assert UsedAt(states, uses, i);
      if 0 <= i < |uses| { assert states'[i] == states[i] && states'[i + 1] == states[i + 1] && more[i] == uses[i]; }
    }
    HarmlessMore(states, uses, u, now);
  }

  lemma HarmlessMore(states: seq<seq<Transfer>>, uses: seq<Use>, u: Use, now: seq<Transfer>)
    requires |states| == |uses| + 1
    ensures Harmless(states + [now], uses + [u]) <==> Harmless(states, uses) && !RevivedBy(states[|uses|], u)
  {
    var more, states' := uses + [u], states + [now];
    if Harmless(states', more) {
      forall i | 0 <= i < |uses| ensures !RevivedBy(states[i], uses[i]) {
        assert states'[i] == states[i] && more[i] == uses[i] && !RevivedBy(states'[i], more[i]);
      }
      assert !RevivedBy(states'[|uses|], more[|uses|]);
    }
  }

  datatype Use = Arms(t: Transfer) | Marks(txid: TxId, m: Mark)

  /** The ledger a use leaves. */
  predicate UsedAs(s: seq<Transfer>, u: Use, now: seq<Transfer>) {
    match u
    case Arms(t) => now == if Arming(s, t).Some? then Trimmed(Arming(s, t).value) else s
    case Marks(txid, m) =>
      var at := Find(s, txid);
      now == if at < |s| && Allowed(m) then Trimmed(s[at := Marked(s[at], m)]) else s
  }

  predicate RevivedBy(s: seq<Transfer>, u: Use) {
    match u
    case Arms(t) => IsPending(t) && Revives(s, t.txid)
    case Marks(txid, m) => m in {Rearm, Recover} && Revives(s, txid)
  }

  /** Marks the store takes: a failure names a state a delivery can fail in. */
  predicate Allowed(m: Mark) { m.Fail? ==> m.state in {DeliveryFailed, AbortedAfterSubmission} }

  lemma RemoveCounts(s: seq<Transfer>, at: nat)
    requires at < |s| && !IsPending(s[at])
    ensures Terminals(s[..at] + s[at + 1..]) == Terminals(s) - 1
  {
    assert s == s[..at] + ([s[at]] + s[at + 1..]);
    OnlyConcat(IsPending, s[..at], [s[at]] + s[at + 1..]);
    OnlyConcat(IsPending, s[..at], s[at + 1..]);
  }
}
