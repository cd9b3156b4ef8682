/** One faucet job, from preparing its transaction to delivery, through crashes, its recovery and
    the delivery guard (crates/control-plane/src/jobs.rs). `context` and `ledger` are what the
    process works on, `savedContext` and `savedLedger` what a restart reads back. Which of the
    coming saves of the job record reach the disk is part of the state, so that what the
    disk holds at a call can be said before it is made. */
module FaucetProtocol {
  import opened Disks
  import opened Options
  import opened Polls
  import opened Replies

  type Raw = string
  type TxId = nat

  datatype Miner = Miner2 | Miner3

  const MINERS: seq<Miner> := [Miner2, Miner3]

  /** A signed transaction. Signing twice may give two different ones. */
  datatype Prepared = Prepared(raw: Raw, txid: TxId)

  datatype Phase =
    | Validated | InputsSelected | InputsLocked | PreparedPhase
    | Prioritized(miner: Miner) | Submitted(miner: Miner) | Armed

  datatype Context = Context(phase: Phase, selected: bool, raw: Option<Raw>, txid: Option<TxId>, submitted: bool)

  /** The job's ledger entry; pending ones carry the raw transaction. */
  datatype Entry = Entry(txid: TxId, pending: bool, raw: Option<Raw>)

  /** Calls to the miners, each with whether the transaction was on disk at that moment. */
  datatype Call =
    | Raise(miner: Miner, txid: TxId, durable: bool)
    | Lower(miner: Miner, txid: TxId)
    | Test(miner: Miner, txid: TxId)
    | Submit(miner: Miner, raw: Raw, txid: TxId, durable: bool)
    | Check(miner: Miner, txid: TxId)

  /** The call is about the transaction that was built, and a submission is of one on disk. */
  predicate About(c: Call, built: Option<Prepared>) {
    && built.Some? && c.txid == built.value.txid
    && (c.Submit? ==> c.raw == built.value.raw && c.durable)
  }

  predicate AboutAt(calls: seq<Call>, i: int, built: Option<Prepared>) { 0 <= i < |calls| ==> About(calls[i], built) }

  ghost predicate AllAbout(calls: seq<Call>, built: Option<Prepared>) { forall i :: AboutAt(calls, i, built) }

  lemma OneMoreAbout(calls: seq<Call>, c: Call, built: Option<Prepared>)
    requires AllAbout(calls, built) && About(c, built)
    ensures AllAbout(calls + [c], built)
  {
    var more := calls + [c];
    forall i ensures AboutAt(more, i, built) {
      assert AboutAt(calls, i, built);
    }
  }

  lemma NothingYet(calls: seq<Call>)
    ensures AllAbout(calls, None) ==> calls == []
  {
    if calls != [] { assert !AboutAt(calls, 0, None); }
  }

  /** The miner was asked to raise the priority between call `from` and call `i`. */
  ghost predicate RaisedBefore(calls: seq<Call>, from: nat, i: nat, m: Miner) {
    exists k | from <= k < i && k < |calls| :: calls[k].Raise? && calls[k].miner == m
  }

  /** From call `from` on, nothing is submitted to a miner whose priority was not raised first. */
  ghost predicate RaisedFirst(calls: seq<Call>, from: nat) {
    forall i | from <= i < |calls| && calls[i].Submit? :: RaisedBefore(calls, from, i, calls[i].miner)
  }

  /** Stronger: nothing is submitted anywhere before both priorities were raised. */
  ghost predicate BothRaisedFirst(calls: seq<Call>, from: nat) {
    forall i, m | from <= i < |calls| && calls[i].Submit? :: RaisedBefore(calls, from, i, m)
  }

  /** From call `from` on, a raise finds the transaction on disk, except that the very first
      call does exactly if `durable`. */
  ghost predicate RaisesFrom(calls: seq<Call>, from: nat, durable: bool) {
    forall i | from <= i < |calls| && calls[i].Raise? :: calls[i].durable <==> (i > from || durable)
  }

  /** The calls that ask both miners about the transaction, before or after it was submitted. */
  ghost function Asked(p: Prepared, check: bool): seq<Call> {
    if check then [Check(Miner2, p.txid), Check(Miner3, p.txid)] else [Test(Miner2, p.txid), Test(Miner3, p.txid)]
  }

  /** A delivery opens with two raises and the two tests. */
  ghost predicate Opening(calls: seq<Call>, from: nat, p: Prepared) {
    && (forall i | from <= i < |calls| && i < from + 2 :: calls[i].Raise?)
    && (forall i | from + 2 <= i < |calls| && i < from + 4 :: calls[i] == Asked(p, false)[i - from - 2])
  }

  ghost predicate SubmittedTo(calls: seq<Call>, from: nat, p: Prepared, m: Miner) {
    exists i | from <= i < |calls| :: calls[i] == Submit(m, p.raw, p.txid, true)
  }

  lemma RaisedStays(calls: seq<Call>, more: seq<Call>, from: nat, i: nat, m: Miner)
    requires calls <= more && RaisedBefore(calls, from, i, m)
    ensures RaisedBefore(more, from, i, m)
  {
    var k :| from <= k < i && k < |calls| && calls[k].Raise? && calls[k].miner == m;
    assert more[k] == calls[k];
  }

  predicate ContextOf(c: Context, built: Option<Prepared>) {
    && (c.raw.Some? ==> built.Some? && c.raw.value == built.value.raw && c.txid.Some?)
    && (c.txid.Some? ==> built.Some? && c.txid.value == built.value.txid)
  }

  predicate EntryOf(e: Option<Entry>, built: Option<Prepared>) {
    e.Some? ==> built.Some? && e.value.txid == built.value.txid && (e.value.raw.Some? ==> e.value.raw.value == built.value.raw)
  }

  /** The executor saves its choice of inputs and their lock, but neither the transaction it built
      nor anything in the next `n` saves. */
  predicate UnsavedThrough(disk: seq<bool>, n: nat) {
    Lands(disk, 0) && Lands(disk, 1) && !Lands(disk, 2) && !AnyLands(After(disk, 3), n)
  }

  lemma FirstThree(disk: seq<bool>)
    ensures Lands(After(disk, 1), 0) <==> Lands(disk, 1)
    ensures Lands(After(After(disk, 1), 1), 0) <==> Lands(disk, 2)
    ensures After(After(After(disk, 1), 1), 1) == After(disk, 3)
    ensures UnsavedThrough(disk, 0) <==> Lands(disk, 0) && Lands(disk, 1) && !Lands(disk, 2)
  {
  }

  /** What a recovery attempt finds: the transaction is on the chain, its inputs went elsewhere, or
      it can be sent again, with the miner lease still held or not. */
  datatype Finding = Confirmed | Conflicting | Unspent(leased: bool)

  /** Some priority was raised for a transaction that was not on disk. */
  ghost predicate RaisedOffDisk(calls: seq<Call>) {
    exists i :: 0 <= i < |calls| && calls[i].Raise? && !calls[i].durable
  }

  const FRESH_CONTEXT := Context(Validated, false, None, None, false)

  class FaucetJob {
    const calm: bool                  // no remote call fails, the process does not die, no other transfer is pending
    var disk: seq<bool>               // which of the coming saves of the job record land
    var polls: seq<bool>              // the answers to the executor's coming polls for an abort
    var context: Context
    var savedContext: Context
    var ledger: Option<Entry>
    var savedLedger: Option<Entry>
    var locked: bool                  // the wallet sets the selected inputs aside
    ghost var alive: bool             // the process has not died; a dead one makes no call
    ghost var failures: nat           // failed calls and saves, less submissions to try again and saves that may fail
    ghost var built: Option<Prepared>
    ghost var prepares: nat
    ghost var calls: seq<Call>

    ghost predicate Valid()
      reads this
    {
      && ContextOf(context, built) && ContextOf(savedContext, built) && EntryOf(ledger, built) && EntryOf(savedLedger, built)
      && (prepares == 0 <==> built.None?) && prepares <= 1
      && AllAbout(calls, built)
    }

    /** The raw transaction survives a crash: in the job record or in the ledger. */
    ghost predicate Durable()
      reads this
    {
      && built.Some?
      && (savedContext.raw == Some(built.value.raw) || (savedLedger.Some? && savedLedger.value.raw == Some(built.value.raw)))
    }

    /** The record on disk holds whatever transaction the process holds. It fails only between a
        transaction is built and a save succeeds. */
    ghost predicate Recorded()
      reads this
    {
      context.raw.Some? ==> savedContext.raw.Some?
    }

    constructor (disk: seq<bool>, polls: seq<bool>, calm: bool)
      ensures Valid() && prepares == 0 && calls == [] && context == savedContext == FRESH_CONTEXT
      ensures this.disk == disk && this.polls == polls && this.calm == calm && alive && !locked
    {
      locked, alive, failures := false, true, 0;
      this.disk, this.polls, this.calm := disk, polls, calm;
      context, savedContext, ledger, savedLedger := FRESH_CONTEXT, FRESH_CONTEXT, None, None;
      built, prepares, calls := None, 0, [];
    }

    method Remote() returns (r: Reply<()>)
      requires alive
      modifies this`alive, this`failures
      ensures calm ==> r.Ok?
      ensures (alive <==> !r.Crash?) && failures == old(failures) + if r.Ok? then 0 else 1
    {
      var fault, crash: bool := *, *;
      if calm || !fault { return Ok(()); }
      alive, failures := !crash, failures + 1;
      return if crash then Crash else Err;
    }

    /** Set the selected inputs aside in the wallet, or give them back. */
    method LockInputs(lock: bool) returns (r: Reply<()>)
      requires alive
      modifies this`locked, this`alive, this`failures
      ensures r.Ok? ==> locked == lock
      ensures locked == lock || locked == old(locked)
      ensures calm ==> r.Ok?
      ensures (alive <==> !r.Crash?) && failures == old(failures) + if r.Ok? then 0 else 1
    {
      r := Remote();
      var effect: bool := *;
      if r.Ok? || effect { locked := lock; }
    }

    method AbortRequested() returns (asked: bool)
      modifies this`polls
      ensures asked == Asks(old(polls), 0) && polls == After(old(polls), 1)
    {
      asked := Asks(polls, 0);
      polls := After(polls, 1);
    }

    /** An error means nothing was written. */
    method SaveContext() returns (r: Reply<()>)
      requires alive
      modifies this`savedContext, this`disk, this`alive, this`failures
      ensures savedContext == if Lands(old(disk), 0) then context else old(savedContext)
      ensures disk == After(old(disk), 1)
      ensures (r.Ok? ==> Lands(old(disk), 0)) && (r.Err? ==> !Lands(old(disk), 0)) && (calm ==> !r.Crash?)
      ensures (alive <==> !r.Crash?) && failures == old(failures) + if r.Ok? then 0 else 1
    {
      var crash: bool, lands := *, Lands(disk, 0);
      if lands { savedContext := context; }
      crash := crash && !calm;
      disk, alive := After(disk, 1), !crash;
      if !crash && lands { return Ok(()); }
      failures := failures + 1;
      return if crash then Crash else Err;
    }

    /** Saves whose failure is logged and ignored. */
    method Note(n: nat) returns (r: Reply<()>)
      requires alive
      modifies this`savedContext, this`disk, this`alive, this`failures
      ensures !r.Err? && (calm ==> r.Ok?)
      ensures savedContext == context || savedContext == old(savedContext)
      ensures r.Ok? ==> savedContext == if AnyLands(old(disk), n) then context else old(savedContext)
      ensures r.Ok? ==> disk == After(old(disk), n)
      ensures n == 1 ==> savedContext == if Lands(old(disk), 0) then context else old(savedContext)
      ensures (alive <==> !r.Crash?) && failures >= old(failures)
      ensures failures == old(failures)
    {
      assert After(disk, 0) == disk;
      AnyLandsMore(disk, 0);
      for k := 0 to n
        invariant alive && failures == old(failures) && disk == After(old(disk), k)
        invariant savedContext == if AnyLands(old(disk), k) then context else old(savedContext)
      {
        AfterAfter(old(disk), k, 0);
        AfterAfter(old(disk), k, 1);
        AnyLandsMore(old(disk), k);
        ghost var before := failures;
        r := SaveContext();
        failures := before;
        if r.Crash? { return; }
      }
      r := Ok(());
    }

    method SaveLedger() returns (r: Reply<()>)
      requires alive
      modifies this`savedLedger, this`alive, this`failures
      ensures r.Ok? ==> savedLedger == ledger
      ensures savedLedger == ledger || savedLedger == old(savedLedger)
      ensures calm ==> r.Ok?
      ensures (alive <==> !r.Crash?) && failures >= old(failures) && (r.Ok? ==> failures == old(failures))
    {
      r := Remote();
      var effect: bool := *;
      if r.Ok? || (r.Crash? && effect) { savedLedger := ledger; }
    }

    method SetPriority(m: Miner, txid: TxId, raise: bool) returns (r: Reply<()>)
      requires Valid() && alive && built.Some? && txid == built.value.txid
      modifies this`calls, this`alive, this`failures
      ensures Valid() && calls == old(calls) + [if raise then Raise(m, txid, Durable()) else Lower(m, txid)]
      ensures calm ==> r.Ok?
      ensures (alive <==> !r.Crash?) && failures == old(failures) + if r.Ok? then 0 else 1
    {
      r := Ask(if raise then Raise(m, txid, Durable()) else Lower(m, txid));
    }

    /** One call to a miner. */
    method Ask(ghost c: Call) returns (r: Reply<()>)
      requires Valid() && alive && About(c, built)
      modifies this`calls, this`alive, this`failures
      ensures Valid() && calls == old(calls) + [c]
      ensures calm ==> r.Ok?
      ensures (alive <==> !r.Crash?) && failures == old(failures) + if r.Ok? then 0 else 1
    {
      OneMoreAbout(calls, c, built);
      calls := calls + [c];
      r := Remote();
    }

    method SubmitRaw(m: Miner, p: Prepared) returns (r: Reply<()>)
      requires Valid() && alive && built == Some(p) && Durable()
      modifies this`calls, this`alive, this`failures
      ensures Valid() && calls == old(calls) + [Submit(m, p.raw, p.txid, true)]
      ensures calm ==> r.Ok?
      ensures (alive <==> !r.Crash?) && failures == old(failures) + if r.Ok? then 0 else 1
    {
      r := Ask(Submit(m, p.raw, p.txid, true));
    }

    /** Raise both priorities, test, submit to both miners. Each raise is recorded before the
        next call, so by the first submission the transaction is on disk whatever failed before.
        Every raise but the first finds it on disk too, and the first does exactly if it was
        there before or the next save, which notes the phase, lands. No miner is offered the
        transaction before both priorities were raised. */
    method ArmPrepared(p: Prepared, patience: nat, abortable: bool) returns (r: Reply<()>)
      requires Valid() && built == Some(p) && context.raw == Some(p.raw)
      requires alive
      modifies this`context, this`savedContext, this`disk, this`polls, this`calls, this`alive, this`failures
      ensures Valid() && context.raw == Some(p.raw) && context.txid == old(context.txid)
      ensures (old(Durable()) ==> Durable()) && (old(Recorded()) ==> Recorded())
      ensures old(calls) <= calls && BothRaisedFirst(calls, |old(calls)|)
      ensures RaisesFrom(calls, |old(calls)|, old(Durable()) || Lands(old(disk), 0))
      ensures |calls| > |old(calls)| ==> calls[|old(calls)|].Raise?
      ensures !r.Crash? ==> |calls| > |old(calls)|
      ensures Opening(calls, |old(calls)|, p) && (r.Ok? ==> |calls| >= |old(calls)| + 8 && calls[|calls| - 2..] == Asked(p, true))
      ensures r.Ok? ==> Durable() && forall m :: SubmittedTo(calls, |old(calls)|, p, m)
      ensures r.Ok? ==> context.phase == Submitted(Miner3) && context.submitted && savedContext == context
      ensures r.Ok? && abortable ==> NoneAsks(old(polls), 2)
      ensures calm ==> !r.Crash?
      ensures calm && old(disk) == [] && patience > 0 && (abortable ==> NoneAsks(old(polls), 2)) ==> r.Ok? && disk == []
      ensures (alive <==> !r.Crash?) && failures >= old(failures) && (r.Ok? ==> failures == old(failures))
    {
      r := RaiseBoth(p);
      assert BothRaisedFirst(calls, |old(calls)|);
      if !r.Ok? { return; }
      ghost var raised := calls;
      r := AskBoth(p, false);
      if !r.Ok? { return; }
      ghost var tested := calls;
      r := SubmitBoth(p, patience, abortable);
      ghost var submitted := calls;
      SubmitsAfterRaises(old(calls), raised, calls);
      StillSubmitted(tested, calls, |old(calls)|, p);
      if !r.Ok? { return; }
      r := AskBoth(p, true);
      SubmitsAfterRaises(old(calls), raised, calls);
      StillSubmitted(submitted, calls, |old(calls)|, p);
    }

    /** Submit to both miners, asking before every attempt whether to abort, and record each success. */
    method SubmitBoth(p: Prepared, patience: nat, abortable: bool) returns (r: Reply<()>)
      requires Valid() && built == Some(p) && context.raw == Some(p.raw) && Durable()
      requires alive
      modifies this`context, this`savedContext, this`disk, this`polls, this`calls, this`alive, this`failures
      ensures Valid() && context.raw == Some(p.raw) && context.txid == old(context.txid) && Durable()
      ensures old(Recorded()) ==> Recorded()
      ensures old(calls) <= calls && forall i | |old(calls)| <= i < |calls| :: calls[i].Submit?
      ensures r.Ok? ==> |calls| >= |old(calls)| + 2 && forall m :: SubmittedTo(calls, |old(calls)|, p, m)
      ensures r.Ok? ==> context.phase == Submitted(Miner3) && context.submitted && savedContext == context
      ensures r.Ok? && abortable ==> NoneAsks(old(polls), 2)
      ensures calm ==> !r.Crash?
      ensures calm && old(disk) == [] && patience > 0 && (abortable ==> NoneAsks(old(polls), 2)) ==> r.Ok? && disk == []
      ensures (alive <==> !r.Crash?) && failures >= old(failures) && (r.Ok? ==> failures == old(failures))
    {
      ghost var asked := 0;
      for k := 0 to |MINERS|
        invariant Valid() && context.raw == Some(p.raw) && context.txid == old(context.txid) && Durable()
        invariant old(Recorded()) ==> Recorded()
        invariant alive && failures == old(failures) && |calls| >= |old(calls)| + k
        invariant k > 0 ==> context.phase == Submitted(MINERS[k - 1]) && context.submitted && savedContext == context
        invariant calm && old(disk) == [] ==> disk == []
        invariant asked >= k && (abortable ==> polls == After(old(polls), asked) && NoneAsks(old(polls), asked))
        invariant calm && patience > 0 && (abortable ==> NoneAsks(old(polls), 2)) ==> asked == k
        invariant old(calls) <= calls && forall i | |old(calls)| <= i < |calls| :: calls[i].Submit?
        invariant forall h | 0 <= h < k :: SubmittedTo(calls, |old(calls)|, p, MINERS[h])
      {
        ghost var before, left := calls, polls;
        NoneAsksMore(old(polls), asked);
        r := SubmitAndRecord(MINERS[k], p, patience, abortable);
        StillSubmitted(before, calls, |old(calls)|, p);
        if !r.Ok? { return; }
        asked := AskedMore(old(polls), left, polls, asked, abortable, calm && patience > 0 && NoneAsks(old(polls), 2));
      }
      forall m ensures SubmittedTo(calls, |old(calls)|, p, m) {
        assert m == MINERS[0] || m == MINERS[1];
      }
      r := Ok(());
    }

    method SubmitAndRecord(m: Miner, p: Prepared, patience: nat, abortable: bool) returns (r: Reply<()>)
      requires Valid() && alive && built == Some(p) && context.raw == Some(p.raw) && Durable()
      modifies this`context, this`savedContext, this`disk, this`polls, this`calls, this`alive, this`failures
      ensures Valid() && context.raw == Some(p.raw) && context.txid == old(context.txid) && Durable()
      ensures old(Recorded()) ==> Recorded()
      ensures old(calls) <= calls && forall i | |old(calls)| <= i < |calls| :: calls[i].Submit?
      ensures r.Ok? ==> |calls| > |old(calls)| && SubmittedTo(calls, |old(calls)|, p, m)
      ensures r.Ok? ==> context.phase == Submitted(m) && context.submitted && savedContext == context
      ensures calm ==> !r.Crash? && (old(disk) == [] ==> disk == [])
      ensures calm && patience > 0 && (abortable ==> !Asks(old(polls), 0)) ==>
                (old(disk) == [] ==> r.Ok?) && (abortable ==> polls == After(old(polls), 1))
      ensures !abortable ==> polls == old(polls)
      ensures abortable && r.Ok? ==> exists n :: n > 0 && polls == After(old(polls), n) && NoneAsks(old(polls), n)
      ensures (alive <==> !r.Crash?) && failures >= old(failures) && (r.Ok? ==> failures == old(failures))
    {
      r := SubmitUntilAccepted(m, p, patience, abortable);
      if !r.Ok? { return; }
      context := context.(phase := Submitted(m), submitted := true);
      r := SaveContext();
    }

    method RaiseBoth(p: Prepared) returns (r: Reply<()>)
      requires Valid() && built == Some(p) && context.raw == Some(p.raw)
      requires alive
      modifies this`context, this`savedContext, this`disk, this`calls, this`alive, this`failures
      ensures Valid() && context.raw == Some(p.raw) && context.txid == old(context.txid)
      ensures (old(Durable()) ==> Durable()) && (old(Recorded()) ==> Recorded())
      ensures old(calls) <= calls && forall i | |old(calls)| <= i < |calls| :: calls[i].Raise?
      ensures RaisesFrom(calls, |old(calls)|, old(Durable()) || Lands(old(disk), 0))
      ensures !r.Crash? ==> |calls| > |old(calls)|
      ensures |calls| <= |old(calls)| + 2 && (r.Ok? ==> |calls| == |old(calls)| + 2)
      ensures r.Ok? ==> context.phase == Prioritized(Miner3) && savedContext == context
      ensures r.Ok? ==> Durable() && forall m :: RaisedBefore(calls, |old(calls)|, |calls|, m)
      ensures calm ==> !r.Crash? && (old(disk) == [] ==> r.Ok? && disk == [])
      ensures (alive <==> !r.Crash?) && failures >= old(failures) && (r.Ok? ==> failures == old(failures))
    {
      for k := 0 to |MINERS|
        invariant Valid() && context.raw == Some(p.raw) && context.txid == old(context.txid)
        invariant (old(Durable()) || k > 0 ==> Durable()) && (old(Recorded()) ==> Recorded())
        invariant old(calls) <= calls && forall i | |old(calls)| <= i < |calls| :: calls[i].Raise?
        invariant RaisesFrom(calls, |old(calls)|, old(Durable()) || Lands(old(disk), 0))
        invariant |calls| == |old(calls)| + k && forall h | 0 <= h < k :: calls[|old(calls)| + h].miner == MINERS[h]
        invariant k == 0 ==> (Durable() <==> old(Durable())) && disk == old(disk)
        invariant alive && failures == old(failures)
        invariant k > 0 ==> context.phase == Prioritized(MINERS[k - 1]) && savedContext == context
        invariant calm && old(disk) == [] ==> disk == []
      {
        r := RaiseOne(MINERS[k], p);
        if !r.Ok? { return; }
      }
      forall m ensures RaisedBefore(calls, |old(calls)|, |calls|, m) {
        var n := |old(calls)|;
        assert calls[n + 0].miner == MINERS[0];
        assert calls[n + 1].miner == MINERS[1];
      }
      r := Ok(());
    }

    /** Note the phase, raise one priority, and record that. */
    method RaiseOne(m: Miner, p: Prepared) returns (r: Reply<()>)
      requires Valid() && built == Some(p) && context.raw == Some(p.raw)
      requires alive
      modifies this`context, this`savedContext, this`disk, this`calls, this`alive, this`failures
      ensures Valid() && context.raw == Some(p.raw) && context.txid == old(context.txid)
      ensures (old(Durable()) ==> Durable()) && (old(Recorded()) ==> Recorded())
      ensures || calls == old(calls) + [Raise(m, p.txid, old(Durable()) || Lands(old(disk), 0))]
              || (r.Crash? && calls == old(calls))
      ensures r.Ok? ==> Durable() && context.phase == Prioritized(m) && savedContext == context
      ensures calm ==> !r.Crash? && (old(disk) == [] ==> r.Ok? && disk == [])
      ensures (alive <==> !r.Crash?) && failures >= old(failures) && (r.Ok? ==> failures == old(failures))
    {
      r := Note(1);
      if !r.Ok? { return; }
      r := SetPriority(m, p.txid, true);
      if !r.Ok? { return; }
      context := context.(phase := Prioritized(m));
      r := SaveContext();
    }

    /** Both miners would accept the transaction, or have it as prepared: one call each. */
    method AskBoth(ghost p: Prepared, check: bool) returns (r: Reply<()>)
      requires Valid() && alive && built == Some(p)
      modifies this`calls, this`alive, this`failures
      ensures calm ==> r.Ok?
      ensures Valid() && old(calls) <= calls <= old(calls) + Asked(p, check)
      ensures r.Ok? ==> calls == old(calls) + Asked(p, check)
      ensures (alive <==> !r.Crash?) && failures >= old(failures) && (r.Ok? ==> failures == old(failures))
    {
      for k := 0 to |MINERS|
        invariant Valid() && alive && failures == old(failures) && calls == old(calls) + Asked(p, check)[..k]
      {
        r := Ask(if check then Check(MINERS[k], p.txid) else Test(MINERS[k], p.txid));
        if !r.Ok? { return; }
      }
      r := Ok(());
    }

    /** Retry until the deadline, an abort or a crash. */
    method SubmitUntilAccepted(m: Miner, p: Prepared, patience: nat, abortable: bool) returns (r: Reply<()>)
      requires Valid() && built == Some(p) && Durable()
      requires alive
      modifies this`polls, this`calls, this`alive, this`failures
      ensures Valid() && old(calls) <= calls && forall i | |old(calls)| <= i < |calls| :: calls[i].Submit?
      ensures r.Ok? ==> |calls| > |old(calls)| && SubmittedTo(calls, |old(calls)|, p, m)
      ensures calm ==> !r.Crash?
      ensures calm && patience > 0 && (abortable ==> !Asks(old(polls), 0)) ==>
                r.Ok? && (abortable ==> polls == After(old(polls), 1))
      ensures !abortable ==> polls == old(polls)
      ensures abortable && r.Ok? ==> exists n :: n > 0 && polls == After(old(polls), n) && NoneAsks(old(polls), n)
      ensures (alive <==> !r.Crash?) && failures >= old(failures) && (r.Ok? ==> failures == old(failures))
    {
      r := Err;
      for k := 0 to patience
        invariant alive && failures == old(failures)
        invariant r.Err? && Valid() && old(calls) <= calls && forall i | |old(calls)| <= i < |calls| :: calls[i].Submit?
        invariant polls == if abortable then After(old(polls), k) else old(polls)
        invariant abortable ==> NoneAsks(old(polls), k)
        invariant calm && (abortable ==> !Asks(old(polls), 0)) ==> k == 0
      {
        NoneAsksMore(old(polls), k);
        if abortable {
          var abort := AbortRequested();
          if abort { return Err; }
        }
        r := SubmitRaw(m, p);
        if r.Err? { failures := old(failures); }
        assert calls[|calls| - 1] == Submit(m, p.raw, p.txid, true);
        if !r.Err? { return; }
      }
    }

    /** Record the transfer in the ledger as pending, or again under the same txid. */
    method ArmLedger(raw: Raw, txid: TxId) returns (r: Reply<()>)
      requires Valid() && built == Some(Prepared(raw, txid))
      requires alive
      modifies this`ledger, this`savedLedger, this`alive, this`failures
      ensures Valid() && (old(Durable()) ==> Durable())
      ensures r.Ok? ==> savedLedger == Some(Entry(txid, true, Some(raw)))
      ensures calm ==> r.Ok?
      ensures r.Ok? ==> ledger == Some(Entry(txid, true, Some(raw)))
      ensures (alive <==> !r.Crash?) && failures >= old(failures) && (r.Ok? ==> failures == old(failures))
    {
      var refused: bool := *;
      if refused && ledger.None? && !calm { return Err; }
      ledger := Some(Entry(txid, true, Some(raw)));
      r := SaveLedger();
    }

    method MarkLedger(pending: bool) returns (r: Reply<()>)
      requires Valid()
      requires alive
      modifies this`ledger, this`savedLedger, this`alive, this`failures
      ensures Valid() && (r.Ok? ==> savedLedger == ledger)
      ensures pending && ledger.Some? && old(ledger).Some? ==> ledger.value.raw == old(ledger).value.raw
      ensures ledger.Some? <==> old(ledger).Some?
      ensures ledger.Some? && old(ledger).Some? ==>
                ledger.value.txid == old(ledger).value.txid && ledger.value.pending == pending
      ensures !pending && ledger.Some? ==> ledger.value.raw.None?
      ensures calm ==> !r.Crash? && (r.Ok? <==> old(ledger).Some?)
      ensures (alive <==> !r.Crash?) && failures >= old(failures) && (r.Ok? ==> failures == old(failures))
      ensures savedLedger == old(savedLedger) || savedLedger == ledger
    {
      if ledger.None? { return Err; }
      ledger := Some(Entry(ledger.value.txid, pending, if pending then ledger.value.raw else None));
      r := SaveLedger();
    }

    /** The executor: the only place that builds a transaction, and it runs once per job. */
    method Execute(p: Prepared, patience: nat) returns (r: Reply<()>)
      requires Valid() && prepares == 0 && context == savedContext == FRESH_CONTEXT && ledger == savedLedger == None
      requires alive
      modifies this
      ensures Valid() && old(calls) <= calls && BothRaisedFirst(calls, |old(calls)|)
      ensures forall i | |old(calls)| <= i < |calls| :: calls[i].Raise? ==> calls[i].durable
      ensures !Recorded() ==>
                && !r.Ok? && calls == old(calls) && !Durable() && !context.submitted
                && UnsavedThrough(old(disk), 0) && disk == After(old(disk), 3) && NoneAsks(old(polls), 2)
      ensures calm ==> !r.Crash? && (UnsavedThrough(old(disk), 0) && NoneAsks(old(polls), 2) ==> !Recorded())
      ensures !NoneAsks(old(polls), 2) ==> built.None? && calls == old(calls)
      ensures r.Ok? ==> NoneAsks(old(polls), 4)
      ensures calm && old(disk) == [] && patience > 0 && NoneAsks(old(polls), 4) ==> r.Ok?
      ensures r.Ok? ==> locked && context.phase == Armed && context.submitted && savedContext == context
      ensures r.Ok? ==>
                && prepares == 1 && savedLedger == Some(Entry(p.txid, true, Some(p.raw)))
                && forall m :: SubmittedTo(calls, |old(calls)|, p, m)
      ensures (alive <==> !r.Crash?) && failures >= old(failures) && (r.Ok? ==> failures == old(failures))
    {
      NoneAsksJoined(polls, 2, 2);
      r := Build(p);
      if !r.Ok? { return; }
      r := ArmPrepared(p, patience, true);
      if !r.Ok? { return; }
      r := ArmLedger(p.raw, p.txid);
      if !r.Ok? { return; }
      context := context.(phase := Armed);
      r := SaveContext();
    }

    /** Choose and lock inputs, sign, and save each step before the next. Saves in between that
        may fail are left out: before the signature there is nothing of it to save. */
    method Build(p: Prepared) returns (r: Reply<()>)
      requires Valid() && prepares == 0 && context == savedContext == FRESH_CONTEXT && ledger == savedLedger == None
      requires alive
      modifies this`context, this`savedContext, this`disk, this`polls, this`built, this`prepares, this`locked, this`alive, this`failures
      ensures Valid() && !context.submitted
      ensures r.Ok? ==> NoneAsks(old(polls), 2) && polls == After(old(polls), 2)
      ensures r.Ok? ==> locked && context.phase == PreparedPhase && context.selected && savedContext == context
      ensures Asks(old(polls), 0) ==> r.Err? && context == old(context) && disk == old(disk) && locked == old(locked)
      ensures (&& calm && old(disk) == [] && NoneAsks(old(polls), 1) && Asks(old(polls), 1)) ==>
                r.Err? && locked && context.phase == InputsLocked && context.selected && savedContext == context
      ensures calm && old(disk) == [] && NoneAsks(old(polls), 2) ==> r.Ok? && disk == []
      ensures !NoneAsks(old(polls), 2) ==> built.None?
      ensures r.Ok? ==> built == Some(p) && prepares == 1 && context.raw == Some(p.raw) && context.txid == Some(p.txid) && Recorded()
      ensures !Recorded() ==>
                !r.Ok? && !Durable() && UnsavedThrough(old(disk), 0) && disk == After(old(disk), 3) && NoneAsks(old(polls), 2)
      ensures calm ==> !r.Crash? && (UnsavedThrough(old(disk), 0) && NoneAsks(old(polls), 2) ==> !Recorded())
      ensures (alive <==> !r.Crash?) && failures >= old(failures) && (r.Ok? ==> failures == old(failures))
    {
      FirstThree(disk);
      AfterAfter(disk, 1, 1);
      NothingYet(calls);
      r := LockFunds();
      if !r.Ok? { return; }
      r := Remote();
      if !r.Ok? { return; }
      built, prepares := Some(p), 1;
      context := context.(phase := PreparedPhase, raw := Some(p.raw), txid := Some(p.txid));
      r := SaveContext();
    }

    /** Choose inputs and set them aside, saving each step before the next. */
    method LockFunds() returns (r: Reply<()>)
      requires Valid() && alive && prepares == 0 && context == savedContext == FRESH_CONTEXT
      modifies this`context, this`savedContext, this`disk, this`polls, this`locked, this`alive, this`failures
      ensures Valid() && context.raw.None? && context.txid.None? && !context.submitted && savedContext.raw.None?
      ensures r.Ok? ==>
                && NoneAsks(old(polls), 2) && polls == After(old(polls), 2)
                && Lands(old(disk), 0) && Lands(old(disk), 1) && disk == After(old(disk), 2)
                && locked && context.phase == InputsLocked && context.selected && savedContext == context
      ensures Asks(old(polls), 0) ==> r.Err? && context == old(context) && disk == old(disk) && locked == old(locked)
      ensures calm ==> !r.Crash?
      ensures calm && Lands(old(disk), 0) && Lands(old(disk), 1) && NoneAsks(old(polls), 1) ==>
                && (r.Ok? <==> !Asks(old(polls), 1))
                && locked && context.phase == InputsLocked && context.selected && savedContext == context
      ensures (alive <==> !r.Crash?) && failures >= old(failures) && (r.Ok? ==> failures == old(failures))
    {
      AfterAfter(disk, 1, 0);
      AfterAfter(disk, 1, 1);
      NoneAsksMore(polls, 0);
      NoneAsksMore(polls, 1);
      var abort := AbortRequested();
      if abort { return Err; }
      r := Remote();
      if !r.Ok? { return; }
      context := context.(phase := InputsSelected, selected := true);
      r := SaveContext();
      if !r.Ok? { return; }
      r := LockInputs(true);
      if !r.Ok? { return; }
      context := context.(phase := InputsLocked);
      r := SaveContext();
      if !r.Ok? { return; }
      abort := AbortRequested();
      if abort { return Err; }
    }

    /** What the job does after its executor: on failure or abort lower the priorities of a
        transaction it may have prepared; on success drop the raw copy from the record. Around
        that it notes the cleanup and the end of the job, in `early` and `late` saves and events. */
    method Conclude(succeeded: bool, abort: bool, early: nat, late: nat) returns (r: Reply<()>)
      requires Valid()
      requires alive
      modifies this
      ensures Valid() && built == old(built) && prepares == old(prepares) && old(calls) <= calls
      ensures forall i | |old(calls)| <= i < |calls| :: calls[i].Lower?
      ensures (!succeeded || abort) && old(context).txid.Some? && r.Ok? ==>
                calls == old(calls) + [Lower(Miner2, old(context).txid.value), Lower(Miner3, old(context).txid.value)]
      ensures (succeeded && !abort) || old(context).txid.None? ==> calls == old(calls)
      ensures old(Recorded()) ==> Recorded()
      ensures !r.Err? && (calm ==> r.Ok?)
      ensures !succeeded || abort ==> context == old(context)
      ensures succeeded && !abort ==> locked == old(locked)
      ensures calm && (!succeeded || abort) && old(context).selected ==> !locked
      ensures succeeded && !abort ==> ledger == old(ledger) && savedLedger == old(savedLedger)
      ensures succeeded && !abort && r.Ok? && Lands(After(old(disk), early), 0) ==> savedContext == context
      ensures (&& calm && abort && !succeeded && old(context).submitted && old(context).raw.Some? && built.Some?) ==>
                ledger == savedLedger == Some(Entry(built.value.txid, false, None))
      ensures succeeded && !abort && r.Ok? ==> context == old(context).(raw := None, selected := false)
      ensures (&& abort && r.Ok? && ledger.Some? && (succeeded || (old(context).submitted && old(context).raw.Some?))) ==>
                !ledger.value.pending
      ensures (&& calm && abort && ledger.Some? && (succeeded || (old(context).submitted && old(context).raw.Some?))) ==>
                savedLedger == ledger
      ensures !succeeded && !old(context.submitted) ==> ledger == old(ledger) && savedLedger == old(savedLedger)
      ensures !succeeded && !old(context.submitted) && r.Ok? ==>
                && disk == After(old(disk), early + late)
                && savedContext == if AnyLands(old(disk), early + late) then context else old(savedContext)
      ensures old(disk) == [] && r.Ok? ==> disk == []
      ensures (alive <==> !r.Crash?) && failures >= old(failures)
    {
      r := Ok(());
      if !succeeded || abort {
        r := GiveUp();
        if r.Crash? { return; }
      }
      r := WrapUp(succeeded, abort, early, late);
    }

    /** The saves around the end of the job, and its settlement. */
    method WrapUp(succeeded: bool, abort: bool, early: nat, late: nat) returns (r: Reply<()>)
      requires Valid()
      requires alive
      modifies this`context, this`savedContext, this`disk, this`ledger, this`savedLedger, this`alive, this`failures
      ensures Valid()
      ensures old(Recorded()) ==> Recorded()
      ensures !r.Err? && (calm ==> r.Ok?)
      ensures !succeeded || abort ==> context == old(context)
      ensures succeeded && !abort ==> ledger == old(ledger) && savedLedger == old(savedLedger)
      ensures succeeded && !abort && r.Ok? && Lands(After(old(disk), early), 0) ==> savedContext == context
      ensures (&& calm && abort && !succeeded && old(context).submitted && old(context).raw.Some? && built.Some?) ==>
                ledger == savedLedger == Some(Entry(built.value.txid, false, None))
      ensures succeeded && !abort && r.Ok? ==> context == old(context).(raw := None, selected := false)
      ensures (&& abort && r.Ok? && ledger.Some? && (succeeded || (old(context).submitted && old(context).raw.Some?))) ==>
                !ledger.value.pending
      ensures (&& calm && abort && ledger.Some? && (succeeded || (old(context).submitted && old(context).raw.Some?))) ==>
                savedLedger == ledger
      ensures !succeeded && !old(context.submitted) ==> ledger == old(ledger) && savedLedger == old(savedLedger)
      ensures !succeeded && !old(context.submitted) && r.Ok? ==>
                && disk == After(old(disk), early + late)
                && savedContext == if AnyLands(old(disk), early + late) then context else old(savedContext)
      ensures old(disk) == [] && r.Ok? ==> disk == []
      ensures (alive <==> !r.Crash?) && failures >= old(failures)
    {
      AnyLandsJoined(disk, early, late);
      AfterAfter(disk, early, late);
      r := Note(early);
      if r.Crash? { return; }
      r := Settle(succeeded, abort);
      if r.Crash? { return; }
      r := Note(late);
    }

    /** What a failed or aborted job takes back: both priorities, then the inputs it set aside. */
    method GiveUp() returns (r: Reply<()>)
      requires Valid() && alive
      modifies this`calls, this`locked, this`alive, this`failures
      ensures Valid() && old(calls) <= calls && forall i | |old(calls)| <= i < |calls| :: calls[i].Lower?
      ensures context.txid.Some? && !r.Crash? ==>
                calls == old(calls) + [Lower(Miner2, context.txid.value), Lower(Miner3, context.txid.value)]
      ensures context.txid.None? ==> calls == old(calls)
      ensures calm ==> r.Ok? && (context.selected ==> !locked)
      ensures (alive <==> !r.Crash?) && failures >= old(failures)
    {
      r := Ok(());
      if context.txid.Some? {
        r := LowerBoth(context.txid.value);
        if r.Crash? { return; }
      }
      if context.selected { r := LockInputs(false); }
    }

    method LowerBoth(txid: TxId) returns (r: Reply<()>)
      requires Valid() && built.Some? && txid == built.value.txid
      requires alive
      modifies this`calls, this`alive, this`failures
      ensures Valid() && old(calls) <= calls <= old(calls) + [Lower(Miner2, txid), Lower(Miner3, txid)]
      ensures !r.Crash? ==> calls == old(calls) + [Lower(Miner2, txid), Lower(Miner3, txid)]
      ensures calm ==> r.Ok?
      ensures (alive <==> !r.Crash?) && failures >= old(failures)
    {
      r := SetPriority(Miner2, txid, false);
      if r.Crash? { return; }
      r := SetPriority(Miner3, txid, false);
    }

    /** The record and the ledger at the end of the job, best effort. */
    method Settle(succeeded: bool, abort: bool) returns (r: Reply<()>)
      requires Valid()
      requires alive
      modifies this`context, this`savedContext, this`disk, this`ledger, this`savedLedger, this`alive, this`failures
      ensures Valid() && (old(Recorded()) ==> Recorded()) && (calm ==> !r.Crash?)
      ensures !succeeded || abort ==> context == old(context) && savedContext == old(savedContext) && disk == old(disk)
      ensures !succeeded && !old(context.submitted) ==> ledger == old(ledger) && savedLedger == old(savedLedger)
      ensures old(disk) == [] && !r.Crash? ==> disk == []
      ensures succeeded && !abort && !r.Crash? && Lands(old(disk), 0) ==> savedContext == context
      ensures (&& calm && abort && !succeeded && old(context).submitted && old(context).raw.Some? && built.Some?) ==>
                ledger == savedLedger == Some(Entry(built.value.txid, false, None))
      ensures succeeded && !abort ==>
                ledger == old(ledger) && savedLedger == old(savedLedger) && context == old(context).(raw := None, selected := false)
      ensures (&& abort && !r.Crash? && ledger.Some? && (succeeded || (old(context).submitted && old(context).raw.Some?))) ==>
                !ledger.value.pending && (calm ==> savedLedger == ledger)
      ensures (alive <==> !r.Crash?) && failures >= old(failures)
    {
      r := Ok(());
      if succeeded && !abort {
        context := context.(raw := None, selected := false);
        r := Note(1);
      } else if succeeded {
        r := MarkLedger(false);
      } else if abort && context.submitted && context.raw.Some? {
        r := ArmLedger(context.raw.value, context.txid.value);
        if r.Crash? { return; }
        r := MarkLedger(false);
      }
    }

    /** What a recovery attempt that succeeds has done: a confirmed transfer is settled in the
        ledger, conflicting inputs cost both miners' priorities and nothing else, and otherwise
        both miners were offered the transaction, which the ledger names. */
    ghost predicate Delivered(found: Finding, before: seq<Call>)
      reads this
    {
      && built.Some?
      && match found
         case Confirmed =>
           calls == before && ledger.Some? && !ledger.value.pending && savedLedger == ledger && context.raw.None?
         case Conflicting => calls == before + [Lower(Miner2, built.value.txid), Lower(Miner3, built.value.txid)]
         case Unspent(_) =>
           && (forall m :: SubmittedTo(calls, |before|, built.value, m))
           && ledger.Some? && ledger.value.txid == built.value.txid && context.raw.None? && locked
    }

    /** One recovery attempt: without a saved transaction there is nothing to deliver, otherwise
        the same one is armed again. It never builds a replacement. The first raise finds it on
        disk exactly if it was there before or the next save lands, be it for a lease taken anew
        or to note the phase. */
    method RecoverFaucetJob(found: Finding, patience: nat) returns (r: Reply<()>)
      requires Valid()
      requires alive
      modifies this
      ensures Valid() && built == old(built) && prepares == old(prepares) && old(calls) <= calls
      ensures old(context.raw.None?) ==> calls == old(calls)
      ensures BothRaisedFirst(calls, |old(calls)|)
      ensures RaisesFrom(calls, |old(calls)|, old(Durable()) || Lands(old(disk), 0))
      ensures (forall i | |old(calls)| <= i < |calls| :: !calls[i].Raise?) || calls[|old(calls)|].Raise?
      ensures !found.Unspent? ==> forall i | |old(calls)| <= i < |calls| :: !calls[i].Raise?
      ensures r.Ok? && old(context).raw.Some? ==> Delivered(found, old(calls))
      ensures r.Ok? && old(context).raw.None? && old(context).selected ==> !locked
      ensures r.Ok? && !found.Conflicting? ==> failures == old(failures)
      ensures calm && old(disk) == [] && patience > 0 ==> r.Ok?
      ensures found.Confirmed? ==> calls == old(calls)
      ensures old(Recorded()) ==> Recorded()
      ensures calm && found == Unspent(true) && old(context).raw.Some? ==>
                && |calls| > |old(calls)| && calls[|old(calls)|].Raise?
                && (old(disk) == [] && patience > 0 ==> forall m :: SubmittedTo(calls, |old(calls)|, built.value, m))
      ensures (alive <==> !r.Crash?) && failures >= old(failures)
    {
      if context.raw.None? {
        r := Ok(());
        if context.selected { r := LockInputs(false); }
        return;
      }
      var p := Prepared(context.raw.value, context.txid.value);
      r := Remote();
      if !r.Ok? { return; }
      match found
      case Confirmed =>
        r := RecordConfirmed(p);
      case Conflicting =>
        r := LowerBoth(p.txid);
        if r.Crash? { return; }
        r := SaveContext();
      case Unspent(leased) =>
        r := DeliverAgain(p, leased, patience);
    }

    /** The chain already has the transaction. */
    method RecordConfirmed(p: Prepared) returns (r: Reply<()>)
      requires Valid() && built == Some(p) && context.raw == Some(p.raw)
      requires alive
      modifies this`context, this`savedContext, this`disk, this`ledger, this`savedLedger, this`alive, this`failures
      ensures Valid() && (old(Recorded()) ==> Recorded())
      ensures r.Ok? ==> ledger.Some? && !ledger.value.pending && savedLedger == ledger && context.raw.None? && savedContext == context
      ensures old(ledger).Some? ==> savedLedger == old(savedLedger) || (savedLedger.Some? && !savedLedger.value.pending)
      ensures calm && old(disk) == [] ==> r.Ok?
      ensures (alive <==> !r.Crash?) && failures >= old(failures) && (r.Ok? ==> failures == old(failures))
    {
      if ledger.None? {
        r := ArmLedger(p.raw, p.txid);
        if !r.Ok? { return; }
      }
      r := MarkLedger(false);
      if !r.Ok? { return; }
      r := MarkRecoveredSucceeded();
    }

    /** Its inputs are still unspent: hold the miners, arm it again, enter it in the ledger. A lease
        taken anew is first put on the record, which must be saved. */
    method DeliverAgain(p: Prepared, leased: bool, patience: nat) returns (r: Reply<()>)
      requires Valid() && built == Some(p) && context.raw == Some(p.raw)
      requires alive
      modifies this`context, this`savedContext, this`disk, this`polls, this`ledger, this`savedLedger
      modifies this`calls, this`locked, this`alive, this`failures
      ensures Valid() && old(calls) <= calls && BothRaisedFirst(calls, |old(calls)|)
      ensures RaisesFrom(calls, |old(calls)|, old(Durable()) || Lands(old(disk), 0))
      ensures |calls| > |old(calls)| ==> calls[|old(calls)|].Raise?
      ensures old(Recorded()) ==> Recorded()
      ensures r.Ok? ==>
                && (forall m :: SubmittedTo(calls, |old(calls)|, p, m))
                && ledger.Some? && ledger.value.txid == p.txid && context.raw.None? && locked && savedContext == context
      ensures old(ledger).Some? ==> ledger == old(ledger) && savedLedger == old(savedLedger)
      ensures !leased && !Lands(old(disk), 0) ==> calls == old(calls) && !r.Ok?
      ensures calm && old(disk) == [] && patience > 0 ==> r.Ok?
      ensures calm && leased ==>
                |calls| > |old(calls)| && (old(disk) == [] && patience > 0 ==> forall m :: SubmittedTo(calls, |old(calls)|, p, m))
      ensures (alive <==> !r.Crash?) && failures >= old(failures) && (r.Ok? ==> failures == old(failures))
    {
      if !leased {
        r := SaveContext();
        if !r.Ok? { return; }
      }
      r := LockInputs(true);
      if !r.Ok? { return; }
      r := ArmPrepared(p, patience, false);
      if !r.Ok? { return; }
      if ledger.None? {
        r := ArmLedger(p.raw, p.txid);
        if !r.Ok? { return; }
      }
      r := MarkRecoveredSucceeded();
    }

    method MarkRecoveredSucceeded() returns (r: Reply<()>)
      requires Valid()
      requires alive
      modifies this`context, this`savedContext, this`disk, this`alive, this`failures
      ensures Valid() && Recorded() && context.raw.None?
      ensures (alive <==> !r.Crash?) && failures >= old(failures) && (r.Ok? ==> failures == old(failures))
      ensures (r.Ok? ==> savedContext == context) && (calm && old(disk) == [] ==> r.Ok?)
    {
      context := context.(raw := None, selected := false, phase := Armed);
      r := SaveContext();
    }

    /** The delivery guard re-arms a pending transfer from the ledger. It first marks the entry
        as recovering, which saves it, so everything it sends is on disk. If the inputs went
        elsewhere it gives the transfer up and sends nothing; otherwise success means that both
        miners were offered it again. */
    method RecoverPendingTransfer(conflict: bool) returns (r: Reply<()>)
      requires Valid() && ledger.Some? && ledger.value.pending
      requires alive
      modifies this
      ensures Valid() && built == old(built) && prepares == old(prepares) && old(calls) <= calls
      ensures context == old(context) && savedContext == old(savedContext)
      ensures forall i | |old(calls)| <= i < |calls| :: calls[i].Raise? ==> calls[i].durable
      ensures RaisedFirst(calls, |old(calls)|)
      ensures conflict ==> calls == old(calls) && !r.Ok?
      ensures calm && conflict && old(ledger).value.raw.Some? ==> ledger.Some? && !ledger.value.pending && savedLedger == ledger
      ensures r.Ok? ==>
                && (forall m :: SubmittedTo(calls, |old(calls)|, built.value, m))
                && |calls| == |old(calls)| + 8 && calls[|calls| - 2..] == Asked(built.value, true)
                && ledger.Some? && ledger.value.pending && savedLedger == ledger
      ensures calm && !conflict && old(ledger).value.raw.Some? ==> r.Ok?
      ensures (alive <==> !r.Crash?) && failures >= old(failures) && (r.Ok? ==> failures == old(failures))
    {
      r := MarkLedger(true);
      if !r.Ok? { return; }
      if ledger.value.raw.None? { return Err; }
      var raw, txid := ledger.value.raw.value, ledger.value.txid;
      assert Durable();
      if conflict {
        r := MarkLedger(false);
        return if r.Crash? then Crash else Err;
      }
      r := Remote();
      if !r.Ok? { return; }
      r := DeliverPending(Prepared(raw, txid));
      if !r.Ok? { return; }
      r := MarkLedger(true);
    }

    /** Raise, test and submit at one miner after the other, then check both. */
    method DeliverPending(p: Prepared) returns (r: Reply<()>)
      requires Valid() && alive && built == Some(p) && Durable()
      modifies this`calls, this`alive, this`failures
      ensures Valid() && old(calls) <= calls && RaisedFirst(calls, |old(calls)|)
      ensures forall i | |old(calls)| <= i < |calls| :: calls[i].Raise? ==> calls[i].durable
      ensures r.Ok? ==>
                && (forall m :: SubmittedTo(calls, |old(calls)|, p, m))
                && |calls| == |old(calls)| + 8 && calls[|calls| - 2..] == Asked(p, true)
      ensures calm ==> r.Ok?
      ensures (alive <==> !r.Crash?) && failures >= old(failures) && (r.Ok? ==> failures == old(failures))
    {
      for k := 0 to |MINERS|
        invariant Valid() && Durable() && alive && failures == old(failures) && |calls| == |old(calls)| + 3 * k
        invariant old(calls) <= calls && forall i | |old(calls)| <= i < |calls| :: calls[i].Raise? ==> calls[i].durable
        invariant RaisedFirst(calls, |old(calls)|)
        invariant forall h | 0 <= h < k :: SubmittedTo(calls, |old(calls)|, p, MINERS[h])
      {
        ghost var before := calls;
        r := DeliverTo(MINERS[k], p, |old(calls)|);
        StillSubmitted(before, calls, |old(calls)|, p);
        if !r.Ok? { return; }
        assert calls[|calls| - 1] == Submit(MINERS[k], p.raw, p.txid, true);
      }
      forall m ensures SubmittedTo(calls, |old(calls)|, p, m) {
        assert m == MINERS[0] || m == MINERS[1];
      }
      ghost var submitted := calls;
      r := AskBoth(p, true);
      CheckedAfter(submitted, calls, |old(calls)|);
      StillSubmitted(submitted, calls, |old(calls)|, p);
    }

    method DeliverTo(m: Miner, p: Prepared, ghost from: nat) returns (r: Reply<()>)
      requires Valid() && alive && built == Some(p) && Durable() && from <= |calls| && RaisedFirst(calls, from)
      modifies this`calls, this`alive, this`failures
      ensures Valid() && old(calls) <= calls && RaisedFirst(calls, from)
      ensures forall i | |old(calls)| <= i < |calls| :: calls[i].Raise? ==> calls[i].durable
      ensures r.Ok? ==>
                calls == old(calls) + [Raise(m, p.txid, true), Test(m, p.txid), Submit(m, p.raw, p.txid, true)]
      ensures calm ==> r.Ok?
      ensures (alive <==> !r.Crash?) && failures >= old(failures) && (r.Ok? ==> failures == old(failures))
    {
      r := SetPriority(m, p.txid, true);
      OneMoreRaised(old(calls), calls, from);
      if !r.Ok? { return; }
      ghost var raised := calls;
      r := Ask(Test(m, p.txid));
      OneMoreRaised(raised, calls, from);
      if !r.Ok? { return; }
      ghost var tested := calls;
      r := SubmitRaw(m, p);
      SubmittedAfterRaise(tested, calls, from);
    }

    /** The process dies and starts again from what was saved. */
    method Restart()
      requires Valid()
      modifies this`context, this`ledger, this`alive
      ensures alive && Valid() && context == savedContext && ledger == savedLedger && Recorded()
    {
      context, ledger, alive := savedContext, savedLedger, true;
    }

    /** The job's execution, its end, and a first recovery attempt in the same process. A priority
        is raised for a transaction that is not on disk only if the executor could not save what
        it built and no save up to and including the attempt's first one landed; and then it
        is, if no call fails and the attempt finds the inputs unspent and the lease held. */
    method RunOnce(p: Prepared, abort: bool, early: nat, late: nat, found: Finding, patience: nat) returns (r: Reply<()>)
      requires Valid() && prepares == 0 && calls == []
      requires context == savedContext == FRESH_CONTEXT && ledger == savedLedger == None
      requires alive
      modifies this
      ensures Valid() && prepares <= 1
      ensures RaisedOffDisk(calls) ==> UnsavedThrough(old(disk), early + late + 1) && NoneAsks(old(polls), 2) && found.Unspent?
      ensures calm && found == Unspent(true) ==>
                (RaisedOffDisk(calls) <==> UnsavedThrough(old(disk), early + late + 1) && NoneAsks(old(polls), 2))
      ensures (alive <==> !r.Crash?) && failures >= old(failures)
    {
      ghost var start := disk;
      var n := early + late;
      AnyLandsMore(After(start, 3), n);
      AfterAfter(start, 3, n);
      r := Execute(p, patience);
      ghost var unsaved := !Recorded();
      if r.Crash? { return; }
      r := Conclude(r.Ok?, abort, early, late);
      if r.Crash? { return; }
      ghost var from := |calls|;
      AfterAfter(After(start, 3), n, 0);
      assert Recorded() && context.raw.Some? ==> Durable();
      r := RecoverFaucetJob(found, patience);
    }

    /** The input: only the saves of the chosen and the locked inputs reach the disk. The first
        recovery raises a priority for a transaction that nothing on disk knows of. */
    method RecoveryRaisesOffDisk(p: Prepared, abort: bool, patience: nat) returns (r: Reply<()>)
      requires Valid() && prepares == 0 && calls == [] && calm && disk == [true, true, false, false, false, false, false]
      requires polls == [] && alive
      requires context == savedContext == FRESH_CONTEXT && ledger == savedLedger == None
      modifies this
      ensures RaisedOffDisk(calls)
    {
      ghost var left := After(disk, 3);
      forall k | 0 <= k < 4 ensures !Lands(left, k) {
        assert left[k] == disk[k + 3];
      }
      r := RunOnce(p, abort, 1, 2, Unspent(true), patience);
    }

    /** A recovery delivers the transfer of a job that was aborted: if the job's cleanup failed, the
        attempt submits to both miners what the abort had given up. */
    method RecoveryDeliversAborted(early: nat, late: nat, patience: nat) returns (r: Reply<()>)
      requires Valid() && alive && calm && disk == [] && patience > 0 && context.raw.Some?
      modifies this
      ensures Valid() && built == old(built) && forall m :: SubmittedTo(calls, |old(calls)|, built.value, m)
    {
      r := Conclude(false, true, early, late);
      ghost var from := calls;
      r := RecoverFaucetJob(Unspent(true), patience);
      forall m ensures SubmittedTo(calls, |old(calls)|, built.value, m) {
        assert SubmittedTo(calls, |from|, built.value, m);
      }
    }

    /** A whole faucet job with any crashes, failed saves, recovery attempts and guard runs: at
        most one transaction is ever built, every submission and every priority is about it,
        and every submission finds its raw form on disk. So does every raise, unless the third
        save, of the transaction just built, fails after the first two landed. */
    method RunJob(p: Prepared, patience: nat, rounds: nat)
      requires Valid() && alive && prepares == 0 && calls == []
      requires context == savedContext == FRESH_CONTEXT && ledger == savedLedger == None
      modifies this
      ensures Valid() && prepares <= 1
      ensures OneTransaction(calls)
      ensures RaisedOffDisk(calls) ==> UnsavedThrough(old(disk), 0) && NoneAsks(old(polls), 2)
    {
      ghost var unsaved := UnsavedThrough(disk, 0) && NoneAsks(polls, 2);
      var executed := Execute(p, patience);
      if !executed.Crash? {
        var abort: bool, early: nat, late: nat := *, *, *;
        executed := Conclude(executed.Ok?, abort, early, late);
      }
      if executed.Crash? { Restart(); }
      for k := 0 to rounds
        invariant Valid() && alive && (!unsaved ==> Recorded() && !RaisedOffDisk(calls))
      {
        Round(patience, !unsaved);
      }
      AboutOne(calls, built);
    }

    /** A crash, a retried save, a run of the guard or a recovery attempt: what was recorded stays
        recorded, and no raise is made off disk. */
    method Round(patience: nat, ghost recorded: bool)
      requires Valid() && alive && (recorded ==> Recorded() && !RaisedOffDisk(calls))
      modifies this
      ensures Valid() && alive && (recorded ==> Recorded() && !RaisedOffDisk(calls))
    {
      var step: nat, found: Finding, n: nat, conflict: bool := *, *, *, *;
      var r;
      match step {
        case 0 =>
          alive := false;
          r := Crash;
        case 1 => r := Note(n);
        case 2 =>
          if ledger.Some? && ledger.value.pending { r := RecoverPendingTransfer(conflict); } else { r := Err; }
        case _ =>
          assert recorded && context.raw.Some? ==> Durable();
          r := RecoverFaucetJob(found, patience);
      }
      if r.Crash? { Restart(); }
    }
  }

  /** Counts the polls made so far. */
  lemma AskedMore(start: seq<bool>, before: seq<bool>, after: seq<bool>, asked: nat, abortable: bool, once: bool) returns (n: nat)
    requires abortable ==> before == After(start, asked) && NoneAsks(start, asked)
    requires abortable ==> exists k :: k > 0 && after == After(before, k) && NoneAsks(before, k)
    requires abortable && once ==> after == After(before, 1) && !Asks(before, 0)
    ensures n > asked && (abortable ==> after == After(start, n) && NoneAsks(start, n)) && (!abortable || once ==> n == asked + 1)
  {
    n := asked + 1;
    if abortable {
      var k :| k > 0 && after == After(before, k) && NoneAsks(before, k);
      if once { k := 1; }
      n := asked + k;
      NoneAsksJoined(start, asked, k);
      assert once ==> NoneAsks(before, 1);
    }
  }

  lemma StillSubmitted(before: seq<Call>, calls: seq<Call>, from: nat, p: Prepared)
    requires before <= calls
    ensures forall m | SubmittedTo(before, from, p, m) :: SubmittedTo(calls, from, p, m)
    ensures from <= |before| ==> forall m | SubmittedTo(calls, |before|, p, m) :: SubmittedTo(calls, from, p, m)
  {
    forall m | SubmittedTo(before, from, p, m) ensures SubmittedTo(calls, from, p, m) {
      var i :| from <= i < |before| && before[i] == Submit(m, p.raw, p.txid, true);
      assert calls[i] == before[i];
    }
  }

  lemma OneMoreRaised(calls: seq<Call>, more: seq<Call>, from: nat)
    requires RaisedFirst(calls, from) && |more| == |calls| + 1 && calls <= more && !more[|calls|].Submit?
    ensures RaisedFirst(more, from)
  {
    forall i | from <= i < |more| && more[i].Submit? ensures RaisedBefore(more, from, i, more[i].miner) {
      assert more[i] == calls[i];
      RaisedStays(calls, more, from, i, calls[i].miner);
    }
  }

  lemma SubmittedAfterRaise(calls: seq<Call>, more: seq<Call>, from: nat)
    requires RaisedFirst(calls, from) && |more| == |calls| + 1 && calls <= more && from < |calls|
    requires from < |calls| - 1 && calls[|calls| - 2].Raise? && more[|calls|].Submit? && calls[|calls| - 2].miner == more[|calls|].miner
    ensures RaisedFirst(more, from)
  {
    forall i | from <= i < |more| && more[i].Submit? ensures RaisedBefore(more, from, i, more[i].miner) {
      if i < |calls| {
        assert more[i] == calls[i];
        RaisedStays(calls, more, from, i, calls[i].miner);
      } else {
        assert more[|calls| - 2] == calls[|calls| - 2];
      }
    }
  }

  lemma CheckedAfter(calls: seq<Call>, more: seq<Call>, from: nat)
    requires RaisedFirst(calls, from) && calls <= more && forall i | |calls| <= i < |more| :: !more[i].Submit?
    ensures RaisedFirst(more, from)
  {
    forall i | from <= i < |more| && more[i].Submit? ensures RaisedBefore(more, from, i, more[i].miner) {
      assert more[i] == calls[i];
      RaisedStays(calls, more, from, i, calls[i].miner);
    }
  }

  lemma SubmitsAfterRaises(start: seq<Call>, raised: seq<Call>, calls: seq<Call>)
    requires start <= raised <= calls && (forall i | |start| <= i < |raised| :: raised[i].Raise?)
    requires forall m :: RaisedBefore(raised, |start|, |raised|, m)
    ensures BothRaisedFirst(calls, |start|)
  {
    assert forall h | |start| <= h < |raised| :: calls[h] == raised[h];
    forall i, m | |start| <= i < |calls| && calls[i].Submit? ensures RaisedBefore(calls, |start|, i, m) {
      assert RaisedBefore(raised, |start|, |raised|, m);
      var k :| |start| <= k < |raised| && raised[k].Raise? && raised[k].miner == m;
      assert calls[k] == raised[k];
    }
  }

  /** All calls name one txid, all submissions carry one raw transaction, and each of them was on
      disk when it was sent. */
  ghost predicate OneTransaction(calls: seq<Call>) {
    forall a, b | a in calls && b in calls :: a.txid == b.txid && (a.Submit? ==> a.durable && (b.Submit? ==> a.raw == b.raw))
  }

  lemma AboutOne(calls: seq<Call>, built: Option<Prepared>)
    requires AllAbout(calls, built)
    ensures OneTransaction(calls)
  {
    forall c | c in calls ensures About(c, built) {
      var i :| 0 <= i < |calls| && calls[i] == c;
      assert AboutAt(calls, i, built);
    }
  }
}
