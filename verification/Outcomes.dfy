/** Small types shared by the protocols. */
module Words {

  const U64_MAX: nat := 0xFFFF_FFFF_FFFF_FFFF

  type u64 = x: nat | x <= U64_MAX
}

/** Jobs of the control plane, by id. */
module JobIds {

  type JobId = nat
}

module Options {

  datatype Option<+T> = None | Some(value: T)
}

module Replies {

  /** A remote or durable call. `Err` says nothing about whether the call took effect; `Crash`
      ends the process before the reply, with or without the effect. */
  datatype Reply<+T> = Ok(value: T) | Err | Crash

  /** Pass a failed reply on. */
  function Down<T, U>(r: Reply<T>): Reply<U>
    requires !r.Ok?
  {
    if r.Crash? then Crash else Err
  }

  /** A call whose effect does not matter here. */
  method Attempt() returns (r: Reply<()>)
  {
    var fault, crash: bool := *, *;
    return if !fault then Ok(()) else if crash then Crash else Err;
  }
}

/** The saves to come, each of which reaches the disk or does not. */
module Disks {

  /** Whether the save `k` saves from now reaches the disk; a disk fails finitely often. */
  predicate Lands(disk: seq<bool>, k: nat) { k >= |disk| || disk[k] }

  function After(disk: seq<bool>, k: nat): seq<bool> { if k <= |disk| then disk[k..] else [] }

  /** One of the next `n` saves reaches the disk. */
  predicate AnyLands(disk: seq<bool>, n: nat) { exists k :: 0 <= k < n && Lands(disk, k) }

  lemma AfterAfter(disk: seq<bool>, j: nat, k: nat)
    ensures After(After(disk, j), k) == After(disk, j + k)
    ensures Lands(After(disk, j), k) <==> Lands(disk, j + k)
  {
  }

  lemma AnyLandsMore(disk: seq<bool>, n: nat)
    ensures AnyLands(disk, n + 1) <==> AnyLands(disk, n) || Lands(disk, n)
    ensures AnyLands(disk, 1) <==> Lands(disk, 0)
  {
  }

  lemma AnyLandsJoined(disk: seq<bool>, j: nat, k: nat)
    ensures AnyLands(disk, j + k) <==> AnyLands(disk, j) || AnyLands(After(disk, j), k)
  {
    if AnyLands(disk, j + k) {
      var i :| 0 <= i < j + k && Lands(disk, i);
      if i >= j { AfterAfter(disk, j, i - j); }
    }
    if AnyLands(After(disk, j), k) {
      var i :| 0 <= i < k && Lands(After(disk, j), i);
      AfterAfter(disk, j, i);
      assert Lands(disk, j + i);
    }
  }
}

/** The answers to the coming polls for an abort; beyond them nobody asks for one. */
module Polls {
  import opened Disks

  /** Whether the poll `k` polls from now finds an abort requested. */
  predicate Asks(polls: seq<bool>, k: nat) { k < |polls| && polls[k] }

  /** None of the next `n` polls finds an abort requested. */
  predicate NoneAsks(polls: seq<bool>, n: nat) { forall k :: 0 <= k < n ==> !Asks(polls, k) }

  lemma NoneAsksMore(polls: seq<bool>, n: nat)
    ensures NoneAsks(polls, n + 1) <==> NoneAsks(polls, n) && !Asks(polls, n)
    ensures Asks(After(polls, n), 0) <==> Asks(polls, n)
    ensures After(After(polls, n), 1) == After(polls, n + 1)
  {
  }

  lemma NoneAsksJoined(polls: seq<bool>, n: nat, k: nat)
    ensures NoneAsks(polls, n + k) <==> NoneAsks(polls, n) && NoneAsks(After(polls, n), k)
    ensures After(After(polls, n), k) == After(polls, n + k)
  {
    if NoneAsks(polls, n + k) {
      forall i | 0 <= i < k ensures !Asks(After(polls, n), i) {
        var at := n + i;
        assert !Asks(polls, at);
      }
    }
    if NoneAsks(polls, n) && NoneAsks(After(polls, n), k) {
      forall i | 0 <= i < n + k ensures !Asks(polls, i) {
        if i >= n { assert !Asks(After(polls, n), i - n); }
      }
    }
  }
}
