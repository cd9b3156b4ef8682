/** Bounded histories: drop the oldest records that may go, keep the rest in order. */
module Pruning {

  /** The elements to keep, in order. */
  function Only<T>(keep: T -> bool, s: seq<T>): (kept: seq<T>)
    ensures |kept| <= |s|
  {
    if s == [] then [] else (if keep(s[0]) then [s[0]] else []) + Only(keep, s[1..])
  }

  lemma Associates<T>(a: seq<T>, b: seq<T>, c: seq<T>)
    ensures a + (b + c) == (a + b) + c
  {
  }

  lemma {:induction false} OnlyConcat<T>(keep: T -> bool, a: seq<T>, b: seq<T>)
    ensures Only(keep, a + b) == Only(keep, a) + Only(keep, b)
  {
    if a == [] {
      assert a + b == b;
    } else {
      OnlyConcat(keep, a[1..], b);
      assert (a + b)[0] == a[0] && (a + b)[1..] == a[1..] + b;
      Associates(if keep(a[0]) then [a[0]] else [], Only(keep, a[1..]), Only(keep, b));
    }
  }

  lemma {:induction false} OnlyOfOnly<T>(keep: T -> bool, s: seq<T>)
    ensures Only(keep, Only(keep, s)) == Only(keep, s)
  {
    if s != [] {
      OnlyOfOnly(keep, s[1..]);
      var rest := Only(keep, s[1..]);
      assert ([s[0]] + rest)[1..] == rest && [] + rest == rest;
    }
  }

  /** Drop the first `k` elements that need not be kept. */
  function DropOldest<T>(keep: T -> bool, s: seq<T>, k: nat): seq<T>
    decreases s
  {
    if k == 0 || s == [] then s
    else if keep(s[0]) then [s[0]] + DropOldest(keep, s[1..], k)
    else DropOldest(keep, s[1..], k - 1)
  }

  /** Dropping cuts the history at one point: before it only kept elements stay, in order, and
      from it on everything stays. */
  lemma {:induction false} DropCutsOnce<T>(keep: T -> bool, s: seq<T>, k: nat) returns (cut: nat)
    ensures cut <= |s| && DropOldest(keep, s, k) == Only(keep, s[..cut]) + s[cut..]
    ensures cut - |Only(keep, s[..cut])| <= k
    ensures cut < |s| ==> cut - |Only(keep, s[..cut])| == k
    decreases s
  {
    if k == 0 || s == [] {
      assert s[..0] == [] && s[0..] == s;
      return 0;
    }
    var rest := DropCutsOnce(keep, s[1..], if keep(s[0]) then k else k - 1);
    cut := rest + 1;
    assert s[..cut][1..] == s[1..][..rest] && s[..cut][0] == s[0];
    assert s[cut..] == s[1..][rest..];
  }

  /** Removing the first element that may go leaves one less to drop. */
  lemma {:induction false} RemovesFirst<T>(keep: T -> bool, s: seq<T>, at: nat, k: nat)
    requires at < |s| && k > 0 && !keep(s[at]) && forall i | 0 <= i < at :: keep(s[i])
    ensures DropOldest(keep, s, k) == DropOldest(keep, s[..at] + s[at + 1..], k - 1)
    decreases at
  {
    var less := s[..at] + s[at + 1..];
    if at == 0 {
      assert less == s[1..];
    } else {
      RemovesFirst(keep, s[1..], at - 1, k);
      assert less[0] == s[0] && less[1..] == s[1..][..at - 1] + s[1..][at..];
      if k == 1 {
        assert [s[0]] + less[1..] == less;
      }
    }
  }

  lemma {:induction false} DropAgrees<T(!new)>(keep: T -> bool, other: T -> bool, s: seq<T>, k: nat)
    requires forall x :: keep(x) == other(x)
    ensures DropOldest(keep, s, k) == DropOldest(other, s, k)
    decreases s
  {
    if k > 0 && s != [] {
      DropAgrees(keep, other, s[1..], if keep(s[0]) then k else k - 1);
    }
  }

  lemma {:induction false} DropsOnly<T>(keep: T -> bool, s: seq<T>, k: nat)
    ensures forall x | x in DropOldest(keep, s, k) :: x in s
    ensures forall x | x in s && keep(x) :: x in DropOldest(keep, s, k)
    decreases s
  {
    if k > 0 && s != [] {
      DropsOnly(keep, s[1..], if keep(s[0]) then k else k - 1);
      assert s == [s[0]] + s[1..];
    }
  }

  lemma {:induction false} AllKept<T>(keep: T -> bool, s: seq<T>)
    requires forall i | 0 <= i < |s| :: keep(s[i])
    ensures Only(keep, s) == s
  {
    if s != [] {
      assert forall i | 0 <= i < |s[1..]| :: s[1..][i] == s[i + 1];
      AllKept(keep, s[1..]);
    }
  }
}
