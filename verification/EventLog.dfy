/** The job event log: numbered events, per-job files with one rotation, the in-memory ring, and
    paging (crates/control-plane/src/job_store.rs, crates/control-plane/src/jobs.rs). A crash
    may fall between any two file operations. A record and its newline are two writes, and
    either may fail halfway or after taking effect. */
module EventLog {
  import Disks
  import opened Options
  import opened Polls
  import opened Replies
  import opened JobIds
  import Sorting

  const EVENT_FILE_LIMIT: nat := 2 * 1024 * 1024
  const EVENT_RING_CAPACITY: nat := 2048
  const MAX_EVENT_PAGE: nat := 500

  datatype Event = Event(sequence: nat, job: JobId, size: nat)

  /** `torn` marks a line with half a record or with two: such a file no longer parses. `open`
      says that the last record has no newline yet: it reads, but the next write joins its line. */
  datatype File = File(events: seq<Event>, size: nat, torn: bool, open: bool)
  /** The two files of a job. `dropped` is no part of the program's state: it recalls what
      earlier rotations removed, for the statements below. */
  datatype Log = Log(rotated: Option<File>, main: Option<File>, dropped: seq<Event>)

  function EventsOf(f: Option<File>): seq<Event> { if f.Some? then f.value.events else [] }
  function SizeOf(f: Option<File>): nat { if f.Some? then f.value.size else 0 }
  predicate Torn(f: Option<File>) { f.Some? && f.value.torn }

  const NEW_FILE := File([], 0, false, false)

  function Contents(l: Log): seq<Event> { EventsOf(l.rotated) + EventsOf(l.main) }

  predicate Readable(l: Log) { !Torn(l.rotated) && !Torn(l.main) }

  /** The next record written would join an unfinished line. */
  predicate Open(l: Log) { l.main.Some? && l.main.value.open }

  // The quantified facts below are stated through one-position predicates, which keeps the
  // solver from instantiating them at every sequence element in sight.

  predicate Ordered(s: seq<Event>, i: int, j: int) { 0 <= i < j < |s| ==> s[i].sequence < s[j].sequence }
  predicate BelowAt(s: seq<Event>, i: int, n: nat) { 0 <= i < |s| ==> s[i].sequence < n }
  predicate ApartAt(s: seq<Event>, i: int, j: int) { 0 <= i < j < |s| ==> s[i].sequence != s[j].sequence }

  /** Sequence numbers rise strictly. */
  ghost predicate Rising(s: seq<Event>) { forall i, j :: Ordered(s, i, j) }

  ghost predicate Below(s: seq<Event>, n: nat) { forall i :: BelowAt(s, i, n) }

  /** No two events of the list share a number. */
  ghost predicate Apart(s: seq<Event>) { forall i, j :: ApartAt(s, i, j) }

  lemma RisingGrows(s: seq<Event>, e: Event)
    requires Rising(s) && Below(s, e.sequence)
    ensures Rising(s + [e]) && Below(s + [e], e.sequence + 1)
  {
    var t, n := s + [e], e.sequence + 1;
    forall i, j ensures Ordered(t, i, j) {
      assert Ordered(s, i, j) && BelowAt(s, i, e.sequence);
    }
    forall i ensures BelowAt(t, i, n) {
      assert BelowAt(s, i, e.sequence);
    }
  }

  lemma RisingRest(s: seq<Event>)
    requires Rising(s) && s != []
    ensures Rising(s[1..]) && forall x | x in s[1..] :: s[0].sequence < x.sequence
  {
    forall i, j ensures Ordered(s[1..], i, j) {
      assert Ordered(s, i + 1, j + 1);
    }
    forall x | x in s[1..] ensures s[0].sequence < x.sequence {
      var i :| 0 <= i < |s[1..]| && s[1..][i] == x;
      assert Ordered(s, 0, i + 1);
    }
  }

  lemma ConsRises(e: Event, s: seq<Event>)
    requires Rising(s) && forall x | x in s :: e.sequence < x.sequence
    ensures Rising([e] + s)
  {
    forall i, j ensures Ordered([e] + s, i, j) {
      assert Ordered(s, i - 1, j - 1);
      assert 0 < j <= |s| ==> s[j - 1] in s;
    }
  }

  // ---------------------------------------------------------------- reading

  predicate NotAfter(a: Event, b: Event) { a.sequence <= b.sequence }

  function Sort(s: seq<Event>): seq<Event> { Sorting.Sort(NotAfter, s) }

  function Dedup(s: seq<Event>): seq<Event>
    decreases |s|
  {
    if |s| < 2 then s else if s[0].sequence == s[1].sequence then Dedup([s[0]] + s[2..]) else [s[0]] + Dedup(s[1..])
  }

  /** On what the log holds, sorting and removing duplicates change nothing. */
  lemma {:induction false} ReadingKeepsOrder(s: seq<Event>)
    requires Rising(s)
    ensures Sort(s) == s && Dedup(s) == s
    decreases |s|
  {
    RisingIsSorted(s);
    Sorting.SortedStays(NotAfter, s);
    if s != [] {
      var rest := s[1..];
      RisingRest(s);
      ReadingKeepsOrder(rest);
      assert rest != [] ==> rest[0] in rest;
      assert s == [s[0]] + rest;
    }
  }

  lemma {:induction false} RisingIsSorted(s: seq<Event>)
    requires Rising(s)
    ensures Sorting.Sorted(NotAfter, s)
  {
    if s != [] {
      RisingRest(s);
      RisingIsSorted(s[1..]);
    }
  }

  /** Sorted events with different numbers rise. */
  lemma {:induction false} SortedRises(s: seq<Event>)
    requires Sorting.Sorted(NotAfter, s) && Apart(s)
    ensures Rising(s)
  {
    if s != [] {
      var rest := s[1..];
      forall i, j ensures ApartAt(rest, i, j) {
        assert ApartAt(s, i + 1, j + 1);
      }
      SortedRises(rest);
      forall x | x in rest ensures s[0].sequence < x.sequence {
        var i :| 0 <= i < |rest| && rest[i] == x;
        assert ApartAt(s, 0, i + 1);
      }
      assert s == [s[0]] + rest;
      ConsRises(s[0], rest);
    }
  }

  /** Being apart does not depend on the order. */
  lemma ApartAgain(a: seq<Event>, b: seq<Event>)
    requires Apart(a) && multiset(a) == multiset(b)
    ensures Apart(b)
  {
    forall i, j ensures ApartAt(b, i, j) {
      if 0 <= i < j < |b| && b[i].sequence == b[j].sequence {
        TwoOf(b, i, j);
        assert b[i] in multiset(b) && b[j] in multiset(b);
        assert b[i] in a && b[j] in a;
        var k :| 0 <= k < |a| && a[k] == b[i];
        var l :| 0 <= l < |a| && a[l] == b[j];
        assert ApartAt(a, k, l) && ApartAt(a, l, k);
        OnceIn(a, k);
      }
    }
  }

  lemma TwoOf(s: seq<Event>, i: nat, j: nat)
    requires i < j < |s|
    ensures s[i] == s[j] ==> multiset(s)[s[i]] >= 2
  {
    assert s == s[..j] + [s[j]] + s[j + 1..];
    assert s[..j][i] == s[i] && s[i] in multiset(s[..j]);
  }

  lemma OnceIn(s: seq<Event>, k: nat)
    requires Apart(s) && k < |s|
    ensures multiset(s)[s[k]] == 1
  {
    var before, later := s[..k], s[k + 1..];
    assert s == before + [s[k]] + later;
    forall i | 0 <= i < |before| ensures before[i] != s[k] {
      assert ApartAt(s, i, k);
    }
    forall i | 0 <= i < |later| ensures later[i] != s[k] {
      assert ApartAt(s, k, k + 1 + i);
    }
  }

  lemma SortRises(s: seq<Event>)
    requires Apart(s)
    ensures Rising(Sort(s)) && |Sort(s)| == |s| && forall x :: x in Sort(s) <==> x in s
  {
    Sorting.SortKeeps(NotAfter, s);
    Sorting.SortSorts(NotAfter, s);
    ApartAgain(s, Sort(s));
    SortedRises(Sort(s));
    forall x ensures x in Sort(s) <==> x in s {
      assert x in multiset(Sort(s)) <==> x in multiset(s);
    }
  }

  // ---------------------------------------------------------------- paging

  datatype Page = Page(events: seq<Event>, next: nat)

  function After(s: seq<Event>, after: nat): seq<Event> {
    if s == [] then [] else (if s[0].sequence > after then [s[0]] else []) + After(s[1..], after)
  }

  function Clamp(limit: nat): nat { if limit < 1 then 1 else if limit > MAX_EVENT_PAGE then MAX_EVENT_PAGE else limit }

  function PageOf(contents: seq<Event>, after: nat, limit: nat): Page {
    var later := After(contents, after);
    var page := if |later| > Clamp(limit) then later[..Clamp(limit)] else later;
    Page(page, if page == [] then after else page[|page| - 1].sequence)
  }

  lemma {:induction false} AfterMembers(s: seq<Event>, after: nat)
    ensures forall e :: e in After(s, after) <==> e in s && e.sequence > after
  {
    if s != [] {
      AfterMembers(s[1..], after);
      assert s == [s[0]] + s[1..];
    }
  }

  lemma {:induction false} AfterRises(s: seq<Event>, after: nat)
    requires Rising(s)
    ensures Rising(After(s, after))
  {
    if s != [] {
      var rest := s[1..];
      RisingRest(s);
      AfterRises(rest, after);
      AfterMembers(rest, after);
      if s[0].sequence > after {
        ConsRises(s[0], After(rest, after));
      } else {
        assert [] + After(rest, after) == After(rest, after);
      }
    }
  }

  /** A page holds, in order and once each, exactly the readable events between the cursor and
      the new cursor; it is as long as was asked for, within 1 and 500, or else shows everything
      newer, and it is empty only when nothing newer is readable. */
  lemma PageIsExact(contents: seq<Event>, after: nat, limit: nat)
    requires Rising(contents)
    ensures var p, asked := PageOf(contents, after, limit), if limit == 0 then 1 else if limit > 500 then 500 else limit;
      && Rising(p.events) && |p.events| <= asked && p.next >= after
      && (|p.events| < asked ==> forall e | e in contents && e.sequence > after :: e in p.events)
      && (forall e :: e in p.events <==> e in contents && after < e.sequence <= p.next)
      && (p.events == [] <==> forall e | e in contents :: e.sequence <= after)
      && (p.events == [] ==> p.next == after)
  {
    AfterMembers(contents, after);
    AfterRises(contents, after);
    var later := After(contents, after);
    if later != [] {
      assert later[0] in later;
      PrefixBySequence(later, if |later| > Clamp(limit) then Clamp(limit) else |later|);
      assert later[..|later|] == later;
    }
  }

  /** A prefix of a rising list is everything up to its last number. */
  lemma PrefixBySequence(s: seq<Event>, k: nat)
    requires Rising(s) && 0 < k <= |s|
    ensures Rising(s[..k]) && forall e :: e in s[..k] <==> e in s && e.sequence <= s[k - 1].sequence
    ensures s[k - 1] in s
  {
    forall i, j ensures Ordered(s[..k], i, j) {
      assert Ordered(s, i, j);
    }
    forall e ensures e in s[..k] <==> e in s && e.sequence <= s[k - 1].sequence {
      if e in s {
        var i :| 0 <= i < |s| && s[i] == e;
        assert Ordered(s, i, k - 1) && Ordered(s, k - 1, i);
        assert i < k ==> s[..k][i] == e;
      }
      if e in s[..k] {
        var i :| 0 <= i < k && s[..k][i] == e;
        assert Ordered(s, i, k - 1) && s[i] == e;
      }
    }
  }

  lemma {:induction false} AllNewer(s: seq<Event>, after: nat)
    requires Rising(s) && (s != [] ==> s[0].sequence > after)
    ensures After(s, after) == s
  {
    if s != [] {
      RisingRest(s);
      assert s[1..] != [] ==> s[1..][0] in s[1..];
      AllNewer(s[1..], after);
      assert s == [s[0]] + s[1..];
    }
  }

  /** The newer events of a rising list are its end. */
  lemma {:induction false} NewerIsEnd(s: seq<Event>, n: nat)
    requires Rising(s) && n < |s|
    ensures After(s, s[n].sequence) == s[n + 1..]
  {
    var rest := s[1..];
    RisingRest(s);
    if n == 0 {
      assert rest != [] ==> rest[0] in rest;
      AllNewer(rest, s[0].sequence);
    } else {
      assert rest[n - 1] == s[n] && s[n] in rest;
      NewerIsEnd(rest, n - 1);
      assert rest[n..] == s[n + 1..];
    }
  }

  lemma {:induction false} AfterIsEnd(s: seq<Event>, after: nat) returns (i: nat)
    requires Rising(s)
    ensures i <= |s| && After(s, after) == s[i..]
  {
    if s == [] || s[0].sequence > after {
      AllNewer(s, after);
      return 0;
    }
    RisingRest(s);
    i := AfterIsEnd(s[1..], after);
    assert s[1..][i..] == s[i + 1..];
    i := i + 1;
  }

  lemma RestOfEnd(s: seq<Event>, i: nat, n: nat)
    requires 0 < n && i + n <= |s|
    ensures s[i..][n - 1] == s[i + n - 1] && s[i..][n..] == s[i + n..]
  {
  }

  lemma AfterCut(s: seq<Event>, after: nat, n: nat)
    requires Rising(s) && 0 < n <= |After(s, after)|
    ensures After(s, After(s, after)[n - 1].sequence) == After(s, after)[n..]
  {
    var i := AfterIsEnd(s, after);
    RestOfEnd(s, i, n);
    NewerIsEnd(s, i + n - 1);
  }

  /** A page is the beginning of what is newer. */
  lemma PageCuts(contents: seq<Event>, after: nat, limit: nat)
    ensures var p, later := PageOf(contents, after, limit), After(contents, after);
      && |p.events| == Least(|later|, Asked(limit)) && p.events == later[..|p.events|]
      && p.next == (if p.events == [] then after else later[|p.events| - 1].sequence) && (p.events == [] <==> later == [])
  {
  }

  /** What is newer than the last event of a page is what is left to show. */
  lemma PageLeaves(contents: seq<Event>, after: nat, limit: nat)
    requires Rising(contents)
    ensures var p := PageOf(contents, after, limit);
      After(contents, after) == p.events + After(contents, p.next) && |p.events| == Least(|After(contents, after)|, Asked(limit))
  {
    PageCuts(contents, after, limit);
    var n := |PageOf(contents, after, limit).events|;
    if n > 0 { LaterCut(contents, after, n); }
  }

  lemma LaterCut(contents: seq<Event>, after: nat, n: nat)
    requires Rising(contents) && 0 < n <= |After(contents, after)|
    ensures var later := After(contents, after); later == later[..n] + After(contents, later[n - 1].sequence)
  {
    AfterCut(contents, after, n);
  }

  function Least(a: nat, b: nat): nat { if a < b then a else b }

  /** The page length a request stands for. */
  function Asked(limit: nat): nat { if limit == 0 then 1 else Least(limit, 500) }

  function AskedInAll(limits: seq<nat>): nat { if limits == [] then 0 else Asked(limits[0]) + AskedInAll(limits[1..]) }

  /** What a reader is shown page by page while nothing is appended. */
  function Shown(contents: seq<Event>, cursor: nat, limits: seq<nat>): seq<Event>
    decreases |limits|
  {
    if limits == [] then []
    else
      var p := PageOf(contents, cursor, limits[0]);
      p.events + Shown(contents, p.next, limits[1..])
  }

  /** Pages add up: after any pages a reader has seen exactly the oldest newer events, as many as
      it asked for in all, and so everything once it asked for enough. */
  lemma {:induction false} PagesAddUp(contents: seq<Event>, cursor: nat, limits: seq<nat>)
    requires Rising(contents)
    ensures var later := After(contents, cursor);
            Shown(contents, cursor, limits) == later[..Least(|later|, AskedInAll(limits))]
    decreases |limits|
  {
    if limits != [] {
      var p, later := PageOf(contents, cursor, limits[0]), After(contents, cursor);
      PageLeaves(contents, cursor, limits[0]);
      PagesAddUp(contents, p.next, limits[1..]);
      var n := Least(|After(contents, p.next)|, AskedInAll(limits[1..]));
      assert later[..|p.events| + n] == p.events + After(contents, p.next)[..n];
    }
  }

  /** A reader's account: what it was shown is in order, once each, and nothing still readable
      up to its cursor is missing. */
  ghost predicate Complete(contents: seq<Event>, seen: seq<Event>, from: nat, cursor: nat) {
    && from <= cursor && Rising(seen) && (forall e | e in seen :: from < e.sequence <= cursor)
    && (forall e | e in contents && from < e.sequence <= cursor :: e in seen)
  }

  lemma NextPage(contents: seq<Event>, seen: seq<Event>, from: nat, cursor: nat, limit: nat)
    requires Rising(contents) && Complete(contents, seen, from, cursor)
    ensures var p := PageOf(contents, cursor, limit); Complete(contents, seen + p.events, from, p.next)
  {
    PageIsExact(contents, cursor, limit);
    var p := PageOf(contents, cursor, limit);
    JoinRises(seen, p.events, cursor);
  }

  lemma JoinRises(a: seq<Event>, b: seq<Event>, n: nat)
    requires Rising(a) && Rising(b) && (forall x | x in a :: x.sequence <= n) && (forall x | x in b :: n < x.sequence)
    ensures Rising(a + b)
  {
    forall i, j ensures Ordered(a + b, i, j) {
      assert Ordered(a, i, j) && Ordered(b, i - |a|, j - |a|);
      if 0 <= i < |a| <= j < |a + b| {
        assert a[i] in a && b[j - |a|] in b;
      }
    }
  }

  /** Dropping old events and appending newer ones keeps the account. */
  lemma MovesOn(before: seq<Event>, now: seq<Event>, next: nat, seen: seq<Event>, from: nat, cursor: nat)
    requires Complete(before, seen, from, cursor) && (cursor == from || cursor < next)
    requires forall e | e in now :: e in before || e.sequence >= next
    ensures Complete(now, seen, from, cursor)
  {
  }

  // ---------------------------------------------------------------- one job's files

  /** Records and their newlines. */
  function Bytes(s: seq<Event>): nat { if s == [] then 0 else s[0].size + 1 + Bytes(s[1..]) }

  lemma {:induction false} BytesGrow(s: seq<Event>, e: Event)
    ensures Bytes(s + [e]) == Bytes(s) + e.size + 1
  {
    if s != [] {
      assert (s + [e])[1..] == s[1..] + [e];
      BytesGrow(s[1..], e);
    }
  }

  ghost predicate Measured(f: Option<File>) {
    f.Some? && !f.value.torn ==> Bytes(f.value.events) == f.value.size + if f.value.open then 1 else 0
  }

  /** Everything ever appended: what rotations dropped, then what the log holds. */
  ghost function Appended(l: Log): seq<Event> { l.dropped + Contents(l) }

  /** Appended events rise; some were dropped only if a full file's worth of bytes is still
      there. */
  ghost predicate Faithful(l: Log) {
    && Rising(Appended(l)) && Measured(l.rotated) && Measured(l.main)
    && (l.dropped != [] ==> SizeOf(l.rotated) + SizeOf(l.main) >= EVENT_FILE_LIMIT)
  }

  /** The log after the rotated file is removed, and after the main file takes its place. */
  function Removed(l: Log): Log { Log(None, l.main, l.dropped + EventsOf(l.rotated)) }
  function Renamed(l: Log): Log { Log(l.main, None, l.dropped + EventsOf(l.rotated)) }

  /** The two halves of a rotation, at either of which a crash may fall, drop at most the
      rotated file and keep a full file. */
  lemma RotationIsFaithful(l: Log)
    requires Faithful(l) && SizeOf(l.main) >= EVENT_FILE_LIMIT
    ensures Faithful(Removed(l)) && Faithful(Renamed(l))
    ensures Appended(Removed(l)) == Appended(Renamed(l)) == Appended(l)
  {
    RotationKeeps(l);
  }

  lemma RotationKeeps(l: Log)
    ensures Appended(Removed(l)) == Appended(Renamed(l)) == Appended(l)
  {
    assert Appended(Removed(l)) == Appended(l);
    assert Appended(Renamed(l)) == Appended(l);
  }

  /** A log that parses and ever took an event still has one. */
  lemma ReadableIsNotEmpty(l: Log)
    requires Faithful(l) && Readable(l) && Appended(l) != []
    ensures Contents(l) != []
  {
  }

  /** A whole record is in the main file, without its newline. */
  function Recorded(l: Log, e: Event): Log {
    var f := if l.main.Some? then l.main.value else NEW_FILE;
    l.(main := Some(File(f.events + [e], f.size + e.size, f.torn || f.open, true)))
  }

  /** The newline follows. */
  function Terminated(l: Log): Log
    requires l.main.Some?
  {
    l.(main := Some(l.main.value.(size := l.main.value.size + 1, open := false)))
  }

  function Written(l: Log, e: Event): Log { Terminated(Recorded(l, e)) }

  lemma WriteIsFaithful(l: Log, e: Event)
    requires Faithful(l) && Below(Appended(l), e.sequence)
    ensures Faithful(Recorded(l, e)) && Appended(Recorded(l, e)) == Appended(l) + [e] && e in Contents(Recorded(l, e))
    ensures Faithful(Written(l, e)) && Appended(Written(l, e)) == Appended(l) + [e] && e in Contents(Written(l, e))
  {
    BytesGrow(EventsOf(l.main), e);
    RisingGrows(Appended(l), e);
    assert Contents(Recorded(l, e)) == Contents(l) + [e] == Contents(Written(l, e));
    assert Appended(Recorded(l, e)) == Appended(l) + [e] == Appended(Written(l, e));
  }

  /** A crash between a record and its newline: the log still reads, with that event, but the
      next complete append makes it unreadable. */
  lemma AppendAfterLostNewline(l: Log, lost: Event, e: Event)
    requires Readable(l)
    ensures !Open(l) ==> Readable(Recorded(l, lost))
    ensures Open(Recorded(l, lost)) && Contents(Recorded(l, lost)) == Contents(l) + [lost]
    ensures !Readable(Written(Recorded(l, lost), e))
  {
    assert Contents(Recorded(l, lost)) == Contents(l) + [lost];
  }

  /** A write that failed halfway: some bytes of a line, or an empty new file. */
  function Spoiled(l: Log, bytes: nat, torn: bool): Log {
    var f := if l.main.Some? then l.main.value else NEW_FILE;
    l.(main := Some(if torn then f.(size := f.size + bytes, torn := true) else f))
  }

  lemma SpoiledIsFaithful(l: Log, bytes: nat, torn: bool)
    requires Faithful(l)
    ensures Faithful(Spoiled(l, bytes, torn)) && Appended(Spoiled(l, bytes, torn)) == Appended(l)
  {
    assert Contents(Spoiled(l, bytes, torn)) == Contents(l);
  }

  /** One operation on a file or on the index, as scheduled. */
  method Operation(fails: seq<bool>, k: nat) returns (r: Reply<()>)
    ensures r.Ok? <==> !Asks(fails, k)
  {
    var crash: bool := *;
    return if !Asks(fails, k) then Ok(()) else if crash then Crash else Err;
  }

  predicate Full(l: Log) { SizeOf(l.main) >= EVENT_FILE_LIMIT }

  /** How many operations an append needs: two to rotate a file measured to be full, four to write. */
  function Needed(l: Log, measured: bool): nat { if Full(l) && measured then 6 else 4 }

  /** Make room: a full main file becomes the rotated one. An error leaves the rotated file alone
      or, if the second operation failed, removed. */
  method Rotate(l: Log, fails: seq<bool>, measured: bool) returns (r: Reply<()>, after: Log)
    requires Faithful(l)
    ensures Faithful(after) && Appended(after) == Appended(l) && l.dropped <= after.dropped
    ensures Readable(l) ==> Readable(after)
    ensures r.Ok? <==> (Full(l) && measured ==> NoneAsks(fails, 2))
    ensures r.Ok? ==> after == if Full(l) && measured then Renamed(l) else l
    ensures r.Err? ==> after == if Asks(fails, 0) then l else Removed(l)
  {
    NoneAsksMore(fails, 0);
    NoneAsksMore(fails, 1);
    after := l;
    if !Full(l) || !measured { return Ok(()), after; }
    RotationIsFaithful(l);
    var effect: bool := *;
    r := Operation(fails, 0);
    if r.Ok? || (r.Crash? && effect) { after := Removed(l); }
    if !r.Ok? { return; }
    r := Operation(fails, 1);
    if r.Ok? || (r.Crash? && effect) { after := Renamed(l); }
  }

  /** What a successful append means for later reads: a readable log whose last line was
      finished stays readable; an unfinished line swallows the new record, except that a full
      file may have moved away in time. */
  predicate Successful(before: Log, after: Log) {
    && !Open(after)
    && (Readable(before) && !Open(before) ==> Readable(after))
    && (Open(before) && SizeOf(before.main) < EVENT_FILE_LIMIT ==> !Readable(after))
  }

  /** Open the file, write the record, its newline, and sync: an operation each. */
  method WriteEvent(l: Log, e: Event, fails: seq<bool>) returns (r: Reply<()>, after: Log)
    requires Faithful(l) && Below(Appended(l), e.sequence)
    ensures Faithful(after) && l.dropped == after.dropped
    ensures Appended(after) == Appended(l) || Appended(after) == Appended(l) + [e]
    ensures r.Ok? <==> NoneAsks(fails, 4)
    ensures r.Ok? ==> after == Written(l, e) && Appended(after) == Appended(l) + [e] && e in Contents(after)
    ensures Asks(fails, 0) ==> after == l
    ensures NoneAsks(fails, 2) ==> after == Recorded(l, e) || after == Written(l, e)
  {
    NoneAsksMore(fails, 0);
    NoneAsksMore(fails, 1);
    NoneAsksMore(fails, 2);
    NoneAsksMore(fails, 3);
    after := l;
    r := Operation(fails, 0);
    if !r.Ok? { return; }
    r := Operation(fails, 1);
    var whole, torn: bool, bytes: nat := *, *, *;
    WriteIsFaithful(after, e);
    SpoiledIsFaithful(after, bytes, torn);
    after := if r.Ok? || whole then Recorded(after, e) else Spoiled(after, bytes, torn);
    if !r.Ok? { return; }
    r := Operation(fails, 2);
    var landed: bool := *;
    if r.Ok? || landed { after := Terminated(after); }
    if !r.Ok? { return; }
    r := Operation(fails, 3);
  }

  /** Append one event. Every file operation may fail or be the last one; the event counts as
      appended once its whole record is in the file. It succeeds exactly if none of the operations
      it needs fails; then the file is rotated if it is full, and takes the record and its newline. */
  method AppendEvent(l: Log, e: Event, fails: seq<bool>, measured: bool) returns (r: Reply<()>, after: Log)
    requires Faithful(l) && Below(Appended(l), e.sequence)
    ensures Faithful(after) && l.dropped <= after.dropped
    ensures Appended(after) == Appended(l) || Appended(after) == Appended(l) + [e]
    ensures r.Ok? ==> Appended(after) == Appended(l) + [e] && e in Contents(after) && Successful(l, after)
    ensures r.Ok? <==> NoneAsks(fails, Needed(l, measured))
    ensures r.Ok? ==> after == Written(if Full(l) && measured then Renamed(l) else l, e)
    ensures r.Ok? && measured && SizeOf(l.main) >= 2 * 1024 * 1024 ==> after.rotated == l.main && SizeOf(after.main) == e.size + 1
  {
    r, after := Rotate(l, fails, measured);
    if !r.Ok? {
      assert !NoneAsks(fails, Needed(l, measured));
      return;
    }
    var first := if Full(l) && measured then 2 else 0;
    NoneAsksJoined(fails, first, 4);
    r, after := WriteEvent(after, e, Disks.After(fails, first));
  }

  /** Read a log back: rotated file first, then sorted and deduplicated. It parses exactly when
      no line holds half a record or two, whether or not the last one has its newline, and it is
      then what was appended less what was dropped. */
  method ReadEvents(l: Log) returns (r: Option<seq<Event>>)
    requires Faithful(l)
    ensures r.Some? <==> Readable(l)
    ensures r.Some? ==> r.value == Contents(l) && l.dropped + r.value == Appended(l) && Rising(r.value)
  {
    if !Readable(l) { return None; }
    var events := Contents(l);
    RisingTail(l.dropped, events);
    ReadingKeepsOrder(events);
    return Some(Dedup(Sort(events)));
  }

  lemma RisingTail(a: seq<Event>, b: seq<Event>)
    requires Rising(a + b)
    ensures Rising(b)
  {
    forall i, j ensures Ordered(b, i, j) {
      assert Ordered(a + b, |a| + i, |a| + j);
    }
  }

  // ---------------------------------------------------------------- the coordinator's feed

  type Shelf = map<JobId, Log>

  function LogOf(logs: Shelf, j: JobId): Log { if j in logs then logs[j] else EMPTY }

  const EMPTY := Log(None, None, [])

  predicate IssuedAt(s: seq<Event>, i: int, j: JobId, issued: map<nat, JobId>, next: nat) {
    0 <= i < |s| ==> s[i].sequence < next && s[i].sequence in issued && issued[s[i].sequence] == j
  }

  /** Every event of `s` carries a number below `next` that was issued to job `j`. */
  ghost predicate IssuedTo(s: seq<Event>, j: JobId, issued: map<nat, JobId>, next: nat) {
    forall i :: IssuedAt(s, i, j, issued, next)
  }

  ghost predicate Kept(l: Log, j: JobId, issued: map<nat, JobId>, next: nat) {
    Faithful(l) && IssuedTo(Appended(l), j, issued, next)
  }

  ghost function KeptUnder(issued: map<nat, JobId>, next: nat): (Log, JobId) -> bool {
    (l: Log, j: JobId) => Kept(l, j, issued, next)
  }

  ghost predicate Each(fits: (Log, JobId) -> bool, logs: Shelf) { forall j | j in logs :: fits(logs[j], j) }

  ghost predicate AllKept(logs: Shelf, issued: map<nat, JobId>, next: nat) { Each(KeptUnder(issued, next), logs) }

  predicate InLog(logs: Shelf, j: JobId, e: Event) { j in logs && e in Contents(logs[j]) }

  /** A log that only grew: appended events stay, and what can be read now could be read before
      or is numbered from `next` on. */
  ghost predicate Grew(before: Log, after: Log, next: nat) {
    (forall i :: StaysAt(before, after, i)) && (forall e :: OldOrNew(e, before, after, next))
  }

  ghost predicate StaysAt(before: Log, after: Log, i: int) {
    0 <= i < |Appended(before)| ==> i < |Appended(after)| && Appended(after)[i] == Appended(before)[i]
  }

  predicate OldOrNew(e: Event, before: Log, after: Log, next: nat) {
    e in Contents(after) ==> e in Contents(before) || e.sequence >= next
  }

  /** Only job `j`'s log changed, and it only grew. */
  ghost predicate Gained(before: Shelf, after: Shelf, j: JobId, next: nat) {
    && after.Keys == before.Keys && (forall k | k in after && k != j :: after[k] == before[k])
    && (j in after ==> Grew(before[j], after[j], next))
  }

  lemma GainsNothing(logs: Shelf, j: JobId, next: nat)
    ensures Gained(logs, logs, j, next)
  {
  }

  lemma KeptIsBelow(logs: Shelf, issued: map<nat, JobId>, next: nat, j: JobId)
    requires AllKept(logs, issued, next) && j in logs
    ensures Faithful(logs[j]) && Below(Appended(logs[j]), next)
  {
    var all := Appended(logs[j]);
    forall i ensures BelowAt(all, i, next) {
      assert IssuedAt(all, i, j, issued, next);
    }
  }

  lemma BelowMore(s: seq<Event>, n: nat, m: nat)
    requires Below(s, n) && n <= m
    ensures Below(s, m)
  {
    forall i ensures BelowAt(s, i, m) {
      assert BelowAt(s, i, n);
    }
  }

  /** Issuing the next number leaves every log kept, and so is the log the event goes to. */
  lemma IssuingKeeps(l: Log, j: JobId, issued: map<nat, JobId>, next: nat, other: JobId)
    requires Kept(l, j, issued, next)
    ensures Kept(l, j, issued[next := other], next + 1)
  {
    var all, more, n := Appended(l), issued[next := other], next + 1;
    forall i ensures IssuedAt(all, i, j, more, n) {
      assert IssuedAt(all, i, j, issued, next);
    }
  }

  lemma NextKept(l: Log, after: Log, e: Event, j: JobId, issued: map<nat, JobId>, next: nat)
    requires Kept(l, j, issued, next) && Faithful(after) && e.sequence == next
    requires Appended(after) == Appended(l) || Appended(after) == Appended(l) + [e]
    ensures Kept(after, j, issued[next := j], next + 1)
  {
    var all, more, n := Appended(after), issued[next := j], next + 1;
    forall i ensures IssuedAt(all, i, j, more, n) {
      assert IssuedAt(Appended(l), i, j, issued, next);
    }
  }

  lemma OnlyNew(l: Log, after: Log, e: Event, next: nat)
    requires l.dropped <= after.dropped && e.sequence == next
    requires Appended(after) == Appended(l) || Appended(after) == Appended(l) + [e]
    ensures Grew(l, after, next)
  {
    forall x ensures OldOrNew(x, l, after, next) {
      if x in Contents(after) {
        var i :| 0 <= i < |Contents(after)| && Contents(after)[i] == x;
        assert Appended(after)[|after.dropped| + i] == x;
      }
    }
  }

  lemma AllStayKept(logs: Shelf, issued: map<nat, JobId>, next: nat, after: Log, j: JobId)
    requires AllKept(logs, issued, next) && j in logs && Kept(after, j, issued[next := j], next + 1)
    ensures AllKept(logs[j := after], issued[next := j], next + 1)
  {
    forall k | k in logs && k != j ensures Kept(logs[k], k, issued[next := j], next + 1) {
      IssuingKeeps(logs[k], k, issued, next, j);
    }
  }

  lemma OneGains(logs: Shelf, after: Log, j: JobId, next: nat)
    requires j in logs && Grew(logs[j], after, next)
    ensures Gained(logs, logs[j := after], j, next)
  {
  }

  /** With one log replaced, everything parses if that log does. */
  lemma OneLogMoves(before: Shelf, after: Shelf, js: set<JobId>, j: JobId)
    requires j in js && j in after && AllReadable(before, js) && forall k | k != j :: LogOf(after, k) == LogOf(before, k)
    ensures AllReadable(after, js) <==> Readable(after[j])
  {
    if AllReadable(after, js) { assert Readable(LogOf(after, j)); }
  }

  method AppendOn(logs: Shelf, ghost issued: map<nat, JobId>, next: nat, j: JobId, e: Event, calm: bool)
    returns (r: Reply<()>, after: Shelf, ghost more: map<nat, JobId>)
    requires AllKept(logs, issued, next) && j in logs && e.sequence == next && e.job == j
    ensures AllKept(after, more, next + 1) && after.Keys == logs.Keys && Gained(logs, after, j, next)
    ensures more == issued[next := j]
    ensures r.Ok? ==> InLog(after, j, e) && Successful(logs[j], after[j])
    ensures calm ==> r.Ok?
  {
    KeptIsBelow(logs, issued, next, j);
    var log;
    var fails: seq<bool>, measured: bool := *, *;
    if calm { fails, measured := [], true; }
    r, log := AppendEvent(logs[j], e, fails, measured);
    AppendedOn(logs, issued, next, log, j, e);
    after, more := logs[j := log], issued[next := j];
  }

  lemma AppendedOn(logs: Shelf, issued: map<nat, JobId>, next: nat, log: Log, j: JobId, e: Event)
    requires AllKept(logs, issued, next) && j in logs && Faithful(log) && logs[j].dropped <= log.dropped && e.sequence == next
    requires Appended(log) == Appended(logs[j]) || Appended(log) == Appended(logs[j]) + [e]
    ensures AllKept(logs[j := log], issued[next := j], next + 1)
    ensures Gained(logs, logs[j := log], j, next)
  {
    KeptWith(logs, issued, next, log, j, e);
    GainedWith(logs, next, log, j, e);
  }

  lemma KeptWith(logs: Shelf, issued: map<nat, JobId>, next: nat, log: Log, j: JobId, e: Event)
    requires AllKept(logs, issued, next) && j in logs && Faithful(log) && e.sequence == next
    requires Appended(log) == Appended(logs[j]) || Appended(log) == Appended(logs[j]) + [e]
    ensures AllKept(logs[j := log], issued[next := j], next + 1)
  {
    var l := logs[j];
    assert Kept(log, j, issued[next := j], next + 1) by { NextKept(l, log, e, j, issued, next); }
    AllStayKept(logs, issued, next, log, j);
  }

  lemma GainedWith(logs: Shelf, next: nat, log: Log, j: JobId, e: Event)
    requires j in logs && logs[j].dropped <= log.dropped && e.sequence == next
    requires Appended(log) == Appended(logs[j]) || Appended(log) == Appended(logs[j]) + [e]
    ensures Gained(logs, logs[j := log], j, next)
  {
    OnlyNew(logs[j], log, e, next);
    OneGains(logs, log, j, next);
  }

  /** In a readable log the last appended event is still there, so a bound on what can be read
      bounds everything ever appended. */
  lemma LastIsStored(l: Log, n: nat)
    requires Faithful(l) && Readable(l) && Below(Contents(l), n)
    ensures Below(Appended(l), n)
  {
    var all, s := Appended(l), Contents(l);
    if l.dropped == [] {
      assert all == s;
    } else {
      assert s != [] && all[|all| - 1] == s[|s| - 1];
      forall i ensures BelowAt(all, i, n) {
        assert Ordered(all, i, |all| - 1) && BelowAt(s, |s| - 1, n);
      }
    }
  }

  /** Joining the events of one more job. */
  lemma JoinApart(all: seq<Event>, s: seq<Event>, j: JobId, issued: map<nat, JobId>, next: nat)
    requires Apart(all) && Rising(s) && IssuedTo(s, j, issued, next)
    requires forall i | 0 <= i < |all| :: all[i].sequence in issued && issued[all[i].sequence] != j
    ensures Apart(all + s)
  {
    forall i, k ensures ApartAt(all + s, i, k) {
      assert ApartAt(all, i, k) && Ordered(s, i - |all|, k - |all|) && IssuedAt(s, k - |all|, j, issued, next);
    }
  }

  /** One past the largest number of a sorted list. */
  function PastLast(s: seq<Event>): nat { if s == [] then 0 else s[|s| - 1].sequence + 1 }

  // ---------------------------------------------------------------- reading everything back

  /** The logs of the listed jobs. */
  function Found(logs: Shelf, js: set<JobId>): Shelf { map j | j in js :: LogOf(logs, j) }

  predicate AllReadable(logs: Shelf, js: set<JobId>) { forall j | j in js :: Readable(LogOf(logs, j)) }

  ghost predicate StoredIn(e: Event, logs: Shelf, js: set<JobId>) {
    exists j :: j in js && j in logs && e in Contents(logs[j])
  }

  /** The list holds exactly the events of the listed jobs, no two with one number. */
  ghost predicate Gathers(all: seq<Event>, logs: Shelf, js: set<JobId>, issued: map<nat, JobId>) {
    && Apart(all) && (forall e :: e in all <==> StoredIn(e, logs, js))
    && forall i | 0 <= i < |all| :: all[i].sequence in issued && issued[all[i].sequence] in js
  }

  lemma GatherOne(all: seq<Event>, logs: Shelf, js: set<JobId>, issued: map<nat, JobId>, next: nat, j: JobId)
    requires Gathers(all, logs, js, issued) && j !in js && j in logs && Kept(logs[j], j, issued, next)
    ensures Gathers(all + Contents(logs[j]), logs, js + {j}, issued)
  {
    var s := Contents(logs[j]);
    ContentsIssued(logs[j], j, issued, next);
    forall i | 0 <= i < |s| ensures s[i].sequence in issued && issued[s[i].sequence] == j {
      assert IssuedAt(s, i, j, issued, next);
    }
    RisingTail(logs[j].dropped, s);
    JoinApart(all, s, j, issued, next);
    forall e ensures e in all + s <==> StoredIn(e, logs, js + {j}) {
      if StoredIn(e, logs, js + {j}) && e !in s {
        var k :| k in js + {j} && k in logs && e in Contents(logs[k]);
        assert StoredIn(e, logs, js);
      }
      if e in all {
        var k :| k in js && k in logs && e in Contents(logs[k]);
        assert k in js + {j};
      }
      if e in s { assert j in js + {j}; }
    }
  }

  /** All events of the listed jobs, sorted. It fails exactly when some log does not parse. */
  method ReadAll(logs: Shelf, js: set<JobId>, ghost issued: map<nat, JobId>, ghost next: nat) returns (r: Option<seq<Event>>)
    requires AllKept(logs, issued, next)
    ensures r.Some? <==> AllReadable(logs, js)
    ensures r.Some? ==> Lists(r.value, logs, js)
  {
    var all, rest := [], js;
    ghost var done: set<JobId> := {};
    while rest != {}
      invariant rest + done == js && rest !! done
      invariant AllReadable(logs, done) && Gathers(all, logs, done, issued)
      decreases rest
    {
      var j :| j in rest;
      rest := rest - {j};
      if j in logs {
        KeptIsBelow(logs, issued, next, j);
        var events := ReadEvents(logs[j]);
        if events.None? { return None; }
        GatherOne(all, logs, done, issued, next, j);
        all := all + events.value;
      } else {
        NothingToGather(all, logs, done, issued, j);
      }
      done := done + {j};
    }
    SortRises(all);
    return Some(Sort(all));
  }

  lemma NothingToGather(all: seq<Event>, logs: Shelf, js: set<JobId>, issued: map<nat, JobId>, j: JobId)
    requires Gathers(all, logs, js, issued) && j !in logs
    ensures Gathers(all, logs, js + {j}, issued)
  {
    forall e ensures StoredIn(e, logs, js + {j}) <==> StoredIn(e, logs, js) {
      if StoredIn(e, logs, js) {
        var k :| k in js && k in logs && e in Contents(logs[k]);
        assert k in js + {j};
      }
    }
  }

  class EventFeed {
    const calm: bool              // no file operation fails
    var logs: Shelf
    var jobs: set<JobId>
    var next: nat
    var ring: seq<Event>
    var savedJobs: set<JobId>
    var savedNext: nat
    ghost var issued: map<nat, JobId>

    ghost predicate Valid()
      reads this
    {
      && savedNext <= next && jobs <= logs.Keys
      && Rising(ring) && Below(ring, next) && |ring| <= EVENT_RING_CAPACITY
      && AllKept(logs, issued, next)
    }

    constructor (calm: bool)
      ensures Valid() && next == 1 && jobs == {} && this.calm == calm
    {
      this.calm := calm;
      logs, jobs, next, ring, savedJobs, savedNext := map[], {}, 1, [], {}, 1;
      issued := map[];
    }

    method Save() returns (r: Reply<()>)
      modifies this`savedJobs, this`savedNext
      ensures r.Ok? ==> savedJobs == jobs && savedNext == next
      ensures (savedJobs == jobs && savedNext == next) || (savedJobs == old(savedJobs) && savedNext == old(savedNext))
      ensures calm ==> r.Ok?
    {
      var fails: bool := *;
      r := Operation([fails && !calm], 0);
      var effect: bool := *;
      if r.Ok? || (r.Crash? && effect) { savedJobs, savedNext := jobs, next; }
    }

    method NewJob(j: JobId)
      requires Valid() && j !in logs
      modifies this`logs, this`jobs, this`savedJobs, this`savedNext
      ensures Valid() && jobs == old(jobs) + {j} && logs == old(logs)[j := EMPTY] && (calm ==> savedJobs == jobs)
    {
      logs, jobs := logs[j := EMPTY], jobs + {j};
      var _ := Save();
    }

    /** A trimmed job loses its log before the index is saved. */
    method Trim(j: JobId)
      requires Valid()
      modifies this`logs, this`jobs, this`savedJobs, this`savedNext
      ensures Valid() && jobs == old(jobs) - {j} && logs == old(logs) - {j} && (calm ==> savedJobs == jobs)
    {
      logs, jobs := logs - {j}, jobs - {j};
      var _ := Save();
    }

    /** Number, append and publish an event. Its number is above every number in any stored log
        and at or above the saved counter, even when earlier saves failed or a crash fell between
        an append and its save. Only the job's own log changes. If nothing fails the event is
        emitted exactly if the job is known; then the ring gains it and loses its oldest event
        if it was full. */
    method Emit(j: JobId, size: nat) returns (r: Reply<Event>)
      requires Valid()
      modifies this`logs, this`next, this`issued, this`ring, this`savedJobs, this`savedNext
      ensures Valid() && old(next) <= next && Gained(old(logs), logs, j, old(next)) && jobs == old(jobs)
      ensures r.Ok? ==> j in old(logs) && j in jobs && r.value == Event(old(next), j, size)
      ensures r.Ok? ==> InLog(logs, j, r.value) && Successful(old(logs)[j], logs[j]) && savedJobs == jobs
      ensures ring == old(ring) || (r.Ok? && ring == Newest(old(ring) + [r.value]) && r.value in ring)
      ensures !r.Ok? ==> ring == old(ring)
      ensures r.Ok? ==> ring == (if |old(ring)| < 2048 then old(ring) else old(ring)[1..]) + [r.value] && savedNext == next
      ensures calm && j in jobs ==> r.Ok?
      ensures r.Ok? ==> j in logs && r.value in Contents(logs[j])
    {
      GainsNothing(logs, j, next);
      if j !in jobs { return Err; }
      BelowMore(ring, next, next + 1);
      var called, e := AppendNext(j, size);
      if !called.Ok? { return Down(called); }
      r := Publish(e);
    }

    method AppendNext(j: JobId, size: nat) returns (r: Reply<()>, e: Event)
      requires AllKept(logs, issued, next) && j in logs
      modifies this`logs, this`next, this`issued
      ensures AllKept(logs, issued, next) && next == old(next) + 1
      ensures logs.Keys == old(logs).Keys && Gained(old(logs), logs, j, old(next))
      ensures e == Event(old(next), j, size) && (r.Ok? ==> InLog(logs, j, e) && Successful(old(logs)[j], logs[j]))
      ensures calm ==> r.Ok?
    {
      e := Event(next, j, size);
      var after;
      ghost var more;
      r, after, more := AppendOn(logs, issued, next, j, e, calm);
      logs, issued, next := after, more, next + 1;
    }

    method Publish(e: Event) returns (r: Reply<Event>)
      requires Rising(ring) && Below(ring, e.sequence) && |ring| <= EVENT_RING_CAPACITY
      requires savedNext <= next && e.sequence < next
      modifies this`ring, this`savedJobs, this`savedNext
      ensures Rising(ring) && Below(ring, next) && |ring| <= EVENT_RING_CAPACITY && savedNext <= next
      ensures r.Ok? ==> r.value == e && savedJobs == jobs && savedNext == next
      ensures ring == if r.Ok? then Newest(old(ring) + [e]) else old(ring)
      ensures r.Ok? ==> e in ring && ring == (if |old(ring)| < 2048 then old(ring) else old(ring)[1..]) + [e]
      ensures calm ==> r.Ok?
    {
      BelowMore(ring, e.sequence, next);
      var saved := Save();
      if !saved.Ok? { return Down(saved); }
      Pushed(ring, e, next);
      ring := Newest(ring + [e]);
      return Ok(e);
    }

    /** Start again from the files and the saved index. If every log parses, the counter is the
        least one at or above the saved one and past every stored number, the ring holds the
        newest stored events, and nothing stored is lost. */
    method Restart() returns (ok: bool)
      requires Valid()
      modifies this
      ensures ok <==> AllReadable(old(logs), old(savedJobs))
      ensures !ok ==> unchanged(this)
      ensures ok ==> Valid() && jobs == old(savedJobs) && logs == Found(old(logs), jobs) && next >= old(savedNext)
      ensures ok ==> Resumes(ring, next, old(savedNext), logs, jobs)
    {
      var read := ReadAll(logs, savedJobs, issued, next);
      if read.None? { return false; }
      Reopen(read.value);
      return true;
    }

    /** What the feed starts from, given all readable events in order. */
    method Reopen(events: seq<Event>)
      requires Valid() && AllReadable(logs, savedJobs) && Lists(events, logs, savedJobs)
      modifies this`logs, this`jobs, this`ring, this`next
      ensures Valid() && jobs == savedJobs && logs == Found(old(logs), jobs)
      ensures Resumes(ring, next, savedNext, logs, jobs)
    {
      var past, found := Past(events, savedNext), Found(logs, savedJobs);
      ReopensKept(logs, savedJobs, issued, next, events, past);
      ReopensNewest(logs, savedJobs, events, savedNext);
      Resume(found, past, Newest(events));
    }

    method Resume(found: Shelf, past: nat, newest: seq<Event>)
      requires savedNext <= past && savedJobs <= found.Keys && AllKept(found, issued, past)
      requires Rising(newest) && Below(newest, past) && |newest| <= EVENT_RING_CAPACITY
      modifies this`logs, this`jobs, this`ring, this`next
      ensures Valid() && logs == found && jobs == savedJobs && next == past && ring == newest
    {
      logs, jobs, next, ring := found, savedJobs, past, newest;
    }

    /** An event, then a restart, of a feed whose logs all parse: the event is in the log, yet the
        process starts again exactly if the log's last line was finished before. */
    method EmitAndRestart(j: JobId, size: nat) returns (r: Reply<Event>, ok: bool)
      requires Valid() && AllReadable(logs, jobs)
      modifies this
      ensures Valid()
      ensures r.Ok? ==> j in old(logs)
      ensures r.Ok? && SizeOf(old(logs)[j].main) < EVENT_FILE_LIMIT ==> (ok <==> !Open(old(logs)[j]))
      ensures calm && j in old(jobs) ==> r.Ok?
      ensures r.Ok? && ok ==> InLog(logs, j, r.value)
    {
      ghost var before := logs;
      r := Emit(j, size);
      if r.Ok? { OneLogMoves(before, logs, jobs, j); }
      ok := Restart();
    }

    /** One page, of one job's log or of the ring. */
    method Events(job: Option<JobId>, after: nat, limit: nat) returns (r: Option<Page>)
      requires Valid()
      ensures job.None? ==> r == Some(PageOf(ring, after, limit))
      ensures job.Some? ==> (r.Some? <==> job.value in jobs && Readable(logs[job.value]))
      ensures job.Some? && r.Some? ==> r.value == PageOf(Contents(logs[job.value]), after, limit) && Rising(Contents(logs[job.value]))
    {
      if job.None? { return Some(PageOf(ring, after, limit)); }
      if job.value !in jobs { return None; }
      KeptIsBelow(logs, issued, next, job.value);
      var events := ReadEvents(logs[job.value]);
      if events.None? { return None; }
      return Some(PageOf(events.value, after, limit));
    }

    /** A client pages through one job's events while anyone appends and the process restarts in
        between: nothing is shown twice, order is kept, and every event up to the cursor that
        can still be read has been shown. */
    method FollowJob(j: JobId, from: nat, limits: seq<nat>) returns (seen: seq<Event>, cursor: nat)
      requires Valid() && j in jobs
      modifies this
      ensures Valid() && (j in jobs ==> Complete(Contents(logs[j]), seen, from, cursor))
      ensures Rising(seen) && forall e | e in seen :: e.sequence > from
    {
      seen, cursor := [], from;
      for k := 0 to |limits|
        invariant Valid() && j in jobs && Account(logs[j], seen, from, cursor)
      {
        var alive := SomethingHappens(j, seen, from, cursor);
        if !alive { return; }
        seen, cursor := ShowPage(j, seen, from, cursor, limits[k]);
      }
    }

    /** Someone emits an event, a job is added or trimmed, or the process restarts; then the log
        may be gone, or unreadable. */
    method SomethingHappens(j: JobId, ghost seen: seq<Event>, ghost from: nat, ghost cursor: nat) returns (alive: bool)
      requires Valid() && j in jobs && Account(logs[j], seen, from, cursor)
      modifies this
      ensures Valid() && (j in jobs ==> Account(logs[j], seen, from, cursor)) && (alive ==> j in jobs)
    {
      var step: nat, other: JobId, size: nat := *, *, *;
      match step {
        case 0 =>
          alive := Restart();
          return alive && j in jobs;
        case 1 =>
          if other !in logs { NewJob(other); }
        case 2 =>
          Trim(other);
        case _ =>
          ghost var before, bound := logs, next;
          PassedIsBelow(logs, issued, next, j, from, cursor);
          var _ := Emit(other, size);
          StaysComplete(before, logs, other, bound, j, seen, from, cursor);
      }
      return j in jobs;
    }

    /** The next page is added to what was shown, unless the log no longer parses. */
    method ShowPage(j: JobId, seen: seq<Event>, ghost from: nat, cursor: nat, limit: nat) returns (more: seq<Event>, next: nat)
      requires Valid() && j in jobs && Account(logs[j], seen, from, cursor)
      ensures Account(logs[j], more, from, next)
      ensures Readable(logs[j]) ==>
                && more == seen + After(Contents(logs[j]), cursor)[..Least(|After(Contents(logs[j]), cursor)|, Asked(limit))]
                && After(Contents(logs[j]), cursor) == more[|seen|..] + After(Contents(logs[j]), next)
    {
      var page := Events(Some(j), cursor, limit);
      if page.None? { return seen, cursor; }
      NextPage(Contents(logs[j]), seen, from, cursor, limit);
      PagePasses(logs[j], from, cursor, limit);
      PageLeaves(Contents(logs[j]), cursor, limit);
      return seen + page.value.events, page.value.next;
    }

    /** The same for the ring of all jobs, while the process stays up. */
    method FollowAll(from: nat, rounds: nat) returns (seen: seq<Event>, cursor: nat)
      requires Valid()
      modifies this
      ensures Valid() && Complete(ring, seen, from, cursor)
    {
      seen, cursor := [], from;
      for k := 0 to rounds
        invariant Valid() && Complete(ring, seen, from, cursor) && (cursor == from || cursor < next)
      {
        var other: JobId, size: nat, limit: nat := *, *, *;
        ghost var bound := next;
        ghost var before := ring;
        var r := Emit(other, size);
        RingMoves(before, ring, r, bound);
        MovesOn(before, ring, bound, seen, from, cursor);
        var page := Events(None, cursor, limit);
        NextPage(ring, seen, from, cursor, limit);
        RingPasses(ring, next, cursor, limit);
        seen, cursor := seen + page.value.events, page.value.next;
      }
    }

    /** Paging the ring across restarts, trims and failed saves: nothing is shown twice or out of
        order. Whether the account also stays complete is decided at each restart by
        `RestartKeepsAccount`. */
    method FollowAllThroughRestarts(from: nat, rounds: nat) returns (seen: seq<Event>, cursor: nat)
      requires Valid()
      modifies this
      ensures Valid() && from <= cursor && Rising(seen) && forall e | e in seen :: from < e.sequence <= cursor
    {
      seen, cursor := [], from;
      for k := 0 to rounds
        invariant Valid() && from <= cursor && Rising(seen) && forall e | e in seen :: from < e.sequence <= cursor
      {
        var step: nat, job: JobId, size: nat, limit: nat := *, *, *, *;
        match step {
          case 0 =>
            var ok := Restart();
            if !ok { return; }
          case 1 => if job !in logs { NewJob(job); }
          case 2 => Trim(job);
          case _ => var _ := Emit(job, size);
        }
        var page := Events(None, cursor, limit);
        PageIsExact(ring, cursor, limit);
        JoinRises(seen, page.value.events, cursor);
        seen, cursor := seen + page.value.events, page.value.next;
      }
    }
  }

  /** A reader's account of the ring survives a restart exactly if every event up to its cursor that
      the restart brings into the ring had been shown before. */
  lemma RestartKeepsAccount(before: seq<Event>, now: seq<Event>, seen: seq<Event>, from: nat, cursor: nat)
    requires Complete(before, seen, from, cursor)
    ensures Complete(now, seen, from, cursor) <==>
              forall e | e in now && e !in before && from < e.sequence <= cursor :: e in seen
  {
  }

  /** The cursor is where the client began, or the number of an appended event. */
  ghost predicate Passed(l: Log, from: nat, cursor: nat) {
    cursor == from || exists i | 0 <= i < |Appended(l)| :: Appended(l)[i].sequence == cursor
  }

  /** A reader of one job's log. */
  ghost predicate Account(l: Log, seen: seq<Event>, from: nat, cursor: nat) {
    Complete(Contents(l), seen, from, cursor) && Passed(l, from, cursor)
  }

  lemma PassedIsBelow(logs: Shelf, issued: map<nat, JobId>, next: nat, j: JobId, from: nat, cursor: nat)
    requires AllKept(logs, issued, next) && j in logs && Passed(logs[j], from, cursor)
    ensures cursor == from || cursor < next
  {
    KeptIsBelow(logs, issued, next, j);
    if cursor != from {
      var i :| 0 <= i < |Appended(logs[j])| && Appended(logs[j])[i].sequence == cursor;
      assert BelowAt(Appended(logs[j]), i, next);
    }
  }

  lemma StaysComplete(before: Shelf, after: Shelf, other: JobId, next: nat, j: JobId, seen: seq<Event>, from: nat, cursor: nat)
    requires Gained(before, after, other, next) && j in before && Account(before[j], seen, from, cursor)
    requires cursor == from || cursor < next
    ensures j in after && Account(after[j], seen, from, cursor)
  {
    if j == other {
      forall e | e in Contents(after[j]) ensures e in Contents(before[j]) || e.sequence >= next {
        assert OldOrNew(e, before[j], after[j], next);
      }
      MovesOn(Contents(before[j]), Contents(after[j]), next, seen, from, cursor);
      if cursor != from {
        var i :| 0 <= i < |Appended(before[j])| && Appended(before[j])[i].sequence == cursor;
        assert StaysAt(before[j], after[j], i);
      }
    }
  }

  lemma PagePasses(l: Log, from: nat, cursor: nat, limit: nat)
    requires Rising(Contents(l)) && Passed(l, from, cursor)
    ensures Passed(l, from, PageOf(Contents(l), cursor, limit).next)
  {
    var p := PageOf(Contents(l), cursor, limit);
    PageIsExact(Contents(l), cursor, limit);
    if p.events != [] {
      var last := p.events[|p.events| - 1];
      assert last in p.events;
      var i :| 0 <= i < |Contents(l)| && Contents(l)[i] == last;
      assert Appended(l)[|l.dropped| + i] == last;
    }
  }

  lemma RingMoves(before: seq<Event>, now: seq<Event>, r: Reply<Event>, next: nat)
    requires now == before || (r.Ok? && r.value.sequence == next && now == Newest(before + [r.value]))
    ensures forall e | e in now :: e in before || e.sequence >= next
  {
  }

  lemma RingPasses(ring: seq<Event>, next: nat, cursor: nat, limit: nat)
    requires Rising(ring) && Below(ring, next)
    ensures PageOf(ring, cursor, limit).next == cursor || PageOf(ring, cursor, limit).next < next
  {
    var p := PageOf(ring, cursor, limit);
    PageIsExact(ring, cursor, limit);
    if p.events != [] {
      var last := p.events[|p.events| - 1];
      assert last in p.events;
      var k :| 0 <= k < |ring| && ring[k] == last;
      assert BelowAt(ring, k, next);
    }
  }

  predicate EndsWith(s: seq<Event>, end: seq<Event>) { |end| <= |s| && s[|s| - |end|..] == end }

  /** The list holds the stored events of the listed jobs, in order. */
  ghost predicate Lists(all: seq<Event>, logs: Shelf, js: set<JobId>) {
    Rising(all) && forall e :: e in all <==> StoredIn(e, logs, js)
  }

  lemma FoundStores(logs: Shelf, js: set<JobId>)
    ensures forall e :: StoredIn(e, Found(logs, js), js) <==> StoredIn(e, logs, js)
  {
    forall e ensures StoredIn(e, Found(logs, js), js) <==> StoredIn(e, logs, js) {
      if StoredIn(e, Found(logs, js), js) {
        var j :| j in js && e in Contents(Found(logs, js)[j]);
        assert Contents(EMPTY) == [];
        assert j in logs;
      }
      if StoredIn(e, logs, js) {
        var j :| j in js && j in logs && e in Contents(logs[j]);
        assert Found(logs, js)[j] == logs[j];
      }
    }
  }

  /** The newest events that fit the ring. */
  function Newest(s: seq<Event>): seq<Event> {
    if |s| > EVENT_RING_CAPACITY then s[|s| - EVENT_RING_CAPACITY..] else s
  }

  lemma NewestPushes(s: seq<Event>, e: Event)
    requires |s| <= EVENT_RING_CAPACITY
    ensures Newest(s + [e]) == (if |s| < 2048 then s else s[1..]) + [e]
  {
  }

  lemma Pushed(ring: seq<Event>, e: Event, next: nat)
    requires Rising(ring) && Below(ring, e.sequence) && |ring| <= EVENT_RING_CAPACITY && e.sequence < next
    ensures var now := Newest(ring + [e]);
      && Rising(now) && Below(now, next) && |now| <= EVENT_RING_CAPACITY
      && e in now && now == (if |ring| < 2048 then ring else ring[1..]) + [e]
  {
    RisingGrows(ring, e);
    BelowMore(ring + [e], e.sequence + 1, next);
    NewestRises(ring + [e], next);
    NewestPushes(ring, e);
  }

  /** The ring holds the last 2048 of the stored events, or all of them. */
  ghost predicate HoldsNewest(ring: seq<Event>, logs: Shelf, js: set<JobId>) {
    exists all :: Lists(all, logs, js) && |ring| <= |all| && all[|all| - |ring|..] == ring && |ring| == if |all| < 2048 then |all| else 2048
  }

  /** The counter does not skip numbers that neither the index nor a log knows. */
  ghost predicate SkipsNone(next: nat, saved: nat, logs: Shelf, js: set<JobId>) {
    next == saved || exists e :: StoredIn(e, logs, js) && e.sequence + 1 == next
  }

  /** What a restart resumes with: the newest stored events, and a counter that skips nothing. */
  ghost predicate Resumes(ring: seq<Event>, next: nat, saved: nat, logs: Shelf, js: set<JobId>) {
    HoldsNewest(ring, logs, js) && SkipsNone(next, saved, logs, js)
  }

  /** The counter after a restart. */
  function Past(events: seq<Event>, saved: nat): nat { if PastLast(events) > saved then PastLast(events) else saved }

  /** What the feed starts from, given all readable events in order. */
  lemma ReopensKept(logs: Shelf, js: set<JobId>, issued: map<nat, JobId>, next: nat, events: seq<Event>, past: nat)
    requires AllKept(logs, issued, next) && AllReadable(logs, js) && Lists(events, logs, js) && PastLast(events) <= past
    ensures AllKept(Found(logs, js), issued, past)
    ensures Rising(Newest(events)) && Below(Newest(events), past) && |Newest(events)| <= EVENT_RING_CAPACITY
  {
    FoundIsKept(logs, js, issued, next, events, past);
    SortedBelow(events, past);
    NewestRises(events, past);
  }

  lemma ReopensNewest(logs: Shelf, js: set<JobId>, events: seq<Event>, saved: nat)
    requires Lists(events, logs, js)
    ensures Resumes(Newest(events), Past(events, saved), saved, Found(logs, js), js)
  {
    FoundStores(logs, js);
    assert Lists(events, Found(logs, js), js);
    SortedBelow(events, PastLast(events));
    NewestRises(events, PastLast(events));
    if events != [] { assert events[|events| - 1] in events; }
  }

  lemma NewestRises(s: seq<Event>, next: nat)
    requires Rising(s) && Below(s, next)
    ensures Rising(Newest(s)) && Below(Newest(s), next) && |Newest(s)| <= EVENT_RING_CAPACITY
    ensures s != [] ==> s[|s| - 1] in Newest(s)
    ensures EndsWith(s, Newest(s)) && |Newest(s)| == if |s| < 2048 then |s| else 2048
    ensures forall x | x in Newest(s) :: x in s
  {
    var skipped := |s| - |Newest(s)|;
    forall i, j ensures Ordered(Newest(s), i, j) {
      assert Ordered(s, skipped + i, skipped + j);
    }
    forall i ensures BelowAt(Newest(s), i, next) {
      assert BelowAt(s, skipped + i, next);
    }
    assert s != [] ==> Newest(s)[|Newest(s)| - 1] == s[|s| - 1];
  }

  lemma ContentsIssued(l: Log, j: JobId, issued: map<nat, JobId>, next: nat)
    requires Kept(l, j, issued, next)
    ensures IssuedTo(Contents(l), j, issued, next)
  {
    var s, all := Contents(l), Appended(l);
    forall i ensures IssuedAt(s, i, j, issued, next) {
      assert IssuedAt(all, |l.dropped| + i, j, issued, next);
    }
  }

  lemma SortedBelow(s: seq<Event>, n: nat)
    requires Rising(s) && PastLast(s) <= n
    ensures Below(s, n)
  {
    forall i ensures BelowAt(s, i, n) {
      assert Ordered(s, i, |s| - 1);
    }
  }

  lemma StoredIsBelow(l: Log, events: seq<Event>, n: nat)
    requires Rising(events) && PastLast(events) <= n && Faithful(l) && Readable(l) && forall e | e in Contents(l) :: e in events
    ensures Below(Appended(l), n)
  {
    SortedBelow(events, n);
    var s := Contents(l);
    forall i ensures BelowAt(s, i, n) {
      if 0 <= i < |s| {
        assert s[i] in events;
        var k :| 0 <= k < |events| && events[k] == s[i];
        assert BelowAt(events, k, n);
      }
    }
    LastIsStored(l, n);
  }

  /** The logs a restart finds, under the counter it computes. */
  lemma FoundIsKept(logs: Shelf, js: set<JobId>, issued: map<nat, JobId>, next: nat, events: seq<Event>, past: nat)
    requires AllKept(logs, issued, next) && Rising(events) && PastLast(events) <= past && AllReadable(logs, js)
    requires forall e :: e in events <==> StoredIn(e, logs, js)
    ensures AllKept(Found(logs, js), issued, past)
  {
    forall j | j in js ensures Kept(LogOf(logs, j), j, issued, past) {
      if j in logs {
        forall e | e in Contents(logs[j]) ensures e in events {
          assert StoredIn(e, logs, js);
        }
        StoredIsBelow(logs[j], events, past);
        KeptBelow(logs[j], j, issued, next, past);
      }
    }
  }

  lemma KeptBelow(l: Log, j: JobId, issued: map<nat, JobId>, next: nat, past: nat)
    requires Kept(l, j, issued, next) && Below(Appended(l), past)
    ensures Kept(l, j, issued, past)
  {
    var all := Appended(l);
    forall i ensures IssuedAt(all, i, j, issued, past) {
      assert IssuedAt(all, i, j, issued, next) && BelowAt(all, i, past);
    }
  }
}
