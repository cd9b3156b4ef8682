/** Scenario checkpoints: numbered occurrences, release by generation, and the waiting executor
    (crates/control-plane/src/jobs.rs). `next` and `checkpoints` are what the process works on;
    `savedNext` and `saved` are what a restart reads back, and `disk` tells which of the coming
    saves reach the disk. */
module Checkpoints {
  import opened Disks
  import opened JobIds
  import opened Options
  import opened Polls
  import opened Words

  datatype Id = Id(job: JobId, name: string)
  datatype Stage = Pending | Reached | Released | TimedOut
  datatype Checkpoint = Checkpoint(pause: bool, generation: nat, stage: Stage)
  datatype End = ByRelease | ByTimeout

  datatype Answer =
    | NotFound | NotReached | Stale | Milestone | Inactive | AlreadyTimedOut | NotSaved
    | Accepted(checkpoint: Checkpoint)
  datatype Waited = Passed(generation: nat) | Let(generation: nat) | Stopped(generation: nat) | Expired(generation: nat) | Failed

  type Board = map<Id, Checkpoint>

  function SaturatingNext(g: nat): nat { if g < U64_MAX then g + 1 else U64_MAX }

  /** A numbered checkpoint: zero exactly while pending, below the next generation unless
      saturated, the only one of its generation, and ended only if it pauses. */
  predicate Sane(i: Id, c: Checkpoint, next: nat, owner: map<nat, Id>) {
    && (c.stage.Pending? <==> c.generation == 0)
    && (c.generation < next || c.generation == U64_MAX)
    && (0 < c.generation < U64_MAX ==> c.generation in owner && owner[c.generation] == i)
    && (c.pause || c.stage.Pending? || c.stage.Reached?)
  }

  /** `owner` says which checkpoint each generation numbered. */
  ghost predicate Numbered(b: Board, next: nat, owner: map<nat, Id>) {
    && 1 <= next <= U64_MAX
    && (forall i | i in b :: Sane(i, b[i], next, owner))
    && (forall g | g in owner :: g < next)
  }

  /** How an occurrence of a running job relates to the ends recorded so far. */
  predicate Tracked(i: Id, c: Checkpoint, running: set<JobId>, ended: map<nat, End>) {
    i.job in running && c.generation != U64_MAX ==>
      && (c.stage.Reached? ==> c.generation !in ended)
      && (c.stage.Released? ==> c.generation in ended && ended[c.generation] == ByRelease)
      && (c.stage.TimedOut? ==> c.generation in ended && ended[c.generation] == ByTimeout)
  }

  ghost predicate Tracks(b: Board, running: set<JobId>, ended: map<nat, End>) {
    forall i | i in b :: Tracked(i, b[i], running, ended)
  }

  /** Handed-out generations rise strictly until they saturate. */
  ghost predicate Rising(s: seq<nat>) {
    forall i, j | 0 <= i < j < |s| :: s[i] < s[j] || s[i] == s[j] == U64_MAX
  }

  function Launched(b: Board, job: JobId, pauses: map<string, bool>): Board {
    b + map n | n in pauses :: Id(job, n) := Checkpoint(pauses[n], 0, Pending)
  }

  /** A launch leaves what was there and adds pending checkpoints of its own job. */
  lemma LaunchedEntry(b: Board, job: JobId, pauses: map<string, bool>, i: Id)
    requires i in Launched(b, job, pauses)
    ensures var c := Launched(b, job, pauses)[i]; (i in b && c == b[i]) || (i.job == job && c == Checkpoint(c.pause, 0, Pending))
  {
  }

  lemma LaunchedHas(b: Board, job: JobId, pauses: map<string, bool>, name: string)
    requires name in pauses
    ensures var id := Id(job, name);
            id in Launched(b, job, pauses) && Launched(b, job, pauses)[id] == Checkpoint(pauses[name], 0, Pending)
  {
  }

  lemma LaunchedNumbered(b: Board, next: nat, owner: map<nat, Id>, job: JobId, pauses: map<string, bool>)
    requires Numbered(b, next, owner)
    ensures Numbered(Launched(b, job, pauses), next, owner)
  {
    var c := Launched(b, job, pauses);
    forall i | i in c ensures Sane(i, c[i], next, owner) {
      LaunchedEntry(b, job, pauses, i);
    }
  }

  lemma LaunchedTracks(b: Board, job: JobId, pauses: map<string, bool>, ended: map<nat, End>)
    requires forall i | i in b :: i.job != job
    ensures Tracks(Launched(b, job, pauses), {job}, ended)
  {
    var c := Launched(b, job, pauses);
    forall i | i in c ensures Tracked(i, c[i], {job}, ended) {
      LaunchedEntry(b, job, pauses, i);
    }
  }

  function Ended(b: Board, id: Id, s: Stage): Board
    requires id in b
  {
    b[id := b[id].(stage := s)]
  }

  function Noted(ended: map<nat, End>, g: nat, e: End): map<nat, End> {
    if g < U64_MAX then ended[g := e] else ended
  }

  ghost predicate StillEnded(before: map<nat, End>, now: map<nat, End>) {
    forall g | g in before && g < U64_MAX :: g in now && now[g] == before[g]
  }

  /** Ending a waiting occurrence of a running job: it had not ended before, and no other
      occurrence is affected. */
  lemma EndsOnce(b: Board, next: nat, owner: map<nat, Id>, running: set<JobId>, ended: map<nat, End>, id: Id, e: End)
    requires Numbered(b, next, owner) && Tracks(b, running, ended) && (forall g | g in ended :: g < next)
    requires id in b && id.job in running && b[id].pause && b[id].stage.Reached?
    ensures var s := if e == ByRelease then Released else TimedOut;
      && Numbered(Ended(b, id, s), next, owner) && Tracks(Ended(b, id, s), running, Noted(ended, b[id].generation, e))
      && (b[id].generation < U64_MAX ==> b[id].generation !in ended)
      && (forall g | g in Noted(ended, b[id].generation, e) :: g < next)
      && StillEnded(ended, Noted(ended, b[id].generation, e))
  {
    var c := Ended(b, id, if e == ByRelease then Released else TimedOut);
    forall i | i in c
      ensures Sane(i, c[i], next, owner)
      ensures i != id && c[i].generation == c[id].generation ==> c[i].generation in {0, U64_MAX}
    {
      assert Sane(i, b[i], next, owner) && Sane(id, b[id], next, owner);
    }
  }

  /** The board after the next generation numbers an arrival. */
  function Arrived(b: Board, id: Id, g: nat): Board
    requires id in b
  {
    b[id := b[id].(generation := g, stage := Reached)]
  }

  function Owned(owner: map<nat, Id>, g: nat, id: Id): map<nat, Id> {
    if g < U64_MAX then owner[g := id] else owner
  }

  lemma ArrivalNumbers(b: Board, g: nat, owner: map<nat, Id>, running: set<JobId>, ended: map<nat, End>, id: Id)
    requires Numbered(b, g, owner) && Tracks(b, running, ended) && (forall k | k in ended :: k < g)
    requires id in b && (b[id].pause || b[id].stage.Pending? || b[id].stage.Reached?)
    ensures Numbered(Arrived(b, id, g), SaturatingNext(g), Owned(owner, g, id))
    ensures Tracks(Arrived(b, id, g), running, ended)
  {
    var c := Arrived(b, id, g);
    forall i | i in c ensures Sane(i, c[i], SaturatingNext(g), Owned(owner, g, id)) {
      assert Sane(i, b[i], g, owner);
    }
  }

  /** Every reported generation is below `next`, or both are saturated. */
  ghost predicate Reported(s: seq<nat>, next: nat) {
    forall i | 0 <= i < |s| :: s[i] < next || s[i] == next == U64_MAX
  }

  lemma ReportedBelow(s: seq<nat>, next: nat, later: nat)
    requires Reported(s, next) && next <= later <= U64_MAX
    ensures Reported(s, later)
  {
  }

  lemma ReportsRise(s: seq<nat>, g: nat)
    requires Rising(s) && Reported(s, g) && g <= U64_MAX
    ensures Rising(s + [g]) && Reported(s + [g], SaturatingNext(g))
    ensures g < U64_MAX ==> forall k | k in s :: k < g
  {
  }

  // ---------------------------------------------------------------- numbers over a run

  /** The generation counter in the process and on disk, and the numbers the board showed so far. */
  datatype Counter = Counter(next: nat, saved: nat, shown: seq<nat>)

  /** An arrival, another save, or a crash with its restart. */
  datatype Happening = Arrival(lands: bool) | Saving(lands: bool) | Crash

  function Step(c: Counter, h: Happening): Counter {
    match h
    case Arrival(lands) =>
      var next := SaturatingNext(c.next);
      Counter(next, if lands then next else c.saved, c.shown + [c.next])
    case Saving(lands) => if lands then c.(saved := c.next) else c
    case Crash => c.(next := c.saved)
  }

  function Run(c: Counter, hs: seq<Happening>): Counter {
    if hs == [] then c else Step(Run(c, hs[..|hs| - 1]), hs[|hs| - 1])
  }

  /** What a board counts from: numbers shown so far rise and are past, and a counter that is ahead
      of the disk has shown its last number. */
  ghost predicate Counts(c: Counter) {
    && 1 <= c.saved <= c.next <= U64_MAX && Rising(c.shown) && Reported(c.shown, c.next)
    && (c.saved < c.next ==> c.next - 1 in c.shown)
  }

  /** Happening `j` is a restart that forgets a number already shown: its arrival was not saved, and
      nothing was since. */
  predicate Forgets(c: Counter, hs: seq<Happening>, j: int) {
    0 <= j < |hs| && hs[j].Crash? && Run(c, hs[..j]).saved < Run(c, hs[..j]).next
  }

  /** An arrival follows such a restart. */
  predicate Repeats(c: Counter, hs: seq<Happening>) {
    exists j, i :: 0 <= j < i < |hs| && Forgets(c, hs, j) && hs[i].Arrival?
  }

  predicate Forgot(c: Counter, hs: seq<Happening>) { exists j :: 0 <= j < |hs| && Forgets(c, hs, j) }

  /** A number below `MAX` that was shown will be given out again. */
  predicate Lost(c: Counter) { exists i :: 0 <= i < |c.shown| && c.next <= c.shown[i] < U64_MAX }

  lemma OneMore(c: Counter, hs: seq<Happening>, h: Happening)
    ensures var more := hs + [h];
            && Run(c, more) == Step(Run(c, hs), h)
            && (Forgot(c, more) <==> Forgot(c, hs) || (h.Crash? && Run(c, hs).saved < Run(c, hs).next))
            && (Repeats(c, more) <==> Repeats(c, hs) || (Forgot(c, hs) && h.Arrival?))
  {
    var more, n := hs + [h], |hs|;
    assert more[..n] == hs;
    forall j | 0 <= j < n ensures Forgets(c, more, j) <==> Forgets(c, hs, j) {
      assert more[..j] == hs[..j];
    }
    assert Forgets(c, more, n) <==> h.Crash? && Run(c, hs).saved < Run(c, hs).next;
    if Repeats(c, hs) {
      var j, i :| 0 <= j < i < |hs| && Forgets(c, hs, j) && hs[i].Arrival?;
      assert Forgets(c, more, j) && more[i].Arrival?;
    }
    if Forgot(c, hs) && h.Arrival? {
      var j :| 0 <= j < |hs| && Forgets(c, hs, j);
      assert Forgets(c, more, j) && more[n].Arrival?;
    }
  }

  /** The numbers the board shows rise strictly, until they saturate, if and only if no restart
      that forgot a shown number is followed by an arrival. */
  lemma {:induction false} ShownRiseExactly(c: Counter, hs: seq<Happening>)
    requires Counts(c)
    ensures Rising(Run(c, hs).shown) <==> !Repeats(c, hs)
    ensures var d := Run(c, hs);
            && 1 <= d.saved <= d.next <= U64_MAX && (d.saved < d.next ==> d.next - 1 in d.shown)
            && (!Forgot(c, hs) ==> Reported(d.shown, d.next))
            && (Forgot(c, hs) && !Repeats(c, hs) ==> Lost(d) && d.saved == d.next)
    decreases |hs|
  {
    if hs != [] {
      var most, h := hs[..|hs| - 1], hs[|hs| - 1];
      assert hs == most + [h];
      ShownRiseExactly(c, most);
      OneMore(c, most, h);
      StepRises(Run(c, most), h);
    }
  }

  lemma StepRises(d: Counter, h: Happening)
    requires 1 <= d.saved <= d.next <= U64_MAX && (d.saved < d.next ==> d.next - 1 in d.shown)
    ensures var e := Step(d, h);
            && 1 <= e.saved <= e.next <= U64_MAX && (e.saved < e.next ==> e.next - 1 in e.shown)
            && (!Rising(d.shown) ==> !Rising(e.shown))
            && (h.Arrival? && Lost(d) ==> !Rising(e.shown))
            && (h.Arrival? && Rising(d.shown) && Reported(d.shown, d.next) ==> Rising(e.shown) && Reported(e.shown, e.next))
            && (h.Crash? && d.saved < d.next ==> Lost(e) && e.saved == e.next)
            && (!h.Arrival? && Lost(d) && d.saved == d.next ==> Lost(e) && e.saved == e.next)
  {
    var e := Step(d, h);
    if h.Arrival? {
      if Rising(d.shown) && Reported(d.shown, d.next) { ReportsRise(d.shown, d.next); }
      if !Rising(d.shown) {
        var i, j :| 0 <= i < j < |d.shown| && !(d.shown[i] < d.shown[j] || d.shown[i] == d.shown[j] == U64_MAX);
        assert e.shown[i] == d.shown[i] && e.shown[j] == d.shown[j];
      }
      if Lost(d) {
        var i :| 0 <= i < |d.shown| && d.next <= d.shown[i] < U64_MAX;
        assert e.shown[i] == d.shown[i] && e.shown[|d.shown|] == d.next;
      }
      if d.saved < d.next { assert d.next - 1 in d.shown; }
    } else if d.saved < d.next {
      var i :| 0 <= i < |d.shown| && d.shown[i] == d.next - 1;
    }
  }

  /** How often a waiting executor looked before its answer: a release ends the wait before a look for
      an abort, an abort at the look that finds it, and time is up only after all looks. */
  ghost predicate Looked(before: seq<bool>, after: seq<bool>, timeout: nat, r: Waited) {
    match r
    case Let(_) => exists k :: 0 <= k <= timeout && NoneAsks(before, k) && after == After(before, k)
    case Stopped(_) => exists k :: 0 <= k <= timeout && NoneAsks(before, k) && Asks(before, k) && after == After(before, k + 1)
    case _ => NoneAsks(before, timeout + 1) && after == After(before, timeout + 1)
  }

  lemma LookedOften(polls: seq<bool>, k: nat, timeout: nat, g: nat)
    requires k <= timeout && NoneAsks(polls, k)
    ensures Looked(polls, After(polls, k), timeout, Let(g))
    ensures Asks(polls, k) ==> Looked(polls, After(polls, k + 1), timeout, Stopped(g))
    ensures !Asks(polls, k) ==> NoneAsks(polls, k + 1)
    ensures Asks(After(polls, k), 0) <==> Asks(polls, k)
    ensures After(After(polls, k), 1) == After(polls, k + 1)
  {
    NoneAsksMore(polls, k);
  }

  lemma OnlySavedTwice(c: Counter, d: Counter, e: Counter)
    requires OnlySaved(c, d) && OnlySaved(d, e)
    ensures OnlySaved(c, e)
  {
  }

  lemma StillEndedTwice(a: map<nat, End>, b: map<nat, End>, c: map<nat, End>)
    requires StillEnded(a, b) && StillEnded(b, c)
    ensures StillEnded(a, c)
  {
  }

  lemma LookedOut(polls: seq<bool>, timeout: nat, g: nat)
    requires NoneAsks(polls, timeout + 1)
    ensures forall r: Waited | r.Expired? || r.Failed? :: Looked(polls, After(polls, timeout + 1), timeout, r)
  {
  }

  /** No number was given out and nothing forgotten; at most the counter was saved. */
  predicate OnlySaved(c: Counter, d: Counter) { d == c || d == Step(c, Saving(true)) }

  class ScenarioBoard {
    var disk: seq<bool>                 // which of the coming saves land
    var polls: seq<bool>                // the answers to the coming looks for an abort
    var next: nat
    var checkpoints: Board
    var running: set<JobId>             // active and not terminal
    var savedNext: nat
    var saved: Board
    ghost var owner: map<nat, Id>       // the checkpoint each generation numbered
    ghost var savedOwner: map<nat, Id>
    ghost var announced: seq<nat>       // generations reported after a successful save, in order
    ghost var ended: map<nat, End>      // how each numbered occurrence ended
    ghost var shown: seq<nat>           // every number the board gave out, saved or not

    ghost function Numbers(): Counter
      reads this
    {
      Counter(next, savedNext, shown)
    }

    ghost predicate Valid()
      reads this
    {
      && Numbered(checkpoints, next, owner) && Numbered(saved, savedNext, savedOwner) && savedNext <= next
      && Rising(announced) && Reported(announced, savedNext)
      && (forall g | g in ended :: g < next)
      && Tracks(checkpoints, running, ended)
    }

    constructor (disk: seq<bool>, polls: seq<bool>)
      ensures Valid() && next == 1 && checkpoints == map[] && announced == [] && Counts(Numbers())
      ensures this.disk == disk && this.polls == polls
    {
      this.disk, this.polls, shown := disk, polls, [];
      next, checkpoints, running, savedNext, saved := 1, map[], {}, 1, map[];
      owner, savedOwner, announced, ended := map[], map[], [], map[];
    }

    method Save() returns (ok: bool)
      modifies this`disk, this`saved, this`savedNext, this`savedOwner
      ensures ok == Lands(old(disk), 0) && disk == After(old(disk), 1)
      ensures ok ==> saved == checkpoints && savedNext == next && savedOwner == owner
      ensures !ok ==> saved == old(saved) && savedNext == old(savedNext) && savedOwner == old(savedOwner)
      ensures Numbers() == Step(old(Numbers()), Saving(ok))
    {
      ok := Lands(disk, 0);
      disk := After(disk, 1);
      if ok {
        saved, savedNext := checkpoints, next;
        savedOwner := owner;
      }
    }

    /** A new scenario job brings its checkpoints, none of them reached. */
    method Start(job: JobId, pauses: map<string, bool>)
      requires Valid() && running == {} && forall i | i in checkpoints :: i.job != job
      modifies this`disk, this`checkpoints, this`running, this`saved, this`savedNext, this`savedOwner
      ensures Valid() && running == {job} && checkpoints == Launched(old(checkpoints), job, pauses)
      ensures forall n | n in pauses :: Id(job, n) in checkpoints && checkpoints[Id(job, n)] == Checkpoint(pauses[n], 0, Pending)
      ensures forall i | i in checkpoints && i.job != job :: i in old(checkpoints) && checkpoints[i] == old(checkpoints)[i]
      ensures Numbers() == Step(old(Numbers()), Saving(Lands(old(disk), 0))) && disk == After(old(disk), 1)
    {
      LaunchedNumbered(checkpoints, next, owner, job, pauses);
      LaunchedTracks(checkpoints, job, pauses, ended);
      forall n | n in pauses ensures Launched(checkpoints, job, pauses)[Id(job, n)] == Checkpoint(pauses[n], 0, Pending) {
        LaunchedHas(checkpoints, job, pauses, n);
      }
      checkpoints := Launched(checkpoints, job, pauses);
      running := {job};
      var _ := Save();
    }

    method Finish(job: JobId)
      requires Valid()
      modifies this`disk, this`running, this`saved, this`savedNext, this`savedOwner
      ensures Valid() && running == old(running) - {job}
      ensures Numbers() == Step(old(Numbers()), Saving(Lands(old(disk), 0)))
    {
      running := running - {job};
      var _ := Save();
    }

    /** After a crash nothing runs. A generation reported as reached is never numbered again,
        and what ended stays ended; one whose save failed is forgotten. */
    method Restart()
      requires Valid()
      modifies this
      ensures Valid() && announced == old(announced) && running == {}
      ensures next == savedNext == old(savedNext) && checkpoints == saved == old(saved) && disk == old(disk)
      ensures Numbers() == Step(old(Numbers()), Crash)
      ensures forall g | g in announced && g in old(ended) && g < U64_MAX :: g in ended && ended[g] == old(ended)[g]
    {
      next, checkpoints, running := savedNext, saved, {};
      owner := savedOwner;
      ended := map g | g in ended && g < savedNext :: ended[g];
    }

    /** Release by generation. It is idempotent for the current generation and changes nothing
        for any other; an accepted release is the one end of that occurrence. */
    method Release(id: Id, generation: nat) returns (answer: Answer)
      requires Valid()
      modifies this`disk, this`checkpoints, this`saved, this`savedNext, this`savedOwner, this`ended
      ensures Valid() && StillEnded(old(ended), ended) && OnlySaved(old(Numbers()), Numbers())
      ensures answer.NotFound? <==> id !in old(checkpoints)
      ensures answer.Accepted? ==>
                && id in checkpoints && answer.checkpoint == checkpoints[id]
                && checkpoints[id].stage == Released && checkpoints[id].generation == generation
      ensures checkpoints != old(checkpoints) <==>
                id in old(checkpoints) && id.job in running && old(checkpoints)[id] == Checkpoint(true, generation, Reached)
      ensures checkpoints != old(checkpoints) ==>
                && checkpoints == old(checkpoints)[id := Checkpoint(true, generation, Released)]
                && (if Lands(old(disk), 0) then answer.Accepted? else answer.NotSaved?)
                && ended == Noted(old(ended), generation, ByRelease) && (generation < U64_MAX ==> generation !in old(ended))
      ensures checkpoints == old(checkpoints) ==> ended == old(ended) && saved == old(saved) && disk == old(disk)
      ensures answer.NotReached? <==> id in old(checkpoints) && old(checkpoints)[id].stage == Pending
      ensures answer.Stale? <==>
                id in old(checkpoints) && old(checkpoints)[id].stage != Pending && old(checkpoints)[id].generation != generation
      ensures answer.AlreadyTimedOut? <==>
                id in old(checkpoints) && old(checkpoints)[id].stage == TimedOut && old(checkpoints)[id].generation == generation
      ensures id in old(checkpoints) && old(checkpoints)[id].stage == Released && old(checkpoints)[id].generation == generation ==>
                answer.Accepted?
    {
      if id !in checkpoints { return NotFound; }
      var c := checkpoints[id];
      assert Sane(id, c, next, owner);
      if c.generation == 0 || c.stage == Pending { return NotReached; }
      if c.generation != generation { return Stale; }
      if !c.pause { return Milestone; }
      match c.stage
      case Released => return Accepted(c);
      case TimedOut => return AlreadyTimedOut;
      case Reached =>
        if id.job !in running { return Inactive; }
        answer := Accept(id);
    }

    method Accept(id: Id) returns (answer: Answer)
      requires Valid() && id in checkpoints && id.job in running && checkpoints[id].pause && checkpoints[id].stage.Reached?
      modifies this`disk, this`checkpoints, this`saved, this`savedNext, this`savedOwner, this`ended
      ensures Valid() && StillEnded(old(ended), ended) && OnlySaved(old(Numbers()), Numbers())
      ensures checkpoints == Ended(old(checkpoints), id, Released) && disk == After(old(disk), 1)
      ensures answer == if Lands(old(disk), 0) then Accepted(checkpoints[id]) else NotSaved
      ensures var g := old(checkpoints)[id].generation; ended == Noted(old(ended), g, ByRelease) && (g < U64_MAX ==> g !in old(ended))
    {
      EndsOnce(checkpoints, next, owner, running, ended, id, ByRelease);
      ended := Noted(ended, checkpoints[id].generation, ByRelease);
      checkpoints := Ended(checkpoints, id, Released);
      var ok := Save();
      return if ok then Accepted(checkpoints[id]) else NotSaved;
    }

    /** Number the next occurrence. The board shows its generation in any case; it is reported
        exactly if it was saved, and then it is above every one reported before, in this
        process or an earlier one. */
    method Arrive(id: Id) returns (generation: Option<nat>)
      requires Valid() && id in checkpoints && id.job in running
      modifies this`disk, this`next, this`checkpoints, this`saved, this`savedNext, this`savedOwner
      modifies this`owner, this`announced, this`shown
      ensures Valid() && ended == old(ended)
      ensures checkpoints == old(checkpoints)[id := Checkpoint(old(checkpoints)[id].pause, old(next), Reached)]
      ensures next == if old(next) < U64_MAX then old(next) + 1 else U64_MAX
      ensures generation.Some? ==> generation.value == old(next) && announced == old(announced) + [old(next)]
      ensures generation.Some? && generation.value < U64_MAX ==> forall g | g in old(announced) :: g < generation.value
      ensures generation.None? ==> announced == old(announced)
      ensures generation.Some? <==> Lands(old(disk), 0)
      ensures generation.Some? ==> saved == checkpoints && savedNext == next
      ensures generation.None? ==> saved == old(saved) && savedNext == old(savedNext)
      ensures Numbers() == Step(old(Numbers()), Arrival(generation.Some?)) && disk == After(old(disk), 1)
    {
      var g := Number(id);
      ReportedBelow(announced, savedNext, g);
      ReportsRise(announced, g);
      var ok := Save();
      if !ok { return None; }
      announced := announced + [g];
      return Some(g);
    }

    /** Give the next generation to a checkpoint, in the process only. */
    method Number(id: Id) returns (g: nat)
      requires Valid() && id in checkpoints && id.job in running
      modifies this`next, this`checkpoints, this`owner, this`shown
      ensures Valid() && g == old(next) && next == SaturatingNext(g) && checkpoints == Arrived(old(checkpoints), id, g)
      ensures shown == old(shown) + [g]
    {
      var number := if next < 1 then 1 else next;
      g := number;
      assert Sane(id, checkpoints[id], next, owner);
      ArrivalNumbers(checkpoints, g, owner, running, ended, id);
      next := SaturatingNext(g);
      checkpoints := Arrived(checkpoints, id, g);
      owner := Owned(owner, g, id);
      shown := shown + [g];
    }

    method AbortRequested() returns (asked: bool)
      modifies this`polls
      ensures asked == Asks(old(polls), 0) && polls == After(old(polls), 1)
    {
      asked := Asks(polls, 0);
      polls := After(polls, 1);
    }

    /** The waiting executor. Between two looks anyone may try to release anything. It reports
        a release only if one happened, and running out of time ends the occurrence itself. */
    method Reach(id: Id, timeout: nat) returns (r: Waited)
      requires Valid() && id in checkpoints && id.job in running
      modifies this`disk, this`next, this`checkpoints, this`saved, this`savedNext, this`savedOwner
      modifies this`owner, this`announced, this`shown, this`ended, this`polls
      ensures Valid() && StillEnded(old(ended), ended) && old(announced) <= announced
      ensures !Lands(old(disk), 0) ==> r.Failed? && polls == old(polls)
      ensures r.Passed? <==> !old(checkpoints)[id].pause && Lands(old(disk), 0)
      ensures Lands(old(disk), 0) && old(checkpoints)[id].pause ==> Looked(old(polls), polls, timeout, r)
      ensures OnlySaved(Step(old(Numbers()), Arrival(Lands(old(disk), 0))), Numbers())
      ensures !r.Failed? ==> r.generation == old(next) && old(next) in announced
      ensures r.Passed? ==> !old(checkpoints)[id].pause && ended == old(ended)
      ensures r.Let? ==> id in checkpoints && checkpoints[id] == Checkpoint(true, r.generation, Released)
      ensures r.Let? && r.generation < U64_MAX ==>
                r.generation !in old(ended) && r.generation in ended && ended[r.generation] == ByRelease
      ensures r.Expired? ==> id in checkpoints && checkpoints[id] == Checkpoint(true, r.generation, TimedOut)
      ensures r.Expired? && r.generation < U64_MAX ==>
                r.generation !in old(ended) && r.generation in ended && ended[r.generation] == ByTimeout
    {
      var arrived := Arrive(id);
      if arrived.None? { return Failed; }
      if !checkpoints[id].pause { return Passed(arrived.value); }
      r := Await(id, arrived.value, timeout);
    }

    /** The deadline passed while the occurrence still waits. */
    method Expire(id: Id) returns (r: Waited)
      requires Valid() && id in checkpoints && id.job in running && checkpoints[id].pause && checkpoints[id].stage.Reached?
      modifies this`disk, this`checkpoints, this`saved, this`savedNext, this`savedOwner, this`ended
      ensures Valid() && StillEnded(old(ended), ended) && OnlySaved(old(Numbers()), Numbers())
      ensures checkpoints == Ended(old(checkpoints), id, TimedOut)
      ensures r == if Lands(old(disk), 0) then Expired(checkpoints[id].generation) else Failed
      ensures var g := old(checkpoints)[id].generation; ended == Noted(old(ended), g, ByTimeout) && (g < U64_MAX ==> g !in old(ended))
    {
      EndsOnce(checkpoints, next, owner, running, ended, id, ByTimeout);
      ended := Noted(ended, checkpoints[id].generation, ByTimeout);
      checkpoints := Ended(checkpoints, id, TimedOut);
      var ok := Save();
      return if ok then Expired(checkpoints[id].generation) else Failed;
    }

    /** Look for a release, then for an abort, until there is one or time is up. */
    method Await(id: Id, g: nat, timeout: nat) returns (r: Waited)
      requires Valid() && id in checkpoints && id.job in running && checkpoints[id] == Checkpoint(true, g, Reached)
      modifies this`disk, this`checkpoints, this`saved, this`savedNext, this`savedOwner, this`ended, this`polls
      ensures Looked(old(polls), polls, timeout, r)
      ensures r.Stopped? ==> id in checkpoints && checkpoints[id] == Checkpoint(true, g, Reached)
      ensures r.Failed? ==> id in checkpoints && checkpoints[id] == Checkpoint(true, g, TimedOut)
      ensures Valid() && StillEnded(old(ended), ended) && OnlySaved(old(Numbers()), Numbers())
      ensures !r.Failed? ==> r.generation == g
      ensures !r.Passed?
      ensures r.Let? ==> id in checkpoints && checkpoints[id] == Checkpoint(true, g, Released)
      ensures r.Let? && g < U64_MAX ==> g in ended && ended[g] == ByRelease
      ensures r.Expired? ==> id in checkpoints && checkpoints[id] == Checkpoint(true, g, TimedOut)
      ensures r.Expired? && g < U64_MAX ==> g in ended && ended[g] == ByTimeout
    {
      var seen := WaitOut(id, g, timeout);
      if seen.Some? { return seen.value; }
      LookedOut(old(polls), timeout, g);
      r := Expire(id);
    }

    /** The looks themselves; none means that time is up and the occurrence still waits. */
    method WaitOut(id: Id, g: nat, timeout: nat) returns (r: Option<Waited>)
      requires Valid() && id in checkpoints && id.job in running && checkpoints[id] == Checkpoint(true, g, Reached)
      modifies this`disk, this`checkpoints, this`saved, this`savedNext, this`savedOwner, this`ended, this`polls
      ensures Valid() && StillEnded(old(ended), ended) && OnlySaved(old(Numbers()), Numbers()) && id in checkpoints
      ensures r.Some? ==> (r.value == Let(g) || r.value == Stopped(g)) && Looked(old(polls), polls, timeout, r.value)
      ensures r.None? ==> NoneAsks(old(polls), timeout + 1) && polls == After(old(polls), timeout + 1)
      ensures checkpoints[id] == Checkpoint(true, g, if r == Some(Let(g)) then Released else Reached)
    {
      for k := 0 to timeout + 1
        invariant polls == After(old(polls), k) && NoneAsks(old(polls), k)
        invariant Valid() && StillEnded(old(ended), ended) && OnlySaved(old(Numbers()), Numbers()) && id in checkpoints
        invariant checkpoints[id] == Checkpoint(true, g, Reached) || (k <= timeout && checkpoints[id] == Checkpoint(true, g, Released))
      {
        LookedOften(old(polls), k, timeout, g);
        if checkpoints[id].stage == Released { return Some(Let(g)); }
        var abort := AbortRequested();
        if abort { return Some(Stopped(g)); }
        if k < timeout {
          ghost var counted, noted := Numbers(), ended;
          OthersRelease(id, g);
          OnlySavedTwice(old(Numbers()), counted, Numbers());
          StillEndedTwice(old(ended), noted, ended);
        }
      }
      r := None;
    }

    /** Between two looks anyone may try to release anything. */
    method OthersRelease(id: Id, g: nat)
      requires Valid() && id in checkpoints && checkpoints[id] == Checkpoint(true, g, Reached)
      modifies this`disk, this`checkpoints, this`saved, this`savedNext, this`savedOwner, this`ended
      ensures Valid() && StillEnded(old(ended), ended) && OnlySaved(old(Numbers()), Numbers()) && id in checkpoints
      ensures checkpoints[id] == Checkpoint(true, g, Reached) || checkpoints[id] == Checkpoint(true, g, Released)
    {
      var other: Id := *;
      var claimed: nat := *;
      var _ := Release(other, claimed);
    }

    /** The input: an arrival whose save fails, a restart, and an arrival of another job. The board
        shows the first generation again, and reports it if that save lands. */
    method LostArrivalRepeats(id: Id, other: Id, pauses: map<string, bool>) returns (first: nat, again: Option<nat>)
      requires Valid() && id in checkpoints && id.job in running && savedNext == next
      requires !Lands(disk, 0) && other.name in pauses && forall i | i in saved :: i.job != other.job
      modifies this
      ensures Valid() && first == old(next) && shown == old(shown) + [first, first]
      ensures other in checkpoints && checkpoints[other].generation == first
      ensures again == if Lands(old(disk), 2) then Some(first) else None
    {
      AfterAfter(disk, 1, 1);
      var lost := Arrive(id);
      first := checkpoints[id].generation;
      Restart();
      again := StartAndArrive(other, pauses);
    }

    method StartAndArrive(id: Id, pauses: map<string, bool>) returns (generation: Option<nat>)
      requires Valid() && running == {} && id.name in pauses && forall i | i in checkpoints :: i.job != id.job
      modifies this
      ensures Valid() && id in checkpoints && checkpoints[id].generation == old(next)
      ensures generation == if Lands(old(disk), 1) then Some(old(next)) else None
      ensures shown == old(shown) + [old(next)]
    {
      AfterAfter(disk, 1, 0);
      LaunchedHas(checkpoints, id.job, pauses, id.name);
      Start(id.job, pauses);
      generation := Arrive(id);
    }

    /** Over any run, reported generations keep rising. The ones the board shows do exactly if no
        restart that forgot one is followed by an arrival; `happened` are the run's arrivals,
        saves and restarts. */
    method AnyRun(steps: nat) returns (ghost happened: seq<Happening>)
      requires Valid()
      modifies this
      ensures Valid() && old(announced) <= announced
      ensures Numbers() == Run(old(Numbers()), happened)
      ensures old(Counts(Numbers())) ==> (Rising(shown) <==> !Repeats(old(Numbers()), happened))
    {
      happened := [];
      for k := 0 to steps
        invariant Valid() && old(announced) <= announced && Numbers() == Run(old(Numbers()), happened)
      {
        ghost var more := AnyStep();
        Joined(old(Numbers()), happened, more);
        happened := happened + more;
      }
      if old(Counts(Numbers())) { ShownRiseExactly(old(Numbers()), happened); }
    }

    method AnyStep() returns (ghost happened: seq<Happening>)
      requires Valid()
      modifies this
      ensures Valid() && old(announced) <= announced && Numbers() == Run(old(Numbers()), happened)
    {
      ghost var before, lands := Numbers(), Lands(disk, 0);
      RunOf(before, Saving(lands));
      RunOf(before, Saving(true));
      RunOf(before, Crash);
      RunOf(before, Arrival(lands));
      RunOfTwo(before, Arrival(lands), Saving(true));
      var step: nat, number: nat, timeout: nat := *, *, *;
      var id: Id := *;
      var pauses: map<string, bool> := *;
      happened := [];
      match step {
        case 0 =>
          var used := set i | i in checkpoints :: i.job;
          if running == {} && id.job !in used {
            Start(id.job, pauses);
            happened := [Saving(lands)];
          }
        case 1 =>
          Finish(id.job);
          happened := [Saving(lands)];
        case 2 =>
          var _ := Release(id, number);
          happened := if Numbers() == before then [] else [Saving(true)];
        case 3 =>
          if id in checkpoints && id.job in running {
            var _ := Reach(id, timeout);
            happened := if Numbers() == Step(before, Arrival(lands)) then [Arrival(lands)] else [Arrival(lands), Saving(true)];
          }
        case _ =>
          Restart();
          happened := [Crash];
      }
    }
  }

  lemma RunOf(c: Counter, h: Happening)
    ensures Run(c, [h]) == Step(c, h) && Run(c, []) == c
  {
    assert [h][..0] == [];
  }

  lemma RunOfTwo(c: Counter, g: Happening, h: Happening)
    ensures Run(c, [g, h]) == Step(Step(c, g), h)
  {
    RunOf(c, g);
    assert [g, h][..1] == [g];
  }

  lemma {:induction false} Joined(c: Counter, a: seq<Happening>, b: seq<Happening>)
    ensures Run(c, a + b) == Run(Run(c, a), b)
    decreases |b|
  {
    if b == [] {
      assert a + b == a;
    } else {
      var most := b[..|b| - 1];
      Joined(c, a, most);
      assert (a + b)[..|a + b| - 1] == a + most;
    }
  }
}
