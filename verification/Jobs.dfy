/** The job coordinator's lanes, idempotency keys and bounded history, over reservations,
    finishes, failed cleanups, recovery, restarts and migration of older records
    (crates/control-plane/src/jobs.rs). */
module Jobs {
  import opened Disks
  import opened JobIds
  import opened Polls
  import opened ThreeNodes
  import opened Options
  import opened Pruning

  datatype Kind = Faucet | Reorg | Rewind | Scenario | Partition | Degrade | Mine | SpamPrepare | SpamBurst
  datatype State =
    | Starting | Running | WaitingAtCheckpoint | AbortRequested
    | Succeeded | Failed | Aborted | Interrupted

  const MAX_JOB_HISTORY: nat := 100
  const LANES: nat := 4

  predicate Terminal(s: State) { s in {Succeeded, Failed, Aborted, Interrupted} }

  datatype Job = Job(id: JobId, kind: Kind, state: State, key: Option<string>, fingerprint: string, node: Option<Node>)

  datatype Persisted = Persisted(exclusive: Option<JobId>, degradations: map<Node, JobId>, jobs: seq<Job>)

  // ---------------------------------------------------------------- invariant

  ghost function Active(p: Persisted): set<JobId> {
    (if p.exclusive.Some? then {p.exclusive.value} else {}) + set n | n in p.degradations :: p.degradations[n]
  }

  predicate IsActive(p: Persisted, id: JobId) {
    p.exclusive == Some(id) || exists n | n in p.degradations :: p.degradations[n] == id
  }

  ghost predicate Stored(jobs: seq<Job>, id: JobId) {
    exists i | 0 <= i < |jobs| :: jobs[i].id == id
  }

  // The quantified facts are stated through one-position predicates, which keeps the solver from
  // instantiating them at every stored job in sight.

  predicate DifferAt(jobs: seq<Job>, i: int, j: int) {
    0 <= i < j < |jobs| ==> jobs[i].id != jobs[j].id && (jobs[i].key.Some? ==> jobs[i].key != jobs[j].key)
  }

  /** No two jobs share an id, and no two share an idempotency key. */
  ghost predicate Distinct(jobs: seq<Job>) { forall i, j :: DifferAt(jobs, i, j) }

  /** What one stored job owes to the lanes. */
  ghost predicate Placed(p: Persisted, j: Job) {
    && (Terminal(j.state) || IsActive(p, j.id))
    && (p.exclusive == Some(j.id) ==> j.kind != Degrade && (p.degradations != map[] ==> j.kind == Mine))
    && (forall n | n in p.degradations :: p.degradations[n] == j.id ==> j.kind == Degrade && j.node == Some(n))
  }

  ghost predicate PlacedAt(p: Persisted, i: int) { 0 <= i < |p.jobs| ==> Placed(p, p.jobs[i]) }

  ghost predicate Lanes(p: Persisted) {
    && Distinct(p.jobs)
    && (p.exclusive.Some? ==> Stored(p.jobs, p.exclusive.value))
    && (forall n | n in p.degradations :: Stored(p.jobs, p.degradations[n]))
    && (forall i :: PlacedAt(p, i))
  }

  ghost predicate Sound(p: Persisted) { Lanes(p) && |p.jobs| <= MAX_JOB_HISTORY }

  /** Two different active jobs can only be degradations of different nodes, or a degradation
      next to the one mining job. In particular at most one active job is exclusive. */
  lemma ActiveTogether(p: Persisted, i: nat, j: nat)
    requires Lanes(p) && i < j < |p.jobs| && IsActive(p, p.jobs[i].id) && IsActive(p, p.jobs[j].id)
    ensures var a, b := p.jobs[i], p.jobs[j];
            || (a.kind == Degrade && b.kind == Degrade && a.node.Some? && b.node.Some? && a.node != b.node)
            || (a.kind == Degrade && b.kind == Mine)
            || (a.kind == Mine && b.kind == Degrade)
  {
    assert PlacedAt(p, i) && PlacedAt(p, j) && DifferAt(p.jobs, i, j);
  }

  // ---------------------------------------------------------------- changing one job

  function SetState(p: Persisted, id: JobId, s: State): Persisted {
    p.(jobs := seq(|p.jobs|, i requires 0 <= i < |p.jobs| => if p.jobs[i].id == id then p.jobs[i].(state := s) else p.jobs[i]))
  }

  function ClearActiveLane(p: Persisted, id: JobId): Persisted {
    p.(exclusive := if p.exclusive == Some(id) then None else p.exclusive,
       degradations := map n | n in p.degradations && p.degradations[n] != id :: p.degradations[n])
  }

  lemma SetStateKeepsIds(p: Persisted, id: JobId, s: State)
    ensures var q := SetState(p, id, s);
            && |q.jobs| == |p.jobs| && q.exclusive == p.exclusive && q.degradations == p.degradations
            && forall i | 0 <= i < |p.jobs| :: q.jobs[i] == p.jobs[i].(state := q.jobs[i].state)
                                             && q.jobs[i].state == if p.jobs[i].id == id then s else p.jobs[i].state
  {
  }

  lemma SetStateSound(p: Persisted, id: JobId, s: State)
    requires Lanes(p) && (Terminal(s) || IsActive(p, id))
    ensures Lanes(SetState(p, id, s)) && |SetState(p, id, s).jobs| == |p.jobs|
    ensures forall k :: IsActive(SetState(p, id, s), k) <==> IsActive(p, k)
  {
    SetStateKeepsIds(p, id, s);
    var q := SetState(p, id, s);
    StoredAlike(p.jobs, q.jobs);
    DistinctAlike(p.jobs, q.jobs);
    forall i ensures PlacedAt(q, i) {
      assert PlacedAt(p, i);
      if 0 <= i < |q.jobs| { PlacedAgain(p, q, p.jobs[i], q.jobs[i]); }
    }
  }

  lemma PlacedAgain(p: Persisted, q: Persisted, j: Job, k: Job)
    requires Placed(p, j) && p.exclusive == q.exclusive && p.degradations == q.degradations
    requires k == j.(state := k.state) && (Terminal(k.state) || IsActive(q, k.id))
    ensures Placed(q, k)
  {
  }

  lemma DistinctAlike(a: seq<Job>, b: seq<Job>)
    requires Distinct(a) && |a| == |b| && forall i | 0 <= i < |a| :: a[i].id == b[i].id && a[i].key == b[i].key
    ensures Distinct(b)
  {
    forall i, j ensures DifferAt(b, i, j) {
      assert DifferAt(a, i, j);
    }
  }

  lemma StoredAlike(a: seq<Job>, b: seq<Job>)
    requires |a| == |b| && forall i | 0 <= i < |a| :: a[i].id == b[i].id
    ensures forall id :: Stored(a, id) ==> Stored(b, id)
  {
    forall id | Stored(a, id) ensures Stored(b, id) {
      var i :| 0 <= i < |a| && a[i].id == id;
      assert b[i].id == id;
    }
  }

  lemma ClearSound(p: Persisted, id: JobId)
    requires Lanes(p) && forall i | 0 <= i < |p.jobs| :: p.jobs[i].id == id ==> Terminal(p.jobs[i].state)
    ensures Lanes(ClearActiveLane(p, id))
    ensures forall k :: IsActive(ClearActiveLane(p, id), k) <==> IsActive(p, k) && k != id
  {
    var q := ClearActiveLane(p, id);
    forall k ensures IsActive(q, k) <==> IsActive(p, k) && k != id {
      if IsActive(p, k) && k != id && p.exclusive != Some(k) {
        var n :| n in p.degradations && p.degradations[n] == k;
        assert n in q.degradations;
      }
    }
    forall i ensures PlacedAt(q, i) {
      assert PlacedAt(p, i);
    }
  }

  // ---------------------------------------------------------------- bounded history

  /** The jobs that must stay. */
  function Holds(p: Persisted): Job -> bool { (j: Job) => IsActive(p, j.id) }

  function Excess(jobs: seq<Job>): nat {
    if |jobs| > MAX_JOB_HISTORY then |jobs| - MAX_JOB_HISTORY else 0
  }

  function Trim(p: Persisted): Persisted { p.(jobs := DropOldest(Holds(p), p.jobs, Excess(p.jobs))) }

  lemma RestDistinct(jobs: seq<Job>)
    requires Distinct(jobs) && jobs != []
    ensures Distinct(jobs[1..])
  {
    forall i, j ensures DifferAt(jobs[1..], i, j) {
      assert DifferAt(jobs, i + 1, j + 1);
    }
  }

  lemma {:induction false} ActiveAreFew(p: Persisted, jobs: seq<Job>, lanes: set<JobId>)
    requires Distinct(jobs) && forall i | 0 <= i < |jobs| :: IsActive(p, jobs[i].id) ==> jobs[i].id in lanes
    ensures |Only(Holds(p), jobs)| <= |lanes|
  {
    if jobs != [] {
      var fewer := if IsActive(p, jobs[0].id) then lanes - {jobs[0].id} else lanes;
      forall i | 0 <= i < |jobs[1..]| ensures IsActive(p, jobs[1..][i].id) ==> jobs[1..][i].id in fewer {
        assert jobs[1..][i] == jobs[i + 1] && DifferAt(jobs, 0, i + 1);
      }
      RestDistinct(jobs);
      ActiveAreFew(p, jobs[1..], fewer);
    }
  }

  lemma LanesAreFour(p: Persisted)
    ensures |Active(p)| <= 4
    ensures forall id :: IsActive(p, id) <==> id in Active(p)
  {
    var d := p.degradations;
    var ids := set n | n in d :: d[n];
    var one := if Node1 in d then {d[Node1]} else {};
    var two := if Node2 in d then {d[Node2]} else {};
    var three := if Node3 in d then {d[Node3]} else {};
    forall n | n in d ensures d[n] in one + two + three {
      assert n == Node1 || n == Node2 || n == Node3;
    }
    assert ids == one + two + three;
    assert |one + two + three| <= |one + two| + |three| <= |one| + |two| + |three|;
    assert |Active(p)| <= 1 + |ids|;
  }

  /** Trimming never runs out of removable records: it always ends at the bound, keeping every
      active job and losing exactly the excess. */
  lemma TrimReachesBound(p: Persisted)
    requires Lanes(p)
    ensures |Trim(p).jobs| == |p.jobs| - Excess(p.jobs) <= 100
  {
    var k := Excess(p.jobs);
    var cut := DropCutsOnce(Holds(p), p.jobs, k);
    LanesAreFour(p);
    if cut == |p.jobs| {
      assert p.jobs[..cut] == p.jobs && p.jobs[cut..] == [];
      ActiveAreFew(p, p.jobs, Active(p));
    }
  }

  /** What trimming keeps: before one cut exactly the active jobs, in order, and from the cut on
      everything; so an active job never goes, and what goes is oldest. */
  lemma TrimKeepsActiveAndNewest(p: Persisted) returns (cut: nat)
    requires Lanes(p)
    ensures cut <= |p.jobs| && Trim(p).jobs == Only(Holds(p), p.jobs[..cut]) + p.jobs[cut..]
    ensures cut - |Only(Holds(p), p.jobs[..cut])| == Excess(p.jobs)
    ensures forall j | j in p.jobs && IsActive(p, j.id) :: j in Trim(p).jobs
  {
    cut := DropCutsOnce(Holds(p), p.jobs, Excess(p.jobs));
    DropsOnly(Holds(p), p.jobs, Excess(p.jobs));
    TrimReachesBound(p);
  }

  /** A history where every job holds a lane is short. */
  lemma AllActiveIsFew(p: Persisted)
    requires Lanes(p) && forall i | 0 <= i < |p.jobs| :: IsActive(p, p.jobs[i].id)
    ensures |p.jobs| <= LANES
  {
    LanesAreFour(p);
    ActiveAreFew(p, p.jobs, Active(p));
    AllKept(Holds(p), p.jobs);
  }

  function Without(p: Persisted, at: nat): Persisted
    requires at < |p.jobs|
  {
    p.(jobs := p.jobs[..at] + p.jobs[at + 1..])
  }

  lemma RemoveSound(p: Persisted, at: nat)
    requires Lanes(p) && at < |p.jobs| && !IsActive(p, p.jobs[at].id)
    ensures Lanes(Without(p, at))
  {
    var less := p.jobs[..at] + p.jobs[at + 1..];
    var q := p.(jobs := less);
    forall i ensures PlacedAt(q, i) {
      assert PlacedAt(p, if i < at then i else i + 1);
    }
    forall i, j ensures DifferAt(less, i, j) {
      assert DifferAt(p.jobs, if i < at then i else i + 1, if j < at then j else j + 1);
    }
    forall id | IsActive(p, id) ensures Stored(less, id) {
      assert Stored(p.jobs, id);
      var i :| 0 <= i < |p.jobs| && p.jobs[i].id == id;
      assert less[if i < at then i else i - 1].id == id;
    }
    if p.exclusive.Some? { assert IsActive(p, p.exclusive.value); }
    forall n | n in p.degradations ensures Stored(less, p.degradations[n]) {
      assert IsActive(p, p.degradations[n]);
    }
  }

  /** One round of the trimming loop. */
  lemma TrimOne(p: Persisted, at: nat)
    requires Lanes(p) && at < |p.jobs| && |p.jobs| > MAX_JOB_HISTORY
    requires !IsActive(p, p.jobs[at].id) && forall i | 0 <= i < at :: IsActive(p, p.jobs[i].id)
    ensures Lanes(Without(p, at)) && Trim(Without(p, at)) == Trim(p)
  {
    RemoveSound(p, at);
    RemovesFirst(Holds(p), p.jobs, at, Excess(p.jobs));
    DropAgrees(Holds(p), Holds(Without(p, at)), Without(p, at).jobs, Excess(p.jobs) - 1);
  }

  /** Trimming keeps the lanes sound and reaches the bound. */
  lemma {:induction false} TrimSound(p: Persisted)
    requires Lanes(p)
    ensures Sound(Trim(p))
    decreases |p.jobs|
  {
    TrimReachesBound(p);
    if |p.jobs| > MAX_JOB_HISTORY {
      var at := FirstInactive(p);
      TrimOne(p, at);
      TrimSound(Without(p, at));
    }
  }

  lemma FirstInactive(p: Persisted) returns (at: nat)
    requires Lanes(p) && |p.jobs| > MAX_JOB_HISTORY
    ensures at < |p.jobs| && !IsActive(p, p.jobs[at].id) && forall i | 0 <= i < at :: IsActive(p, p.jobs[i].id)
  {
    at := 0;
    while at < |p.jobs| && IsActive(p, p.jobs[at].id)
      invariant at <= |p.jobs| && forall i | 0 <= i < at :: IsActive(p, p.jobs[i].id)
    {
      at := at + 1;
    }
    if at == |p.jobs| { AllActiveIsFew(p); }
  }

  ghost predicate Fresh(jobs: seq<Job>, id: JobId) { forall i | 0 <= i < |jobs| :: jobs[i].id < id }

  /** Within the bound there is nothing to trim. */
  lemma TrimIsDone(p: Persisted)
    ensures |p.jobs| <= MAX_JOB_HISTORY ==> Trim(p) == p
  {
  }

  lemma TrimKeepsFresh(p: Persisted, id: JobId)
    requires Fresh(p.jobs, id)
    ensures Fresh(Trim(p).jobs, id)
  {
    DropsOnly(Holds(p), p.jobs, Excess(p.jobs));
    var kept := Trim(p).jobs;
    forall i | 0 <= i < |kept| ensures kept[i].id < id {
      assert kept[i] in kept;
    }
  }

  // ---------------------------------------------------------------- admission

  function ActiveExclusiveKind(p: Persisted): Option<Kind> {
    if p.exclusive.None? then None else KindOf(p.jobs, p.exclusive.value)
  }

  function KindOf(jobs: seq<Job>, id: JobId): Option<Kind> {
    if jobs == [] then None else if jobs[0].id == id then Some(jobs[0].kind) else KindOf(jobs[1..], id)
  }

  lemma {:induction false} KindOfStored(jobs: seq<Job>, id: JobId)
    ensures KindOf(jobs, id).Some? ==> exists i | 0 <= i < |jobs| :: jobs[i].id == id && KindOf(jobs, id) == Some(jobs[i].kind)
    ensures KindOf(jobs, id).None? ==> !Stored(jobs, id)
  {
    if jobs != [] && jobs[0].id != id {
      KindOfStored(jobs[1..], id);
      if KindOf(jobs, id).Some? {
        var i :| 0 <= i < |jobs[1..]| && jobs[1..][i].id == id && KindOf(jobs, id) == Some(jobs[1..][i].kind);
        assert jobs[i + 1].id == id;
      }
      forall i | 0 <= i < |jobs| && jobs[i].id == id ensures Stored(jobs[1..], id) {
        assert jobs[1..][i - 1] == jobs[i];
      }
    }
  }

  predicate JobsAreCompatible(exclusive: Option<Kind>, degradations: map<Node, JobId>, kind: Kind, node: Option<Node>) {
    match kind
    case Mine => exclusive.None?
    case Degrade => (exclusive.None? || exclusive == Some(Mine)) && node.Some? && node.value !in degradations
    case _ => exclusive.None? && degradations == map[]
  }

  /** Put a new job in its lane. */
  function Admit(p: Persisted, job: Job): Persisted {
    var jobs := p.jobs + [job];
    if job.kind == Degrade && job.node.Some? then p.(jobs := jobs, degradations := p.degradations[job.node.value := job.id])
    else p.(jobs := jobs, exclusive := Some(job.id))
  }

  /** A compatible job with a fresh id and an unused key keeps the lanes sound. */
  lemma AdmitSound(p: Persisted, job: Job)
    requires Lanes(p) && JobsAreCompatible(ActiveExclusiveKind(p), p.degradations, job.kind, job.node)
    requires forall i | 0 <= i < |p.jobs| :: p.jobs[i].id != job.id && (job.key.Some? ==> p.jobs[i].key != job.key)
    ensures Lanes(Admit(p, job)) && IsActive(Admit(p, job), job.id)
    ensures forall id :: IsActive(p, id) ==> IsActive(Admit(p, job), id)
  {
    var q := Admit(p, job);
    var jobs := p.jobs + [job];
    if p.exclusive.Some? { KindOfStored(p.jobs, p.exclusive.value); }
    assert jobs[|p.jobs|] == job;
    assert Stored(jobs, job.id);
    forall id | Stored(p.jobs, id) ensures Stored(jobs, id) {
      var i :| 0 <= i < |p.jobs| && p.jobs[i].id == id;
      assert jobs[i].id == id;
    }
    AdmitKeepsActive(p, job);
    forall i ensures PlacedAt(q, i) {
      if 0 <= i < |p.jobs| { AdmitPlaces(p, job, i); }
    }
    forall i, j ensures DifferAt(jobs, i, j) {
      assert DifferAt(p.jobs, i, j);
    }
  }

  lemma AdmitPlaces(p: Persisted, job: Job, i: nat)
    requires Lanes(p) && JobsAreCompatible(ActiveExclusiveKind(p), p.degradations, job.kind, job.node)
    requires i < |p.jobs| && p.jobs[i].id != job.id
    requires forall id :: IsActive(p, id) ==> IsActive(Admit(p, job), id)
    ensures PlacedAt(Admit(p, job), i)
  {
    assert PlacedAt(p, i);
    if p.exclusive.Some? {
      KindOfStored(p.jobs, p.exclusive.value);
      if p.exclusive.value == p.jobs[i].id {
        FindsKind(p.jobs, i);
      }
    }
  }

  lemma {:induction false} FindsKind(jobs: seq<Job>, i: nat)
    requires Distinct(jobs) && i < |jobs|
    ensures KindOf(jobs, jobs[i].id) == Some(jobs[i].kind)
  {
    if i > 0 {
      assert DifferAt(jobs, 0, i);
      RestDistinct(jobs);
      FindsKind(jobs[1..], i - 1);
    }
  }

  lemma AdmitKeepsActive(p: Persisted, job: Job)
    requires JobsAreCompatible(ActiveExclusiveKind(p), p.degradations, job.kind, job.node)
    requires p.exclusive.Some? ==> ActiveExclusiveKind(p).Some?
    ensures IsActive(Admit(p, job), job.id)
    ensures forall id :: IsActive(p, id) ==> IsActive(Admit(p, job), id)
  {
    var q := Admit(p, job);
    if job.kind == Degrade { assert job.node.value in q.degradations; }
    forall id: JobId | IsActive(p, id) ensures IsActive(q, id) {
      if p.exclusive != Some(id) {
        var n :| n in p.degradations && p.degradations[n] == id;
        assert n in q.degradations && q.degradations[n] == id;
      }
    }
  }

  /** Compatible is exactly what the lanes can take without losing an active job. */
  lemma CompatibleExactly(p: Persisted, job: Job)
    requires Lanes(p) && (job.kind == Degrade ==> job.node.Some?)
    requires forall i | 0 <= i < |p.jobs| :: p.jobs[i].id != job.id && (job.key.Some? ==> p.jobs[i].key != job.key)
    ensures JobsAreCompatible(ActiveExclusiveKind(p), p.degradations, job.kind, job.node) <==>
              Lanes(Admit(p, job)) && forall id :: IsActive(p, id) ==> IsActive(Admit(p, job), id)
  {
    var q := Admit(p, job);
    if JobsAreCompatible(ActiveExclusiveKind(p), p.degradations, job.kind, job.node) {
      AdmitSound(p, job);
    } else if job.kind == Degrade && job.node.value in p.degradations {
      LostWhenReplaced(p, job, p.degradations[job.node.value]);
    } else if job.kind != Degrade && p.exclusive.Some? {
      LostWhenReplaced(p, job, p.exclusive.value);
    } else if job.kind == Degrade {
      var i :| 0 <= i < |p.jobs| && p.jobs[i].id == p.exclusive.value;
      FindsKind(p.jobs, i);
      assert q.jobs[i] == p.jobs[i] && job.node.value in q.degradations;
      assert !PlacedAt(q, i);
    } else {
      assert q.jobs[|p.jobs|] == job;
      assert !PlacedAt(q, |p.jobs|);
    }
  }

  /** An active job whose lane is given to another is active no more. */
  lemma LostWhenReplaced(p: Persisted, job: Job, id: JobId)
    requires Lanes(p) && IsActive(p, id) && id != job.id
    requires if job.kind == Degrade && job.node.Some? then job.node.value in p.degradations && p.degradations[job.node.value] == id
             else p.exclusive == Some(id)
    ensures !IsActive(Admit(p, job), id)
  {
    assert Stored(p.jobs, id);
    var i :| 0 <= i < |p.jobs| && p.jobs[i].id == id;
    assert PlacedAt(p, i);
  }

  // ---------------------------------------------------------------- idempotency

  /** The stored job of a key. */
  function Owner(jobs: seq<Job>, key: string): Option<Job> {
    if jobs == [] then None else if jobs[0].key == Some(key) then Some(jobs[0]) else Owner(jobs[1..], key)
  }

  /** A stored job is what its key finds, wherever it stands in the history. */
  lemma {:induction false} OwnerIsUnique(jobs: seq<Job>, key: string)
    requires Distinct(jobs)
    ensures forall i | 0 <= i < |jobs| :: jobs[i].key == Some(key) ==> Owner(jobs, key) == Some(jobs[i])
    ensures Owner(jobs, key).Some? ==> exists i | 0 <= i < |jobs| :: jobs[i] == Owner(jobs, key).value && jobs[i].key == Some(key)
  {
    if jobs != [] && jobs[0].key != Some(key) {
      var rest := jobs[1..];
      assert forall i | 0 <= i < |rest| :: rest[i] == jobs[i + 1];
      RestDistinct(jobs);
      OwnerIsUnique(rest, key);
      forall i | 0 <= i < |jobs| && jobs[i].key == Some(key) ensures Owner(jobs, key) == Some(jobs[i]) {
        assert rest[i - 1] == jobs[i];
      }
      if Owner(jobs, key).Some? {
        var i :| 0 <= i < |rest| && rest[i] == Owner(rest, key).value && rest[i].key == Some(key);
        assert jobs[i + 1] == rest[i];
      }
    } else {
      forall i | 0 < i < |jobs| ensures jobs[i].key != jobs[0].key || jobs[0].key.None? {
        assert DifferAt(jobs, 0, i);
      }
    }
  }

  datatype Request = Request(kind: Kind, fingerprint: string, key: Option<string>, node: Option<Node>)
  datatype Refusal = ValidationFailed | OperationInProgress | FaucetDeliveryPending
  /** `Errored` is an internal error after the job was admitted: it has a lane but no executor. */
  datatype Started = Created(id: JobId) | Reused(id: JobId, state: State) | Refused(why: Refusal) | Errored(id: JobId)

  function JobOf(id: JobId, r: Request): Job { Job(id, r.kind, Starting, r.key, r.fingerprint, r.node) }

  /** Kinds that may start while a faucet transfer waits for its confirmation. */
  predicate RunsBesideDelivery(k: Kind) { k in {Mine, SpamPrepare, SpamBurst} }

  /** The decision about a start request. */
  function Decide(p: Persisted, recovering: bool, pending: bool, r: Request, next: JobId): Started {
    var owner := if r.key.Some? then Owner(p.jobs, r.key.value) else None;
    if r.kind == Degrade && r.node.None? then Refused(ValidationFailed)
    else if owner.Some? then
      if owner.value.kind != r.kind || owner.value.fingerprint != r.fingerprint then Refused(ValidationFailed)
      else Reused(owner.value.id, owner.value.state)
    else if !JobsAreCompatible(ActiveExclusiveKind(p), p.degradations, r.kind, r.node) then Refused(OperationInProgress)
    else if recovering then Refused(OperationInProgress)
    else if pending && !RunsBesideDelivery(r.kind) then Refused(FaucetDeliveryPending)
    else Created(next)
  }

  /** A retry of a stored job's request finds that job, in whatever lanes and delivery state
      the coordinator is by then; another request under its key is refused; and only a key no
      stored job holds can create one. */
  lemma RetryFindsTheJob(p: Persisted, recovering: bool, pending: bool, r: Request, next: JobId, i: nat)
    requires Lanes(p) && i < |p.jobs| && r.key.Some? && p.jobs[i].key == r.key
    requires r.kind == Degrade ==> r.node.Some?
    ensures Decide(p, recovering, pending, r, next) ==
            if p.jobs[i].kind == r.kind && p.jobs[i].fingerprint == r.fingerprint then Reused(p.jobs[i].id, p.jobs[i].state)
            else Refused(ValidationFailed)
  {
    OwnerIsUnique(p.jobs, r.key.value);
  }

  lemma CreatesOnlyUnusedKeys(p: Persisted, recovering: bool, pending: bool, r: Request, next: JobId)
    requires Lanes(p) && Decide(p, recovering, pending, r, next).Created?
    requires forall i | 0 <= i < |p.jobs| :: p.jobs[i].id != next
    ensures Lanes(Admit(p, JobOf(next, r))) && IsActive(Admit(p, JobOf(next, r)), next) && !IsActive(p, next)
    ensures forall id :: IsActive(p, id) ==> IsActive(Admit(p, JobOf(next, r)), id)
  {
    if r.key.Some? { OwnerIsUnique(p.jobs, r.key.value); }
    AdmitSound(p, JobOf(next, r));
  }

  /** No stored job holds the key of the request. */
  ghost predicate Unused(p: Persisted, r: Request) {
    r.key.Some? ==> forall i | 0 <= i < |p.jobs| :: p.jobs[i].key != r.key
  }

  /** Every answer exactly. While a faucet transfer waits for its confirmation only mining and
      the two spam jobs may start. */
  lemma DecidesExactly(p: Persisted, recovering: bool, pending: bool, r: Request, next: JobId)
    requires Lanes(p)
    ensures var fits := JobsAreCompatible(ActiveExclusiveKind(p), p.degradations, r.kind, r.node);
            var beside := r.kind == Mine || r.kind == SpamPrepare || r.kind == SpamBurst;
            var sound, decided := r.kind == Degrade ==> r.node.Some?, Decide(p, recovering, pending, r, next);
      && (decided.Created? <==> sound && Unused(p, r) && fits && !recovering && (pending ==> beside))
      && (decided == Refused(FaucetDeliveryPending) <==> sound && Unused(p, r) && fits && !recovering && pending && !beside)
      && (decided == Refused(OperationInProgress) <==> sound && Unused(p, r) && (!fits || recovering))
      && (decided == Refused(ValidationFailed) ==> !sound || !Unused(p, r))
      && (decided.Reused? ==> sound && !Unused(p, r))
      && !decided.Errored? && (decided.Created? ==> decided.id == next)
  {
    if r.key.Some? { OwnerIsUnique(p.jobs, r.key.value); }
  }

  /** Admission followed by trimming. */
  function Reserved(p: Persisted, r: Request, id: JobId): Persisted { Trim(Admit(p, JobOf(id, r))) }

  lemma ReservedSound(p: Persisted, recovering: bool, pending: bool, r: Request, next: JobId)
    requires Sound(p) && Fresh(p.jobs, next) && Decide(p, recovering, pending, r, next).Created?
    ensures Sound(Reserved(p, r, next)) && Fresh(Reserved(p, r, next).jobs, next + 1)
    ensures IsActive(Reserved(p, r, next), next) && !IsActive(p, next)
    ensures forall id :: IsActive(p, id) ==> IsActive(Reserved(p, r, next), id)
    ensures forall k | Ended(p.jobs, k) && k != next :: Ended(Reserved(p, r, next).jobs, k)
    ensures Unfinished(Reserved(p, r, next).jobs, next)
    ensures forall k | IsActive(p, k) && Unfinished(p.jobs, k) :: Unfinished(Reserved(p, r, next).jobs, k)
  {
    var q := Admit(p, JobOf(next, r));
    forall k | Ended(p.jobs, k) && k != next ensures Ended(Reserved(p, r, next).jobs, k) {
      ReservedKeepsEnded(p, r, next, k);
    }
    ReservedPlaced(p, recovering, pending, r, next);
    ReservedKeepsUnfinished(p, r, next);
  }

  lemma ReservedPlaced(p: Persisted, recovering: bool, pending: bool, r: Request, next: JobId)
    requires Sound(p) && Fresh(p.jobs, next) && Decide(p, recovering, pending, r, next).Created?
    ensures Sound(Reserved(p, r, next)) && Fresh(Reserved(p, r, next).jobs, next + 1)
    ensures IsActive(Reserved(p, r, next), next) && !IsActive(p, next)
    ensures Lanes(Admit(p, JobOf(next, r))) && IsActive(Admit(p, JobOf(next, r)), next)
    ensures forall id :: IsActive(p, id) ==> IsActive(Admit(p, JobOf(next, r)), id)
  {
    var q := Admit(p, JobOf(next, r));
    CreatesOnlyUnusedKeys(p, recovering, pending, r, next);
    TrimSound(q);
    assert Fresh(q.jobs, next + 1);
    TrimKeepsFresh(q, next + 1);
  }

  /** What was reserved is on record as requested, and a retry finds it. */
  lemma ReservedIsFound(p: Persisted, r: Request, id: JobId)
    requires Lanes(Admit(p, JobOf(id, r))) && IsActive(Admit(p, JobOf(id, r)), id)
    requires Sound(Reserved(p, r, id)) && (r.kind == Degrade ==> r.node.Some?)
    ensures Job(id, r.kind, Starting, r.key, r.fingerprint, r.node) in Reserved(p, r, id).jobs
    ensures r.key.Some? ==>
              forall recovering, pending, next ::
                Decide(Reserved(p, r, id), recovering, pending, r, next) == Reused(id, Starting)
  {
    var q, job := Admit(p, JobOf(id, r)), JobOf(id, r);
    var _ := TrimKeepsActiveAndNewest(q);
    assert q.jobs[|p.jobs|] == job && job in q.jobs;
    if r.key.Some? { OwnerIsUnique(Trim(q).jobs, r.key.value); }
  }

  // ---------------------------------------------------------------- older records

  datatype Legacy = Legacy(active: Option<JobId>, jobs: seq<Job>)

  /** A record of schema 1, 2 or 3: one active job of any kind, every unfinished job active. */
  ghost predicate LegacySound(l: Legacy) {
    && Distinct(l.jobs) && |l.jobs| <= MAX_JOB_HISTORY
    && (forall i | 0 <= i < |l.jobs| :: Terminal(l.jobs[i].state) || l.active == Some(l.jobs[i].id))
  }

  function FindStored(jobs: seq<Job>, id: JobId): Option<Job> {
    if jobs == [] then None else if jobs[0].id == id then Some(jobs[0]) else FindStored(jobs[1..], id)
  }

  lemma {:induction false} FindsStored(jobs: seq<Job>, id: JobId)
    requires Distinct(jobs)
    ensures FindStored(jobs, id).Some? <==> Stored(jobs, id)
    ensures forall i | 0 <= i < |jobs| :: jobs[i].id == id ==> FindStored(jobs, id) == Some(jobs[i])
  {
    if jobs != [] && jobs[0].id != id {
      var rest := jobs[1..];
      assert forall i | 0 <= i < |rest| :: rest[i] == jobs[i + 1];
      RestDistinct(jobs);
      FindsStored(rest, id);
      forall i | 0 <= i < |jobs| && jobs[i].id == id ensures FindStored(jobs, id) == Some(jobs[i]) && Stored(rest, id) {
        assert rest[i - 1] == jobs[i];
      }
      if Stored(rest, id) {
        var i :| 0 <= i < |rest| && rest[i].id == id;
        assert jobs[i + 1].id == id;
      }
    } else if jobs != [] {
      assert Stored(jobs, id);
      forall i | 0 < i < |jobs| ensures jobs[i].id != id {
        assert DifferAt(jobs, 0, i);
      }
    }
  }

  /** Only an active degradation changes lanes; a record it cannot place is refused. */
  function MigrateLegacyActiveJob(l: Legacy): Option<Persisted> {
    if l.active.None? then Some(Persisted(None, map[], l.jobs))
    else
      var job := FindStored(l.jobs, l.active.value);
      if job.None? then None
      else if job.value.kind != Degrade then Some(Persisted(l.active, map[], l.jobs))
      else if job.value.node.None? then None
      else Some(Persisted(None, map[job.value.node.value := l.active.value], l.jobs))
  }

  /** Migration keeps the jobs and the set of active ids, ends sound, and fails exactly on a
      missing active job or a degradation without a known node. */
  lemma MigrationIsSound(l: Legacy)
    requires LegacySound(l)
    ensures var p := MigrateLegacyActiveJob(l);
      && (p.Some? ==> Sound(p.value) && p.value.jobs == l.jobs && forall id: JobId :: IsActive(p.value, id) <==> l.active == Some(id))
      && (p.None? <==>
           l.active.Some? &&
           forall i | 0 <= i < |l.jobs| :: l.jobs[i].id == l.active.value ==> l.jobs[i].kind == Degrade && l.jobs[i].node.None?)
  {
    if l.active.Some? { FindsStored(l.jobs, l.active.value); }
    var p := MigrateLegacyActiveJob(l);
    if p.Some? {
      forall id: JobId ensures IsActive(p.value, id) <==> l.active == Some(id) {
        if l.active == Some(id) && p.value.exclusive.None? {
          var n := FindStored(l.jobs, id).value.node.value;
          assert n in p.value.degradations && p.value.degradations[n] == id;
        }
      }
      forall i ensures PlacedAt(p.value, i) {
        assert 0 <= i < |l.jobs| && l.active == Some(l.jobs[i].id) ==> FindStored(l.jobs, l.active.value) == Some(l.jobs[i]);
      }
    } else if Stored(l.jobs, l.active.value) {
      var i :| 0 <= i < |l.jobs| && l.jobs[i].id == l.active.value;
      assert FindStored(l.jobs, l.active.value) == Some(l.jobs[i]);
    }
  }

  // ---------------------------------------------------------------- ended jobs

  predicate EndedAt(jobs: seq<Job>, i: int, id: JobId) { 0 <= i < |jobs| && jobs[i].id == id ==> Terminal(jobs[i].state) }

  /** No stored record of the job is unfinished. */
  ghost predicate Ended(jobs: seq<Job>, id: JobId) { forall i :: EndedAt(jobs, i, id) }

  lemma SetStateKeepsEnded(p: Persisted, id: JobId, s: State)
    ensures Terminal(s) ==> Ended(SetState(p, id, s).jobs, id)
    ensures forall k | Ended(p.jobs, k) && (k != id || Terminal(s)) :: Ended(SetState(p, id, s).jobs, k)
  {
    SetStateKeepsIds(p, id, s);
    var q := SetState(p, id, s);
    forall k | Terminal(s) || (Ended(p.jobs, k) && k != id) ensures k == id || Ended(p.jobs, k) ==> Ended(q.jobs, k) {
      forall i ensures k == id || Ended(p.jobs, k) ==> EndedAt(q.jobs, i, k) {
        assert Ended(p.jobs, k) ==> EndedAt(p.jobs, i, k);
      }
    }
  }

  lemma ReservedKeepsEnded(p: Persisted, r: Request, next: JobId, k: JobId)
    requires Ended(p.jobs, k) && k != next
    ensures Ended(Reserved(p, r, next).jobs, k)
  {
    var q := Admit(p, JobOf(next, r));
    DropsOnly(Holds(q), q.jobs, Excess(q.jobs));
    var kept := Trim(q).jobs;
    forall i ensures EndedAt(kept, i, k) {
      if 0 <= i < |kept| {
        assert kept[i] in q.jobs;
        var j :| 0 <= j < |q.jobs| && q.jobs[j] == kept[i];
        assert EndedAt(p.jobs, j, k);
      }
    }
  }

  /** Some stored record of the job is unfinished. */
  ghost predicate Unfinished(jobs: seq<Job>, id: JobId) {
    exists i :: UnfinishedAt(jobs, i, id)
  }

  predicate UnfinishedAt(jobs: seq<Job>, i: int, id: JobId) { 0 <= i < |jobs| && jobs[i].id == id && !Terminal(jobs[i].state) }

  lemma ReservedKeepsUnfinished(p: Persisted, r: Request, next: JobId)
    requires Lanes(Admit(p, JobOf(next, r))) && IsActive(Admit(p, JobOf(next, r)), next)
    requires forall id :: IsActive(p, id) ==> IsActive(Admit(p, JobOf(next, r)), id)
    ensures Unfinished(Reserved(p, r, next).jobs, next)
    ensures forall k | IsActive(p, k) && Unfinished(p.jobs, k) :: Unfinished(Reserved(p, r, next).jobs, k)
  {
    var q := Admit(p, JobOf(next, r));
    var cut := TrimKeepsActiveAndNewest(q);
    var kept := Trim(q).jobs;
    forall k | k == next || (IsActive(p, k) && Unfinished(p.jobs, k)) ensures Unfinished(kept, k) {
      var i := |p.jobs|;
      if k != next {
        i :| UnfinishedAt(p.jobs, i, k);
      }
      assert q.jobs[i] in q.jobs && q.jobs[i] in kept;
      var j :| 0 <= j < |kept| && kept[j] == q.jobs[i];
      assert UnfinishedAt(kept, j, k);
    }
  }

  lemma SetStateKeepsUnfinished(p: Persisted, id: JobId, s: State)
    ensures forall k | Unfinished(p.jobs, k) && (k != id || !Terminal(s)) :: Unfinished(SetState(p, id, s).jobs, k)
  {
    SetStateKeepsIds(p, id, s);
    var q := SetState(p, id, s);
    forall k | Unfinished(p.jobs, k) && (k != id || !Terminal(s)) ensures Unfinished(q.jobs, k) {
      var i :| UnfinishedAt(p.jobs, i, k);
      assert UnfinishedAt(q.jobs, i, k);
    }
  }

  lemma NotEnded(jobs: seq<Job>, id: JobId)
    requires Distinct(jobs) && FindStored(jobs, id).Some? && !Terminal(FindStored(jobs, id).value.state)
    ensures !Ended(jobs, id)
  {
    FindsStored(jobs, id);
    var i :| 0 <= i < |jobs| && jobs[i].id == id;
    assert !EndedAt(jobs, i, id);
  }

  lemma StoredEnded(jobs: seq<Job>, id: JobId)
    requires Ended(jobs, id)
    ensures forall i | 0 <= i < |jobs| :: jobs[i].id == id ==> Terminal(jobs[i].state)
  {
    forall i | 0 <= i < |jobs| ensures jobs[i].id == id ==> Terminal(jobs[i].state) {
      assert EndedAt(jobs, i, id);
    }
  }

  function Finished(p: Persisted, id: JobId, final: State, cleanupFailed: bool): Persisted {
    var q := SetState(p, id, final);
    if cleanupFailed then q else ClearActiveLane(q, id)
  }

  /** The job has its new state, and nothing else changed. */
  ghost predicate OnlyState(before: seq<Job>, after: seq<Job>, id: JobId, s: State) {
    && |after| == |before|
    && forall i | 0 <= i < |before| :: after[i] == before[i].(state := if before[i].id == id then s else before[i].state)
  }

  /** Finishing a job frees exactly its lanes, unless its cleanup failed, and touches no other. */
  lemma FinishSound(p: Persisted, id: JobId, final: State, cleanupFailed: bool)
    requires Sound(p) && Terminal(final)
    ensures var q := Finished(p, id, final, cleanupFailed);
            && Sound(q) && Ended(q.jobs, id) && (forall next | Fresh(p.jobs, next) :: Fresh(q.jobs, next))
            && (forall k: JobId :: IsActive(q, k) <==> IsActive(p, k) && (cleanupFailed || k != id))
            && (forall k | Ended(p.jobs, k) :: Ended(q.jobs, k))
            && (forall k | Unfinished(p.jobs, k) && k != id :: Unfinished(q.jobs, k))
            && OnlyState(p.jobs, q.jobs, id, final)
  {
    var q := SetState(p, id, final);
    SetStateSound(p, id, final);
    SetStateKeepsIds(p, id, final);
    SetStateKeepsEnded(p, id, final);
    SetStateKeepsUnfinished(p, id, final);
    if !cleanupFailed {
      StoredEnded(q.jobs, id);
      ClearSound(q, id);
    }
  }

  // ---------------------------------------------------------------- the coordinator

  /** `state` is what the process works on, `disk` what it last managed to save; a failed save
      is logged and the process goes on. */
  class JobManager {
    var state: Persisted
    var disk: Persisted
    var saves: seq<bool>          // which of the coming saves reach the disk
    var sticks: seq<bool>         // which of the coming removals of event files fail
    var threads: set<JobId>       // jobs whose executor is still running
    var recovering: set<JobId>    // jobs with a recovery loop
    var nextId: JobId             // ids are fresh across restarts

    ghost predicate Valid()
      reads this
    {
      && Sound(state) && Sound(disk)
      && (forall id | id in threads :: IsActive(state, id) && id < nextId)
      && (forall id | id in recovering :: Recovering(id))
      && Fresh(state.jobs, nextId) && Fresh(disk.jobs, nextId)
    }

    /** A job is recovered only after it ended: its thread is gone and its record terminal. */
    ghost predicate Recovering(id: JobId)
      reads this
    {
      id !in threads && id < nextId && Ended(state.jobs, id)
    }

    constructor (saves: seq<bool>, sticks: seq<bool>)
      ensures this.saves == saves && this.sticks == sticks
      ensures Valid() && state == disk == Persisted(None, map[], [])
    {
      this.saves, this.sticks := saves, sticks;
      state, disk := Persisted(None, map[], []), Persisted(None, map[], []);
      threads, recovering, nextId := {}, {}, 0;
    }

    method Save() returns (ok: bool)
      modifies this`disk, this`saves
      ensures ok == Lands(old(saves), 0) && saves == After(old(saves), 1)
      ensures disk == if ok then state else old(disk)
    {
      ok := Lands(saves, 0);
      saves := After(saves, 1);
      if ok { disk := state; }
    }

    method FindByKey(key: string) returns (job: Option<Job>)
      ensures job == Owner(state.jobs, key)
    {
      for i := 0 to |state.jobs|
        invariant Owner(state.jobs, key) == Owner(state.jobs[i..], key)
      {
        assert state.jobs[i..][1..] == state.jobs[i + 1..];
        if state.jobs[i].key == Some(key) { return Some(state.jobs[i]); }
      }
      assert state.jobs[|state.jobs|..] == [];
      return None;
    }

    method FirstRemovable() returns (at: nat)
      requires Lanes(state) && |state.jobs| > MAX_JOB_HISTORY
      ensures at < |state.jobs| && !IsActive(state, state.jobs[at].id)
      ensures forall i | 0 <= i < at :: IsActive(state, state.jobs[i].id)
    {
      at := 0;
      while at < |state.jobs| && !(Terminal(state.jobs[at].state) && !IsActive(state, state.jobs[at].id))
        invariant at <= |state.jobs|
        invariant forall i | 0 <= i < at :: IsActive(state, state.jobs[i].id)
      {
        assert PlacedAt(state, at);
        at := at + 1;
      }
      if at == |state.jobs| { AllActiveIsFew(state); }
    }

    /** Drop the oldest removable records until the bound holds. Removing a record's event files
        may fail, which ends the loop after that record is gone. */
    method TrimHistory() returns (ok: bool)
      requires Lanes(state)
      modifies this`state, this`sticks
      ensures ok <==> NoneAsks(old(sticks), Excess(old(state).jobs))
      ensures Lanes(state) && Trim(state) == Trim(old(state))
      ensures ok ==> state == Trim(old(state))
      ensures !ok ==> |state.jobs| < |old(state).jobs|
    {
      ghost var before := state;
      while |state.jobs| > MAX_JOB_HISTORY
        invariant Lanes(state) && Trim(state) == Trim(before) && |state.jobs| <= |before.jobs|
        invariant Excess(before.jobs) == Excess(state.jobs) + |before.jobs| - |state.jobs|
        invariant var k := |before.jobs| - |state.jobs|; sticks == After(old(sticks), k) && NoneAsks(old(sticks), k)
        decreases |state.jobs|
      {
        var at := FirstRemovable();
        TrimOne(state, at);
        NoneAsksMore(old(sticks), |before.jobs| - |state.jobs|);
        state := Without(state, at);
        var stuck := Asks(sticks, 0);
        sticks := After(sticks, 1);
        if stuck { return false; }
      }
      return true;
    }

    /** The answer to a start request, without changing anything. */
    method Answer(r: Request, deliveryRecovering: bool, pending: bool) returns (started: Started)
      requires Lanes(state)
      ensures started == Decide(state, deliveryRecovering, pending, r, nextId)
      ensures started.Created? && pending ==> r.kind == Mine || r.kind == SpamPrepare || r.kind == SpamBurst
      ensures started == Refused(FaucetDeliveryPending) <==>
                && pending && r.kind != Mine && r.kind != SpamPrepare && r.kind != SpamBurst && !deliveryRecovering
                && (r.kind == Degrade ==> r.node.Some?) && Unused(state, r)
                && JobsAreCompatible(ActiveExclusiveKind(state), state.degradations, r.kind, r.node)
    {
      DecidesExactly(state, deliveryRecovering, pending, r, nextId);
      if r.kind == Degrade && r.node.None? { return Refused(ValidationFailed); }
      if r.key.Some? {
        var existing := FindByKey(r.key.value);
        if existing.Some? {
          if existing.value.kind != r.kind || existing.value.fingerprint != r.fingerprint { return Refused(ValidationFailed); }
          return Reused(existing.value.id, existing.value.state);
        }
      }
      if !JobsAreCompatible(ActiveExclusiveKind(state), state.degradations, r.kind, r.node) { return Refused(OperationInProgress); }
      if deliveryRecovering { return Refused(OperationInProgress); }
      if pending && !RunsBesideDelivery(r.kind) { return Refused(FaucetDeliveryPending); }
      return Created(nextId);
    }

    /** Reserve a lane for a new job, or answer from the history. A job is reported created only
        once it is saved and has its executor. If trimming or the save fails, the caller gets
        an error, but the job stays in the history, unfinished and in its lane. */
    method Reserve(r: Request, deliveryRecovering: bool, pending: bool) returns (started: Started)
      requires Valid()
      modifies this`state, this`disk, this`saves, this`sticks, this`threads, this`nextId
      ensures Valid()
      ensures var decided := Decide(old(state), deliveryRecovering, pending, r, old(nextId));
              started == decided || (decided.Created? && started == Errored(decided.id))
      ensures !started.Created? && !started.Errored? ==>
                state == old(state) && disk == old(disk) && threads == old(threads) && nextId == old(nextId)
      ensures started.Created? || started.Errored? ==>
                && state == Reserved(old(state), r, started.id)
                && IsActive(state, started.id) && !IsActive(old(state), started.id)
      ensures started.Created? ==> disk == state && threads == old(threads) + {started.id}
      ensures started.Errored? ==> disk == old(disk) && threads == old(threads) && Orphaned(started.id)
      ensures forall id :: old(Orphaned(id)) ==> Orphaned(id)
      ensures (started.Created? || started.Errored?) && pending ==> r.kind == Mine || r.kind == SpamPrepare || r.kind == SpamBurst
      ensures started == Refused(FaucetDeliveryPending) <==>
                && pending && r.kind != Mine && r.kind != SpamPrepare && r.kind != SpamBurst && !deliveryRecovering
                && (r.kind == Degrade ==> r.node.Some?) && Unused(old(state), r)
                && JobsAreCompatible(ActiveExclusiveKind(old(state)), old(state).degradations, r.kind, r.node)
      ensures started.Created? || started.Errored? ==>
                && Unused(old(state), r)
                && Job(started.id, r.kind, Starting, r.key, r.fingerprint, r.node) in state.jobs
                && (r.key.Some? ==> forall recovering, delivering, next ::
                      Decide(state, recovering, delivering, r, next) == Reused(started.id, Starting))
      ensures started.Created? <==>
                && Decide(old(state), deliveryRecovering, pending, r, old(nextId)).Created?
                && Lands(old(saves), 0) && (|old(state).jobs| == MAX_JOB_HISTORY ==> !Asks(old(sticks), 0))
    {
      DecidesExactly(state, deliveryRecovering, pending, r, nextId);
      started := Answer(r, deliveryRecovering, pending);
      if started.Created? { started := Start(r, deliveryRecovering, pending); }
    }

    /** The rest of a reservation that is to be created. */
    method Start(r: Request, ghost deliveryRecovering: bool, ghost pending: bool) returns (started: Started)
      requires Valid() && Decide(state, deliveryRecovering, pending, r, nextId).Created?
      modifies this`state, this`disk, this`saves, this`sticks, this`threads, this`nextId
      ensures Valid() && (started == Created(old(nextId)) || started == Errored(old(nextId)))
      ensures state == Reserved(old(state), r, old(nextId)) && IsActive(state, old(nextId)) && !IsActive(old(state), old(nextId))
      ensures started.Created? ==> disk == state && threads == old(threads) + {started.id}
      ensures started.Errored? ==> disk == old(disk) && threads == old(threads) && Orphaned(started.id)
      ensures forall id :: old(Orphaned(id)) ==> Orphaned(id)
      ensures Job(started.id, r.kind, Starting, r.key, r.fingerprint, r.node) in state.jobs
      ensures r.key.Some? ==> forall recovering, delivering, next ::
                Decide(state, recovering, delivering, r, next) == Reused(started.id, Starting)
      ensures started.Created? <==> Lands(old(saves), 0) && (|old(state).jobs| == MAX_JOB_HISTORY ==> !Asks(old(sticks), 0))
    {
      var id := nextId;
      ReservedSound(state, deliveryRecovering, pending, r, id);
      CreatesOnlyUnusedKeys(state, deliveryRecovering, pending, r, id);
      ReservedIsFound(state, r, id);
      var placed := Place(r, deliveryRecovering, pending);
      nextId := nextId + 1;
      if placed { placed := Save(); }
      if !placed { return Errored(id); }
      threads := threads + {id};
      return Created(id);
    }

    /** Put the job in its lane and trim the history. */
    method Place(r: Request, ghost deliveryRecovering: bool, ghost pending: bool) returns (trimmed: bool)
      requires Sound(state) && Fresh(state.jobs, nextId) && Decide(state, deliveryRecovering, pending, r, nextId).Created?
      modifies this`state, this`sticks
      ensures state == Reserved(old(state), r, nextId)
      ensures trimmed <==> (|old(state).jobs| == MAX_JOB_HISTORY ==> !Asks(old(sticks), 0))
    {
      CreatesOnlyUnusedKeys(state, deliveryRecovering, pending, r, nextId);
      state := Admit(state, JobOf(nextId, r));
      TrimReachesBound(state);
      NoneAsksMore(sticks, 0);
      trimmed := TrimHistory();
      TrimIsDone(state);
    }

    /** A job in a lane that no executor and no recovery works for. */
    ghost predicate Orphaned(id: JobId)
      reads this
    {
      IsActive(state, id) && id !in threads && id !in recovering && Unfinished(state.jobs, id)
    }

    /** A live executor reports progress. */
    method SetRunning(id: JobId, waiting: bool)
      requires Valid() && id in threads
      modifies this`state, this`disk, this`saves
      ensures Valid()
      ensures var job := FindStored(old(state).jobs, id);
              state == if job.None? || job.value.state == AbortRequested then old(state)
                       else SetState(old(state), id, if waiting then WaitingAtCheckpoint else Running)
      ensures forall k: JobId :: IsActive(state, k) <==> old(IsActive(state, k))
      ensures forall k :: old(Orphaned(k)) ==> Orphaned(k)
      ensures disk == old(disk) || (disk == state && Lands(old(saves), 0))
      ensures state != old(state) && Lands(old(saves), 0) ==> disk == state
    {
      var job := FindStored(state.jobs, id);
      if job.None? { return; }
      if job.value.state == AbortRequested { return; }
      var s := if waiting then WaitingAtCheckpoint else Running;
      SetStateSound(state, id, s);
      SetStateKeepsEnded(state, id, s);
      SetStateKeepsUnfinished(state, id, s);
      state := SetState(state, id, s);
      var _ := Save();
    }

    /** Request a cooperative abort; a terminal job answers with its state and nothing changes.
        If the save fails the request is in force but reported as an error. */
    method Abort(id: JobId) returns (answer: Option<State>, saved: bool)
      requires Valid()
      modifies this`state, this`disk, this`saves
      ensures Valid()
      ensures answer.None? <==> !Stored(old(state).jobs, id)
      ensures answer.Some? ==> (answer.value == AbortRequested || Terminal(answer.value))
      ensures state == if answer == Some(AbortRequested) then SetState(old(state), id, AbortRequested) else old(state)
      ensures disk == if answer == Some(AbortRequested) && saved then state else old(disk)
      ensures forall k: JobId :: IsActive(state, k) <==> old(IsActive(state, k))
      ensures forall k :: old(Orphaned(k)) ==> Orphaned(k)
      ensures answer == Some(AbortRequested) ==> saved == Lands(old(saves), 0)
    {
      FindsStored(state.jobs, id);
      var job := FindStored(state.jobs, id);
      if job.None? { return None, true; }
      if Terminal(job.value.state) { return Some(job.value.state), true; }
      UnfinishedIsActive(state, id);
      NotEnded(state.jobs, id);
      SetStateSound(state, id, AbortRequested);
      SetStateKeepsEnded(state, id, AbortRequested);
      SetStateKeepsUnfinished(state, id, AbortRequested);
      state := SetState(state, id, AbortRequested);
      saved := Save();
      return Some(AbortRequested), saved;
    }

    /** A job ends. Its lane is cleared only when its cleanup succeeded; otherwise the lane
        stays taken and recovery starts. Also what a panicked executor runs, at any time. */
    method FinishJob(id: JobId, final: State, cleanupFailed: bool)
      requires Valid() && Terminal(final) && id < nextId
      modifies this`state, this`disk, this`saves, this`threads, this`recovering
      ensures Valid()
      ensures state == Finished(old(state), id, final, cleanupFailed)
      ensures forall k: JobId :: IsActive(state, k) <==> old(IsActive(state, k)) && (cleanupFailed || k != id)
      ensures threads == old(threads) - {id} && recovering == old(recovering) + if cleanupFailed then {id} else {}
      ensures OnlyState(old(state).jobs, state.jobs, id, final)
      ensures forall k :: old(Orphaned(k)) && k != id ==> Orphaned(k)
      ensures disk == if Lands(old(saves), 0) then state else old(disk)
    {
      FinishSound(state, id, final, cleanupFailed);
      EndJob(id, final, cleanupFailed);
      threads := threads - {id};
      var _ := Save();
      if cleanupFailed { recovering := recovering + {id}; }
    }

    method EndJob(id: JobId, final: State, cleanupFailed: bool)
      modifies this`state
      ensures state == Finished(old(state), id, final, cleanupFailed)
    {
      state := SetState(state, id, final);
      if !cleanupFailed { state := ClearActiveLane(state, id); }
    }

    /** A recovery loop may settle the final state of its (terminal) job. */
    method SettleRecovered(id: JobId, final: State)
      requires Valid() && Terminal(final) && id in recovering
      modifies this`state, this`disk, this`saves
      ensures Valid() && state == SetState(old(state), id, final)
      ensures forall k: JobId :: IsActive(state, k) <==> old(IsActive(state, k))
      ensures forall k :: old(Orphaned(k)) ==> Orphaned(k)
      ensures disk == if Lands(old(saves), 0) then state else old(disk)
    {
      SetStateSound(state, id, final);
      SetStateKeepsEnded(state, id, final);
      SetStateKeepsUnfinished(state, id, final);
      state := SetState(state, id, final);
      var _ := Save();
    }

    /** A recovery loop found every owned resource released. */
    method RecoveryComplete(id: JobId)
      requires Valid() && id in recovering
      modifies this`state, this`disk, this`saves, this`recovering
      ensures Valid() && state == ClearActiveLane(old(state), id)
      ensures forall k: JobId :: IsActive(state, k) <==> old(IsActive(state, k)) && k != id
      ensures forall k :: old(Orphaned(k)) ==> Orphaned(k)
      ensures disk == if Lands(old(saves), 0) then state else old(disk)
      ensures recovering == old(recovering) - {id}
    {
      StoredEnded(state.jobs, id);
      ClearSound(state, id);
      state := ClearActiveLane(state, id);
      recovering := recovering - {id};
      var _ := Save();
    }

    /** The process died and starts again from its last save: every unfinished job becomes
        interrupted, keeps its lane, and gets a recovery loop. */
    method Restart()
      requires Valid()
      modifies this
      ensures Valid()
      ensures state == InterruptAll(old(disk), ActiveJobIds(old(disk)))
      ensures |state.jobs| == |old(disk).jobs|
      ensures forall i | 0 <= i < |state.jobs| ::
                state.jobs[i] == (if Terminal(old(disk).jobs[i].state) then old(disk).jobs[i]
                                  else old(disk).jobs[i].(state := Interrupted))
      ensures state.exclusive == old(disk).exclusive && state.degradations == old(disk).degradations
      ensures threads == {} && recovering == (set k | k in ActiveJobIds(old(disk))) && nextId == old(nextId)
      ensures disk == if Lands(old(saves), 0) then state else old(disk)
    {
      RestartSound(disk, nextId);
      state, threads := disk, {};
      recovering := InterruptActive();
      var _ := Save();
    }

    method InterruptActive() returns (marked: set<JobId>)
      modifies this`state
      ensures state == InterruptAll(old(state), ActiveJobIds(old(state)))
      ensures marked == set k | k in ActiveJobIds(old(state))
    {
      var ids := ActiveJobIds(state);
      for i := 0 to |ids|
        invariant InterruptAll(state, ids[i..]) == InterruptAll(old(state), ids)
      {
        assert ids[i..][1..] == ids[i + 1..];
        state := Interrupt(state, ids[i]);
      }
      assert ids[|ids|..] == [];
      marked := set k | k in ids;
    }

    /** Open an older record in place of the current one. */
    method OpenLegacy(l: Legacy) returns (ok: bool)
      requires Valid() && LegacySound(l) && Fresh(l.jobs, nextId)
      modifies this
      ensures Valid() && (ok <==> MigrateLegacyActiveJob(l).Some?)
      ensures ok ==> var migrated := MigrateLegacyActiveJob(l).value;
                state.exclusive == migrated.exclusive && state.degradations == migrated.degradations
    {
      MigrationIsSound(l);
      var migrated := MigrateLegacyActiveJob(l);
      if migrated.None? { return false; }
      disk := migrated.value;
      Restart();
      return true;
    }

    /** One step of a running process. Executors finish their own job; a recovery loop settles and
        completes its own. */
    method Step()
      requires Valid()
      modifies this
      ensures Valid()
      ensures forall k :: old(Orphaned(k)) ==> Orphaned(k)
    {
      var step: nat := *;
      var id: JobId := *;
      var s: State := *;
      var flag, other: bool := *, *;
      var request: Request := *;
      match step
      case 0 => var _ := Reserve(request, flag, other);
      case 1 => if id in threads { SetRunning(id, flag); }
      case 2 => var _, _ := Abort(id);
      case 3 => if id in threads && Terminal(s) { FinishJob(id, s, flag); }
      case 4 => if id in recovering && Terminal(s) { SettleRecovered(id, s); }
      case 5 => if id in recovering { RecoveryComplete(id); }
      case _ =>
    }

    /** A job whose reservation failed after its admission keeps its lane for as long as the process
        runs, whatever else happens and even if it is aborted: only a restart frees it. */
    method OrphanKeepsItsLane(id: JobId, steps: nat)
      requires Valid() && Orphaned(id)
      modifies this
      ensures Valid() && Orphaned(id)
    {
      for k := 0 to steps
        invariant Valid() && Orphaned(id)
      {
        Step();
      }
    }

    /** Any run keeps the coordinator sound: reservations, progress, aborts, finishes with and
        without cleanup, panics, recovery and restarts, in any order. */
    method AnyRun(steps: nat)
      requires Valid()
      modifies this
      ensures Valid()
    {
      for k := 0 to steps
        invariant Valid()
      {
        var restart: bool := *;
        if restart { Restart(); } else { Step(); }
      }
    }
  }

  /** A job as a restart leaves it: interrupted unless it had ended. */
  function AfterRestart(j: Job): Job { if Terminal(j.state) then j else j.(state := Interrupted) }

  function Interrupt(p: Persisted, id: JobId): Persisted {
    var job := FindStored(p.jobs, id);
    if job.Some? && !Terminal(job.value.state) then SetState(p, id, Interrupted) else p
  }

  function InterruptAll(p: Persisted, ids: seq<JobId>): Persisted
    decreases |ids|
  {
    if ids == [] then p else InterruptAll(Interrupt(p, ids[0]), ids[1..])
  }

  lemma InterruptSound(p: Persisted, id: JobId, next: JobId)
    requires Sound(p) && Fresh(p.jobs, next)
    ensures var q := Interrupt(p, id);
      && Sound(q) && Fresh(q.jobs, next) && |q.jobs| == |p.jobs|
      && (forall i | 0 <= i < |p.jobs| :: q.jobs[i] == if p.jobs[i].id == id then AfterRestart(p.jobs[i]) else p.jobs[i])
      && q.exclusive == p.exclusive && q.degradations == p.degradations
  {
    FindsStored(p.jobs, id);
    SetStateSound(p, id, Interrupted);
  }

  /** Interrupting every active job ends exactly the unfinished ones and changes no lane. */
  lemma {:induction false} InterruptAllSound(p: Persisted, ids: seq<JobId>, next: JobId)
    requires Sound(p) && Fresh(p.jobs, next)
    requires forall i | 0 <= i < |p.jobs| :: Terminal(p.jobs[i].state) || p.jobs[i].id in ids
    ensures var q := InterruptAll(p, ids);
      && Sound(q) && Fresh(q.jobs, next) && |q.jobs| == |p.jobs|
      && (forall i | 0 <= i < |q.jobs| :: q.jobs[i] == AfterRestart(p.jobs[i]))
      && q.exclusive == p.exclusive && q.degradations == p.degradations
    decreases |ids|
  {
    if ids != [] {
      InterruptSound(p, ids[0], next);
      var q := Interrupt(p, ids[0]);
      forall i | 0 <= i < |q.jobs| ensures Terminal(q.jobs[i].state) || q.jobs[i].id in ids[1..] {
        assert q.jobs[i].id == p.jobs[i].id;
      }
      InterruptAllSound(q, ids[1..], next);
    }
  }

  lemma RestartSound(p: Persisted, next: JobId)
    requires Sound(p) && Fresh(p.jobs, next)
    ensures var q := InterruptAll(p, ActiveJobIds(p));
      && Sound(q) && Fresh(q.jobs, next) && |q.jobs| == |p.jobs|
      && (forall i | 0 <= i < |q.jobs| :: q.jobs[i] == AfterRestart(p.jobs[i]))
      && q.exclusive == p.exclusive && q.degradations == p.degradations
      && forall id | id in ActiveJobIds(p) :: Ended(q.jobs, id) && id < next
  {
    ActiveJobIdsListed(p);
    InterruptAllSound(p, ActiveJobIds(p), next);
    forall id | id in ActiveJobIds(p) ensures Ended(InterruptAll(p, ActiveJobIds(p)).jobs, id) && id < next {
      AllEnded(InterruptAll(p, ActiveJobIds(p)).jobs, id);
      ActiveIsHandedOut(p, id, next);
    }
  }

  function ActiveJobIds(p: Persisted): seq<JobId> {
    (if p.exclusive.Some? then [p.exclusive.value] else [])
    + (if Node1 in p.degradations then [p.degradations[Node1]] else [])
    + (if Node2 in p.degradations then [p.degradations[Node2]] else [])
    + (if Node3 in p.degradations then [p.degradations[Node3]] else [])
  }

  lemma ActiveJobIdsListed(p: Persisted)
    ensures forall id: JobId :: id in ActiveJobIds(p) <==> IsActive(p, id)
    ensures Lanes(p) ==> forall i | 0 <= i < |p.jobs| :: Terminal(p.jobs[i].state) || p.jobs[i].id in ActiveJobIds(p)
  {
    forall id: JobId | IsActive(p, id) ensures id in ActiveJobIds(p) {
      if p.exclusive != Some(id) {
        var n :| n in p.degradations && p.degradations[n] == id;
        assert n == Node1 || n == Node2 || n == Node3;
      }
    }
    if Lanes(p) {
      forall i | 0 <= i < |p.jobs| ensures Terminal(p.jobs[i].state) || p.jobs[i].id in ActiveJobIds(p) {
        assert PlacedAt(p, i);
      }
    }
  }

  lemma AllEnded(jobs: seq<Job>, id: JobId)
    requires forall i | 0 <= i < |jobs| :: Terminal(jobs[i].state)
    ensures Ended(jobs, id)
  {
  }

  lemma ActiveIsHandedOut(p: Persisted, id: JobId, next: JobId)
    requires Lanes(p) && Fresh(p.jobs, next) && id in ActiveJobIds(p)
    ensures id < next
  {
    ActiveJobIdsListed(p);
    assert Stored(p.jobs, id);
  }

  lemma UnfinishedIsActive(p: Persisted, id: JobId)
    requires Lanes(p) && FindStored(p.jobs, id).Some? && !Terminal(FindStored(p.jobs, id).value.state)
    ensures IsActive(p, id)
  {
    FindsStored(p.jobs, id);
    var i :| 0 <= i < |p.jobs| && p.jobs[i].id == id;
    assert PlacedAt(p, i);
  }
}
