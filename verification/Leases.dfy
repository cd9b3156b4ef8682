/** Pause and impairment leases of one job: intents written before acquiring, cleanup in the
    order network, spam, mining, and recovery until nothing is held
    (crates/control-plane/src/jobs.rs; the workers' side is
    crates/mining-controller/src/control.rs and crates/network-agent/src/control.rs). */
module Leases {
  import opened JobIds
  import opened Options
  import opened Replies
  import opened ThreeNodes

  datatype LeaseId = LeaseId(job: JobId, name: string)
  datatype Component = Network(node: Node) | Spam | Mining
  datatype Intent = Intent(component: Component, lease: LeaseId)

  /** A release call that was sent. */
  datatype Try = Try(component: Component, lease: LeaseId, chainChanged: bool)

  /** Request ids name their purpose. A cleanup id is only ever used by the owning job's one
      cleanup; a recovery id is used again by every recovery attempt. */
  datatype RequestId =
    | Acquiring(lease: LeaseId, nonce: nat) | Releasing(lease: LeaseId)
    | Cleaning(lease: LeaseId) | Recovering(lease: LeaseId)
  datatype Request = Acquire(lease: LeaseId, owner: JobId) | Release(lease: LeaseId, chainChanged: bool)

  // ---------------------------------------------------------------- a worker

  /** A worker answers a request id it remembers from memory, without acting. */
  datatype Worker = Worker(leases: map<LeaseId, JobId>, remembered: map<RequestId, Request>) {
    predicate Owns(l: LeaseId, j: JobId) { l in leases && leases[l] == j }

    predicate Replays(id: RequestId, r: Request) { id in remembered && remembered[id] == r }

    /** The answer is positive; otherwise the id was used for something else, or the lease id
        belongs to another owner. */
    predicate Accepts(id: RequestId, r: Request) {
      if id in remembered then remembered[id] == r
      else r.Acquire? && r.lease in leases ==> leases[r.lease] == r.owner
    }

    function After(id: RequestId, r: Request): Worker
      requires Accepts(id, r)
    {
      if id in remembered then this
      else match r
        case Acquire(l, o) => Worker(leases[l := o], remembered[id := r])
        case Release(l, _) => Worker(leases - {l}, remembered[id := r])
    }
  }

  /** A positive answer to a release means the lease is gone, unless the answer came from
      memory; then the worker did nothing. */
  lemma ReleaseRemovesUnlessReplayed(w: Worker, id: RequestId, l: LeaseId, chainChanged: bool)
    requires w.Accepts(id, Release(l, chainChanged))
    ensures l in w.After(id, Release(l, chainChanged)).leases <==> l in w.leases && w.Replays(id, Release(l, chainChanged))
    ensures forall k :: k != l ==> (k in w.After(id, Release(l, chainChanged)).leases <==> k in w.leases)
  {
  }

  /** Recovery uses one release id per lease. Once it released a lease and a later attempt of
      the same recovery took the lease again, the worker acknowledges every further release
      from memory and keeps the lease. */
  lemma RecoveryReleasesOnce(w: Worker, l: LeaseId, j: JobId, nonce: nat)
    requires w.Owns(l, j) && Recovering(l) !in w.remembered && Acquiring(l, nonce) !in w.remembered
    ensures var again := w.After(Recovering(l), Release(l, true)).After(Acquiring(l, nonce), Acquire(l, j));
            again.Owns(l, j) && again.Accepts(Recovering(l), Release(l, true)) && again.After(Recovering(l), Release(l, true)) == again
  {
    var released := w.After(Recovering(l), Release(l, true));
    assert l !in released.leases && Acquiring(l, nonce) !in released.remembered;
  }

  // ---------------------------------------------------------------- a network agent

  datatype Agent = Agent(active: Option<(LeaseId, JobId)>, remembered: map<RequestId, Request>) {
    predicate Owns(j: JobId) { active.Some? && active.value.1 == j }

    predicate Accepts(id: RequestId, r: Request) {
      if id in remembered then remembered[id] == r
      else active.Some? ==> active.value.0 == r.lease && (r.Acquire? ==> active.value.1 == r.owner)
    }

    function After(id: RequestId, r: Request): Agent
      requires Accepts(id, r)
    {
      if id in remembered then this
      else match r
        case Acquire(l, o) => Agent(Some((l, o)), remembered[id := r])
        case Release(l, _) => Agent(None, remembered[id := r])
    }
  }

  datatype World = World(spam: Worker, mining: Worker, agents: PerNode<Agent>)

  predicate HeldAt(w: World, c: Component, l: LeaseId, j: JobId) {
    match c
    case Spam => w.spam.Owns(l, j)
    case Mining => w.mining.Owns(l, j)
    case Network(n) => w.agents.Get(n).active == Some((l, j))
  }

  predicate RemembersAt(w: World, c: Component, id: RequestId) {
    match c
    case Spam => id in w.spam.remembered
    case Mining => id in w.mining.remembered
    case Network(n) => id in w.agents.Get(n).remembered
  }

  predicate AcceptsAt(w: World, c: Component, id: RequestId, r: Request) {
    match c
    case Spam => w.spam.Accepts(id, r)
    case Mining => w.mining.Accepts(id, r)
    case Network(n) => w.agents.Get(n).Accepts(id, r)
  }

  function Served(w: World, c: Component, id: RequestId, r: Request): World
    requires AcceptsAt(w, c, id, r)
  {
    match c
    case Spam => w.(spam := w.spam.After(id, r))
    case Mining => w.(mining := w.mining.After(id, r))
    case Network(n) => w.(agents := w.agents.Set(n, w.agents.Get(n).After(id, r)))
  }

  /** Nothing anywhere is held by the job. */
  ghost predicate NoneHeld(w: World, j: JobId) { forall c, l :: !HeldAt(w, c, l, j) }

  /** Every lease the job holds carries the job's id and is on the list. */
  ghost predicate Covered(w: World, j: JobId, listed: set<Intent>) {
    forall c, l | HeldAt(w, c, l, j) :: l.job == j && Intent(c, l) in listed
  }

  /** The job holds nothing it did not hold before. */
  ghost predicate HeldLess(before: World, after: World, j: JobId) {
    forall c, l | HeldAt(after, c, l, j) :: HeldAt(before, c, l, j)
  }

  /** Of the requests about the job's leases, at most `id` at `c0` was served in between. */
  ghost predicate LearnsOnly(before: World, after: World, j: JobId, c0: Component, id: RequestId) {
    forall c, k | RemembersAt(after, c, k) && k.lease.job == j :: RemembersAt(before, c, k) || (c == c0 && k == id)
  }

  ghost predicate LearnsNothing(before: World, after: World, j: JobId) {
    forall c, k | RemembersAt(after, c, k) && k.lease.job == j :: RemembersAt(before, c, k)
  }

  /** No request to end a lease of the job was ever served. */
  ghost predicate Unended(w: World, j: JobId) {
    forall c, k | RemembersAt(w, c, k) && k.lease.job == j :: !k.Cleaning? && !k.Recovering?
  }

  /** A served cleanup (or, at a network agent, recovery) request means its lease is gone. */
  ghost predicate Spent(w: World, j: JobId, c: Component) {
    forall l | HeldAt(w, c, l, j) :: !RemembersAt(w, c, Cleaning(l)) && (c.Network? ==> !RemembersAt(w, c, Recovering(l)))
  }

  lemma SpentKept(before: World, after: World, j: JobId, c: Component)
    requires HeldLess(before, after, j) && LearnsNothing(before, after, j) && Spent(before, j, c)
    requires forall l | HeldAt(before, c, l, j) :: l.job == j
    ensures Spent(after, j, c)
  {
  }

  // ---------------------------------------------------------------- calm stretches

  /** Between the two worlds nothing happened to what a component holds for the job or under its
      lease ids, nor to what it remembers of the job's requests. */
  ghost predicate Still(before: World, after: World, j: JobId, c: Component) {
    SameLeases(before, after, j, c) && SameMemory(before, after, j, c)
  }

  ghost predicate SameLeases(before: World, after: World, j: JobId, c: Component) {
    match c
    case Spam => SameOwners(before.spam, after.spam, j)
    case Mining => SameOwners(before.mining, after.mining, j)
    case Network(n) => SameActive(before.agents.Get(n), after.agents.Get(n), j)
  }

  ghost predicate SameOwners(v: Worker, w: Worker, j: JobId) { forall l :: SameOwner(v, w, j, l) }

  predicate SameOwner(v: Worker, w: Worker, j: JobId, l: LeaseId) {
    l.job == j ==> (l in v.leases <==> l in w.leases) && (l in v.leases ==> v.leases[l] == w.leases[l])
  }

  predicate SameActive(v: Agent, w: Agent, j: JobId) { v.Owns(j) || w.Owns(j) ==> v.active == w.active }

  ghost predicate SameMemory(before: World, after: World, j: JobId, c: Component) {
    forall k :: RemembersAlike(before, after, j, c, k)
  }

  predicate RemembersAlike(before: World, after: World, j: JobId, c: Component, k: RequestId) {
    k.lease.job == j ==> (RemembersAt(after, c, k) <==> RemembersAt(before, c, k))
  }

  lemma StillTransitive(a: World, b: World, c: World, j: JobId, d: Component)
    requires Still(a, b, j, d) && Still(b, c, j, d)
    ensures Still(a, c, j, d)
  {
    forall k ensures RemembersAlike(a, c, j, d, k) {
      assert RemembersAlike(a, b, j, d, k) && RemembersAlike(b, c, j, d, k);
    }
    forall l ensures (d.Spam? ==> SameOwner(a.spam, c.spam, j, l)) && (d.Mining? ==> SameOwner(a.mining, c.mining, j, l)) {
      if d.Spam? { assert SameOwner(a.spam, b.spam, j, l) && SameOwner(b.spam, c.spam, j, l); }
      if d.Mining? { assert SameOwner(a.mining, b.mining, j, l) && SameOwner(b.mining, c.mining, j, l); }
    }
  }

  lemma StillHeld(before: World, after: World, j: JobId, c: Component, l: LeaseId)
    requires Still(before, after, j, c) && l.job == j
    ensures HeldAt(after, c, l, j) <==> HeldAt(before, c, l, j)
    ensures RemembersAt(after, c, Recovering(l)) <==> RemembersAt(before, c, Recovering(l))
  {
    assert RemembersAlike(before, after, j, c, Recovering(l));
    match c
    case Spam => assert SameOwner(before.spam, after.spam, j, l);
    case Mining => assert SameOwner(before.mining, after.mining, j, l);
    case Network(n) =>
  }

  /** What happens to leases and requests of other jobs. */
  predicate Touches(w: World, c: Component, l: LeaseId, j: JobId) {
    l.job == j || (c.Network? && w.agents.Get(c.node).Owns(j))
  }

  lemma ExpiryIsStill(w: World, c: Component, l: LeaseId, j: JobId, d: Component)
    requires !Touches(w, c, l, j)
    ensures Still(w, Expired(w, c, l), j, d)
  {
  }

  lemma OthersAreStill(w: World, c: Component, id: RequestId, r: Request, j: JobId, d: Component)
    requires AcceptsAt(w, c, id, r) && id.lease.job != j && !Touches(w, c, r.lease, j) && (r.Acquire? ==> r.owner != j)
    ensures Still(w, Served(w, c, id, r), j, d)
  {
  }

  /** Serving one request leaves every other component alone. */
  lemma ServedIsStillElsewhere(w: World, c: Component, id: RequestId, r: Request, j: JobId, d: Component)
    requires AcceptsAt(w, c, id, r) && (d != c || RemembersAt(w, c, id))
    ensures Still(w, Served(w, c, id, r), j, d)
  {
  }

  ghost predicate AllStill(before: World, after: World, j: JobId) { forall c :: Still(before, after, j, c) }

  lemma AllStillTransitive(a: World, b: World, c: World, j: JobId)
    requires AllStill(a, b, j) && AllStill(b, c, j)
    ensures AllStill(a, c, j)
  {
    forall d ensures Still(a, c, j, d) {
      StillTransitive(a, b, c, j, d);
    }
  }

  lemma OtherwiseStill(w: World, c: Component, l: LeaseId, j: JobId)
    requires !Touches(w, c, l, j)
    ensures AllStill(w, Expired(w, c, l), j)
  {
    forall d ensures Still(w, Expired(w, c, l), j, d) {
      ExpiryIsStill(w, c, l, j, d);
    }
  }

  lemma OthersAllStill(w: World, c: Component, id: RequestId, r: Request, j: JobId)
    requires AcceptsAt(w, c, id, r) && id.lease.job != j && !Touches(w, c, r.lease, j) && (r.Acquire? ==> r.owner != j)
    ensures AllStill(w, Served(w, c, id, r), j)
  {
    forall d ensures Still(w, Served(w, c, id, r), j, d) {
      OthersAreStill(w, c, id, r, j, d);
    }
  }

  ghost predicate StillElsewhere(before: World, after: World, j: JobId, c: Component) {
    forall d | d != c :: Still(before, after, j, d)
  }

  lemma StillElsewhereTransitive(a: World, b: World, c: World, j: JobId, here: Component)
    requires StillElsewhere(a, b, j, here) && StillElsewhere(b, c, j, here)
    ensures StillElsewhere(a, c, j, here)
  {
    forall d | d != here ensures Still(a, c, j, d) {
      StillTransitive(a, b, c, j, d);
    }
  }

  ghost predicate WorkersStill(before: World, after: World, j: JobId) {
    Still(before, after, j, Spam) && Still(before, after, j, Mining)
  }

  lemma WorkersStillTransitive(a: World, b: World, c: World, j: JobId)
    requires WorkersStill(a, b, j) && WorkersStill(b, c, j)
    ensures WorkersStill(a, c, j)
  {
    StillTransitive(a, b, c, j, Spam);
    StillTransitive(a, b, c, j, Mining);
  }

  /** A worker's lease that no recovery release will end any more. */
  predicate StuckAt(w: World, c: Component, l: LeaseId, j: JobId) {
    HeldAt(w, c, l, j) && RemembersAt(w, c, Recovering(l))
  }

  ghost predicate Stuck(w: World, c: Component, j: JobId) { exists l :: StuckAt(w, c, l, j) }

  ghost predicate HoldsAny(w: World, c: Component, j: JobId) { exists l :: HeldAt(w, c, l, j) }

  /** The lease a chain-changing recovery takes again. */
  function OwnLease(c: Component, j: JobId): LeaseId { LeaseId(j, if c.Spam? then "spam" else "mining") }

  /** A recovery attempt cannot end what it holds at the worker: a held lease was released before,
      or it will hold again one that was. */
  ghost predicate Blocked(w: World, c: Component, j: JobId, again: bool) {
    Stuck(w, c, j) || (again && !HoldsAny(w, c, j) && RemembersAt(w, c, Recovering(OwnLease(c, j))))
  }

  /** No other owner took the lease's id at the worker. */
  predicate OwnFree(w: World, c: Component, j: JobId) {
    var leases := if c.Spam? then w.spam.leases else w.mining.leases;
    OwnLease(c, j) in leases ==> leases[OwnLease(c, j)] == j
  }

  predicate Unused(w: World, c: Component, j: JobId, nonce: nat) { !RemembersAt(w, c, Acquiring(OwnLease(c, j), nonce)) }

  /** Every lease the job holds carries its id. */
  ghost predicate OwnIds(w: World, j: JobId) { forall c, l | HeldAt(w, c, l, j) :: l.job == j }

  lemma StillBlocked(before: World, after: World, j: JobId, c: Component, again: bool, nonce: nat)
    requires Still(before, after, j, c) && OwnIds(before, j) && OwnIds(after, j) && !c.Network?
    ensures Stuck(after, c, j) <==> Stuck(before, c, j)
    ensures HoldsAny(after, c, j) <==> HoldsAny(before, c, j)
    ensures Blocked(after, c, j, again) <==> Blocked(before, c, j, again)
    ensures (OwnFree(after, c, j) <==> OwnFree(before, c, j)) && (Unused(after, c, j, nonce) <==> Unused(before, c, j, nonce))
  {
    forall l: LeaseId | l.job == j
      ensures HeldAt(after, c, l, j) <==> HeldAt(before, c, l, j)
      ensures StuckAt(after, c, l, j) <==> StuckAt(before, c, l, j)
    {
      StillHeld(before, after, j, c, l);
    }
    StillHeld(before, after, j, c, OwnLease(c, j));
    assert RemembersAlike(before, after, j, c, Acquiring(OwnLease(c, j), nonce));
    assert c.Spam? ==> SameOwner(before.spam, after.spam, j, OwnLease(c, j));
    assert c.Mining? ==> SameOwner(before.mining, after.mining, j, OwnLease(c, j));
    if Stuck(before, c, j) { var l :| StuckAt(before, c, l, j); assert StuckAt(after, c, l, j); }
    if Stuck(after, c, j) { var l :| StuckAt(after, c, l, j); assert StuckAt(before, c, l, j); }
    if HoldsAny(before, c, j) { var l :| HeldAt(before, c, l, j); assert HeldAt(after, c, l, j); }
    if HoldsAny(after, c, j) { var l :| HeldAt(after, c, l, j); assert HeldAt(before, c, l, j); }
  }

  /** At a worker only lease `l` went, and only its recovery release was learnt. */
  ghost predicate ReleasedOnly(before: World, after: World, j: JobId, c: Component, l: LeaseId) {
    && !HeldAt(after, c, l, j) && (OwnFree(before, c, j) ==> OwnFree(after, c, j))
    && (forall k: LeaseId | k != l && k.job == j :: HeldAt(after, c, k, j) <==> HeldAt(before, c, k, j))
    && (forall k: LeaseId | k != l && k.job == j :: RemembersAt(after, c, Recovering(k)) <==> RemembersAt(before, c, Recovering(k)))
  }

  lemma ServedReleasedOnly(w: World, c: Component, l: LeaseId, j: JobId)
    requires !c.Network? && !RemembersAt(w, c, Recovering(l)) && AcceptsAt(w, c, Recovering(l), Release(l, true))
    ensures ReleasedOnly(w, Served(w, c, Recovering(l), Release(l, true)), j, c, l)
  {
  }

  lemma StillThenReleased(a: World, b: World, c: World, j: JobId, d: Component, l: LeaseId)
    requires Still(a, b, j, d) && ReleasedOnly(b, c, j, d, l) && !d.Network?
    ensures ReleasedOnly(a, c, j, d, l)
  {
    assert d.Spam? ==> SameOwner(a.spam, b.spam, j, OwnLease(d, j));
    assert d.Mining? ==> SameOwner(a.mining, b.mining, j, OwnLease(d, j));
    forall k: LeaseId | k != l && k.job == j
      ensures HeldAt(c, d, k, j) <==> HeldAt(a, d, k, j)
      ensures RemembersAt(c, d, Recovering(k)) <==> RemembersAt(a, d, Recovering(k))
    {
      StillHeld(a, b, j, d, k);
    }
  }

  /** A release in a calm stretch, after others had their turn. */
  lemma CalmRelease(before: World, w: World, c: Component, id: RequestId, l: LeaseId, chainChanged: bool, j: JobId)
    requires AllStill(before, w, j) && AcceptsAt(w, c, id, Release(l, chainChanged))
    ensures var after := Served(w, c, id, Release(l, chainChanged));
      && StillElsewhere(before, after, j, c)
      && (id.lease.job == j && RemembersAt(before, c, id) ==> AllStill(before, after, j))
      && (!c.Network? && id == Recovering(l) && l.job == j && chainChanged && !RemembersAt(before, c, id) ==>
            ReleasedOnly(before, after, j, c, l))
  {
    var r := Release(l, chainChanged);
    var after := Served(w, c, id, r);
    if id.lease.job == j { assert Still(before, w, j, c) && RemembersAlike(before, w, j, c, id); }
    forall d | d != c || (id.lease.job == j && RemembersAt(before, c, id)) ensures Still(before, after, j, d) {
      ServedIsStillElsewhere(w, c, id, r, j, d);
      StillTransitive(before, w, after, j, d);
    }
    if !c.Network? && id == Recovering(l) && l.job == j && chainChanged && !RemembersAt(before, c, id) {
      ServedReleasedOnly(w, c, l, j);
      StillThenReleased(before, w, after, j, c, l);
    }
  }

  /** No other owner took the id of a lease of the job in between. */
  ghost predicate KeepsFree(before: World, after: World, j: JobId) {
    (OwnFree(before, Spam, j) ==> OwnFree(after, Spam, j)) && (OwnFree(before, Mining, j) ==> OwnFree(after, Mining, j))
  }

  /** No other owner uses the ids of the job's two worker leases. */
  predicate BothFree(w: World, j: JobId) { OwnFree(w, Spam, j) && OwnFree(w, Mining, j) }

  /** No recovery release of the job was served yet. */
  ghost predicate Unrecovered(w: World, j: JobId) {
    forall c, k | RemembersAt(w, c, k) && k.lease.job == j :: !k.Recovering?
  }

  lemma UnrecoveredIsUnblocked(w: World, j: JobId, again: bool)
    requires OwnIds(w, j)
    ensures Unrecovered(w, j) ==> Unblocked(w, j, again)
  {
    forall c, l: LeaseId | l.job == j ensures Unrecovered(w, j) ==> !RemembersAt(w, c, Recovering(l)) {
      assert Recovering(l).lease.job == j;
    }
  }

  lemma KeepsFreeStill(before: World, after: World, j: JobId)
    requires AllStill(before, after, j)
    ensures KeepsFree(before, after, j)
  {
    assert Still(before, after, j, Spam) && SameOwner(before.spam, after.spam, j, OwnLease(Spam, j));
    assert Still(before, after, j, Mining) && SameOwner(before.mining, after.mining, j, OwnLease(Mining, j));
  }

  lemma KeepsFreeReleased(before: World, w: World, c: Component, id: RequestId, l: LeaseId, chainChanged: bool, j: JobId)
    requires KeepsFree(before, w, j) && AcceptsAt(w, c, id, Release(l, chainChanged))
    ensures KeepsFree(before, Served(w, c, id, Release(l, chainChanged)), j)
  {
  }

  /** The agent is free, or impaired under this very lease. */
  predicate Freeable(w: World, n: Node, l: LeaseId) {
    var active := w.agents.Get(n).active;
    active.Some? ==> active.value.0 == l
  }

  /** A new release request of the job is accepted by a worker, after others had their turn. */
  lemma CalmAccepts(before: World, w: World, c: Component, id: RequestId, l: LeaseId, chainChanged: bool, j: JobId)
    requires AllStill(before, w, j) && id.lease.job == j && !RemembersAt(before, c, id)
    ensures !RemembersAt(w, c, id) && (!c.Network? ==> AcceptsAt(w, c, id, Release(l, chainChanged)))
    ensures c.Network? && l.job == j && HeldAt(before, c, l, j) ==> AcceptsAt(w, c, id, Release(l, chainChanged))
    ensures c.Network? && w.agents == before.agents && Freeable(before, c.node, l) ==> AcceptsAt(w, c, id, Release(l, chainChanged))
  {
    assert Still(before, w, j, c) && RemembersAlike(before, w, j, c, id);
  }

  /** What a release call of a calm stretch leaves: nothing happened elsewhere, a new request to a
      worker is answered positively, and so is one about what an agent is impaired under. */
  ghost predicate CalmOutcome(before: World, after: World, ok: bool, settles: bool, c: Component, id: RequestId,
                              l: LeaseId, chainChanged: bool, j: JobId)
  {
    && StillElsewhere(before, after, j, c) && KeepsFree(before, after, j)
    && (id.lease.job == j ==>
          if RemembersAt(before, c, id) then AllStill(before, after, j)
          else
            && (!c.Network? ==> ok)
            && (!c.Network? && id == Recovering(l) && chainChanged ==> ReleasedOnly(before, after, j, c, l))
            && (c.Network? && l.job == j && HeldAt(before, c, l, j) ==> ok)
            && (settles && c.Network? && Freeable(before, c.node, l) ==>
                  ok && after.agents == before.agents.Set(c.node, before.agents.Get(c.node).After(id, Release(l, chainChanged)))))
  }

  lemma CalmServed(before: World, w: World, settles: bool, c: Component, id: RequestId, l: LeaseId, chainChanged: bool, j: JobId)
    requires AllStill(before, w, j) && AcceptsAt(w, c, id, Release(l, chainChanged)) && (settles ==> w.agents == before.agents)
    ensures CalmOutcome(before, Served(w, c, id, Release(l, chainChanged)), true, settles, c, id, l, chainChanged, j)
  {
    KeepsFreeStill(before, w, j);
    KeepsFreeReleased(before, w, c, id, l, chainChanged, j);
    CalmRelease(before, w, c, id, l, chainChanged, j);
    if id.lease.job == j && !RemembersAt(before, c, id) { CalmAccepts(before, w, c, id, l, chainChanged, j); }
  }

  lemma CalmRefused(before: World, w: World, settles: bool, c: Component, id: RequestId, l: LeaseId, chainChanged: bool, j: JobId)
    requires AllStill(before, w, j) && !AcceptsAt(w, c, id, Release(l, chainChanged)) && (settles ==> w.agents == before.agents)
    ensures CalmOutcome(before, w, false, settles, c, id, l, chainChanged, j)
  {
    KeepsFreeStill(before, w, j);
    if id.lease.job == j && !RemembersAt(before, c, id) { CalmAccepts(before, w, c, id, l, chainChanged, j); }
  }

  /** The agent is impaired under a lease that is not on the list. */
  ghost predicate Intruded(w: World, n: Node, listed: set<Intent>) {
    var active := w.agents.Get(n).active;
    active.Some? && Intent(Network(n), active.value.0) !in listed
  }

  /** Of the requests about the job's leases, only cleanups were served in between. */
  ghost predicate LearnsCleanings(before: World, after: World, j: JobId) {
    forall c, k | RemembersAt(after, c, k) && k.lease.job == j :: RemembersAt(before, c, k) || k.Cleaning?
  }

  lemma StillListed(before: World, after: World, j: JobId, c: Component)
    requires AllStill(before, after, j) && OwnIds(before, j) && OwnIds(after, j) && !c.Network?
    ensures Stuck(after, c, j) <==> Stuck(before, c, j)
    ensures HoldsAny(after, c, j) <==> HoldsAny(before, c, j)
    ensures OwnFree(after, c, j) <==> OwnFree(before, c, j)
  {
    assert Still(before, after, j, c);
    StillBlocked(before, after, j, c, false, 0);
  }

  /** What is stuck stays, and nobody else takes the lease's id. */
  ghost predicate KeepsStuck(before: World, after: World, j: JobId, c: Component) {
    (Stuck(before, c, j) ==> Stuck(after, c, j)) && (OwnFree(before, c, j) ==> OwnFree(after, c, j))
  }

  /** Midway through releasing what `start` holds at a worker: stuck leases stay, and otherwise
      only `rest` is still held. */
  ghost predicate Partly(start: World, now: World, j: JobId, c: Component, rest: set<LeaseId>) {
    && (OwnFree(start, c, j) ==> OwnFree(now, c, j))
    && (forall l | StuckAt(start, c, l, j) :: StuckAt(now, c, l, j))
    && (forall l | HeldAt(now, c, l, j) :: l in rest || StuckAt(start, c, l, j))
    && (forall l | l in rest && RemembersAt(now, c, Recovering(l)) :: RemembersAt(start, c, Recovering(l)))
  }

  lemma PartlyDone(start: World, now: World, j: JobId, c: Component)
    requires Partly(start, now, j, c, {})
    ensures Stuck(start, c, j) ==> Stuck(now, c, j)
    ensures !Stuck(start, c, j) ==> !HoldsAny(now, c, j)
  {
    if Stuck(start, c, j) {
      var l :| StuckAt(start, c, l, j);
      assert StuckAt(now, c, l, j);
    } else {
      forall l ensures !HeldAt(now, c, l, j) {
        assert !StuckAt(start, c, l, j);
      }
    }
  }

  lemma OneReleased(start: World, before: World, after: World, j: JobId, c: Component, rest: set<LeaseId>, l: LeaseId)
    requires !c.Network? && Partly(start, before, j, c, rest) && l in rest && HeldAt(start, c, l, j)
    requires OwnIds(start, j) && OwnIds(before, j) && OwnIds(after, j)
    requires forall k | k in rest :: k.job == j
    requires if RemembersAt(before, c, Recovering(l)) then Still(before, after, j, c) else ReleasedOnly(before, after, j, c, l)
    ensures Partly(start, after, j, c, rest - {l})
  {
    if RemembersAt(before, c, Recovering(l)) {
      assert StuckAt(start, c, l, j);
      StillBlocked(before, after, j, c, false, 0);
      forall k: LeaseId | k.job == j
        ensures HeldAt(after, c, k, j) <==> HeldAt(before, c, k, j)
        ensures RemembersAt(after, c, Recovering(k)) <==> RemembersAt(before, c, Recovering(k))
      {
        StillHeld(before, after, j, c, k);
      }
    }
    forall k | StuckAt(start, c, k, j) ensures StuckAt(after, c, k, j) {
      assert StuckAt(before, c, k, j) && k.job == j;
    }
  }

  /** At a worker exactly lease `l` is held now, and no recovery release was learnt. */
  ghost predicate AcquiredOnly(before: World, after: World, j: JobId, c: Component, l: LeaseId) {
    && (forall k :: HeldAt(after, c, k, j) <==> k == l) && (l == OwnLease(c, j) ==> OwnFree(after, c, j))
    && (forall k: LeaseId | k.job == j :: RemembersAt(after, c, Recovering(k)) <==> RemembersAt(before, c, Recovering(k)))
  }

  /** An acquisition in a calm stretch, after others had their turn. */
  lemma CalmAcquire(before: World, w: World, c: Component, id: RequestId, l: LeaseId, j: JobId)
    requires AllStill(before, w, j) && id.Acquiring? && id.lease == l && l.job == j && OwnIds(before, j) && OwnIds(w, j)
    ensures StillElsewhere(before, w, j, c)
    ensures AcceptsAt(w, c, id, Acquire(l, j)) ==> StillElsewhere(before, Served(w, c, id, Acquire(l, j)), j, c)
    ensures (&& !c.Network? && l == OwnLease(c, j) && !HoldsAny(before, c, j) && OwnFree(before, c, j) && !RemembersAt(before, c, id)) ==>
              && AcceptsAt(w, c, id, Acquire(l, j)) && AcquiredOnly(before, Served(w, c, id, Acquire(l, j)), j, c, l)
  {
    assert Still(before, w, j, c) && RemembersAlike(before, w, j, c, id);
    if AcceptsAt(w, c, id, Acquire(l, j)) {
      forall d | d != c ensures Still(before, Served(w, c, id, Acquire(l, j)), j, d) {
        ServedIsStillElsewhere(w, c, id, Acquire(l, j), j, d);
        StillTransitive(before, w, Served(w, c, id, Acquire(l, j)), j, d);
      }
    }
    if !c.Network? && l == OwnLease(c, j) && !HoldsAny(before, c, j) && OwnFree(before, c, j) && !RemembersAt(before, c, id) {
      StillListed(before, w, j, c);
      assert !HeldAt(w, c, l, j);
      ServedAcquiredOnly(w, c, id, l, j);
      forall k: LeaseId | k.job == j ensures RemembersAt(w, c, Recovering(k)) <==> RemembersAt(before, c, Recovering(k)) {
        StillHeld(before, w, j, c, k);
      }
    }
  }

  lemma ServedAcquiredOnly(w: World, c: Component, id: RequestId, l: LeaseId, j: JobId)
    requires !c.Network? && id.Acquiring? && !RemembersAt(w, c, id) && !HoldsAny(w, c, j) && l == OwnLease(c, j) && OwnFree(w, c, j)
    ensures AcceptsAt(w, c, id, Acquire(l, j)) && AcquiredOnly(w, Served(w, c, id, Acquire(l, j)), j, c, l)
  {
    assert !HeldAt(w, c, l, j);
    assert AcceptsAt(w, c, id, Acquire(l, j));
    forall k ensures HeldAt(Served(w, c, id, Acquire(l, j)), c, k, j) <==> k == l {
      assert !HeldAt(w, c, k, j);
    }
  }

  lemma AcquiredBlocked(before: World, after: World, j: JobId, c: Component)
    requires AcquiredOnly(before, after, j, c, OwnLease(c, j)) && !HoldsAny(before, c, j)
    ensures Stuck(after, c, j) <==> Blocked(before, c, j, true)
    ensures Blocked(before, c, j, true) ==> Blocked(after, c, j, true)
  {
    var l := OwnLease(c, j);
    assert HeldAt(after, c, l, j);
    if RemembersAt(before, c, Recovering(l)) { assert StuckAt(after, c, l, j); }
    if Stuck(after, c, j) { var k :| StuckAt(after, c, k, j); }
  }

  /** Both leases can be taken again, under acquire ids that are new. */
  predicate CanHold(w: World, j: JobId, nonce: nat) {
    OwnFree(w, Spam, j) && OwnFree(w, Mining, j) && Unused(w, Spam, j, nonce) && Unused(w, Mining, j, nonce)
  }

  /** After a lease was taken again where none was held, what was blocked is stuck. */
  ghost predicate Ensured(before: World, after: World, j: JobId, c: Component) {
    && (Stuck(after, c, j) <==> Blocked(before, c, j, true))
    && (OwnFree(before, c, j) ==> OwnFree(after, c, j))
  }

  ghost predicate Unblocked(w: World, j: JobId, again: bool) {
    !Blocked(w, Spam, j, again) && !Blocked(w, Mining, j, again)
  }

  lemma BothBlocked(before: World, after: World, j: JobId, again: bool, nonce: nat)
    requires WorkersStill(before, after, j) && OwnIds(before, j) && OwnIds(after, j)
    ensures forall c | c == Spam || c == Mining ::
              && (Stuck(after, c, j) <==> Stuck(before, c, j)) && (Blocked(after, c, j, again) <==> Blocked(before, c, j, again))
              && (OwnFree(after, c, j) <==> OwnFree(before, c, j)) && (Unused(after, c, j, nonce) <==> Unused(before, c, j, nonce))
  {
    StillBlocked(before, after, j, Spam, again, nonce);
    StillBlocked(before, after, j, Mining, again, nonce);
  }

  predicate AboveAll(ids: set<RequestId>, n: nat) { forall k | k in ids :: k.Acquiring? ==> k.nonce < n }

  lemma {:induction false} HasAbove(ids: set<RequestId>) returns (n: nat)
    ensures AboveAll(ids, n)
  {
    n := 0;
    if ids != {} {
      var k :| k in ids;
      n := HasAbove(ids - {k});
      if k.Acquiring? && k.nonce >= n { n := k.nonce + 1; }
    }
  }

  lemma HasUnused(w: World, j: JobId)
    ensures exists nonce: nat :: Unused(w, Spam, j, nonce) && Unused(w, Mining, j, nonce)
  {
    var n := HasAbove(w.spam.remembered.Keys + w.mining.remembered.Keys);
    assert Unused(w, Spam, j, n) && Unused(w, Mining, j, n);
  }

  // ---------------------------------------------------------------- what serving does

  /** Serving a release: nothing new is held, only that id is learnt, and unless the id was
      remembered before, the lease is gone. */
  lemma ReleaseServed(w: World, c: Component, id: RequestId, l: LeaseId, chainChanged: bool, j: JobId)
    requires AcceptsAt(w, c, id, Release(l, chainChanged))
    ensures var after := Served(w, c, id, Release(l, chainChanged));
      && HeldLess(w, after, j) && LearnsOnly(w, after, j, c, id)
      && (!RemembersAt(w, c, id) ==> !HeldAt(after, c, l, j))
  {
  }

  /** A lease that ran out of time. */
  function Expired(w: World, c: Component, l: LeaseId): World {
    match c
    case Spam => w.(spam := w.spam.(leases := w.spam.leases - {l}))
    case Mining => w.(mining := w.mining.(leases := w.mining.leases - {l}))
    case Network(n) => w.(agents := w.agents.Set(n, w.agents.Get(n).(active := None)))
  }

  lemma ExpiryKeeps(w: World, c: Component, l: LeaseId, j: JobId)
    ensures HeldLess(w, Expired(w, c, l), j) && LearnsNothing(w, Expired(w, c, l), j)
  {
  }

  lemma OthersServed(w: World, c: Component, id: RequestId, r: Request, j: JobId)
    requires AcceptsAt(w, c, id, r) && id.lease.job != j && (r.Acquire? ==> r.owner != j)
    ensures HeldLess(w, Served(w, c, id, r), j) && LearnsNothing(w, Served(w, c, id, r), j)
  {
  }

  /** Serving an acquisition whose intent is on the list. */
  lemma AcquireServed(w: World, c: Component, id: RequestId, l: LeaseId, j: JobId, listed: set<Intent>)
    requires AcceptsAt(w, c, id, Acquire(l, j)) && id.Acquiring? && l.job == j && Intent(c, l) in listed && Covered(w, j, listed)
    requires c.Network? ==> Unended(w, j)
    requires forall n :: Spent(w, j, Network(n))
    ensures var after := Served(w, c, id, Acquire(l, j));
      && Covered(after, j, listed) && (forall n :: Spent(after, j, Network(n))) && (Unended(w, j) ==> Unended(after, j))
      && (forall d, k | d != c && HeldAt(after, d, k, j) :: HeldAt(w, d, k, j))
  {
    var after := Served(w, c, id, Acquire(l, j));
    forall d, k | HeldAt(after, d, k, j) ensures HeldAt(w, d, k, j) || (d == c && k == l) {
    }
    forall d, k ensures RemembersAt(after, d, k) <==> RemembersAt(w, d, k) || (d == c && k == id) {
    }
    forall n ensures Spent(after, j, Network(n)) {
      assert Spent(w, j, Network(n));
    }
  }

  /** Less held and nothing new learnt keeps the invariant's parts. */
  lemma LessKeeps(before: World, after: World, j: JobId, listed: set<Intent>)
    requires HeldLess(before, after, j) && Covered(before, j, listed)
    ensures Covered(after, j, listed) && (NoneHeld(before, j) ==> NoneHeld(after, j))
    ensures LearnsNothing(before, after, j) && Unended(before, j) ==> Unended(after, j)
    ensures LearnsNothing(before, after, j) && (forall n :: Spent(before, j, Network(n))) ==> forall n :: Spent(after, j, Network(n))
  {
    if LearnsNothing(before, after, j) && forall n :: Spent(before, j, Network(n)) {
      forall n ensures Spent(after, j, Network(n)) {
        SpentKept(before, after, j, Network(n));
      }
    }
  }

  /** Release attempts in the prescribed order: network first, then spam, then mining. */
  ghost predicate InOrder(attempts: seq<Try>) {
    forall i, k | 0 <= i < k < |attempts| :: Turn(attempts[i].component) <= Turn(attempts[k].component)
  }

  function Turn(c: Component): nat {
    match c case Network(_) => 0 case Spam => 1 case Mining => 2
  }

  lemma OrderGrows(a: seq<Try>, t: Try)
    requires InOrder(a) && forall i | 0 <= i < |a| :: Turn(a[i].component) <= Turn(t.component)
    ensures InOrder(a + [t])
  {
  }

  /** The calls are for listed leases, with the flag of the cleanup. */
  ghost predicate ForTargets(attempts: seq<Try>, targets: set<Intent>, chainChanged: bool) {
    forall a | a in attempts :: Intent(a.component, a.lease) in targets && a.chainChanged == (!a.component.Network? && chainChanged)
  }

  lemma ForTargetsGrows(attempts: seq<Try>, t: Try, targets: set<Intent>, chainChanged: bool)
    requires ForTargets(attempts, targets, chainChanged) && Intent(t.component, t.lease) in targets
    requires t.chainChanged == (!t.component.Network? && chainChanged)
    ensures ForTargets(attempts + [t], targets, chainChanged)
  {
  }

  /** Each of the leases was tried at the worker. */
  ghost predicate Tried(attempts: seq<Try>, leases: set<Intent>, chainChanged: bool) {
    forall t | t in leases :: Try(t.component, t.lease, chainChanged) in attempts
  }

  lemma TriedGrows(attempts: seq<Try>, leases: set<Intent>, t: Intent, chainChanged: bool)
    requires Tried(attempts, leases, chainChanged)
    ensures Tried(attempts + [Try(t.component, t.lease, chainChanged)], leases + {t}, chainChanged)
  {
  }

  /** No listed impairment is in the way of another, or of a foreign one. */
  ghost predicate Healable(w: World, targets: set<Intent>) {
    forall n, l | Intent(Network(n), l) in targets :: Freeable(w, n, l)
  }

  /** At most the impairment under lease `l` of agent `n` is gone. */
  ghost predicate HealedOne(before: World, after: World, n: Node, l: LeaseId) {
    && (forall m | m != n :: after.agents.Get(m).active == before.agents.Get(m).active)
    && after.agents.Get(n).active == if Freeable(before, n, l) then None else before.agents.Get(n).active
  }

  /** Midway through healing in a calm stretch: `rest` is still to be healed. */
  ghost predicate HealedPartly(start: World, now: World, targets: set<Intent>, rest: set<Intent>, clean: bool) {
    && (Healable(start, targets) ==> clean && Healable(now, targets))
    && (forall n | Intruded(start, n, targets) :: now.agents.Get(n).active == start.agents.Get(n).active)
    && (clean ==> forall t | t in targets - rest && t.component.Network? :: !Intruded(start, t.component.node, targets))
  }

  lemma HealedMore(start: World, before: World, after: World, targets: set<Intent>, rest: set<Intent>, t: Intent, clean: bool, healed: bool)
    requires HealedPartly(start, before, targets, rest, clean) && t in rest && t in targets && t.component.Network?
    requires HealedOne(before, after, t.component.node, t.lease) && (healed <==> Freeable(before, t.component.node, t.lease))
    ensures HealedPartly(start, after, targets, rest - {t}, clean && healed)
  {
    var n := t.component.node;
    assert Intent(Network(n), t.lease) == t;
    forall m | Intruded(start, m, targets) ensures after.agents.Get(m).active == start.agents.Get(m).active {
      assert before.agents.Get(m).active == start.agents.Get(m).active;
    }
  }

  /** The calls so far went to `c` and what comes before it, all for listed leases, and to each of `done`. */
  ghost predicate Sent(attempts: seq<Try>, c: Component, targets: set<Intent>, done: set<Intent>, chainChanged: bool) {
    && InOrder(attempts) && (forall i | 0 <= i < |attempts| :: Turn(attempts[i].component) <= Turn(c))
    && ForTargets(attempts, targets, chainChanged) && Tried(attempts, done, chainChanged)
  }

  lemma SentMore(attempts: seq<Try>, c: Component, targets: set<Intent>, done: set<Intent>, chainChanged: bool, t: Intent)
    requires !c.Network? && Sent(attempts, c, targets, done, chainChanged) && t in targets && t.component == c
    ensures Sent(attempts + [Try(c, t.lease, chainChanged)], c, targets, done + {t}, chainChanged)
  {
    var tried := Try(c, t.lease, chainChanged);
    OrderGrows(attempts, tried);
    ForTargetsGrows(attempts, tried, targets, chainChanged);
    TriedGrows(attempts, done, t, chainChanged);
  }

  /** Midway through the cleanup of a worker: `rest` of the listed leases is still to be tried. */
  ghost predicate CleanedPartly(start: World, now: World, j: JobId, c: Component, all: set<Intent>, rest: set<Intent>, clean: bool) {
    && HeldLess(start, now, j) && LearnsAt(start, now, j, c) && LearnsCleanings(start, now, j)
    && (forall t | t in rest :: !RemembersAt(now, c, Cleaning(t.lease)))
    && (clean ==> forall t | t in all - rest :: !HeldAt(now, c, t.lease, j))
  }

  lemma CleanedMore(start: World, before: World, after: World, j: JobId, c: Component, all: set<Intent>, rest: set<Intent>,
                    clean: bool, t: Intent, ok: bool)
    requires CleanedPartly(start, before, j, c, all, rest, clean) && t in rest
    requires forall u | u in rest :: u.component == c && u.lease.job == j
    requires HeldLess(before, after, j) && LearnsOnly(before, after, j, c, Cleaning(t.lease))
    requires ok ==> !HeldAt(after, c, t.lease, j)
    ensures CleanedPartly(start, after, j, c, all, rest - {t}, clean && ok)
  {
  }

  // ---------------------------------------------------------------- the coordinator, for one job

  class LeaseCoordinator {
    const job: JobId
    const usesNetwork: bool             // a faucet job never takes a network lease
    var world: World
    var intents: set<Intent>            // the job record's leases
    var saved: set<Intent>              // as a restart reads them back
    var lane: bool                      // the job still occupies its lane
    var calm: bool                      // no call fails and no lease of the job expires
    const settles: bool                 // while calm, no other job impairs a node
    const reconnects: bool              // every kind but a degradation reconnects the nodes it healed
    const converges: bool               // reconnecting and waiting for convergence succeeds
    ghost var alive: bool               // the process has not died; a dead one makes no call
    ghost var failures: nat             // calls and saves of this job that failed so far
    ghost var ended: bool               // the executor is over: cleanup or recovery has begun
    ghost var attempts: seq<Try>        // release calls of this cleanup or recovery attempt

    /** The invariant of every run; its last line is the point: the lane outlives the leases. */
    ghost predicate Valid()
      reads this
    {
      && Covered(world, job, intents) && Covered(world, job, saved)
      && (forall t | t in intents :: t.lease.job == job) && (forall t | t in saved :: t.lease.job == job)
      && (!ended ==> Unended(world, job))
      && (forall n :: Spent(world, job, Network(n)))
      && (!usesNetwork ==> forall n, l :: !HeldAt(world, Network(n), l, job))
      && (!lane ==> NoneHeld(world, job))
    }

    constructor (job: JobId, usesNetwork: bool, world: World, calm: bool, settles: bool, reconnects: bool, converges: bool)
      requires NoneHeld(world, job) && Unended(world, job)
      ensures Valid() && lane && this.job == job && this.usesNetwork == usesNetwork && this.calm == calm && this.settles == settles
      ensures this.reconnects == reconnects && this.converges == converges && alive
    {
      this.settles, this.reconnects, this.converges := settles, reconnects, converges;
      alive, failures := true, 0;
      this.job, this.usesNetwork, this.world, this.calm := job, usesNetwork, world, calm;
      intents, saved, lane := {}, {}, true;
      ended, attempts := false, [];
    }

    /** Other jobs act and leases expire, any number of times. In a calm stretch the job's own
        leases do not, and others use their own lease ids. */
    method Others()
      modifies this`world
      ensures HeldLess(old(world), world, job) && LearnsNothing(old(world), world, job)
      ensures calm ==> AllStill(old(world), world, job)
      ensures calm && settles ==> world.agents == old(world).agents
    {
      var steps: nat :| true;
      for k := 0 to steps
        invariant HeldLess(old(world), world, job) && LearnsNothing(old(world), world, job)
        invariant calm ==> AllStill(old(world), world, job)
        invariant calm && settles ==> world.agents == old(world).agents
      {
        ghost var before := world;
        OneOther();
        if calm { AllStillTransitive(old(world), before, world, job); }
      }
    }

    method OneOther()
      modifies this`world
      ensures HeldLess(old(world), world, job) && LearnsNothing(old(world), world, job)
      ensures calm ==> AllStill(old(world), world, job)
      ensures calm && settles ==> world.agents == old(world).agents
    {
      var c: Component, l: LeaseId, owner: JobId, id: RequestId, chainChanged: bool, expires: bool := *, *, *, *, *, *;
      if calm && (Touches(world, c, l, job) || (settles && c.Network?)) { return; }
      if expires {
        ExpiryKeeps(world, c, l, job);
        if calm { OtherwiseStill(world, c, l, job); }
        world := Expired(world, c, l);
      } else if owner != job && id.lease.job != job {
        var r := if chainChanged then Acquire(l, owner) else Release(l, false);
        if AcceptsAt(world, c, id, r) && !HeldAt(world, c, l, job) {
          OthersServed(world, c, id, r, job);
          if calm { OthersAllStill(world, c, id, r, job); }
          world := Served(world, c, id, r);
        }
      }
    }

    method Attempt() returns (r: Reply<()>)
      requires alive
      modifies this`alive, this`failures
      ensures calm ==> r.Ok?
      ensures (alive <==> !r.Crash?) && failures == old(failures) + if r.Ok? then 0 else 1
    {
      var fault, crash: bool := *, *;
      if calm || !fault { return Ok(()); }
      alive, failures := !crash, failures + 1;
      return if crash then Crash else Err;
    }

    /** The process starts again. */
    method Restart()
      modifies this`alive, this`intents
      ensures alive && intents == saved
    {
      intents, alive := saved, true;
    }

    method Save() returns (r: Reply<()>)
      requires alive
      modifies this`saved, this`alive, this`failures
      ensures r.Ok? ==> saved == intents
      ensures saved == intents || saved == old(saved)
      ensures calm ==> r.Ok?
      ensures (alive <==> !r.Crash?) && failures >= old(failures) && (r.Ok? ==> failures == old(failures))
    {
      r := Attempt();
      var effect: bool := *;
      if r.Ok? || (r.Crash? && effect) { saved := intents; }
    }

    /** One release call. Whatever comes back, the job holds nothing new; a positive answer to a
        request id not served before means the lease is gone. */
    method ReleaseLease(c: Component, id: RequestId, l: LeaseId, chainChanged: bool) returns (r: Reply<()>)
      requires alive
      modifies this`world, this`attempts, this`alive, this`failures
      ensures attempts == old(attempts) + [Try(c, l, chainChanged)]
      ensures HeldLess(old(world), world, job) && LearnsOnly(old(world), world, job, c, id)
      ensures l.job == job && id.lease.job == job && !old(RemembersAt(world, c, id)) ==>
                (r.Ok? || RemembersAt(world, c, id) ==> !HeldAt(world, c, l, job))
      ensures calm ==> !r.Crash? && CalmOutcome(old(world), world, r.Ok?, settles, c, id, l, chainChanged, job)
      ensures (alive <==> !r.Crash?) && failures >= old(failures) && (r.Ok? ==> failures == old(failures))
    {
      attempts := attempts + [Try(c, l, chainChanged)];
      Others();
      ghost var reached := world;
      r := Attempt();
      var effect: bool := *;
      var request := Release(l, chainChanged);
      if !AcceptsAt(world, c, id, request) {
        if calm { CalmRefused(old(world), reached, settles, c, id, l, chainChanged, job); }
        if r.Ok? { failures := failures + 1; }
        return if r.Crash? then Crash else Err;
      }
      if r.Ok? || effect {
        ReleaseServed(world, c, id, l, chainChanged, job);
        if calm { CalmServed(old(world), reached, settles, c, id, l, chainChanged, job); }
        world := Served(world, c, id, request);
      }
    }

    method AgentStatus(n: Node) returns (r: Reply<Agent>)
      requires alive
      modifies this`world, this`alive, this`failures
      ensures HeldLess(old(world), world, job) && LearnsNothing(old(world), world, job)
      ensures r.Ok? ==> r.value == world.agents.Get(n)
      ensures calm ==> r.Ok? && AllStill(old(world), world, job)
      ensures calm && settles ==> world.agents == old(world).agents
      ensures (alive <==> !r.Crash?) && failures >= old(failures) && (r.Ok? ==> failures == old(failures))
    {
      Others();
      var called := Attempt();
      if !called.Ok? { return Down(called); }
      return Ok(world.agents.Get(n));
    }

    method WorkerStatus(c: Component) returns (r: Reply<Worker>)
      requires !c.Network?
      requires alive
      modifies this`world, this`alive, this`failures
      ensures HeldLess(old(world), world, job) && LearnsNothing(old(world), world, job)
      ensures r.Ok? ==> r.value == if c.Spam? then world.spam else world.mining
      ensures calm ==> r.Ok? && AllStill(old(world), world, job)
      ensures (alive <==> !r.Crash?) && failures >= old(failures) && (r.Ok? ==> failures == old(failures))
    {
      Others();
      var called := Attempt();
      if !called.Ok? { return Down(called); }
      return Ok(if c.Spam? then world.spam else world.mining);
    }

    /** Record the intent, then acquire. A lost answer or a crash leaves a lease that the record
        already names. */
    method AcquireLease(c: Component, l: LeaseId, id: RequestId) returns (r: Reply<()>)
      requires Valid() && lane && l.job == job && id.Acquiring? && id.lease == l
      requires c.Network? ==> usesNetwork && !ended
      requires alive
      modifies this`world, this`intents, this`saved, this`alive, this`failures
      ensures Valid() && lane == old(lane) && old(intents) <= intents
      ensures forall d, k | HeldAt(world, d, k, job) :: HeldAt(old(world), d, k, job) || (d == c && k == l)
      ensures calm ==> StillElsewhere(old(world), world, job, c) && KeepsFree(old(world), world, job)
      ensures (&& calm && !c.Network? && l == OwnLease(c, job) && !HoldsAny(old(world), c, job) && OwnFree(old(world), c, job)
               && !old(RemembersAt(world, c, id))) ==> r.Ok? && AcquiredOnly(old(world), world, job, c, l)
      ensures (alive <==> !r.Crash?) && failures >= old(failures) && (r.Ok? ==> failures == old(failures))
    {
      intents := intents + {Intent(c, l)};
      r := Save();
      if !r.Ok? { return; }
      r := SendAcquire(c, l, id);
    }

    /** The call itself, once the intent is on the saved record. */
    method SendAcquire(c: Component, l: LeaseId, id: RequestId) returns (r: Reply<()>)
      requires Valid() && lane && l.job == job && id.Acquiring? && id.lease == l
      requires c.Network? ==> usesNetwork && !ended
      requires alive && saved == intents && Intent(c, l) in intents
      modifies this`world, this`alive, this`failures
      ensures Valid() && lane == old(lane)
      ensures forall d, k | HeldAt(world, d, k, job) :: HeldAt(old(world), d, k, job) || (d == c && k == l)
      ensures calm ==> StillElsewhere(old(world), world, job, c) && KeepsFree(old(world), world, job)
      ensures (&& calm && !c.Network? && l == OwnLease(c, job) && !HoldsAny(old(world), c, job) && OwnFree(old(world), c, job)
               && !old(RemembersAt(world, c, id))) ==> r.Ok? && AcquiredOnly(old(world), world, job, c, l)
      ensures (alive <==> !r.Crash?) && failures >= old(failures) && (r.Ok? ==> failures == old(failures))
    {
      ghost var before := world;
      Others();
      LessKeeps(before, world, job, intents);
      r := Attempt();
      var effect: bool := *;
      var request := Acquire(l, job);
      if calm {
        CalmAcquire(before, world, c, id, l, job);
        KeepsFreeStill(before, world, job);
      }
      if !AcceptsAt(world, c, id, request) {
        if r.Ok? { failures := failures + 1; }
        return if r.Crash? then Crash else Err;
      }
      if r.Ok? || effect {
        AcquireServed(world, c, id, l, job, intents);
        world := Served(world, c, id, request);
      }
    }

    /** Heal the network impairments on the list. Succeeding means no agent is left held. */
    method CleanNetwork(targets: set<Intent>) returns (r: Reply<bool>)
      requires Covered(world, job, targets) && (forall n :: Spent(world, job, Network(n))) && InOrder(attempts)
      requires forall t | t in targets :: t.lease.job == job
      requires forall i | 0 <= i < |attempts| :: attempts[i].component.Network?
      requires ForTargets(attempts, targets, false) && forall t | t in targets :: !RemembersAt(world, t.component, Cleaning(t.lease))
      requires alive
      modifies this`world, this`attempts, this`alive, this`failures
      ensures !r.Err? && HeldLess(old(world), world, job) && forall n :: Spent(world, job, Network(n))
      ensures OnlyAgentsLearn(old(world), world, job) && LearnsCleanings(old(world), world, job)
      ensures InOrder(attempts) && forall i | 0 <= i < |attempts| :: attempts[i].component.Network?
      ensures ForTargets(attempts, targets, false)
      ensures r == Ok(true) ==> forall n, l :: !HeldAt(world, Network(n), l, job)
      ensures calm ==> !r.Crash? && KeepsFree(old(world), world, job)
      ensures calm && settles ==>
                && (Healable(old(world), targets) ==> r == Ok(true))
                && (r == Ok(true) ==> forall t | t in targets && t.component.Network? :: !Intruded(old(world), t.component.node, targets))
      ensures (alive <==> !r.Crash?) && failures >= old(failures) && (r == Ok(true) ==> failures == old(failures))
    {
      var clean, rest := true, set t | t in targets && t.component.Network?;
      ghost var all := rest;
      while rest != {}
        invariant rest <= all && all == set t | t in targets && t.component.Network?
        invariant HeldLess(old(world), world, job) && OnlyAgentsLearn(old(world), world, job)
        invariant forall n :: Spent(world, job, Network(n))
        invariant InOrder(attempts) && forall i | 0 <= i < |attempts| :: attempts[i].component.Network?
        invariant ForTargets(attempts, targets, false)
        invariant alive && failures >= old(failures) && (clean ==> failures == old(failures))
        invariant clean ==> forall t | t in all - rest :: !HeldAt(world, t.component, t.lease, job)
        invariant LearnsCleanings(old(world), world, job)
        invariant forall t | t in rest :: !RemembersAt(world, t.component, Cleaning(t.lease))
        invariant calm ==> KeepsFree(old(world), world, job)
        invariant calm && settles ==> HealedPartly(old(world), world, targets, rest, clean)
        decreases rest
      {
        var t :| t in rest;
        ghost var left, was, sent := rest, clean, attempts;
        rest := rest - {t};
        ghost var before := world;
        var healed := HealOne(t.component.node, t.lease);
        ForTargetsGrows(sent, Try(t.component, t.lease, false), targets, false);
        if healed.Crash? { return Crash; }
        clean := clean && healed == Ok(true);
        if calm && settles { HealedMore(old(world), before, world, targets, left, t, was, healed == Ok(true)); }
      }
      forall n, l ensures clean ==> !HeldAt(world, Network(n), l, job) {
        assert HeldAt(old(world), Network(n), l, job) ==> Intent(Network(n), l) in all;
      }
      return Ok(clean);
    }

    /** Release one impairment if it is the active one; another active lease is an error. With no
        failing call it succeeds exactly if no other lease is active. */
    method HealOne(n: Node, l: LeaseId) returns (r: Reply<bool>)
      requires l.job == job && (forall m :: Spent(world, job, Network(m))) && (forall c, k | HeldAt(world, c, k, job) :: k.job == job)
      requires InOrder(attempts) && forall i | 0 <= i < |attempts| :: attempts[i].component.Network?
      requires !RemembersAt(world, Network(n), Cleaning(l))
      requires alive
      modifies this`world, this`attempts, this`alive, this`failures
      ensures !r.Err? && HeldLess(old(world), world, job) && OnlyAgentsLearn(old(world), world, job)
      ensures LearnsOnly(old(world), world, job, Network(n), Cleaning(l))
      ensures attempts == old(attempts) || attempts == old(attempts) + [Try(Network(n), l, false)]
      ensures calm ==> !r.Crash? && KeepsFree(old(world), world, job)
      ensures calm && settles ==> HealedOne(old(world), world, n, l) && (r == Ok(true) <==> Freeable(old(world), n, l))
      ensures forall m :: Spent(world, job, Network(m))
      ensures InOrder(attempts) && forall i | 0 <= i < |attempts| :: attempts[i].component.Network?
      ensures r == Ok(true) ==> !HeldAt(world, Network(n), l, job)
      ensures (alive <==> !r.Crash?) && failures >= old(failures) && (r == Ok(true) ==> failures == old(failures))
    {
      var status := AgentStatus(n);
      if calm { KeepsFreeStill(old(world), world, job); }
      if status.Crash? { return Crash; }
      if status.Err? { return Ok(false); }
      if status.value.active.None? { return Ok(true); }
      if status.value.active.value.0 != l { return Ok(false); }
      OrderGrows(attempts, Try(Network(n), l, false));
      ghost var before := world;
      var released := ReleaseLease(Network(n), Cleaning(l), l, false);
      SpentAfterRelease(before, world, job, Network(n), Cleaning(l), l);
      if released.Crash? { return Crash; }
      return Ok(released.Ok?);
    }

    method CleanLease(c: Component, l: LeaseId, chainChanged: bool) returns (r: Reply<()>)
      requires !c.Network? && l.job == job && Spent(world, job, c) && InOrder(attempts) && !RemembersAt(world, c, Cleaning(l))
      requires forall d, k | HeldAt(world, d, k, job) :: k.job == job
      requires forall i | 0 <= i < |attempts| :: Turn(attempts[i].component) <= Turn(c)
      requires alive
      modifies this`world, this`attempts, this`alive, this`failures
      ensures HeldLess(old(world), world, job) && LearnsOnly(old(world), world, job, c, Cleaning(l)) && Spent(world, job, c)
      ensures InOrder(attempts) && attempts == old(attempts) + [Try(c, l, chainChanged)]
      ensures r.Ok? ==> !HeldAt(world, c, l, job)
      ensures calm ==> r.Ok? && KeepsFree(old(world), world, job)
      ensures (alive <==> !r.Crash?) && failures >= old(failures) && (r.Ok? ==> failures == old(failures))
    {
      OrderGrows(attempts, Try(c, l, chainChanged));
      r := ReleaseLease(c, Cleaning(l), l, chainChanged);
      SpentAfterRelease(old(world), world, job, c, Cleaning(l), l);
    }

    /** Release the recorded leases of one kind of worker. Succeeding means none is left held:
        the request ids are new, so no answer comes from memory while a lease is held. Every
        lease on the list is tried, whatever became of the ones before. */
    method CleanWorker(c: Component, targets: set<Intent>, chainChanged: bool) returns (r: Reply<bool>)
      requires !c.Network? && Covered(world, job, targets) && Spent(world, job, c) && InOrder(attempts)
      requires forall t | t in targets :: t.lease.job == job
      requires forall i | 0 <= i < |attempts| :: Turn(attempts[i].component) <= Turn(c)
      requires forall t | t in targets && t.component == c :: !RemembersAt(world, c, Cleaning(t.lease))
      requires ForTargets(attempts, targets, chainChanged)
      requires alive
      modifies this`world, this`attempts, this`alive, this`failures
      ensures !r.Err? && HeldLess(old(world), world, job) && LearnsAt(old(world), world, job, c)
      ensures InOrder(attempts) && forall i | 0 <= i < |attempts| :: Turn(attempts[i].component) <= Turn(c)
      ensures LearnsCleanings(old(world), world, job)
      ensures ForTargets(attempts, targets, chainChanged) && old(attempts) <= attempts
      ensures r.Ok? ==> Tried(attempts, (set t | t in targets && t.component == c), chainChanged)
      ensures calm ==> r == Ok(true) && KeepsFree(old(world), world, job)
      ensures r == Ok(true) ==> forall l :: !HeldAt(world, c, l, job)
      ensures (alive <==> !r.Crash?) && failures >= old(failures) && (r == Ok(true) ==> failures == old(failures))
    {
      var all := set t | t in targets && t.component == c;
      r := CleanEach(c, all, targets, chainChanged);
      assert all - {} == all;
      forall l ensures r == Ok(true) ==> !HeldAt(world, c, l, job) {
        assert HeldAt(old(world), c, l, job) ==> Intent(c, l) in all;
      }
    }

    method CleanEach(c: Component, all: set<Intent>, ghost targets: set<Intent>, chainChanged: bool) returns (r: Reply<bool>)
      requires !c.Network? && Spent(world, job, c) && (forall d, k | HeldAt(world, d, k, job) :: k.job == job)
      requires Sent(attempts, c, targets, {}, chainChanged)
      requires all <= targets && forall t | t in all :: t.component == c && t.lease.job == job && !RemembersAt(world, c, Cleaning(t.lease))
      requires alive
      modifies this`world, this`attempts, this`alive, this`failures
      ensures !r.Err? && CleanedPartly(old(world), world, job, c, all, {}, r == Ok(true))
      ensures old(attempts) <= attempts && Sent(attempts, c, targets, if r.Ok? then all else {}, chainChanged)
      ensures calm ==> r == Ok(true) && KeepsFree(old(world), world, job)
      ensures (alive <==> !r.Crash?) && failures >= old(failures) && (r == Ok(true) ==> failures == old(failures))
    {
      var clean, rest := true, all;
      while rest != {}
        invariant rest <= all && Spent(world, job, c) && forall d, k | HeldAt(world, d, k, job) :: k.job == job
        invariant CleanedPartly(old(world), world, job, c, all, rest, clean)
        invariant old(attempts) <= attempts && Sent(attempts, c, targets, all - rest, chainChanged)
        invariant alive && failures >= old(failures) && (clean ==> failures == old(failures))
        invariant calm ==> clean && KeepsFree(old(world), world, job)
        decreases rest
      {
        var t :| t in rest;
        ghost var sent, before := attempts, world;
        var released := CleanLease(c, t.lease, chainChanged);
        SentMore(sent, c, targets, all - rest, chainChanged, t);
        assert all - rest + {t} == all - (rest - {t});
        CleanedMore(old(world), before, world, job, c, all, rest, clean, t, released.Ok?);
        rest := rest - {t};
        clean := clean && released.Ok?;
        if released.Crash? { return Crash; }
      }
      return Ok(clean);
    }

    /** The explicit cleanup at the end of a job. A clean result means nothing is held anywhere,
        and releases were attempted network first, then spam, then mining. Unless it crashes,
        it tries every own worker lease on the list and no other job's, whatever failed before;
        and with no failing call it is clean if nothing foreign is in the way. */
    method CleanupLeases(targets: set<Intent>, stopError: bool, chainChanged: bool) returns (r: Reply<bool>)
      requires Valid() && !ended && Covered(world, job, targets)
      requires alive
      modifies this`world, this`attempts, this`ended, this`alive, this`failures
      ensures Valid() && ended && !r.Err? && HeldLess(old(world), world, job)
      ensures InOrder(attempts)
      ensures r == Ok(true) ==> NoneHeld(world, job)
      ensures (stopError || exists t :: t in targets && t.lease.job != job) ==> r != Ok(true)
      ensures r.Ok? ==> Tried(attempts, (set t | t in targets && t.lease.job == job && !t.component.Network?), chainChanged)
      ensures ForTargets(attempts, (set t | t in targets && t.lease.job == job), chainChanged)
      ensures LearnsCleanings(old(world), world, job)
      ensures calm ==> !r.Crash? && KeepsFree(old(world), world, job)
      ensures (&& calm && settles && !stopError && (forall t | t in targets :: t.lease.job == job)
               && Healable(old(world), targets) && Converges(targets)) ==> r == Ok(true)
      ensures r == Ok(true) ==> Converges(targets)
      ensures calm && settles && r == Ok(true) ==>
                forall t | t in targets && t.component.Network? :: !Intruded(old(world), t.component.node, targets)
      ensures (alive <==> !r.Crash?) && failures >= old(failures) && (r == Ok(true) ==> failures == old(failures))
    {
      assert (set t | t in targets && t.lease.job == job && !t.component.Network?)
          == set t | t in (set t | t in targets && t.lease.job == job) && !t.component.Network?;
      attempts, ended := [], true;
      var own := set t | t in targets && t.lease.job == job;
      var refused := own != targets;
      var cleaned := CleanOwn(own, chainChanged);
      if cleaned.Crash? { return Crash; }
      return Ok(!stopError && !refused && cleaned.value);
    }

    /** The cleanup of the job's own leases. */
    method CleanOwn(own: set<Intent>, chainChanged: bool) returns (r: Reply<bool>)
      requires Valid() && ended && attempts == [] && Unended(world, job)
      requires Covered(world, job, own) && forall t | t in own :: t.lease.job == job
      requires alive
      modifies this`world, this`attempts, this`alive, this`failures
      ensures Valid() && !r.Err? && HeldLess(old(world), world, job) && InOrder(attempts)
      ensures r == Ok(true) ==> NoneHeld(world, job)
      ensures r.Ok? ==> Tried(attempts, (set t | t in own && !t.component.Network?), chainChanged)
      ensures ForTargets(attempts, own, chainChanged) && LearnsCleanings(old(world), world, job)
      ensures calm ==> !r.Crash? && KeepsFree(old(world), world, job)
      ensures calm && settles && Healable(old(world), own) && Converges(own) ==> r == Ok(true)
      ensures r == Ok(true) ==> Converges(own)
      ensures calm && settles && r == Ok(true) ==>
                forall t | t in own && t.component.Network? :: !Intruded(old(world), t.component.node, own)
      ensures (alive <==> !r.Crash?) && failures >= old(failures) && (r == Ok(true) ==> failures == old(failures))
    {
      var network := CleanAgents(own);
      if network.Crash? { return Crash; }
      ghost var before := world;
      var workers := CleanWorkers(own, chainChanged);
      LessKeepsAll(before, world, job, intents, saved);
      WorkerLeavesAgents(before, world, job);
      if workers.Crash? { return Crash; }
      return Ok(network.value && workers.value);
    }

    /** Nodes that were impaired under the listed leases reconnect and converge, if they have to. */
    ghost predicate Converges(targets: set<Intent>) {
      reconnects && (exists t :: t in targets && t.component.Network?) ==> converges
    }

    /** The network part: heal, and reconverge if anything was impaired. */
    method CleanAgents(own: set<Intent>) returns (r: Reply<bool>)
      requires Valid() && ended && attempts == [] && Unended(world, job)
      requires Covered(world, job, own) && forall t | t in own :: t.lease.job == job
      requires alive
      modifies this`world, this`attempts, this`alive, this`failures
      ensures Valid() && !r.Err? && HeldLess(old(world), world, job) && Covered(world, job, own)
      ensures Spent(world, job, Spam) && Spent(world, job, Mining)
      ensures InOrder(attempts) && forall i | 0 <= i < |attempts| :: attempts[i].component.Network?
      ensures ForTargets(attempts, own, false)
      ensures OnlyAgentsLearn(old(world), world, job) && LearnsCleanings(old(world), world, job)
      ensures r == Ok(true) ==> forall n, l :: !HeldAt(world, Network(n), l, job)
      ensures calm ==> !r.Crash? && KeepsFree(old(world), world, job)
      ensures r == Ok(true) ==> Converges(own)
      ensures calm && settles ==>
                && (Healable(old(world), own) && Converges(own) ==> r == Ok(true))
                && (r == Ok(true) ==> forall t | t in own && t.component.Network? :: !Intruded(old(world), t.component.node, own))
      ensures (alive <==> !r.Crash?) && failures >= old(failures) && (r == Ok(true) ==> failures == old(failures))
    {
      ghost var start := world;
      r := CleanNetwork(own);
      LessKeepsAll(start, world, job, intents, saved);
      LessKeepsAll(start, world, job, own, own);
      WorkersUnended(start, world, job);
      if r.Crash? { return; }
      if reconnects && exists t | t in own :: t.component.Network? {
        var healed := Reconverge();
        r := Ok(r.value && healed);
      }
    }

    /** Spam first, so its pools reconcile while mining is still held. */
    method CleanWorkers(own: set<Intent>, chainChanged: bool) returns (r: Reply<bool>)
      requires Covered(world, job, own) && Spent(world, job, Spam) && Spent(world, job, Mining) && InOrder(attempts)
      requires forall t | t in own :: t.lease.job == job
      requires forall i | 0 <= i < |attempts| :: attempts[i].component.Network?
      requires forall t | t in own && !t.component.Network? :: !RemembersAt(world, t.component, Cleaning(t.lease))
      requires ForTargets(attempts, own, chainChanged)
      requires alive
      modifies this`world, this`attempts, this`alive, this`failures
      ensures !r.Err? && HeldLess(old(world), world, job) && OnlyWorkersLearn(old(world), world, job) && InOrder(attempts)
      ensures LearnsCleanings(old(world), world, job)
      ensures ForTargets(attempts, own, chainChanged)
      ensures r.Ok? ==> Tried(attempts, (set t | t in own && !t.component.Network?), chainChanged)
      ensures r == Ok(true) ==> forall l :: !HeldAt(world, Spam, l, job) && !HeldAt(world, Mining, l, job)
      ensures calm ==> r == Ok(true) && KeepsFree(old(world), world, job)
      ensures (alive <==> !r.Crash?) && failures >= old(failures) && (r == Ok(true) ==> failures == old(failures))
    {
      ghost var start := world;
      var spam := CleanWorker(Spam, own, chainChanged);
      LessKeepsAll(start, world, job, own, own);
      OtherWorkerSpent(start, world, job, Spam, Mining);
      if spam.Crash? { return Crash; }
      var mining := CleanWorker(Mining, own, chainChanged);
      if mining.Crash? { return Crash; }
      return Ok(spam.value && mining.value);
    }

    /** Reconnecting peers and waiting for convergence touches no lease. */
    method Reconverge() returns (ok: bool)
      ensures ok == converges
    {
      return converges;
    }

    /** A step of the running job gives one of its leases back. */
    method ReleaseMidway(c: Component, l: LeaseId, chainChanged: bool) returns (r: Reply<()>)
      requires Valid() && !ended && l.job == job
      requires alive
      modifies this`world, this`attempts, this`alive, this`failures
      ensures Valid() && HeldLess(old(world), world, job)
      ensures attempts == old(attempts) + [Try(c, l, chainChanged)]
      ensures calm ==> KeepsFree(old(world), world, job) && !r.Crash?
      ensures (alive <==> !r.Crash?) && failures >= old(failures) && (r.Ok? ==> failures == old(failures))
    {
      r := ReleaseLease(c, Releasing(l), l, chainChanged);
      LessKeepsAll(old(world), world, job, intents, saved);
      StillUnended(old(world), world, job, c, Releasing(l));
    }

    /** A job ends after its cleanup; its lane is cleared exactly if the cleanup was clean, and with
        no failing call it is if nothing foreign is in the way. */
    method Finish(targets: set<Intent>, stopError: bool, chainChanged: bool) returns (r: Reply<bool>)
      requires Valid() && lane && !ended && Covered(world, job, targets)
      requires alive
      modifies this`world, this`attempts, this`ended, this`lane, this`alive, this`failures
      ensures Valid() && ended && InOrder(attempts) && !r.Err?
      ensures !lane <==> r == Ok(true)
      ensures r.Ok? ==> Tried(attempts, (set t | t in targets && t.lease.job == job && !t.component.Network?), chainChanged)
      ensures LearnsCleanings(old(world), world, job)
      ensures calm ==> !r.Crash? && KeepsFree(old(world), world, job)
      ensures (&& calm && settles && !stopError && (forall t | t in targets :: t.lease.job == job)
               && Healable(old(world), targets) && Converges(targets)) ==> !lane
      ensures (alive <==> !r.Crash?) && failures >= old(failures) && (r == Ok(true) ==> failures == old(failures))
    {
      r := CleanupLeases(targets, stopError, chainChanged);
      if r == Ok(true) { lane := false; }
    }

    /** A job whose acquisition failed also cleans what only its record knows of: a lease that
        was granted although the answer was lost. */
    method FinishFailedBeforeMutation(acquired: set<Intent>) returns (r: Reply<bool>)
      requires Valid() && lane && !ended
      requires alive
      modifies this`world, this`attempts, this`ended, this`lane, this`alive, this`failures
      ensures Valid() && ended && InOrder(attempts) && !r.Err?
      ensures !lane <==> r == Ok(true)
      ensures r.Ok? ==>
                Tried(attempts, (set t | t in intents + acquired && t.lease.job == job && !t.component.Network?), false)
      ensures LearnsCleanings(old(world), world, job)
      ensures calm ==> !r.Crash? && KeepsFree(old(world), world, job)
      ensures (&& calm && settles && (forall t | t in acquired :: t.lease.job == job)
               && Healable(old(world), intents + acquired) && Converges(intents + acquired)) ==> !lane
      ensures (alive <==> !r.Crash?) && failures >= old(failures) && (r == Ok(true) ==> failures == old(failures))
    {
      r := Finish(intents + acquired, false, false);
    }

    // ---------------------------------------------------------------- recovery

    method RecoverNetworkResources() returns (r: Reply<()>)
      requires Valid() && ended && attempts == []
      requires alive
      modifies this`world, this`attempts, this`alive, this`failures
      ensures Valid() && HeldLess(old(world), world, job)
      ensures InOrder(attempts) && forall i | 0 <= i < |attempts| :: attempts[i].component.Network?
      ensures r.Ok? ==> forall n, l :: !HeldAt(world, Network(n), l, job)
      ensures calm ==> r.Ok? && WorkersStill(old(world), world, job)
      ensures (alive <==> !r.Crash?) && failures >= old(failures) && (r.Ok? ==> failures == old(failures))
    {
      for k := 0 to |ALL|
        invariant Valid() && HeldLess(old(world), world, job) && alive && failures == old(failures)
        invariant calm ==> WorkersStill(old(world), world, job)
        invariant InOrder(attempts) && forall i | 0 <= i < |attempts| :: attempts[i].component.Network?
        invariant forall i, l | 0 <= i < k :: !HeldAt(world, Network(ALL[i]), l, job)
      {
        ghost var before := world;
        r := RecoverAgent(ALL[k]);
        if calm { WorkersStillTransitive(old(world), before, world, job); }
        if !r.Ok? { return; }
      }
      forall n, l ensures !HeldAt(world, Network(n), l, job) {
        assert n == ALL[0] || n == ALL[1] || n == ALL[2];
      }
      r := Attempt();
    }

    method RecoverAgent(n: Node) returns (r: Reply<()>)
      requires Valid() && ended
      requires InOrder(attempts) && forall i | 0 <= i < |attempts| :: attempts[i].component.Network?
      requires alive
      modifies this`world, this`attempts, this`alive, this`failures
      ensures Valid() && HeldLess(old(world), world, job)
      ensures InOrder(attempts) && forall i | 0 <= i < |attempts| :: attempts[i].component.Network?
      ensures r.Ok? ==> forall l :: !HeldAt(world, Network(n), l, job)
      ensures calm ==> r.Ok? && WorkersStill(old(world), world, job)
      ensures (alive <==> !r.Crash?) && failures >= old(failures) && (r.Ok? ==> failures == old(failures))
    {
      var status := AgentStatus(n);
      LessKeeps(old(world), world, job, intents);
      LessKeeps(old(world), world, job, saved);
      if !status.Ok? { return Down(status); }
      if !status.value.Owns(job) { return Ok(()); }
      var l := status.value.active.value.0;
      OrderGrows(attempts, Try(Network(n), l, false));
      ghost var before := world;
      assert HeldAt(before, Network(n), l, job);
      r := ReleaseLease(Network(n), Recovering(l), l, false);
      SpentAfterRelease(before, world, job, Network(n), Recovering(l), l);
      LessKeepsAll(before, world, job, intents, saved);
      if calm { WorkersStillTransitive(old(world), before, world, job); }
    }

    /** Release what the worker lists as the job's, first spam, then mining, and look again. A
        release answered from memory leaves the lease in place; the second look catches it. With
        no failing call an attempt succeeds exactly if no held lease was released before. */
    method RecoverWorkerLeases() returns (r: Reply<()>)
      requires Valid() && ended && InOrder(attempts) && forall i | 0 <= i < |attempts| :: attempts[i].component.Network?
      requires alive
      modifies this`world, this`attempts, this`alive, this`failures
      ensures Valid() && HeldLess(old(world), world, job) && InOrder(attempts)
      ensures r.Ok? ==> forall l :: !HeldAt(world, Spam, l, job) && !HeldAt(world, Mining, l, job)
      ensures calm ==> (r.Ok? <==> !Stuck(old(world), Spam, job) && !Stuck(old(world), Mining, job))
      ensures calm ==> KeepsStuck(old(world), world, job, Spam) && KeepsStuck(old(world), world, job, Mining)
      ensures (alive <==> !r.Crash?) && failures >= old(failures) && (r.Ok? ==> failures == old(failures))
    {
      ghost var start := world;
      r := ReleaseListed(Spam);
      ghost var half := world;
      if calm { StillBlocked(start, half, job, Mining, false, 0); }
      if !r.Ok? { return; }
      r := ReleaseListed(Mining);
      if calm { StillBlocked(half, world, job, Spam, false, 0); }
      if !r.Ok? { return; }
      r := LookAgain();
    }

    /** Whether the workers still list anything of the job. */
    method LookAgain() returns (r: Reply<()>)
      requires Valid()
      requires alive
      modifies this`world, this`alive, this`failures
      ensures Valid() && HeldLess(old(world), world, job)
      ensures r.Ok? ==> forall l :: !HeldAt(world, Spam, l, job) && !HeldAt(world, Mining, l, job)
      ensures calm ==> (r.Ok? <==> !HoldsAny(old(world), Spam, job) && !HoldsAny(old(world), Mining, job))
      ensures calm ==> KeepsStuck(old(world), world, job, Spam) && KeepsStuck(old(world), world, job, Mining)
      ensures (alive <==> !r.Crash?) && failures >= old(failures) && (r.Ok? ==> failures == old(failures))
    {
      ghost var start := world;
      var spam := LookAt(Spam);
      ghost var seen := world;
      if calm {
        StillListed(start, seen, job, Spam);
        StillListed(start, seen, job, Mining);
      }
      if !spam.Ok? { return Down(spam); }
      if !spam.value { return Err; }
      var mining := LookAt(Mining);
      if calm {
        StillListed(seen, world, job, Spam);
        StillListed(seen, world, job, Mining);
      }
      if !mining.Ok? { return Down(mining); }
      return if mining.value then Ok(()) else Err;
    }

    method LookAt(c: Component) returns (clear: Reply<bool>)
      requires Valid() && !c.Network?
      requires alive
      modifies this`world, this`alive, this`failures
      ensures Valid() && HeldLess(old(world), world, job)
      ensures clear.Ok? ==> (clear.value <==> !HoldsAny(world, c, job))
      ensures calm ==> clear.Ok? && AllStill(old(world), world, job)
      ensures (alive <==> !clear.Crash?) && failures >= old(failures) && (clear.Ok? ==> failures == old(failures))
    {
      ghost var start := world;
      var status := WorkerStatus(c);
      LessKeeps(start, world, job, intents);
      LessKeeps(start, world, job, saved);
      if !status.Ok? { return Down(status); }
      var listed := exists l | l in status.value.leases :: status.value.leases[l] == job;
      if listed {
        var l :| l in status.value.leases && status.value.leases[l] == job;
        assert HeldAt(world, c, l, job);
      }
      return Ok(!listed);
    }

    /** Release one worker's leases of the job. In a calm stretch none is left, unless some was
        released before; such a one stays. */
    method ReleaseListed(c: Component) returns (r: Reply<()>)
      requires !c.Network? && Valid() && ended && InOrder(attempts)
      requires forall i | 0 <= i < |attempts| :: Turn(attempts[i].component) <= Turn(c)
      requires alive
      modifies this`world, this`attempts, this`alive, this`failures
      ensures Valid() && HeldLess(old(world), world, job)
      ensures InOrder(attempts) && forall i | 0 <= i < |attempts| :: Turn(attempts[i].component) <= Turn(c)
      ensures calm ==> StillElsewhere(old(world), world, job, c)
      ensures calm && !Stuck(old(world), c, job) ==> r.Ok? && !HoldsAny(world, c, job)
      ensures calm && Stuck(old(world), c, job) ==> Stuck(world, c, job)
      ensures calm && OwnFree(old(world), c, job) ==> OwnFree(world, c, job)
      ensures (alive <==> !r.Crash?) && failures >= old(failures) && (r.Ok? ==> failures == old(failures))
    {
      ghost var start := world;
      var status := WorkerStatus(c);
      LessKeeps(start, world, job, intents);
      LessKeeps(start, world, job, saved);
      if calm { StillListed(start, world, job, c); }
      ghost var listed := world;
      if !status.Ok? { return Down(status); }
      var rest := set l | l in status.value.leases && status.value.leases[l] == job;
      assert forall l | l in rest :: HeldAt(listed, c, l, job);
      r := ReleaseAll(c, rest);
      if calm { StillElsewhereTransitive(start, listed, world, job, c); }
    }

    method ReleaseAll(c: Component, listed: set<LeaseId>) returns (r: Reply<()>)
      requires !c.Network? && Valid() && ended && InOrder(attempts)
      requires forall i | 0 <= i < |attempts| :: Turn(attempts[i].component) <= Turn(c)
      requires forall l :: l in listed <==> HeldAt(world, c, l, job)
      requires alive
      modifies this`world, this`attempts, this`alive, this`failures
      ensures Valid() && HeldLess(old(world), world, job)
      ensures InOrder(attempts) && forall i | 0 <= i < |attempts| :: Turn(attempts[i].component) <= Turn(c)
      ensures calm ==> StillElsewhere(old(world), world, job, c)
      ensures calm && !Stuck(old(world), c, job) ==> r.Ok? && !HoldsAny(world, c, job)
      ensures calm && Stuck(old(world), c, job) ==> Stuck(world, c, job)
      ensures calm && OwnFree(old(world), c, job) ==> OwnFree(world, c, job)
      ensures (alive <==> !r.Crash?) && failures >= old(failures) && (r.Ok? ==> failures == old(failures))
    {
      var rest := listed;
      while rest != {}
        invariant rest <= listed && Valid() && HeldLess(old(world), world, job) && alive && failures == old(failures)
        invariant InOrder(attempts) && forall i | 0 <= i < |attempts| :: Turn(attempts[i].component) <= Turn(c)
        invariant calm ==> StillElsewhere(old(world), world, job, c) && Partly(old(world), world, job, c, rest)
        decreases rest
      {
        var l :| l in rest;
        ghost var before := world;
        r := ReleaseForRecovery(c, l);
        if calm {
          StillElsewhereTransitive(old(world), before, world, job, c);
          OneReleased(old(world), before, world, job, c, rest, l);
          if RemembersAt(before, c, Recovering(l)) { assert StuckAt(old(world), c, l, job) && StuckAt(world, c, l, job); }
        }
        if !r.Ok? { return; }
        rest := rest - {l};
      }
      if calm { PartlyDone(old(world), world, job, c); }
      r := Ok(());
    }

    method ReleaseForRecovery(c: Component, l: LeaseId) returns (r: Reply<()>)
      requires l.job == job && !c.Network? && Valid() && ended && InOrder(attempts)
      requires forall i | 0 <= i < |attempts| :: Turn(attempts[i].component) <= Turn(c)
      requires alive
      modifies this`world, this`attempts, this`alive, this`failures
      ensures Valid() && HeldLess(old(world), world, job)
      ensures InOrder(attempts) && forall i | 0 <= i < |attempts| :: Turn(attempts[i].component) <= Turn(c)
      ensures calm ==> StillElsewhere(old(world), world, job, c)
      ensures calm && old(RemembersAt(world, c, Recovering(l))) ==> Still(old(world), world, job, c)
      ensures calm && !old(RemembersAt(world, c, Recovering(l))) ==> r.Ok? && ReleasedOnly(old(world), world, job, c, l)
      ensures (alive <==> !r.Crash?) && failures >= old(failures) && (r.Ok? ==> failures == old(failures))
    {
      OrderGrows(attempts, Try(c, l, true));
      ghost var before := world;
      r := ReleaseLease(c, Recovering(l), l, true);
      LessKeepsAll(before, world, job, intents, saved);
      WorkerReleaseLeavesAgents(before, world, job, c, Recovering(l));
    }

    /** Hold both workers again while an interrupted chain change is repaired. A lease already held
        is renewed, so it does not expire between attempts. */
    method EnsureRecoveryLeases(nonce: nat) returns (r: Reply<()>)
      requires Valid() && ended && lane
      requires alive
      modifies this`world, this`intents, this`saved, this`alive, this`failures
      ensures Valid() && lane == old(lane)
      ensures forall n, l | HeldAt(world, Network(n), l, job) :: HeldAt(old(world), Network(n), l, job)
      ensures calm && CanHold(old(world), job, nonce) ==>
                && r.Ok? && HoldsAny(world, Spam, job) && HoldsAny(world, Mining, job)
                && Ensured(old(world), world, job, Spam) && Ensured(old(world), world, job, Mining)
      ensures (alive <==> !r.Crash?) && failures >= old(failures) && (r.Ok? ==> failures == old(failures))
    {
      ghost var start := world;
      r := EnsureLease(Spam, nonce);
      ghost var half := world;
      if calm { StillBlocked(start, half, job, Mining, true, nonce); }
      if !r.Ok? { return; }
      r := EnsureLease(Mining, nonce);
      if calm { StillBlocked(half, world, job, Spam, true, nonce); }
    }

    method EnsureLease(c: Component, nonce: nat) returns (r: Reply<()>)
      requires Valid() && ended && lane && !c.Network?
      requires alive
      modifies this`world, this`intents, this`saved, this`alive, this`failures
      ensures Valid() && lane == old(lane)
      ensures forall n, k | HeldAt(world, Network(n), k, job) :: HeldAt(old(world), Network(n), k, job)
      ensures calm ==> StillElsewhere(old(world), world, job, c)
      ensures calm && OwnFree(old(world), c, job) && Unused(old(world), c, job, nonce) ==>
                r.Ok? && HoldsAny(world, c, job) && Ensured(old(world), world, job, c)
      ensures (alive <==> !r.Crash?) && failures >= old(failures) && (r.Ok? ==> failures == old(failures))
    {
      ghost var start := world;
      var status := WorkerStatus(c);
      ghost var seen := world;
      LessKeeps(start, seen, job, intents);
      LessKeeps(start, seen, job, saved);
      if calm {
        assert Still(start, seen, job, c);
        StillBlocked(start, seen, job, c, true, nonce);
      }
      if !status.Ok? { return Down(status); }
      if exists k | k in status.value.leases :: status.value.leases[k] == job {
        var k :| k in status.value.leases && status.value.leases[k] == job;
        assert HeldAt(seen, c, k, job);
        r := Attempt();
      } else {
        assert !HoldsAny(seen, c, job);
        r := AcquireLease(c, OwnLease(c, job), Acquiring(OwnLease(c, job), nonce));
        if calm { StillElsewhereTransitive(start, seen, world, job, c); }
        if AcquiredOnly(seen, world, job, c, OwnLease(c, job)) {
          AcquiredBlocked(seen, world, job, c);
          assert HeldAt(world, c, OwnLease(c, job), job);
        }
      }
    }

    /** One recovery attempt. Success means nothing is held anywhere. With no failing call an
        attempt succeeds exactly if neither worker is blocked, and a blocked one stays so. */
    method RecoverJobResources(chainMayHaveChanged: bool, nonce: nat) returns (r: Reply<()>)
      requires Valid() && ended && lane
      requires alive
      modifies this`world, this`intents, this`saved, this`attempts, this`alive, this`failures
      ensures Valid() && lane == old(lane) && InOrder(attempts)
      ensures r.Ok? ==> NoneHeld(world, job)
      ensures calm && (chainMayHaveChanged ==> CanHold(old(world), job, nonce)) ==>
                && (r.Ok? <==> Unblocked(old(world), job, chainMayHaveChanged))
                && (!r.Ok? ==> !Unblocked(world, job, chainMayHaveChanged))
                && (OwnFree(old(world), Spam, job) ==> OwnFree(world, Spam, job))
                && (OwnFree(old(world), Mining, job) ==> OwnFree(world, Mining, job))
      ensures (alive <==> !r.Crash?) && failures >= old(failures) && (r.Ok? ==> failures == old(failures))
    {
      ghost var start := world;
      attempts := [];
      if usesNetwork {
        r := RecoverNetworkResources();
        if !r.Ok? { return; }
      }
      assert forall n, l :: !HeldAt(world, Network(n), l, job);
      ghost var healed := world;
      if calm { BothBlocked(start, healed, job, chainMayHaveChanged, nonce); }
      r := RecoverWorkers(chainMayHaveChanged, nonce);
      if !r.Ok? { return; }
      forall c, l ensures !HeldAt(world, c, l, job) {
        match c case Spam => case Mining => case Network(n) =>
      }
      r := Attempt();
    }

    /** The workers' part of an attempt: hold them for the repair of a chain change, then release. */
    method RecoverWorkers(chainMayHaveChanged: bool, nonce: nat) returns (r: Reply<()>)
      requires Valid() && ended && lane && InOrder(attempts) && forall i | 0 <= i < |attempts| :: attempts[i].component.Network?
      requires alive
      modifies this`world, this`intents, this`saved, this`attempts, this`alive, this`failures
      ensures Valid() && lane == old(lane) && InOrder(attempts)
      ensures forall n, l | HeldAt(world, Network(n), l, job) :: HeldAt(old(world), Network(n), l, job)
      ensures r.Ok? ==> forall l :: !HeldAt(world, Spam, l, job) && !HeldAt(world, Mining, l, job)
      ensures calm && (chainMayHaveChanged ==> CanHold(old(world), job, nonce)) ==>
                && (r.Ok? <==> Unblocked(old(world), job, chainMayHaveChanged))
                && (!r.Ok? ==> !Unblocked(world, job, chainMayHaveChanged))
                && (OwnFree(old(world), Spam, job) ==> OwnFree(world, Spam, job))
                && (OwnFree(old(world), Mining, job) ==> OwnFree(world, Mining, job))
      ensures (alive <==> !r.Crash?) && failures >= old(failures) && (r.Ok? ==> failures == old(failures))
    {
      if chainMayHaveChanged {
        r := EnsureRecoveryLeases(nonce);
        if !r.Ok? { return; }
        r := Attempt();
        if !r.Ok? { return; }
      }
      r := RecoverWorkerLeases();
    }

    /** The recovery loop, with restarts in between. The lane is cleared only by a successful
        attempt. In a calm stretch the first attempt ends the loop, or none ever does. */
    method RecoveryLoop(rounds: nat, chainMayHaveChanged: bool)
      requires Valid() && ended && lane
      requires alive
      modifies this`world, this`intents, this`saved, this`attempts, this`lane, this`alive, this`failures
      ensures Valid() && ended
      ensures calm && OwnFree(old(world), Spam, job) && OwnFree(old(world), Mining, job) ==>
                (!lane <==> rounds > 0 && Unblocked(old(world), job, chainMayHaveChanged))
      ensures alive
    {
      for k := 0 to rounds
        invariant Valid() && ended && lane && alive
        invariant calm && OwnFree(old(world), Spam, job) && OwnFree(old(world), Mining, job) ==>
                    && OwnFree(world, Spam, job) && OwnFree(world, Mining, job)
                    && (if k == 0 then world == old(world)
                        else !Unblocked(old(world), job, chainMayHaveChanged) && !Unblocked(world, job, chainMayHaveChanged))
      {
        HasUnused(world, job);
        var nonce: nat :| Unused(world, Spam, job, nonce) && Unused(world, Mining, job, nonce);
        var r := RecoverJobResources(chainMayHaveChanged, nonce);
        if r.Ok? {
          lane := false;
          return;
        }
        if r.Crash? { Restart(); }
      }
    }

    /** The recovery of a job that just ended, if its lane is still taken. */
    method RecoverEnded(rounds: nat, chainMayHaveChanged: bool)
      requires Valid() && ended
      requires alive
      modifies this`world, this`intents, this`saved, this`attempts, this`lane, this`alive, this`failures
      ensures Valid() && ended
      ensures calm && Unrecovered(old(world), job) && BothFree(old(world), job) && rounds > 0 ==> !lane
      ensures alive
    {
      UnrecoveredIsUnblocked(world, job, chainMayHaveChanged);
      if lane { RecoveryLoop(rounds, chainMayHaveChanged); }
    }

    /** A whole job: it acquires and gives back leases in any order, may crash or panic at any
        point, ends through a cleanup or through recovery. Whenever its lane is free, nothing
        is held in its name anywhere. With no failing call the lane does become free, at the
        latest by the first recovery attempt, unless another owner uses the job's lease ids. */
    method RunJob(steps: nat, rounds: nat)
      requires Valid() && lane && !ended && alive && NoneHeld(world, job)
      modifies this
      ensures Valid() && (lane || NoneHeld(world, job))
      ensures old(calm) && BothFree(old(world), job) && rounds > 0 ==> !lane
    {
      var acquired: set<Intent> := {};
      for k := 0 to steps
        invariant Valid() && lane && !ended && calm == old(calm) && alive
        invariant Covered(world, job, acquired)
        invariant calm && BothFree(old(world), job) ==> BothFree(world, job)
      {
        var c: Component, l: LeaseId, release: bool, changed: bool, panics: bool := *, *, *, *, *;
        if panics {
          ended := true;
          RecoverEnded(rounds, changed);
          return;
        }
        if l.job == job && (c.Network? ==> usesNetwork) {
          ghost var before := world;
          var r;
          if release {
            r := ReleaseMidway(c, l, changed);
            LessKeeps(before, world, job, acquired);
          } else {
            r := AcquireLease(c, l, Acquiring(l, 0));
            if r.Err? {
              var failed := FinishFailedBeforeMutation(acquired);
              if failed.Crash? { Restart(); }
              RecoverEnded(rounds, changed);
              return;
            }
            acquired := acquired + {Intent(c, l)};
          }
          if r.Crash? {
            Restart();
            ended := true;
            RecoverEnded(rounds, changed);
            return;
          }
        }
      }
      var changed: bool, stopError: bool, recorded: bool := *, *, *;
      var r := Finish(if recorded then intents else acquired, stopError, changed);
      if r.Crash? { Restart(); }
      RecoverEnded(rounds, changed);
    }
  }

  lemma StillUnended(before: World, after: World, j: JobId, c: Component, id: RequestId)
    requires Unended(before, j) && LearnsOnly(before, after, j, c, id) && !id.Cleaning? && !id.Recovering?
    ensures Unended(after, j)
    ensures forall d, k | RemembersAt(after, d, k) && k.lease.job == j && (k.Cleaning? || k.Recovering?) :: RemembersAt(before, d, k)
  {
  }

  lemma WorkerReleaseLeavesAgents(before: World, after: World, j: JobId, c: Component, id: RequestId)
    requires !c.Network? && HeldLess(before, after, j) && LearnsOnly(before, after, j, c, id)
    requires forall d, k | HeldAt(before, d, k, j) :: k.job == j
    requires forall n :: Spent(before, j, Network(n))
    ensures forall n :: Spent(after, j, Network(n))
  {
    forall n ensures Spent(after, j, Network(n)) {
      assert Spent(before, j, Network(n));
    }
  }

  /** Only requests to agents were served. */
  ghost predicate OnlyAgentsLearn(before: World, after: World, j: JobId) {
    forall c: Component, k: RequestId | !c.Network? && RemembersAt(after, c, k) && k.lease.job == j :: RemembersAt(before, c, k)
  }

  /** Only requests to component `c0` were served. */
  ghost predicate LearnsAt(before: World, after: World, j: JobId, c0: Component) {
    forall c, k | c != c0 && RemembersAt(after, c, k) && k.lease.job == j :: RemembersAt(before, c, k)
  }

  lemma SpentAfterRelease(before: World, after: World, j: JobId, c: Component, id: RequestId, l: LeaseId)
    requires HeldLess(before, after, j) && LearnsOnly(before, after, j, c, id) && id.lease == l && l.job == j
    requires forall d, k | HeldAt(before, d, k, j) :: k.job == j
    requires !RemembersAt(before, c, id) && RemembersAt(after, c, id) ==> !HeldAt(after, c, l, j)
    ensures forall d | Spent(before, j, d) :: Spent(after, j, d)
  {
  }

  lemma LessKeepsAll(before: World, after: World, j: JobId, a: set<Intent>, b: set<Intent>)
    requires HeldLess(before, after, j) && Covered(before, j, a) && Covered(before, j, b)
    ensures Covered(after, j, a) && Covered(after, j, b) && (NoneHeld(before, j) ==> NoneHeld(after, j))
  {
  }

  /** Only requests to the two workers were served. */
  ghost predicate OnlyWorkersLearn(before: World, after: World, j: JobId) {
    forall n, k | RemembersAt(after, Network(n), k) && k.lease.job == j :: RemembersAt(before, Network(n), k)
  }

  lemma WorkerLeavesAgents(before: World, after: World, j: JobId)
    requires HeldLess(before, after, j) && OnlyWorkersLearn(before, after, j)
    requires forall d, k | HeldAt(before, d, k, j) :: k.job == j
    requires forall n :: Spent(before, j, Network(n))
    ensures forall n :: Spent(after, j, Network(n))
  {
    forall n ensures Spent(after, j, Network(n)) {
      assert Spent(before, j, Network(n));
    }
  }

  lemma OtherWorkerSpent(before: World, after: World, j: JobId, c: Component, d: Component)
    requires HeldLess(before, after, j) && LearnsAt(before, after, j, c) && Spent(before, j, d) && d != c && !d.Network?
    requires forall e, k | HeldAt(before, e, k, j) :: k.job == j
    ensures Spent(after, j, d)
  {
  }

  /** While only agents were asked to end leases, the workers' cleanup ids are still unused. */
  lemma WorkersUnended(before: World, after: World, j: JobId)
    requires HeldLess(before, after, j) && OnlyAgentsLearn(before, after, j) && Unended(before, j)
    requires forall e, k | HeldAt(before, e, k, j) :: k.job == j
    ensures Spent(after, j, Spam) && Spent(after, j, Mining)
  {
  }
}
