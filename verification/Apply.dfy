/** The desired-state transaction and its reconciler: two resident workers and one durable
    record (crates/control-plane/src/apply.rs, reconcile.rs and control_state.rs). A worker call
    may fail before or after taking effect, and the process may stop between any two calls. */
module Apply {
  import Disks
  import opened Options
  import opened Polls
  import opened Replies
  import opened Tuning

  const STABILIZE_POLLS: nat := 4

  datatype RunState = Running | Paused
  datatype Phase = Disabled | Error | Other

  datatype Worker<P(==)> = Worker(generation: nat, policy: P, desired: RunState, phase: Phase) {
    predicate Holds(g: nat, p: P) { generation == g && policy == p }

    /** The rule of a worker's policy endpoint: a restore always lands, a forward change must
        be newer, and repeating the effective policy is a no-op. */
    predicate Takes(g: nat, p: P, restore: bool) { restore || g > generation || Holds(g, p) }

    function With(g: nat, p: P): Worker<P> { this.(generation := g, policy := p) }
  }

  datatype ControlState = ControlState(generation: nat, desired: Settings, miningState: RunState, spamState: RunState)

  /** The record of an older release is migrated when it is loaded. */
  function Migrate(m: Settings): Settings {
    var renamed := if FallbackFee in m && SpamFee !in m then m[SpamFee := m[FallbackFee]] else m;
    renamed - {FallbackFee, UseRawTxSpam}
  }

  function Load(s: ControlState): ControlState { s.(desired := Migrate(s.desired)) }

  /** Migrating drops the two legacy keys, keeps the fee, touches nothing else, and is done
      after one load. */
  lemma MigratesOnce(m: Settings)
    ensures Migrate(Migrate(m)) == Migrate(m)
    ensures Migrate(m) == m <==> FallbackFee !in m && UseRawTxSpam !in m
    ensures forall k :: k in Migrate(m) ==> Migrate(m)[k] == if k in m then m[k] else m[FallbackFee]
    ensures forall k :: k in m && k != FallbackFee && k != UseRawTxSpam ==> k in Migrate(m)
    ensures FallbackFee in m ==> SpamFee in Migrate(m)
  {
    if Migrate(m) == m { assert FallbackFee !in Migrate(m) && UseRawTxSpam !in Migrate(m); }
  }

  function SuccessfulApply(previous: ControlState, desired: Settings): ControlState {
    previous.(generation := previous.generation + (if previous.desired != desired then 1 else 0), desired := desired)
  }

  // ---------------------------------------------------------------- the history of commits

  /** Each committed state is one successful apply after the one before it. */
  ghost predicate Linked(h: seq<ControlState>) {
    forall i | 0 <= i < |h| - 1 :: h[i + 1] == SuccessfulApply(h[i], h[i + 1].desired)
  }

  /** Across any history generations never fall, and equal generations mean that the map never
      changed in between. The run states stay what they are. */
  lemma {:induction false} GenerationNamesTheMap(h: seq<ControlState>, i: nat, j: nat)
    requires Linked(h) && i <= j < |h|
    ensures h[i].generation <= h[j].generation <= h[i].generation + (j - i)
    ensures h[i].generation == h[j].generation <==> forall k | i <= k <= j :: h[k].desired == h[i].desired
    ensures h[i].miningState == h[j].miningState && h[i].spamState == h[j].spamState
  {
    if i < j {
      GenerationNamesTheMap(h, i, j - 1);
      assert h[j - 1 + 1] == SuccessfulApply(h[j - 1], h[j].desired);
    }
  }

  ghost predicate Recorded(c: Codec, stored: ControlState, h: seq<ControlState>) {
    c.Full(Load(stored).desired).Some? && Linked(h) && h != [] && h[|h| - 1] == Load(stored)
  }

  /** Committing the next state of a printed tuning extends the record. */
  lemma CommitExtends(c: Codec, stored: ControlState, h: seq<ControlState>, t: LiveTuning)
    requires c.Lawful() && Recorded(c, stored, h)
    ensures var next := SuccessfulApply(Load(stored), c.canonical(t));
            Load(next) == next && Recorded(c, next, h + [next]) && c.Full(next.desired) == Some(t)
  {
    var next := SuccessfulApply(Load(stored), c.canonical(t));
    MigratesOnce(next.desired);
    assert Load(next) == next;
    var h' := h + [next];
    forall i | 0 <= i < |h'| - 1 ensures h'[i + 1] == SuccessfulApply(h'[i], h'[i + 1].desired) {
      if i < |h| - 1 { assert h'[i + 1] == h[i + 1]; }
    }
  }

  // ---------------------------------------------------------------- requests

  datatype Request = Request(settings: Settings, baseGeneration: Option<nat>)
  datatype Scope = MiningController | Spammer
  datatype Refusal =
    | ApplyInProgress | Preflight | StaleRevision | ValidationFailed | RpcUnavailable | ComponentUnavailable
    | RollbackFailed | Internal
  datatype Applied =
    | Report(changed: bool, components: seq<Scope>, generation: nat)
    | Refused(code: Refusal, runtimeRestored: Option<bool>)
    | Crashed

  predicate ValidPatch(c: Codec, s: Settings) { forall k | k in s :: c.accepts(k, s[k]) }

  function Trimmed(c: Codec, patch: Settings): Settings { map k | k in patch :: c.trim(patch[k]) }

  /** What a request asks for, setting by setting: its own trimmed value where it names the setting
      and the record's value where it does not. A blank value means the default, unless the
      setting may be blank. */
  ghost predicate AsAsked(c: Codec, m: Settings, current: Settings, patch: Settings) {
    && (forall k :: k in m <==> Managed(k))
    && (forall k | k in m && k in patch && c.trim(patch[k]) != "" :: m[k] == c.trim(patch[k]))
    && (forall k | k in m && k in patch && c.trim(patch[k]) == "" :: m[k] == if IsOptional(k) then "" else Default(k))
    && (forall k | k in m && k !in patch && k in current && c.trim(current[k]) != "" :: m[k] == current[k])
    && (forall k | k in m && k !in patch && (k !in current || c.trim(current[k]) == "") ::
          m[k] == if k in current && IsOptional(k) then "" else Default(k))
  }

  /** Merging the trimmed request over the record gives exactly what is asked for. */
  lemma MergedIsAsked(c: Codec, current: Settings, patch: Settings)
    requires c.Lawful()
    ensures AsAsked(c, Staged(c, current + Trimmed(c, patch)), current, patch)
    ensures forall m | AsAsked(c, m, current, patch) :: m == Staged(c, current + Trimmed(c, patch))
  {
    var merged := Staged(c, current + Trimmed(c, patch));
    assert AsAsked(c, merged, current, patch);
    forall m | AsAsked(c, m, current, patch) ensures m == merged {
      forall k | Managed(k) ensures m[k] == merged[k] { }
    }
  }

  /** What a request asks for parses to this tuning. */
  ghost predicate AsksFor(c: Codec, current: Settings, patch: Settings, t: LiveTuning) {
    exists m :: AsAsked(c, m, current, patch) && ParseMerged(c, m) == Tuned(t)
  }

  /** A request asks for one tuning at most. */
  lemma AsksForOne(c: Codec, current: Settings, patch: Settings, t: LiveTuning, u: LiveTuning)
    requires c.Lawful() && AsksFor(c, current, patch, t) && AsksFor(c, current, patch, u)
    ensures t == u
  {
    MergedIsAsked(c, current, patch);
  }

  /** How far below a node's minimum a requested fee may be. */
  const FEE_SLACK := 0.000000000001

  /** Everything a request is checked for before a worker is asked anything. */
  ghost predicate Acceptable(c: Codec, before: ControlState, request: Request, minimumFee: real, t: LiveTuning) {
    && (request.baseGeneration.Some? ==> request.baseGeneration.value == before.generation)
    && (forall k | k in request.settings :: c.accepts(k, request.settings[k]))
    && AsksFor(c, before.desired, request.settings, t)
    && (SpamFee in request.settings ==> t.spam.fee + FEE_SLACK >= minimumFee)
  }

  function ScopesNeedingApply(mining: Worker<MiningTuning>, spam: Worker<SpamTuning>, t: LiveTuning, g: nat): seq<Scope> {
    (if mining.Holds(g, t.mining) then [] else [MiningController]) + (if spam.Holds(g, t.spam) then [] else [Spammer])
  }

  /** Every worker that is to be touched accepts the new policy. */
  predicate AllTake(scopes: seq<Scope>, mining: Worker<MiningTuning>, spam: Worker<SpamTuning>, t: LiveTuning, g: nat) {
    && (MiningController in scopes ==> mining.Takes(g, t.mining, false))
    && (Spammer in scopes ==> spam.Takes(g, t.spam, false))
  }

  /** The input: the process died between a policy call and its save, so the worker's generation is
      one ahead of the record. It refuses the next apply of any other policy, and takes it again
      once the reconciler has restored what the record says. */
  lemma CrashedApplyBlocks<P>(w: Worker<P>, g: nat, kept: P, lost: P, wanted: P)
    requires w.Holds(g, kept) && wanted != lost
    ensures w.Takes(g + 1, lost, false) && !w.With(g + 1, lost).Takes(g + 1, wanted, false)
    ensures var ahead := w.With(g + 1, lost); ahead.Takes(g, kept, true) && ahead.With(g, kept).Takes(g + 1, wanted, false)
  {
  }

  // ---------------------------------------------------------------- workers and durable record

  class Fleet {
    const codec: Codec
    var mining: Worker<MiningTuning>
    var spam: Worker<SpamTuning>
    var stored: ControlState
    ghost var history: seq<ControlState>   // every loadable state committed so far
    ghost var commands: nat                // state-changing worker calls issued so far
    var budget: nat                        // calls that may still fail
    var glitches: seq<bool>                   // which of the coming reads fail while the budget lasts
    ghost var alive: bool                  // the process has not died; a dead one makes no call
    const steady: bool                     // workers are always seen in the phase their policy asks for
    const minimumFee: real                 // the highest fee minimum of the running nodes

    constructor (codec: Codec, mining: Worker<MiningTuning>, spam: Worker<SpamTuning>, stored: ControlState, budget: nat,
                 glitches: seq<bool>, steady: bool, minimumFee: real)
      requires codec.Lawful() && codec.Full(Load(stored).desired).Some?
      ensures Valid() && this.codec == codec && this.stored == stored && history == [Load(stored)]
      ensures this.steady == steady && this.minimumFee == minimumFee && this.glitches == glitches && alive
    {
      this.glitches, alive := glitches, true;
      this.steady, this.minimumFee := steady, minimumFee;
      this.codec, this.mining, this.spam, this.stored, this.budget := codec, mining, spam, stored, budget;
      history, commands := [Load(stored)], 0;
    }

    /** The durable map always parses, and the history ends in it. */
    ghost predicate Valid()
      reads this
    {
      codec.Lawful() && Recorded(codec, stored, history)
    }

    ghost function Durable(): LiveTuning
      reads this
      requires Valid()
    {
      codec.Full(Load(stored).desired).value
    }

    /** Both workers hold the policy of the durable record, at its generation. */
    ghost predicate InForce()
      reads this
      requires Valid()
    {
      mining.Holds(stored.generation, Durable().mining) && spam.Holds(stored.generation, Durable().spam)
    }

    ghost predicate Synced()
      reads this
      requires Valid()
    {
      InForce() && mining.desired == stored.miningState && spam.desired == stored.spamState
    }

    method Fault() returns (fault: bool, crash: bool)
      requires alive
      modifies this`budget, this`alive
      ensures !fault ==> !crash && budget == old(budget)
      ensures fault ==> budget < old(budget)
      ensures alive <==> !crash
    {
      fault, crash := *, *;
      if budget == 0 || !fault { return false, false; }
      budget, alive := budget - 1, !crash;
    }

    /** The fault of a read, as scheduled. */
    method ReadFault() returns (fault: bool, crash: bool)
      requires alive
      modifies this`budget, this`glitches, this`alive
      ensures fault <==> Asks(old(glitches), 0) && old(budget) > 0
      ensures budget == if fault then old(budget) - 1 else old(budget)
      ensures glitches == Disks.After(old(glitches), 1) && (crash ==> fault) && (alive <==> !crash)
    {
      fault, crash := Asks(glitches, 0) && budget > 0, *;
      crash := crash && fault;
      glitches := Disks.After(glitches, 1);
      if fault { budget, alive := budget - 1, !crash; }
    }

    /** The process starts again. */
    method Restart()
      modifies this`alive
      ensures alive
    {
      alive := true;
    }

    /** A read. The phase is whatever the worker is in by now. */
    method MiningStatus() returns (r: Reply<Worker<MiningTuning>>)
      requires alive
      modifies this`mining, this`budget, this`glitches, this`alive
      ensures mining == old(mining).(phase := mining.phase)
      ensures r.Ok? ==> r.value == mining && budget == old(budget)
      ensures !r.Ok? ==> budget < old(budget)
      ensures steady ==> mining.phase != Error
      ensures r.Ok? <==> !(Asks(old(glitches), 0) && old(budget) > 0)
      ensures glitches == Disks.After(old(glitches), 1) && (alive <==> !r.Crash?)
    {
      var fault, crash := ReadFault();
      var phase: Phase := *;
      if steady && phase == Error { phase := Other; }
      mining := mining.(phase := phase);
      return if !fault then Ok(mining) else if crash then Crash else Err;
    }

    method SpamStatus() returns (r: Reply<Worker<SpamTuning>>)
      requires alive
      modifies this`spam, this`budget, this`glitches, this`alive
      ensures spam == old(spam).(phase := spam.phase)
      ensures r.Ok? ==> r.value == spam && budget == old(budget)
      ensures !r.Ok? ==> budget < old(budget)
      ensures steady ==> spam.phase == if spam.policy.enabled then Other else Disabled
      ensures r.Ok? <==> !(Asks(old(glitches), 0) && old(budget) > 0)
      ensures glitches == Disks.After(old(glitches), 1) && (alive <==> !r.Crash?)
    {
      var fault, crash := ReadFault();
      var phase: Phase := *;
      if steady { phase := if spam.policy.enabled then Other else Disabled; }
      spam := spam.(phase := phase);
      return if !fault then Ok(spam) else if crash then Crash else Err;
    }

    method SetMiningPolicy(g: nat, p: MiningTuning, restore: bool) returns (r: Reply<()>)
      requires alive
      modifies this`mining, this`budget, this`alive, this`commands
      ensures commands == old(commands) + 1
      ensures mining == old(mining) || (old(mining).Takes(g, p, restore) && mining == old(mining).With(g, p))
      ensures r.Ok? ==> mining == old(mining).With(g, p) && old(mining).Takes(g, p, restore) && budget == old(budget)
      ensures !r.Ok? && old(mining).Takes(g, p, restore) ==> budget < old(budget)
      ensures budget <= old(budget) && (r.Crash? ==> budget < old(budget))
      ensures alive <==> !r.Crash?
    {
      commands := commands + 1;
      var fault, crash := Fault();
      var effect: bool := *;
      var takes := mining.Takes(g, p, restore);
      if takes && (!fault || effect) { mining := mining.With(g, p); }
      return if crash then Crash else if fault || !takes then Err else Ok(());
    }

    method SetSpamPolicy(g: nat, p: SpamTuning, restore: bool) returns (r: Reply<()>)
      requires alive
      modifies this`spam, this`budget, this`alive, this`commands
      ensures commands == old(commands) + 1
      ensures spam == old(spam) || (old(spam).Takes(g, p, restore) && spam == old(spam).With(g, p))
      ensures r.Ok? ==> spam == old(spam).With(g, p) && old(spam).Takes(g, p, restore) && budget == old(budget)
      ensures !r.Ok? && old(spam).Takes(g, p, restore) ==> budget < old(budget)
      ensures budget <= old(budget) && (r.Crash? ==> budget < old(budget))
      ensures alive <==> !r.Crash?
    {
      commands := commands + 1;
      var fault, crash := Fault();
      var effect: bool := *;
      var takes := spam.Takes(g, p, restore);
      if takes && (!fault || effect) { spam := spam.With(g, p); }
      return if crash then Crash else if fault || !takes then Err else Ok(());
    }

    method SetState(scope: Scope, s: RunState) returns (r: Reply<()>)
      requires alive
      modifies this`mining, this`spam, this`budget, this`alive, this`commands
      ensures commands == old(commands) + 1
      ensures mining == old(mining) || (scope.MiningController? && mining == old(mining).(desired := s))
      ensures spam == old(spam) || (scope.Spammer? && spam == old(spam).(desired := s))
      ensures r.Ok? ==> budget == old(budget) && (if scope.MiningController? then mining.desired == s else spam.desired == s)
      ensures !r.Ok? ==> budget < old(budget)
      ensures alive <==> !r.Crash?
    {
      commands := commands + 1;
      var fault, crash := Fault();
      var effect: bool := *;
      if !fault || effect {
        match scope
        case MiningController => mining := mining.(desired := s);
        case Spammer => spam := spam.(desired := s);
      }
      return if !fault then Ok(()) else if crash then Crash else Err;
    }

    /** The save commits at its rename: an error means nothing was written. */
    method Save(next: ControlState) returns (r: Reply<()>)
      requires alive
      modifies this`stored, this`history, this`budget, this`alive
      ensures r.Ok? ==> stored == next && history == old(history) + [next] && budget == old(budget)
      ensures r.Err? ==> stored == old(stored) && history == old(history)
      ensures r.Crash? ==> (stored == old(stored) && history == old(history)) || (stored == next && history == old(history) + [next])
      ensures !r.Ok? ==> budget < old(budget)
      ensures alive <==> !r.Crash?
    {
      var fault, crash := Fault();
      var effect: bool := *;
      if !fault || (crash && effect) {
        stored, history := next, history + [next];
      }
      return if !fault then Ok(()) else if crash then Crash else Err;
    }

    method Reads() returns (r: Reply<()>)
      requires alive
      modifies this`budget, this`glitches, this`alive
      ensures r.Ok? ==> budget == old(budget)
      ensures !r.Ok? ==> budget < old(budget)
      ensures r.Ok? <==> !(Asks(old(glitches), 0) && old(budget) > 0)
      ensures glitches == Disks.After(old(glitches), 1) && (alive <==> !r.Crash?)
    {
      var fault, crash := ReadFault();
      return if !fault then Ok(()) else if crash then Crash else Err;
    }
  }

  // ---------------------------------------------------------------- verification and rollback

  /** How many reads a poll of the touched workers makes. */
  function PerPoll(scopes: seq<Scope>): nat {
    (if MiningController in scopes then 1 else 0) + if Spammer in scopes then 1 else 0
  }

  /** Reads made by the first polls. */
  function Times(polls: nat, n: nat): nat {
    if polls == 0 then 0 else if polls == 1 then n else if polls == 2 then 2 * n else if polls == 3 then 3 * n else 4 * n
  }

  predicate MiningVerified(w: Worker<MiningTuning>, t: LiveTuning, g: nat) {
    w.phase != Error && w.Holds(g, t.mining)
  }

  predicate SpamVerified(w: Worker<SpamTuning>, t: LiveTuning, g: nat) {
    w.phase != Error && w.Holds(g, t.spam) && (!t.spam.enabled ==> w.phase == Disabled)
  }

  class Transaction {
    const fleet: Fleet

    constructor (fleet: Fleet)
      ensures this.fleet == fleet
    {
      this.fleet := fleet;
    }

    /** Poll the touched workers; only the last of the four polls decides, and a look at node1 if
        it answered before: reads that failed earlier do not matter. */
    method VerifyRuntime(t: LiveTuning, g: nat, scopes: seq<Scope>, node1Before: bool) returns (r: Reply<()>)
      requires fleet.alive
      modifies fleet`mining, fleet`spam, fleet`budget, fleet`glitches, fleet`alive
      ensures fleet.mining == old(fleet.mining).(phase := fleet.mining.phase)
      ensures fleet.spam == old(fleet.spam).(phase := fleet.spam.phase)
      ensures r.Ok? && MiningController in scopes ==> MiningVerified(fleet.mining, t, g)
      ensures r.Ok? && Spammer in scopes ==> SpamVerified(fleet.spam, t, g)
      ensures fleet.budget <= old(fleet.budget) && (r.Crash? ==> fleet.budget < old(fleet.budget))
      ensures (&& fleet.steady && (MiningController in scopes ==> old(fleet.mining).Holds(g, t.mining))
               && (Spammer in scopes ==> old(fleet.spam).Holds(g, t.spam)) && fleet.budget == old(fleet.budget)) ==> r.Ok?
      ensures var decisive := NoneAsks(Disks.After(old(fleet.glitches), 3 * PerPoll(scopes)),
                                       PerPoll(scopes) + if node1Before then 1 else 0);
        && (r.Ok? ==> fleet.budget == 0 || decisive)
        && ((&& fleet.steady && (MiningController in scopes ==> old(fleet.mining).Holds(g, t.mining))
             && (Spammer in scopes ==> old(fleet.spam).Holds(g, t.spam)) && decisive) ==> r.Ok? || r.Crash?)
      ensures fleet.alive <==> !r.Crash?
    {
      var ok := true;
      ghost var n, made, since := PerPoll(scopes), 0, 0;
      ghost var holds := && fleet.steady && (MiningController in scopes ==> fleet.mining.Holds(g, t.mining))
                         && (Spammer in scopes ==> fleet.spam.Holds(g, t.spam));
      for poll := 0 to STABILIZE_POLLS
        invariant fleet.alive && fleet.mining == old(fleet.mining).(phase := fleet.mining.phase)
        invariant fleet.spam == old(fleet.spam).(phase := fleet.spam.phase)
        invariant fleet.budget <= old(fleet.budget)
        invariant poll > 0 && ok && MiningController in scopes ==> MiningVerified(fleet.mining, t, g)
        invariant poll > 0 && ok && Spammer in scopes ==> SpamVerified(fleet.spam, t, g)
        invariant holds && fleet.budget == old(fleet.budget) ==> ok
        invariant made == Times(poll, n) && (poll > 0 ==> since == Times(poll - 1, n))
        invariant fleet.glitches == Disks.After(old(fleet.glitches), made)
        invariant poll > 0 && ok ==> fleet.budget == 0 || NoneAsks(Disks.After(old(fleet.glitches), since), n)
        invariant poll > 0 && holds && NoneAsks(Disks.After(old(fleet.glitches), since), n) ==> ok
      {
        NoneAsksJoined(old(fleet.glitches), made, n);
        since, made := made, made + n;
        var seen := PollVerified(t, g, scopes);
        if seen.Crash? { return Crash; }
        ok := seen.value;
      }
      NoneAsksJoined(old(fleet.glitches), since, n);
      NoneAsksMore(Disks.After(old(fleet.glitches), since), n);
      if !ok { return Err; }
      if node1Before {
        r := fleet.Reads();
      } else {
        r := Ok(());
      }
    }

    /** One look at every touched worker. */
    method PollVerified(t: LiveTuning, g: nat, scopes: seq<Scope>) returns (r: Reply<bool>)
      requires fleet.alive
      modifies fleet`mining, fleet`spam, fleet`budget, fleet`glitches, fleet`alive
      ensures fleet.mining == old(fleet.mining).(phase := fleet.mining.phase)
      ensures fleet.spam == old(fleet.spam).(phase := fleet.spam.phase)
      ensures r == Ok(true) && MiningController in scopes ==> MiningVerified(fleet.mining, t, g)
      ensures r == Ok(true) && Spammer in scopes ==> SpamVerified(fleet.spam, t, g)
      ensures !r.Err? && fleet.budget <= old(fleet.budget) && (r.Crash? ==> fleet.budget < old(fleet.budget))
      ensures !r.Crash? ==> fleet.glitches == Disks.After(old(fleet.glitches), PerPoll(scopes))
      ensures r == Ok(true) ==> fleet.budget == 0 || NoneAsks(old(fleet.glitches), PerPoll(scopes))
      ensures (&& fleet.steady && (MiningController in scopes ==> old(fleet.mining).Holds(g, t.mining))
               && (Spammer in scopes ==> old(fleet.spam).Holds(g, t.spam))
               && (NoneAsks(old(fleet.glitches), PerPoll(scopes)) || fleet.budget == old(fleet.budget))) ==> r == Ok(true)
      ensures fleet.alive <==> !r.Crash?
    {
      NoneAsksMore(fleet.glitches, 0);
      NoneAsksMore(fleet.glitches, 1);
      var ok := true;
      if MiningController in scopes {
        var status := fleet.MiningStatus();
        if status.Crash? { return Crash; }
        ok := status.Ok? && MiningVerified(status.value, t, g);
      }
      if Spammer in scopes {
        var status := fleet.SpamStatus();
        if status.Crash? { return Crash; }
        ok := ok && status.Ok? && SpamVerified(status.value, t, g);
      }
      return Ok(ok);
    }

    /** Push the earlier policies back and read them back. A worker that could not be restored
        costs at least one more failed call. */
    method RollbackRuntime(scopes: seq<Scope>, mining: Worker<MiningTuning>, spam: Worker<SpamTuning>) returns (r: Reply<bool>)
      requires fleet.alive
      modifies fleet`mining, fleet`spam, fleet`budget, fleet`glitches, fleet`alive, fleet`commands
      ensures MiningController !in scopes ==> fleet.mining == old(fleet.mining)
      ensures Spammer !in scopes ==> fleet.spam == old(fleet.spam)
      ensures r == Ok(true) && MiningController in scopes ==> fleet.mining.Holds(mining.generation, mining.policy)
      ensures r == Ok(true) && Spammer in scopes ==> fleet.spam.Holds(spam.generation, spam.policy)
      ensures fleet.budget <= old(fleet.budget) && (r != Ok(true) ==> fleet.budget < old(fleet.budget))
      ensures !r.Err?
      ensures fleet.alive <==> !r.Crash?
    {
      var restored := true;
      if MiningController in scopes {
        var called := fleet.SetMiningPolicy(mining.generation, mining.policy, true);
        if called.Crash? { return Crash; }
        restored := called.Ok?;
      }
      if Spammer in scopes {
        var called := fleet.SetSpamPolicy(spam.generation, spam.policy, true);
        if called.Crash? { return Crash; }
        restored := restored && called.Ok?;
      }
      var converged := ReadBack(scopes, mining, spam);
      if converged.Crash? { return Crash; }
      return Ok(restored && converged.value);
    }

    /** Whether the restored workers read back their earlier policies; the last of four polls decides. */
    method ReadBack(scopes: seq<Scope>, mining: Worker<MiningTuning>, spam: Worker<SpamTuning>) returns (r: Reply<bool>)
      requires fleet.alive
      modifies fleet`mining, fleet`spam, fleet`budget, fleet`glitches, fleet`alive
      ensures MiningController !in scopes ==> fleet.mining == old(fleet.mining)
      ensures Spammer !in scopes ==> fleet.spam == old(fleet.spam)
      ensures fleet.mining == old(fleet.mining).(phase := fleet.mining.phase)
      ensures fleet.spam == old(fleet.spam).(phase := fleet.spam.phase)
      ensures !r.Err? && fleet.budget <= old(fleet.budget)
      ensures r.Crash? || (r == Ok(false) && Back(scopes, mining, spam)) ==> fleet.budget < old(fleet.budget)
      ensures var decisive := NoneAsks(Disks.After(old(fleet.glitches), 3 * PerPoll(scopes)), PerPoll(scopes));
        && (r == Ok(true) ==> Back(scopes, mining, spam) && (fleet.budget == 0 || decisive))
        && (Back(scopes, mining, spam) && decisive ==> r == Ok(true) || r.Crash?)
      ensures fleet.alive <==> !r.Crash?
    {
      var converged := true;
      ghost var n, made, since := PerPoll(scopes), 0, 0;
      for poll := 0 to STABILIZE_POLLS
        invariant fleet.alive && fleet.budget <= old(fleet.budget)
        invariant MiningController !in scopes ==> fleet.mining == old(fleet.mining)
        invariant Spammer !in scopes ==> fleet.spam == old(fleet.spam)
        invariant fleet.mining == old(fleet.mining).(phase := fleet.mining.phase)
        invariant fleet.spam == old(fleet.spam).(phase := fleet.spam.phase)
        invariant !converged && Back(scopes, mining, spam) ==> fleet.budget < old(fleet.budget)
        invariant made == Times(poll, n) && (poll > 0 ==> since == Times(poll - 1, n))
        invariant fleet.glitches == Disks.After(old(fleet.glitches), made)
        invariant poll > 0 && converged ==>
                    Back(scopes, mining, spam) && (fleet.budget == 0 || NoneAsks(Disks.After(old(fleet.glitches), since), n))
        invariant poll > 0 && Back(scopes, mining, spam) && NoneAsks(Disks.After(old(fleet.glitches), since), n) ==> converged
      {
        NoneAsksJoined(old(fleet.glitches), made, n);
        since, made := made, made + n;
        var seen := PollRestored(scopes, mining, spam);
        if seen.Crash? { return Crash; }
        converged := seen.value;
      }
      return Ok(converged);
    }

    method PollRestored(scopes: seq<Scope>, mining: Worker<MiningTuning>, spam: Worker<SpamTuning>) returns (r: Reply<bool>)
      requires fleet.alive
      modifies fleet`mining, fleet`spam, fleet`budget, fleet`glitches, fleet`alive
      ensures MiningController !in scopes ==> fleet.mining == old(fleet.mining)
      ensures Spammer !in scopes ==> fleet.spam == old(fleet.spam)
      ensures fleet.mining == old(fleet.mining).(phase := fleet.mining.phase)
      ensures fleet.spam == old(fleet.spam).(phase := fleet.spam.phase)
      ensures !r.Err? && fleet.budget <= old(fleet.budget) && (r.Crash? ==> fleet.budget < old(fleet.budget))
      ensures !r.Crash? ==> fleet.glitches == Disks.After(old(fleet.glitches), PerPoll(scopes))
      ensures r == Ok(true) ==> Back(scopes, mining, spam) && (fleet.budget == 0 || NoneAsks(old(fleet.glitches), PerPoll(scopes)))
      ensures (Back(scopes, mining, spam) && (NoneAsks(old(fleet.glitches), PerPoll(scopes)) || fleet.budget == old(fleet.budget))) ==>
                r == Ok(true)
      ensures fleet.alive <==> !r.Crash?
    {
      NoneAsksMore(fleet.glitches, 0);
      NoneAsksMore(fleet.glitches, 1);
      var converged := true;
      if MiningController in scopes {
        var status := fleet.MiningStatus();
        if status.Crash? { return Crash; }
        converged := status.Ok? && status.value.Holds(mining.generation, mining.policy);
      }
      if Spammer in scopes {
        var status := fleet.SpamStatus();
        if status.Crash? { return Crash; }
        converged := converged && status.Ok? && status.value.Holds(spam.generation, spam.policy);
      }
      return Ok(converged);
    }

    /** The touched workers hold their earlier policies. */
    predicate Back(scopes: seq<Scope>, mining: Worker<MiningTuning>, spam: Worker<SpamTuning>)
      reads fleet
    {
      && (MiningController in scopes ==> fleet.mining.Holds(mining.generation, mining.policy))
      && (Spammer in scopes ==> fleet.spam.Holds(spam.generation, spam.policy))
    }

    /** Undo and report: the code depends on whether the runtime is known to be back. */
    method Abandon(code: Refusal, scopes: seq<Scope>, mining: Worker<MiningTuning>, spam: Worker<SpamTuning>) returns (r: Applied)
      requires MiningController in scopes || fleet.mining.Holds(mining.generation, mining.policy)
      requires Spammer in scopes || fleet.spam.Holds(spam.generation, spam.policy)
      requires fleet.alive
      modifies fleet`mining, fleet`spam, fleet`budget, fleet`glitches, fleet`alive, fleet`commands
      ensures fleet.budget <= old(fleet.budget)
      ensures r.Crashed? ==> fleet.budget < old(fleet.budget)
      ensures !r.Report?
      ensures r.Refused? ==>
                || (r.runtimeRestored == Some(true) && r.code == code)
                || (r.runtimeRestored == Some(false) && r.code == RollbackFailed)
      ensures r.Refused? && r.runtimeRestored != Some(false) ==>
                fleet.mining.Holds(mining.generation, mining.policy) && fleet.spam.Holds(spam.generation, spam.policy)
      ensures r.Refused? && r.code == RollbackFailed && code != RollbackFailed ==> fleet.budget < old(fleet.budget)
      ensures fleet.alive <==> !r.Crashed?
    {
      var restored := RollbackRuntime(scopes, mining, spam);
      if restored.Crash? { return Crashed; }
      return Refused(if restored.value then code else RollbackFailed, Some(restored.value));
    }

    /** Push the requested policy to every drifted worker, stopping at the first refusal. */
    method PushPolicies(t: LiveTuning, g: nat, scopes: seq<Scope>) returns (r: Reply<()>, attempted: seq<Scope>)
      requires forall i, j | 0 <= i < j < |scopes| :: scopes[i] != scopes[j]
      requires fleet.alive
      modifies fleet`mining, fleet`spam, fleet`budget, fleet`glitches, fleet`alive, fleet`commands
      ensures attempted <= scopes && (r.Ok? ==> attempted == scopes)
      ensures MiningController !in attempted ==> fleet.mining == old(fleet.mining)
      ensures Spammer !in attempted ==> fleet.spam == old(fleet.spam)
      ensures r.Ok? && MiningController in scopes ==> old(fleet.mining).Takes(g, t.mining, false)
      ensures r.Ok? && Spammer in scopes ==> old(fleet.spam).Takes(g, t.spam, false)
      ensures r.Ok? && MiningController in scopes ==> fleet.mining.Holds(g, t.mining)
      ensures r.Ok? && Spammer in scopes ==> fleet.spam.Holds(g, t.spam)
      ensures !r.Ok? && fleet.budget == old(fleet.budget) ==> !AllTake(scopes, old(fleet.mining), old(fleet.spam), t, g)
      ensures scopes == [] ==> r == Ok(()) && fleet.commands == old(fleet.commands)
      ensures fleet.budget <= old(fleet.budget) && (r.Crash? ==> fleet.budget < old(fleet.budget))
      ensures fleet.alive <==> !r.Crash?
    {
      attempted := [];
      for i := 0 to |scopes|
        invariant attempted == scopes[..i]
        invariant MiningController !in attempted ==> fleet.mining == old(fleet.mining)
        invariant Spammer !in attempted ==> fleet.spam == old(fleet.spam)
        invariant MiningController in attempted ==> old(fleet.mining).Takes(g, t.mining, false)
        invariant Spammer in attempted ==> old(fleet.spam).Takes(g, t.spam, false)
        invariant MiningController in attempted ==> fleet.mining.Holds(g, t.mining)
        invariant Spammer in attempted ==> fleet.spam.Holds(g, t.spam)
        invariant fleet.alive && (i == 0 ==> fleet.commands == old(fleet.commands))
        invariant fleet.budget <= old(fleet.budget)
      {
        attempted := attempted + [scopes[i]];
        match scopes[i] {
          case MiningController => r := fleet.SetMiningPolicy(g, t.mining, false);
          case Spammer => r := fleet.SetSpamPolicy(g, t.spam, false);
        }
        if !r.Ok? { return; }
      }
      r := Ok(());
    }

    /** Everything before the first worker command: locks, reload, validation, snapshot. */
    method Propose(request: Request, locked: bool, preflight: bool) returns (r: Proposal)
      requires fleet.codec.Lawful()
      requires fleet.alive
      modifies fleet`mining, fleet`spam, fleet`budget, fleet`glitches, fleet`alive
      ensures fleet.mining == old(fleet.mining).(phase := fleet.mining.phase)
      ensures fleet.spam == old(fleet.spam).(phase := fleet.spam.phase)
      ensures fleet.budget <= old(fleet.budget)
      ensures r.Stop? ==> !r.outcome.Report?
      ensures r.Stop? && r.outcome.Refused? ==> r.outcome.runtimeRestored == None && r.outcome.code != RollbackFailed
      ensures r.Stop? && r.outcome.Crashed? ==> fleet.budget < old(fleet.budget)
      ensures r.Go? ==>
                && !locked && preflight && fleet.budget == old(fleet.budget)
                && Acceptable(fleet.codec, Load(fleet.stored), request, fleet.minimumFee, r.tuning)
                && r.mining.Holds(fleet.mining.generation, fleet.mining.policy)
                && r.spam.Holds(fleet.spam.generation, fleet.spam.policy)
      ensures r.Stop? && fleet.budget == old(fleet.budget) ==>
                || locked || !preflight
                || !exists t :: Acceptable(fleet.codec, Load(fleet.stored), request, fleet.minimumFee, t)
      ensures fleet.alive <==> !(r.Stop? && r.outcome.Crashed?)
    {
      if locked { return Stop(Refused(ApplyInProgress, None)); }
      if !preflight { return Stop(Refused(Preflight, None)); }
      var stopped, tuning := Validate(request);
      if stopped.Some? { return Stop(stopped.value); }
      var mining := fleet.MiningStatus();
      if !mining.Ok? { return Stop(if mining.Crash? then Crashed else Refused(ComponentUnavailable, None)); }
      var spam := fleet.SpamStatus();
      if !spam.Ok? { return Stop(if spam.Crash? then Crashed else Refused(ComponentUnavailable, None)); }
      return Go(tuning.value, mining.value, spam.value);
    }

    /** Reload the record and validate the request against it. */
    method Validate(request: Request) returns (stopped: Option<Applied>, tuning: Option<LiveTuning>)
      requires fleet.codec.Lawful()
      requires fleet.alive
      modifies fleet`budget, fleet`glitches, fleet`alive
      ensures fleet.budget <= old(fleet.budget)
      ensures stopped.Some? ==>
                && !stopped.value.Report?
                && (stopped.value.Refused? ==> stopped.value.runtimeRestored == None && stopped.value.code != RollbackFailed)
                && (stopped.value.Crashed? ==> fleet.budget < old(fleet.budget))
      ensures stopped.None? ==>
                && tuning.Some? && fleet.budget == old(fleet.budget)
                && Acceptable(fleet.codec, Load(fleet.stored), request, fleet.minimumFee, tuning.value)
      ensures stopped.Some? && fleet.budget == old(fleet.budget) ==>
                && stopped.value.Refused?
                && (stopped.value.code == StaleRevision <==> !InTimeFor(request, Load(fleet.stored).generation))
                && (stopped.value.code != StaleRevision ==> stopped.value.code == ValidationFailed)
                && !exists t :: Acceptable(fleet.codec, Load(fleet.stored), request, fleet.minimumFee, t)
      ensures fleet.alive <==> !(stopped.Some? && stopped.value.Crashed?)
    {
      var c := fleet.codec;
      var loaded := fleet.Reads();
      if !loaded.Ok? { return Some(if loaded.Crash? then Crashed else Refused(Internal, None)), None; }
      var before := Load(fleet.stored);
      if !InTimeFor(request, before.generation) { return Some(Refused(StaleRevision, None)), None; }
      if !ValidPatch(c, request.settings) { return Some(Refused(ValidationFailed, None)), None; }
      var merged := Staged(c, before.desired + Trimmed(c, request.settings));
      MergedIsAsked(c, before.desired, request.settings);
      var parsed, _ := ParseMergedTuning(c, merged);
      if parsed.Invalid? { return Some(Refused(ValidationFailed, None)), None; }
      if SpamFee in request.settings {
        var minimum := fleet.Reads();
        if !minimum.Ok? { return Some(if minimum.Crash? then Crashed else Refused(RpcUnavailable, None)), None; }
        if parsed.tuning.spam.fee + FEE_SLACK < fleet.minimumFee { return Some(Refused(ValidationFailed, None)), None; }
      }
      return None, Some(parsed.tuning);
    }

    /** Everything from the first worker command on. */
    method Land(t: LiveTuning, next: ControlState, scopes: seq<Scope>,
                mining: Worker<MiningTuning>, spam: Worker<SpamTuning>)
      returns (r: Applied)
      requires mining.Holds(fleet.mining.generation, fleet.mining.policy) && spam.Holds(fleet.spam.generation, fleet.spam.policy)
      requires scopes == ScopesNeedingApply(mining, spam, t, next.generation)
      requires fleet.alive
      modifies fleet`mining, fleet`spam, fleet`stored, fleet`history, fleet`budget, fleet`glitches, fleet`alive, fleet`commands
      ensures fleet.history == old(fleet.history) ==> fleet.stored == old(fleet.stored)
      ensures fleet.history != old(fleet.history) ==>
                && fleet.stored == next && fleet.history == old(fleet.history) + [next]
                && fleet.mining.Holds(next.generation, t.mining) && fleet.spam.Holds(next.generation, t.spam)
                && (MiningController in scopes ==> MiningVerified(fleet.mining, t, next.generation))
                && (Spammer in scopes ==> SpamVerified(fleet.spam, t, next.generation))
      ensures r.Refused? ==> fleet.history == old(fleet.history) && r.runtimeRestored.Some?
      ensures r.Refused? && r.runtimeRestored != Some(false) ==>
                fleet.mining.Holds(mining.generation, mining.policy) && fleet.spam.Holds(spam.generation, spam.policy)
      ensures r.Refused? && r.code == RollbackFailed ==> fleet.budget < old(fleet.budget)
      ensures r.Report? ==>
                r.changed && r.components == scopes && r.generation == next.generation && fleet.history != old(fleet.history)
      ensures r.Report? && MiningController in scopes ==> old(fleet.mining).Takes(next.generation, t.mining, false)
      ensures r.Report? && Spammer in scopes ==> old(fleet.spam).Takes(next.generation, t.spam, false)
      ensures r.Crashed? ==> fleet.budget < old(fleet.budget)
      ensures fleet.budget <= old(fleet.budget)
      ensures fleet.steady && fleet.budget == old(fleet.budget) ==>
                (r.Report? <==> AllTake(scopes, old(fleet.mining), old(fleet.spam), t, next.generation))
      ensures fleet.alive <==> !r.Crashed?
    {
      var node1 := fleet.Reads();
      if node1.Crash? { return Crashed; }
      var pushed, attempted := PushPolicies(t, next.generation, scopes);
      if pushed.Crash? { return Crashed; }
      if pushed.Err? {
        r := Abandon(ComponentUnavailable, attempted, mining, spam);
        return;
      }
      var verified := VerifyRuntime(t, next.generation, scopes, node1.Ok?);
      if verified.Crash? { return Crashed; }
      if verified.Err? {
        r := Abandon(ComponentUnavailable, attempted, mining, spam);
        return;
      }
      var saved := fleet.Save(next);
      if saved.Crash? { return Crashed; }
      if saved.Err? {
        r := Abandon(Internal, attempted, mining, spam);
        return;
      }
      return Report(true, scopes, next.generation);
    }

    /** The durable transaction. Whatever fails, the record is wholly old or wholly new, it is
        new only once both workers hold the new policy, and an error leaves it untouched. A
        refusal that is not a failed rollback leaves both workers where they were. */
    method ApplyWithContext(request: Request, locked: bool, preflight: bool) returns (r: Applied)
      requires fleet.Valid()
      requires fleet.alive
      modifies fleet`mining, fleet`spam, fleet`stored, fleet`history, fleet`budget, fleet`glitches, fleet`alive, fleet`commands
      ensures fleet.Valid()
      ensures fleet.history == old(fleet.history) ==> fleet.stored == old(fleet.stored)
      ensures fleet.history != old(fleet.history) ==>
                && fleet.history == old(fleet.history) + [fleet.stored] && fleet.InForce()
                && (MiningController in Touched(old(fleet.mining), old(fleet.spam), fleet) ==> fleet.mining.phase != Error)
                && (Spammer in Touched(old(fleet.mining), old(fleet.spam), fleet) ==>
                      fleet.spam.phase != Error && (!fleet.spam.policy.enabled ==> fleet.spam.phase == Disabled))
                && Committed(fleet, request, old(Load(fleet.stored)))
      ensures r.Refused? ==> fleet.history == old(fleet.history)
      ensures r.Refused? && r.runtimeRestored == None ==> fleet.commands == old(fleet.commands)
      ensures r.Refused? && r.runtimeRestored != Some(false) ==>
                && fleet.mining.Holds(old(fleet.mining.generation), old(fleet.mining.policy))
                && fleet.spam.Holds(old(fleet.spam.generation), old(fleet.spam.policy))
      ensures r.Refused? && r.code == RollbackFailed ==> fleet.budget < old(fleet.budget)
      ensures r.Report? ==>
                && (exists t :: Acceptable(fleet.codec, old(Load(fleet.stored)), request, fleet.minimumFee, t))
                && Committed(fleet, request, old(Load(fleet.stored)))
                && fleet.InForce() && r.generation == fleet.stored.generation
                && r.components == ScopesNeedingApply(old(fleet.mining), old(fleet.spam), fleet.Durable(), r.generation)
                && (MiningController in r.components <==> !old(fleet.mining).Holds(r.generation, fleet.mining.policy))
                && (Spammer in r.components <==> !old(fleet.spam).Holds(r.generation, fleet.spam.policy))
      ensures r.Report? && r.changed ==> fleet.history != old(fleet.history)
      ensures r.Report? && !r.changed ==> fleet.history == old(fleet.history) && fleet.commands == old(fleet.commands)
      ensures r.Report? ==> (r.changed <==> Load(fleet.stored).desired != old(Load(fleet.stored)).desired || r.components != [])
      ensures r.Report? && !r.changed ==>
                AsksFor(fleet.codec, old(Load(fleet.stored)).desired, request.settings, old(fleet.Durable()))
      ensures r.Report? && MiningController in r.components ==> old(fleet.mining).Takes(r.generation, fleet.mining.policy, false)
      ensures r.Report? && Spammer in r.components ==> old(fleet.spam).Takes(r.generation, fleet.spam.policy, false)
      ensures r.Crashed? ==> fleet.budget < old(fleet.budget)
      ensures fleet.steady && old(fleet.budget) == 0 && r.Refused? && r.runtimeRestored.Some? ==>
                RefusedByWorker(fleet.codec, old(Load(fleet.stored)), request, old(fleet.mining), old(fleet.spam))
      ensures fleet.steady && old(fleet.budget) == 0 && r.Refused? && r.runtimeRestored.None? ==>
                locked || !preflight || !exists t :: Acceptable(fleet.codec, old(Load(fleet.stored)), request, fleet.minimumFee, t)
      ensures fleet.alive <==> !r.Crashed?
    {
      var proposal := Propose(request, locked, preflight);
      if proposal.Stop? { return proposal.outcome; }
      var before, t := Load(fleet.stored), proposal.tuning;
      var next := SuccessfulApply(before, fleet.codec.canonical(t));
      CommitExtends(fleet.codec, fleet.stored, fleet.history, t);
      var scopes := ScopesNeedingApply(proposal.mining, proposal.spam, t, next.generation);
      if before.desired == next.desired && scopes == [] { return Report(false, [], before.generation); }
      SameDrift(proposal.mining, old(fleet.mining), fleet.mining, proposal.spam, old(fleet.spam), fleet.spam, t, next.generation);
      r := Land(t, next, scopes, proposal.mining, proposal.spam);
    }
  }

  /** The request is sound, but a worker it would touch does not take its policy. */
  ghost predicate RefusedByWorker(c: Codec, before: ControlState, request: Request,
                                  mining: Worker<MiningTuning>, spam: Worker<SpamTuning>)
  {
    exists t :: AsksFor(c, before.desired, request.settings, t) &&
      var g := SuccessfulApply(before, c.canonical(t)).generation;
      !AllTake(ScopesNeedingApply(mining, spam, t, g), mining, spam, t, g)
  }

  /** What drifted and what is taken does not depend on the phase. */
  lemma SameDrift(mining: Worker<MiningTuning>, m: Worker<MiningTuning>, n: Worker<MiningTuning>,
                  spam: Worker<SpamTuning>, s: Worker<SpamTuning>, u: Worker<SpamTuning>, t: LiveTuning, g: nat)
    requires mining.Holds(m.generation, m.policy) && spam.Holds(s.generation, s.policy)
    requires n.Holds(m.generation, m.policy) && u.Holds(s.generation, s.policy)
    ensures var scopes := ScopesNeedingApply(m, s, t, g);
            scopes == ScopesNeedingApply(mining, spam, t, g) && (AllTake(scopes, n, u, t, g) <==> AllTake(scopes, m, s, t, g))
  {
  }

  datatype Proposal =
    | Stop(outcome: Applied)
    | Go(tuning: LiveTuning, mining: Worker<MiningTuning>, spam: Worker<SpamTuning>)

  predicate InTimeFor(request: Request, generation: nat) {
    request.baseGeneration.Some? ==> request.baseGeneration.value == generation
  }

  /** The workers that did not hold what is on record now. */
  ghost function Touched(mining: Worker<MiningTuning>, spam: Worker<SpamTuning>, fleet: Fleet): seq<Scope>
    reads fleet
    requires fleet.Valid()
  {
    ScopesNeedingApply(mining, spam, fleet.Durable(), fleet.stored.generation)
  }

  /** The record holds exactly what the request asked for on top of the earlier state. */
  ghost predicate Committed(fleet: Fleet, request: Request, before: ControlState)
    reads fleet
  {
    Outcome(fleet.codec, request, before, Load(fleet.stored))
  }

  // ---------------------------------------------------------------- reconciliation

  datatype ReconcileOutcome = ReconcileOutcome(miningPolicy: bool, miningState: bool, spamPolicy: bool, spamState: bool)

  const UNTOUCHED := ReconcileOutcome(false, false, false, false)

  class Reconciler {
    const fleet: Fleet

    constructor (fleet: Fleet)
      ensures this.fleet == fleet
    {
      this.fleet := fleet;
    }

    method ReconcileMining(t: LiveTuning, state: ControlState) returns (r: Reply<()>, policy: bool, run: bool)
      requires fleet.alive
      modifies fleet`mining, fleet`spam, fleet`budget, fleet`glitches, fleet`alive, fleet`commands
      ensures fleet.spam == old(fleet.spam)
      ensures r.Ok? ==> fleet.mining.Holds(state.generation, t.mining) && fleet.mining.desired == state.miningState
      ensures r.Ok? ==> (policy <==> !old(fleet.mining).Holds(state.generation, t.mining))
      ensures r.Ok? ==> (run <==> old(fleet.mining).desired != state.miningState)
      ensures old(fleet.mining).Holds(state.generation, t.mining) && old(fleet.mining).desired == state.miningState ==>
                fleet.commands == old(fleet.commands) && fleet.mining == old(fleet.mining).(phase := fleet.mining.phase)
      ensures r.Ok? ==> fleet.budget == old(fleet.budget)
      ensures !r.Ok? ==> fleet.budget < old(fleet.budget)
      ensures fleet.alive <==> !r.Crash?
    {
      policy, run := false, false;
      var status := fleet.MiningStatus();
      if !status.Ok? { return Down(status), policy, run; }
      if !status.value.Holds(state.generation, t.mining) {
        r := fleet.SetMiningPolicy(state.generation, t.mining, status.value.generation >= state.generation);
        if !r.Ok? { return; }
        policy := true;
      }
      if status.value.desired != state.miningState {
        r := fleet.SetState(MiningController, state.miningState);
        if !r.Ok? { return; }
        run := true;
      }
      r := Ok(());
    }

    method ReconcileSpam(t: LiveTuning, state: ControlState) returns (r: Reply<()>, policy: bool, run: bool)
      requires fleet.alive
      modifies fleet`mining, fleet`spam, fleet`budget, fleet`glitches, fleet`alive, fleet`commands
      ensures fleet.mining == old(fleet.mining)
      ensures r.Ok? ==> fleet.spam.Holds(state.generation, t.spam) && fleet.spam.desired == state.spamState
      ensures r.Ok? ==> (policy <==> !old(fleet.spam).Holds(state.generation, t.spam))
      ensures r.Ok? ==> (run <==> old(fleet.spam).desired != state.spamState)
      ensures old(fleet.spam).Holds(state.generation, t.spam) && old(fleet.spam).desired == state.spamState ==>
                fleet.commands == old(fleet.commands) && fleet.spam == old(fleet.spam).(phase := fleet.spam.phase)
      ensures r.Ok? ==> fleet.budget == old(fleet.budget)
      ensures !r.Ok? ==> fleet.budget < old(fleet.budget)
      ensures fleet.alive <==> !r.Crash?
    {
      policy, run := false, false;
      var status := fleet.SpamStatus();
      if !status.Ok? { return Down(status), policy, run; }
      if !status.value.Holds(state.generation, t.spam) {
        r := fleet.SetSpamPolicy(state.generation, t.spam, status.value.generation >= state.generation);
        if !r.Ok? { return; }
        policy := true;
      }
      if status.value.desired != state.spamState {
        r := fleet.SetState(Spammer, state.spamState);
        if !r.Ok? { return; }
        run := true;
      }
      r := Ok(());
    }

    /** One pass over both workers; a failing worker does not keep the other from its turn.
        `Ok` means both hold the durable policy at the durable generation, from any worker
        state. A pass fails only by a failed call, and a pass over workers already in step
        issues no command. */
    method ReconcileOnce(idle: bool) returns (r: Reply<ReconcileOutcome>)
      requires fleet.Valid()
      requires fleet.alive
      modifies fleet`mining, fleet`spam, fleet`budget, fleet`glitches, fleet`alive, fleet`commands
      ensures fleet.Valid()
      ensures !idle ==> r == Ok(UNTOUCHED) && fleet.commands == old(fleet.commands)
      ensures !idle ==> fleet.mining == old(fleet.mining) && fleet.spam == old(fleet.spam)
      ensures idle && r.Ok? ==> fleet.Synced()
      ensures idle && r.Ok? ==> (r.value == UNTOUCHED <==> old(fleet.Synced()))
      ensures old(fleet.Synced()) ==> fleet.Synced() && fleet.commands == old(fleet.commands)
      ensures r.Ok? ==> fleet.budget == old(fleet.budget)
      ensures !r.Ok? ==> fleet.budget < old(fleet.budget)
      ensures fleet.alive <==> !r.Crash?
    {
      if !idle { return Ok(UNTOUCHED); }
      var loaded := fleet.Reads();
      if !loaded.Ok? { return Down(loaded); }
      var state := Load(fleet.stored);
      var t := fleet.codec.Full(state.desired).value;
      var mining, policy1, run1 := ReconcileMining(t, state);
      if mining.Crash? { return Crash; }
      var spam, policy2, run2 := ReconcileSpam(t, state);
      if spam.Crash? { return Crash; }
      return if mining.Ok? && spam.Ok? then Ok(ReconcileOutcome(policy1, run1, policy2, run2)) else Err;
    }

    /** The reconcile loop, restarted after crashes, gets both workers in step. */
    method ReconcileUntilSynced()
      requires fleet.Valid()
      requires fleet.alive
      modifies fleet`mining, fleet`spam, fleet`budget, fleet`glitches, fleet`alive, fleet`commands
      ensures fleet.Valid() && fleet.Synced()
      ensures fleet.alive
    {
      while true
        invariant fleet.Valid() && fleet.alive
        decreases fleet.budget
      {
        var r := ReconcileOnce(true);
        if r.Ok? { return; }
        fleet.Restart();
      }
    }
  }

  /** Any series of applies, each of them finishing, failing or crashing anywhere, followed by
      the reconciler: every commit is the exact outcome of one request over the state before
      it, generations name maps, and both workers end in force at the last commit. Every request
      is answered, and what is reported changed was committed for it. */
  method ServeThroughCrashes(fleet: Fleet, requests: seq<Request>) returns (answers: seq<Applied>)
    requires fleet.Valid() && fleet.alive
    modifies fleet`mining, fleet`spam, fleet`stored, fleet`history, fleet`budget, fleet`glitches, fleet`alive, fleet`commands
    ensures fleet.Valid() && fleet.Synced()
    ensures old(fleet.history) <= fleet.history
    ensures Explained(OutcomeOfSome(fleet.codec, requests), fleet.history, |old(fleet.history)|)
    ensures |answers| == |requests| && Answered(fleet.codec, requests, answers, fleet.history, |old(fleet.history)|)
  {
    ghost var explains := OutcomeOfSome(fleet.codec, requests);
    answers := [];
    for k := 0 to |requests|
      invariant fleet.Valid() && fleet.alive && |answers| == k
      invariant old(fleet.history) <= fleet.history
      invariant Explained(explains, fleet.history, |old(fleet.history)|)
      invariant Answered(fleet.codec, requests, answers, fleet.history, |old(fleet.history)|)
    {
      ghost var before := fleet.history;
      var answer := ServeOne(fleet, requests, k, |old(fleet.history)|);
      OneMoreAnswer(fleet.codec, requests, answers, answer, before, fleet.history, |old(fleet.history)|);
      answers := answers + [answer];
    }
    var reconciler := new Reconciler(fleet);
    reconciler.ReconcileUntilSynced();
  }

  /** Some entry from `from` on is what the request asked for over the entry before it. */
  ghost predicate CommittedFor(c: Codec, request: Request, h: seq<ControlState>, from: nat, generation: nat) {
    exists i :: CommittedAt(c, request, h, from, generation, i)
  }

  ghost predicate CommittedAt(c: Codec, request: Request, h: seq<ControlState>, from: nat, generation: nat, i: int) {
    0 < from <= i < |h| && Outcome(c, request, h[i - 1], h[i]) && h[i].generation == generation
  }

  ghost predicate AnsweredAt(c: Codec, requests: seq<Request>, answers: seq<Applied>, h: seq<ControlState>, from: nat, i: int) {
    0 <= i < |answers| <= |requests| && answers[i].Report? && answers[i].changed ==>
      CommittedFor(c, requests[i], h, from, answers[i].generation)
  }

  /** What is reported changed was committed. */
  ghost predicate Answered(c: Codec, requests: seq<Request>, answers: seq<Applied>, h: seq<ControlState>, from: nat) {
    forall i :: AnsweredAt(c, requests, answers, h, from, i)
  }

  lemma OneMoreAnswer(c: Codec, requests: seq<Request>, answers: seq<Applied>, answer: Applied,
                      h: seq<ControlState>, more: seq<ControlState>, from: nat)
    requires |answers| < |requests| && Answered(c, requests, answers, h, from) && h <= more
    requires answer.Report? && answer.changed ==> CommittedFor(c, requests[|answers|], more, from, answer.generation)
    ensures Answered(c, requests, answers + [answer], more, from)
  {
    var all := answers + [answer];
    forall i ensures AnsweredAt(c, requests, all, more, from, i) {
      assert AnsweredAt(c, requests, answers, h, from, i);
      if 0 <= i < |answers| && answers[i].Report? && answers[i].changed {
        StillCommitted(c, requests[i], h, more, from, answers[i].generation);
      }
    }
  }

  lemma SameCommit(c: Codec, request: Request, h: seq<ControlState>, more: seq<ControlState>, from: nat, generation: nat, i: int)
    requires CommittedAt(c, request, h, from, generation, i) && h <= more
    ensures CommittedAt(c, request, more, from, generation, i)
  {
    assert more[i] == h[i] && more[i - 1] == h[i - 1];
  }

  lemma StillCommitted(c: Codec, request: Request, h: seq<ControlState>, more: seq<ControlState>, from: nat, generation: nat)
    requires CommittedFor(c, request, h, from, generation) && h <= more
    ensures CommittedFor(c, request, more, from, generation)
  {
    var i :| CommittedAt(c, request, h, from, generation, i);
    SameCommit(c, request, h, more, from, generation, i);
  }

  lemma OneCommit(c: Codec, requests: seq<Request>, k: nat, h: seq<ControlState>, next: ControlState, from: nat)
    requires k < |requests| && 0 < from <= |h| && Explained(OutcomeOfSome(c, requests), h, from)
    requires Outcome(c, requests[k], h[|h| - 1], next)
    ensures Explained(OutcomeOfSome(c, requests), h + [next], from)
    ensures CommittedFor(c, requests[k], h + [next], from, next.generation)
  {
    var explains := OutcomeOfSome(c, requests);
    assert requests[k] in requests && explains(h[|h| - 1], next);
    ExplainedGrows(explains, h, next, from);
    var more := h + [next];
    assert more[|h|] == next && more[|h| - 1] == h[|h| - 1];
    assert CommittedAt(c, requests[k], more, from, next.generation, |h|);
  }

  lemma OneServed(c: Codec, requests: seq<Request>, k: nat, h: seq<ControlState>, now: seq<ControlState>, stored: ControlState, from: nat)
    requires k < |requests| && 0 < from <= |h| && Explained(OutcomeOfSome(c, requests), h, from)
    requires now != h ==> now == h + [stored] && Outcome(c, requests[k], h[|h| - 1], stored)
    ensures h <= now && Explained(OutcomeOfSome(c, requests), now, from)
    ensures now != h ==> CommittedFor(c, requests[k], now, from, stored.generation)
  {
    if now != h { OneCommit(c, requests, k, h, stored, from); }
  }

  method ServeOne(fleet: Fleet, requests: seq<Request>, k: nat, ghost from: nat) returns (applied: Applied)
    requires fleet.Valid() && fleet.alive && k < |requests| && 0 < from <= |fleet.history|
    requires Explained(OutcomeOfSome(fleet.codec, requests), fleet.history, from)
    modifies fleet`mining, fleet`spam, fleet`stored, fleet`history, fleet`budget, fleet`glitches, fleet`alive, fleet`commands
    ensures fleet.Valid() && fleet.alive && old(fleet.history) <= fleet.history
    ensures Explained(OutcomeOfSome(fleet.codec, requests), fleet.history, from)
    ensures applied.Report? && applied.changed ==>
              CommittedFor(fleet.codec, requests[k], fleet.history, from, applied.generation)
  {
    ghost var before := fleet.history;
    applied := Serve(fleet, requests[k]);
    OneServed(fleet.codec, requests, k, before, fleet.history, fleet.stored, from);
  }

  /** One apply in a process that is started again if it dies. */
  method Serve(fleet: Fleet, request: Request) returns (applied: Applied)
    requires fleet.Valid() && fleet.alive
    modifies fleet`mining, fleet`spam, fleet`stored, fleet`history, fleet`budget, fleet`glitches, fleet`alive, fleet`commands
    ensures fleet.Valid() && fleet.alive
    ensures fleet.history != old(fleet.history) ==>
              && fleet.history == old(fleet.history) + [fleet.stored]
              && Outcome(fleet.codec, request, old(fleet.history)[|old(fleet.history)| - 1], fleet.stored)
    ensures applied.Report? && applied.changed ==> fleet.history != old(fleet.history) && applied.generation == fleet.stored.generation
  {
    var transaction := new Transaction(fleet);
    var locked, preflight: bool := *, *;
    applied := transaction.ApplyWithContext(request, locked, preflight);
    if applied.Crashed? { fleet.Restart(); }
  }

  /** Every entry from `from` on follows from the entry before it. */
  ghost predicate Explained(follows: (ControlState, ControlState) -> bool, h: seq<ControlState>, from: nat) {
    forall i | 0 < from <= i < |h| :: follows(h[i - 1], h[i])
  }

  lemma ExplainedGrows(follows: (ControlState, ControlState) -> bool, h: seq<ControlState>, next: ControlState, from: nat)
    requires Explained(follows, h, from) && h != [] && follows(h[|h| - 1], next)
    ensures Explained(follows, h + [next], from)
  {
    var h' := h + [next];
    forall i | 0 < from <= i < |h'| ensures follows(h'[i - 1], h'[i]) {
      if i < |h| { assert h'[i - 1] == h[i - 1] && h'[i] == h[i]; }
    }
  }

  ghost function OutcomeOfSome(c: Codec, requests: seq<Request>): (ControlState, ControlState) -> bool {
    (before, after) => exists q :: q in requests && Outcome(c, q, before, after)
  }

  ghost predicate Outcome(c: Codec, request: Request, before: ControlState, after: ControlState) {
    exists t :: AsksFor(c, before.desired, request.settings, t) && after == SuccessfulApply(before, c.canonical(t))
  }
}
