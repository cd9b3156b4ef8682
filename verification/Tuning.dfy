/** The managed settings and the parse of a merged configuration, with the repair of dormant
    spam settings (crates/control-plane/src/apply.rs, crates/simchain-common/src/live_tuning.rs).
    Reading and printing single values is the `Codec`'s, which stays abstract. */
module Tuning {
  import opened Options

  datatype Key =
    | BlockIntervalMode | BlockIntervalMeanSecs | BlockIntervalMinSecs | BlockIntervalMaxSecs
    | MinerWeights | MiningRngSeed
    | EnableSpam | SpamFee | SpamFillBlockRatio | SpamTxDataMaxBytes | SpamTxDataMinBytes
    | SpamSmallTxsPerBlock | SpamFloorPoolTxs | SpamFixedTxsPerBlock | SpamSendmanyOutputs
    | SpamFanoutAuto | SpamFanoutUtxos | EnableSpamReplaces | SpamReplacesPerMinerPerBlock
    | FallbackFee | UseRawTxSpam    // legacy keys, no longer managed
    | Unknown                        // any other name

  predicate IsSpam(k: Key) {
    match k
    case EnableSpam | SpamFee | SpamFillBlockRatio | SpamTxDataMaxBytes | SpamTxDataMinBytes | SpamSmallTxsPerBlock
       | SpamFloorPoolTxs | SpamFixedTxsPerBlock | SpamSendmanyOutputs | SpamFanoutAuto | SpamFanoutUtxos
       | EnableSpamReplaces | SpamReplacesPerMinerPerBlock => true
    case _ => false
  }

  /** The settings of the mining policy. */
  const MINING_KEYS: set<Key> :=
    {BlockIntervalMode, BlockIntervalMeanSecs, BlockIntervalMinSecs, BlockIntervalMaxSecs, MinerWeights, MiningRngSeed}

  /** A managed setting is a mining or a spam setting, and not both. */
  lemma ManagedExactly(k: Key)
    ensures Managed(k) <==> k in MINING_KEYS || IsSpam(k)
    ensures k in MINING_KEYS ==> !IsSpam(k)
    ensures IsOptional(k) ==> k in MINING_KEYS
  {
  }

  predicate Managed(k: Key) { k !in {FallbackFee, UseRawTxSpam, Unknown} }

  predicate IsOptional(k: Key) { k in {BlockIntervalMinSecs, BlockIntervalMaxSecs, MinerWeights, MiningRngSeed} }

  function Default(k: Key): string {
    match k
    case BlockIntervalMode => "poisson"
    case BlockIntervalMeanSecs => "15"
    case BlockIntervalMinSecs => "10"
    case BlockIntervalMaxSecs => "20"
    case EnableSpam => "true"
    case SpamFee => "0.0001"
    case SpamFillBlockRatio => "2.0"
    case SpamTxDataMaxBytes => "90000"
    case SpamTxDataMinBytes => "250"
    case SpamSmallTxsPerBlock => "0"
    case SpamFloorPoolTxs => "4000"
    case SpamFixedTxsPerBlock => "100"
    case SpamSendmanyOutputs => "0"
    case SpamFanoutAuto => "true"
    case SpamFanoutUtxos => "50"
    case EnableSpamReplaces => "false"
    case SpamReplacesPerMinerPerBlock => "5"
    case _ => ""
  }

  type Settings = map<Key, string>

  datatype MiningTuning = MiningTuning(values: seq<string>)
  datatype SpamTuning = SpamTuning(enabled: bool, fee: real, values: seq<string>)
  datatype LiveTuning = LiveTuning(mining: MiningTuning, spam: SpamTuning)

  /** A failed spam parse names the keys it blames, in order and possibly repeated. */
  datatype SpamParse = Parsed(spam: SpamTuning) | Blames(keys: seq<Key>)

  datatype Codec = Codec(
    mining: Settings -> Option<MiningTuning>,
    spam: Settings -> SpamParse,
    canonical: LiveTuning -> Settings,
    accepts: (Key, string) -> bool,
    trim: string -> string)
  {
    function Full(m: Settings): Option<LiveTuning> {
      if mining(m).Some? && spam(m).Parsed? then Some(LiveTuning(mining(m).value, spam(m).spam)) else None
    }

    predicate SpamEnabled(m: Settings) {
      EnableSpam !in m || trim(m[EnableSpam]) == "" || m[EnableSpam] == "true"
    }

    /** Printing uses managed keys and reads back; a parse reads the toggle as the program does;
        trimmed text has nothing left to trim. */
    ghost predicate Lawful() {
      && (forall t :: Full(canonical(t)) == Some(t) && FallbackFee !in canonical(t) && UseRawTxSpam !in canonical(t))
      && (forall m :: spam(m).Parsed? ==> (spam(m).spam.enabled <==> SpamEnabled(m)))
      && (forall text :: trim(trim(text)) == trim(text))
    }
  }

  /** Catalog defaults overlaid with managed entries. */
  function Staged(c: Codec, m: Settings): Settings {
    map k: Key | Managed(k) ::
      if k in m && c.trim(m[k]) == "" && IsOptional(k) then "" else if k in m && c.trim(m[k]) != "" then m[k] else Default(k)
  }

  // ---------------------------------------------------------------- repair of dormant spam settings

  /** Keys the repair may reset when a parse blames them. */
  predicate Repairable(k: Key) { IsSpam(k) && k != EnableSpam }

  predicate AtDefault(m: Settings, k: Key) { k in m && m[k] == Default(k) }

  ghost function Away(m: Settings): set<Key> {
    set k: Key | Repairable(k) && !AtDefault(m, k)
  }

  function ResetAll(m: Settings, keys: seq<Key>): Settings
    decreases |keys|
  {
    if keys == [] then m else ResetAll(if Repairable(keys[0]) then m[keys[0] := Default(keys[0])] else m, keys[1..])
  }

  lemma {:induction false} ResetAllAt(m: Settings, keys: seq<Key>, k: Key)
    ensures k in ResetAll(m, keys) <==> k in m || (k in keys && Repairable(k))
    ensures k in ResetAll(m, keys) ==> ResetAll(m, keys)[k] == if k in keys && Repairable(k) then Default(k) else m[k]
    decreases |keys|
  {
    if keys != [] {
      ResetAllAt(if Repairable(keys[0]) then m[keys[0] := Default(keys[0])] else m, keys[1..], k);
    }
  }

  lemma ResetAllShrinks(m: Settings, keys: seq<Key>)
    ensures ResetAll(m, keys) == m || Away(ResetAll(m, keys)) < Away(m)
  {
    forall k ensures k in Away(ResetAll(m, keys)) ==> k in Away(m) {
      ResetAllAt(m, keys, k);
    }
    if ResetAll(m, keys) != m {
      var k :| (k in m) != (k in ResetAll(m, keys)) || (k in m && m[k] != ResetAll(m, keys)[k]);
      ResetAllAt(m, keys, k);
      assert k in Away(m) && k !in Away(ResetAll(m, keys));
    }
  }

  /** Resetting brings exactly the given settings to their defaults. */
  lemma ResetAllAway(m: Settings, keys: seq<Key>)
    ensures Away(ResetAll(m, keys)) == Away(m) - set k | k in keys
    ensures ResetAll(m, keys) == m <==> forall k | k in keys :: k !in Away(m)
  {
    forall k ensures k in Away(ResetAll(m, keys)) <==> k in Away(m) && k !in keys {
      ResetAllAt(m, keys, k);
    }
    if forall k | k in keys :: k !in Away(m) {
      forall k ensures (k in ResetAll(m, keys) <==> k in m) && (k in m ==> ResetAll(m, keys)[k] == m[k]) {
        ResetAllAt(m, keys, k);
      }
      assert ResetAll(m, keys) == m;
    }
  }

  /** Every blamed key is already at its default, and so is the automatic fan-out. */
  predicate Stuck(c: Codec, m: Settings) {
    && c.spam(m).Blames? && ResetAll(m, c.spam(m).keys) == m && AtDefault(m, SpamFanoutAuto)
  }

  /** The settings after one pass over a failed parse: the blamed settings that can move are at
      their defaults, or, if none can, the automatic fan-out is. */
  function Pass(c: Codec, m: Settings): (next: Settings)
    requires c.spam(m).Blames? && !Stuck(c, m)
    ensures Away(next) < Away(m)
    ensures var idle := forall k | k in c.spam(m).keys :: k !in Away(m);
            Away(next) == Away(m) - if idle then {SpamFanoutAuto} else set k | k in c.spam(m).keys
  {
    ResetAllShrinks(m, c.spam(m).keys);
    ResetAllAway(m, c.spam(m).keys);
    var next := ResetAll(m, c.spam(m).keys);
    if next != m then next else
      assert SpamFanoutAuto in Away(m) && SpamFanoutAuto !in Away(m[SpamFanoutAuto := "true"]);
      m[SpamFanoutAuto := "true"]
  }

  /** Where the passes end: at a parsing source, or stuck. */
  function Repair(c: Codec, m: Settings): (end: Settings)
    ensures c.spam(end).Parsed? || Stuck(c, end)
    decreases Away(m)
  {
    if c.spam(m).Parsed? || Stuck(c, m) then m else Repair(c, Pass(c, m))
  }

  /** The keys blamed by some parse on the way. */
  ghost function Blamed(c: Codec, m: Settings): set<Key>
    decreases Away(m)
  {
    if c.spam(m).Parsed? || Stuck(c, m) then {} else (set k | k in c.spam(m).keys) + Blamed(c, Pass(c, m))
  }

  /** The repair moves a setting only to its default, and only if it is a spam setting other
      than the toggle that some parse blamed, or the automatic fan-out. */
  lemma {:induction false} RepairIsFramed(c: Codec, m: Settings, k: Key)
    ensures (k in m ==> k in Repair(c, m)) && (k in Repair(c, m) && k !in m ==> Repairable(k))
    ensures k in MINING_KEYS && k in m ==> Repair(c, m)[k] == m[k]
    ensures k in Repair(c, m) && !(k in m && Repair(c, m)[k] == m[k]) ==>
              Repair(c, m)[k] == Default(k) && Repairable(k) && (k in Blamed(c, m) || k == SpamFanoutAuto)
    decreases Away(m)
  {
    if !c.spam(m).Parsed? && !Stuck(c, m) {
      ResetAllAt(m, c.spam(m).keys, k);
      RepairIsFramed(c, Pass(c, m), k);
    }
  }

  /** A key no parse blamed keeps its value, unless it is the automatic fan-out. */
  lemma RepairKeepsToggle(c: Codec, m: Settings)
    ensures c.SpamEnabled(Repair(c, m)) <==> c.SpamEnabled(m)
  {
    RepairIsFramed(c, m, EnableSpam);
  }

  /** Every failing source blames something the repair can still move. */
  ghost predicate Explains(c: Codec) {
    forall m :: c.spam(m).Blames? ==>
      (exists k :: k in c.spam(m).keys && k in Away(m)) || SpamFanoutAuto in Away(m)
  }

  /** A source is stuck exactly when its failure blames nothing the repair can still move. */
  lemma StuckExactly(c: Codec, m: Settings)
    ensures Stuck(c, m) <==> c.spam(m).Blames? && (forall k | k in c.spam(m).keys :: k !in Away(m)) && SpamFanoutAuto !in Away(m)
  {
    if c.spam(m).Blames? { ResetAllAway(m, c.spam(m).keys); }
  }

  // ---------------------------------------------------------------- the merged parse

  datatype Merged = Tuned(tuning: LiveTuning) | Invalid

  /** Strict, except that a disabled spam section is repaired. */
  function ParseMerged(c: Codec, m: Settings): Merged {
    if c.Full(m).Some? then Tuned(c.Full(m).value)
    else if c.SpamEnabled(m) || c.mining(m).None? then Invalid
    else
      var end := Repair(c, m);
      if c.spam(end).Parsed? then Tuned(LiveTuning(c.mining(m).value, c.spam(end).spam)) else Invalid
  }

  /** The mining policy is always the one the input spells out, and spam stays as enabled or
      disabled as the input says. */
  lemma ParseMergedKeepsMining(c: Codec, m: Settings)
    requires c.Lawful() && ParseMerged(c, m).Tuned?
    ensures c.mining(m) == Some(ParseMerged(c, m).tuning.mining)
    ensures ParseMerged(c, m).tuning.spam.enabled <==> c.SpamEnabled(m)
  {
    RepairKeepsToggle(c, m);
  }

  /** Exactly when the merged configuration is refused. When every parse failure blames
      something movable, spam can always be switched off next to valid mining settings. */
  lemma RefusedExactly(c: Codec, m: Settings)
    ensures var enabled := EnableSpam !in m || c.trim(m[EnableSpam]) == "" || m[EnableSpam] == "true";
      && (ParseMerged(c, m).Invalid? <==> c.mining(m).None? || (c.spam(m).Blames? && (enabled || Stuck(c, Repair(c, m)))))
      && (Explains(c) && c.mining(m).Some? && !enabled ==> ParseMerged(c, m).Tuned?)
  {
    StuckExactly(c, Repair(c, m));
  }

  /** The settings present in `b` that are absent from `a` or have another value there. */
  ghost function Moved(a: Settings, b: Settings): set<Key> {
    set k | k in b && !(k in a && a[k] == b[k])
  }

  ghost predicate MovesToDefault(a: Settings, b: Settings) {
    a.Keys <= b.Keys && forall k | k in Moved(a, b) :: AtDefault(b, k)
  }

  lemma MovedAccumulates(a: Settings, b: Settings, c: Settings)
    requires MovesToDefault(a, b) && MovesToDefault(b, c)
    ensures MovesToDefault(a, c) && Moved(a, c) == Moved(a, b) + Moved(b, c)
  {
    forall k ensures k in Moved(a, c) <==> k in Moved(a, b) || k in Moved(b, c) {
      assert k in Moved(a, b) ==> AtDefault(b, k);
      assert k in Moved(b, c) ==> AtDefault(c, k);
    }
  }

  lemma UnmovedIsSame(a: Settings, b: Settings)
    requires MovesToDefault(a, b)
    ensures Moved(a, b) == {} <==> a == b
  {
    forall k | k in b ensures Moved(a, b) == {} ==> k in a && a[k] == b[k] {
      assert k !in Moved(a, b) ==> k in a && a[k] == b[k];
    }
  }

  /** One pass of resets over the blamed keys. */
  method ResetBlamed(m: Settings, keys: seq<Key>) returns (next: Settings, reset: set<Key>, progressed: bool)
    ensures next == ResetAll(m, keys)
    ensures reset == Moved(m, next) && MovesToDefault(m, next)
    ensures progressed <==> next != m
  {
    next, reset, progressed := m, {}, false;
    for i := 0 to |keys|
      invariant ResetAll(next, keys[i..]) == ResetAll(m, keys)
      invariant reset == Moved(m, next) && MovesToDefault(m, next)
      invariant progressed <==> reset != {}
    {
      var key := keys[i];
      assert keys[i..][1..] == keys[i + 1..];
      if Repairable(key) {
        ghost var was := next;
        if !AtDefault(next, key) {
          next := next[key := Default(key)];
          reset, progressed := reset + {key}, true;
          assert Moved(was, next) == {key};
          MovedAccumulates(m, was, next);
        } else {
          assert next[key := Default(key)] == next;
        }
      }
    }
    assert keys[|keys|..] == [];
    UnmovedIsSame(m, next);
  }

  method ParseMergedTuning(c: Codec, merged: Settings) returns (r: Merged, resetKeys: set<Key>)
    ensures r == ParseMerged(c, merged)
    ensures r.Tuned? ==> var end := if c.Full(merged).Some? then merged else Repair(c, merged);
              c.spam(end) == Parsed(r.tuning.spam) && resetKeys == Moved(merged, end)
  {
    resetKeys := {};
    if c.Full(merged).Some? { return Tuned(c.Full(merged).value), {}; }
    if c.SpamEnabled(merged) { return Invalid, {}; }
    var mining := c.mining(merged);
    if mining.None? { return Invalid, {}; }
    var repaired := merged;
    while true
      invariant Repair(c, repaired) == Repair(c, merged)
      invariant resetKeys == Moved(merged, repaired) && MovesToDefault(merged, repaired)
      decreases Away(repaired)
    {
      var parsed := c.spam(repaired);
      if parsed.Parsed? { return Tuned(LiveTuning(mining.value, parsed.spam)), resetKeys; }
      ghost var start := repaired;
      var reset, progressed;
      repaired, reset, progressed := ResetBlamed(repaired, parsed.keys);
      if !progressed && !AtDefault(repaired, SpamFanoutAuto) {
        repaired := repaired[SpamFanoutAuto := "true"];
        reset, progressed := {SpamFanoutAuto}, true;
        assert Moved(start, repaired) == reset;
      }
      if !progressed { return Invalid, resetKeys + reset; }
      assert repaired == Pass(c, start);
      MovedAccumulates(merged, start, repaired);
      resetKeys := resetKeys + reset;
    }
  }
}
