/** What holds of the registry after any serial run of its operations. */
module RegistryTheorems {
  import opened AgentAvailability
  import opened AgentTypes
  import opened Registry
  import opened Wrappers

  /** A registry that has cached nothing yet. */
  function Booted(stored: map<string, Row>): State {
    State(map[], map[], stored)
  }

  function Run(catalog: Catalog, stored: map<string, Row>, ops: seq<Op>): State {
    if ops == [] then Booted(stored)
    else Step(catalog, Run(catalog, stored, ops[..|ops| - 1]), ops[|ops| - 1])
  }

  lemma RunStep(catalog: Catalog, stored: map<string, Row>, ops: seq<Op>, k: nat)
    requires k < |ops|
    ensures Run(catalog, stored, ops[..k + 1]) == Step(catalog, Run(catalog, stored, ops[..k]), ops[k])
  {
    assert ops[..k + 1][..k] == ops[..k];
  }

  // ---- Availability and reasons ----

  /** An available row has no stored reason, a resolved command means available, and a reason
    * belongs to a cached row. */
  ghost predicate Coherent(st: State) {
    && (forall id | id in st.byId ::
          && st.byId[id].id == id
          && (st.byId[id].available ==> id !in st.reasons)
          && (st.byId[id].resolvedCommand.Some? ==> st.byId[id].available))
    && st.reasons.Keys <= st.byId.Keys
  }

  lemma SplitIsCoherent(candidates: map<string, Metadata>, world: World, stored: map<string, Row>)
    requires forall id | id in candidates :: candidates[id].id == id
    ensures Coherent(State(Rows(ProbeAll(candidates, world)), Reasons(ProbeAll(candidates, world)), stored))
    ensures Explained(State(Rows(ProbeAll(candidates, world)), Reasons(ProbeAll(candidates, world)), stored))
  {
    forall id | id in candidates { ProbeAlwaysExplains(candidates[id], world); }
  }

  lemma HandshakeKeepsCoherent(catalog: Catalog, st: State, id: string, snapshot: Handshake)
    requires Coherent(st)
    ensures Coherent(HandshakeStep(catalog, st, id, snapshot))
  {
    if id in st.stored {
      var row := st.stored[id].(handshake := Overlay(st.stored[id].handshake, Update(catalog, st, id, snapshot)));
      if Decodable(row, catalog.hostAllows) {
        CachedExplainsExcept(Decoded(id, row));
      }
    }
  }

  lemma StepKeepsCoherent(catalog: Catalog, st: State, op: Op)
    requires Coherent(st)
    ensures Coherent(Step(catalog, st, op))
  {
    match op
    case ApplyHandshake(id, snapshot) => HandshakeKeepsCoherent(catalog, st, id, snapshot);
    case Hydrate(world) => SplitIsCoherent(Candidates(catalog, st.stored), world, st.stored);
    case Refresh(world) => SplitIsCoherent(st.byId, world, st.stored);
    case Reload(id, world) =>
      if id in st.stored && Decodable(st.stored[id], catalog.hostAllows) {
        ProbeAlwaysExplains(Decoded(id, st.stored[id]), world);
      }
    case Save(_, _) =>
  }

  lemma {:induction false} RunIsCoherent(catalog: Catalog, stored: map<string, Row>, ops: seq<Op>)
    ensures Coherent(Run(catalog, stored, ops))
  {
    if ops == [] {
    } else {
      RunIsCoherent(catalog, stored, ops[..|ops| - 1]);
      StepKeepsCoherent(catalog, Run(catalog, stored, ops[..|ops| - 1]), ops[|ops| - 1]);
    }
  }

  /** Every unavailable cached row has a reason. */
  ghost predicate Explained(st: State) {
    forall id | id in st.byId :: st.byId[id].available || id in st.reasons
  }

  /** A handshake reaches a row that is not cached, and the row's last health check does not tell
    * why it is unavailable. */
  predicate Unexplains(catalog: Catalog, st: State, op: Op) {
    && op.ApplyHandshake? && op.id !in st.byId && op.id in st.stored
    && Decodable(st.stored[op.id], catalog.hostAllows)
    && CachedLeavesUnexplained(Decoded(op.id, st.stored[op.id]))
  }

  lemma HandshakeExplains(catalog: Catalog, st: State, id: string, snapshot: Handshake)
    requires Coherent(st) && Explained(st)
    ensures Explained(HandshakeStep(catalog, st, id, snapshot))
       <==> !Unexplains(catalog, st, ApplyHandshake(id, snapshot))
  {
    if id in st.stored && Decodable(st.stored[id], catalog.hostAllows) {
      var row := st.stored[id].(handshake := Overlay(st.stored[id].handshake, Update(catalog, st, id, snapshot)));
      CachedExplainsExcept(Decoded(id, row));
      var after := HandshakeStep(catalog, st, id, snapshot);
      assert after.byId[id] == HandshakeJudgement(st, id, Decoded(id, row)).0;
      assert forall other | other in st.byId && other != id :: after.byId[other] == st.byId[other];
    }
  }

  lemma StepExplains(catalog: Catalog, st: State, op: Op)
    requires Coherent(st) && Explained(st)
    ensures Explained(Step(catalog, st, op)) <==> !Unexplains(catalog, st, op)
  {
    match op
    case ApplyHandshake(id, snapshot) => HandshakeExplains(catalog, st, id, snapshot);
    case Hydrate(world) => SplitIsCoherent(Candidates(catalog, st.stored), world, st.stored);
    case Refresh(world) => SplitIsCoherent(st.byId, world, st.stored);
    case Reload(id, world) =>
      if id in st.stored && Decodable(st.stored[id], catalog.hostAllows) {
        ProbeAlwaysExplains(Decoded(id, st.stored[id]), world);
      }
    case Save(_, _) =>
  }

  lemma ExplainedNext(catalog: Catalog, stored: map<string, Row>, ops: seq<Op>, n: nat)
    requires n < |ops| && Explained(Run(catalog, stored, ops[..n]))
    ensures Explained(Run(catalog, stored, ops[..n + 1])) <==>
              !Unexplains(catalog, Run(catalog, stored, ops[..n]), ops[n])
  {
    RunIsCoherent(catalog, stored, ops[..n]);
    StepExplains(catalog, Run(catalog, stored, ops[..n]), ops[n]);
    RunStep(catalog, stored, ops, n);
  }

  lemma {:induction false} ExplainedAfter(catalog: Catalog, stored: map<string, Row>, ops: seq<Op>, n: nat)
    requires n <= |ops|
    requires forall k: nat | k < |ops| :: !Unexplains(catalog, Run(catalog, stored, ops[..k]), ops[k])
    ensures Explained(Run(catalog, stored, ops[..n]))
  {
    if n == 0 {
    } else {
      ExplainedAfter(catalog, stored, ops, n - 1);
      ExplainedNext(catalog, stored, ops, n - 1);
    }
  }

  /** Rows stay explained throughout a run exactly when no handshake unexplains one. */
  lemma {:induction false} RunIsExplained(catalog: Catalog, stored: map<string, Row>, ops: seq<Op>)
    ensures (forall n: nat | n <= |ops| :: Explained(Run(catalog, stored, ops[..n])))
       <==> (forall k: nat | k < |ops| :: !Unexplains(catalog, Run(catalog, stored, ops[..k]), ops[k]))
  {
    if forall k: nat | k < |ops| :: !Unexplains(catalog, Run(catalog, stored, ops[..k]), ops[k]) {
      forall n: nat | n <= |ops| ensures Explained(Run(catalog, stored, ops[..n])) {
        ExplainedAfter(catalog, stored, ops, n);
      }
    } else {
      var k: nat :| k < |ops| && Unexplains(catalog, Run(catalog, stored, ops[..k]), ops[k]);
      if Explained(Run(catalog, stored, ops[..k])) {
        ExplainedNext(catalog, stored, ops, k);
      }
    }
  }

  /** A handshake that arrives before the first hydrate does unexplain a row: a managed builtin
    * agent whose health was never checked. */
  lemma HandshakeBeforeHydrateUnexplains(catalog: Catalog, row: Row, id: string, snapshot: Handshake)
    requires row.agentType == Some(Acp) && row.agentSource == Some(Builtin) && row.backend == Some("codex")
    requires row.enabled
    requires row.snapshot == Snapshot(None, None, None, None, None, None, None) && catalog.hostAllows(Acp)
    ensures var st := Run(catalog, map[id := row], [ApplyHandshake(id, snapshot)]);
            id in st.byId && !st.byId[id].available && id !in st.reasons
  {
    assert [ApplyHandshake(id, snapshot)][..0] == [];
    CachedExplainsExcept(Decoded(id, row));
  }

  // ---- What the reads make of it ----

  function ReasonOf(st: State, id: string): Option<Reason> {
    if id in st.reasons then Some(st.reasons[id]) else None
  }

  /** The reason a diagnostic snapshot pairs with a cached row. */
  function DiagnosticReason(st: State, id: string): Option<Reason>
    requires id in st.byId
  {
    if st.byId[id].available then None else ReasonOf(st, id)
  }

  /** After any run a diagnostic snapshot pairs every row with just the reason that is stored for
    * it, and a visible row has none. */
  lemma ReadsShowStoredReasons(catalog: Catalog, stored: map<string, Row>, ops: seq<Op>, id: string)
    requires id in Run(catalog, stored, ops).byId
    ensures DiagnosticReason(Run(catalog, stored, ops), id) == ReasonOf(Run(catalog, stored, ops), id)
    ensures IsVisible(Run(catalog, stored, ops).byId[id]) ==> ReasonOf(Run(catalog, stored, ops), id).None?
  {
    RunIsCoherent(catalog, stored, ops);
  }

  /** While no handshake unexplains a row, the status missing means just what unavailable means. */
  lemma MissingMeansUnavailable(catalog: Catalog, stored: map<string, Row>, ops: seq<Op>, id: string)
    requires forall k: nat | k < |ops| :: !Unexplains(catalog, Run(catalog, stored, ops[..k]), ops[k])
    requires id in Run(catalog, stored, ops).byId
    ensures var st := Run(catalog, stored, ops);
            DeriveStatus(st.byId[id], ReasonOf(st, id)) == Missing <==> !st.byId[id].available
  {
    ExplainedAfter(catalog, stored, ops, |ops|);
    assert ops[..|ops|] == ops;
    RunIsCoherent(catalog, stored, ops);
    var st := Run(catalog, stored, ops);
    StatusIsRight(st.byId[id], ReasonOf(st, id));
  }

  /** Hydrate and reload cache exactly the stored rows whose type and source are known and whose type
    * the host allows, refresh the rows that are cached; each is rightly judged against the machine. */
  lemma SweepJudgesRightly(catalog: Catalog, st: State, op: Op, id: string)
    requires op.Hydrate? || op.Refresh? || (op.Reload? && op.id == id)
    ensures var after := Step(catalog, st, op);
            && (id in after.byId <==>
                  if op.Refresh? then id in st.byId
                  else id in st.stored && st.stored[id].agentSource.Some? && st.stored[id].agentType.Some?
                       && catalog.hostAllows(st.stored[id].agentType.value))
            && (id in after.byId ==>
                  var before := if op.Refresh? then st.byId[id] else Decoded(id, st.stored[id]);
                  RightlyProbed(before, op.world, (after.byId[id], ReasonOf(after, id))))
  {
    var after := Step(catalog, st, op);
    if id in after.byId {
      var before := if op.Refresh? then st.byId[id] else Decoded(id, st.stored[id]);
      assert (after.byId[id], ReasonOf(after, id)) == Probed(before, op.world);
      ProbeIsRight(before, op.world);
    }
  }

  /** A handshake leaves the availability of a cached row, its resolved command and its reason alone. */
  lemma HandshakeKeepsAvailability(catalog: Catalog, st: State, id: string, snapshot: Handshake)
    requires Coherent(st) && id in st.byId
    ensures var after := HandshakeStep(catalog, st, id, snapshot);
            && id in after.byId && after.byId[id].available == st.byId[id].available
            && after.byId[id].resolvedCommand == st.byId[id].resolvedCommand
            && (ReasonOf(st, id).Some? || st.byId[id].available ==> ReasonOf(after, id) == ReasonOf(st, id))
  {
  }

  /** What a handshake stores: config options merged with the cached ones, and modes and models from
    * those where they imply any, else as sent, else as they were. */
  lemma HandshakeStoresOptions(catalog: Catalog, st: State, id: string, snapshot: Handshake)
    requires id in st.stored
    ensures var was, now := st.stored[id].handshake, HandshakeStep(catalog, st, id, snapshot).stored[id].handshake;
            if snapshot.configOptions.None? then
              && now.configOptions == was.configOptions
              && now.availableModes == (if snapshot.availableModes.Some? then snapshot.availableModes
                                        else was.availableModes)
              && now.availableModels == (if snapshot.availableModels.Some? then snapshot.availableModels
                                         else was.availableModels)
            else
              var cached := if id in st.byId then st.byId[id].handshake.configOptions else None;
              var merged := catalog.merge(cached, snapshot.configOptions.value);
              && now.configOptions == (if merged.Some? then merged else snapshot.configOptions)
              && now.availableModes == (if catalog.deriveModes(now.configOptions.value).Some?
                                        then catalog.deriveModes(now.configOptions.value)
                                        else if snapshot.availableModes.Some? then snapshot.availableModes
                                        else was.availableModes)
              && now.availableModels == (if catalog.deriveModels(now.configOptions.value).Some?
                                         then catalog.deriveModels(now.configOptions.value)
                                         else if snapshot.availableModels.Some? then snapshot.availableModels
                                         else was.availableModels)
    ensures forall other | other in st.stored && other != id ::
              other in HandshakeStep(catalog, st, id, snapshot).stored
              && HandshakeStep(catalog, st, id, snapshot).stored[other] == st.stored[other]
    ensures HandshakeStep(catalog, st, id, snapshot).stored[id]
         == st.stored[id].(handshake := HandshakeStep(catalog, st, id, snapshot).stored[id].handshake)
  {
  }

  /** After any run that ends by probing all rows, a cached row is available without a resolved
    * command exactly if it needs no lookup. */
  lemma ProbedRowsResolve(catalog: Catalog, stored: map<string, Row>, ops: seq<Op>, op: Op, id: string)
    requires op.Hydrate? || op.Refresh?
    requires id in Run(catalog, stored, ops + [op]).byId
    ensures var meta := Run(catalog, stored, ops + [op]).byId[id];
            meta.available && meta.resolvedCommand.None? <==> NeedsNoLookup(meta)
  {
    var st := Run(catalog, stored, ops);
    assert (ops + [op])[..|ops|] == ops;
    var before := if op.Hydrate? then Decoded(id, st.stored[id]) else st.byId[id];
    ResolvedUnlessDeferredOrInternal(before, op.world);
    ProbeAlwaysExplains(before, op.world);
  }

  const MANAGED_ROW := Row(Some(Acp), Some(Builtin), SourceInfo(None, None), Some("codex"), true, None, None,
                           Snapshot(None, None, None, None, None, None, None),
                           Handshake(None, None, None, None, None, None))

  /** Such a row: a managed builtin agent, on any machine. */
  lemma ManagedRowIsAvailableUnresolved(catalog: Catalog, world: World, id: string)
    requires catalog.hostAllows(Acp)
    ensures var st := Run(catalog, map[id := MANAGED_ROW], [Hydrate(world)]);
            id in st.byId && st.byId[id].available && st.byId[id].resolvedCommand.None?
  {
    assert [] + [Hydrate(world)] == [Hydrate(world)];
    assert Run(catalog, map[id := MANAGED_ROW], [Hydrate(world)][..0]) == Booted(map[id := MANAGED_ROW]);
    ResolvedUnlessDeferredOrInternal(Decoded(id, MANAGED_ROW), world);
  }

  // ---- The cache agrees with storage ----

  /** The rows another service wrote and has not had reloaded since. */
  function Unsynced(ops: seq<Op>): set<string> {
    if ops == [] then {}
    else
      var before := Unsynced(ops[..|ops| - 1]);
      match ops[|ops| - 1]
      case Save(id, _) => before + {id}
      case Reload(id, _) => before - {id}
      case Hydrate(_) => {}
      case _ => before
  }

  predicate Hydrated(ops: seq<Op>) {
    exists k | 0 <= k < |ops| :: ops[k].Hydrate?
  }

  /** A cached row is the decoded stored row, with some availability. */
  ghost predicate Agrees(catalog: Catalog, st: State, id: string) {
    id in st.byId ==>
      && id in st.stored
      && Decodable(st.stored[id], catalog.hostAllows)
      && st.byId[id]
         == Decoded(id, st.stored[id]).(available := st.byId[id].available,
                                        resolvedCommand := st.byId[id].resolvedCommand)
  }

  /** A stored row the decoder accepts is cached. */
  ghost predicate Covered(catalog: Catalog, st: State, id: string) {
    id in st.stored && Decodable(st.stored[id], catalog.hostAllows) ==> id in st.byId
  }

  lemma HydrateSyncs(catalog: Catalog, st: State, world: World, id: string)
    ensures Agrees(catalog, HydrateStep(catalog, st, world), id)
    ensures Covered(catalog, HydrateStep(catalog, st, world), id)
  {
    if id in Candidates(catalog, st.stored) {
      ProbeAlwaysExplains(Decoded(id, st.stored[id]), world);
    }
  }

  lemma ReloadSyncs(catalog: Catalog, st: State, id: string, world: World)
    ensures Agrees(catalog, ReloadStep(catalog, st, id, world), id)
    ensures Covered(catalog, ReloadStep(catalog, st, id, world), id)
  {
    if id in st.stored && Decodable(st.stored[id], catalog.hostAllows) {
      ProbeAlwaysExplains(Decoded(id, st.stored[id]), world);
    }
  }

  lemma StepKeepsAgreement(catalog: Catalog, st: State, op: Op, id: string)
    requires op.Save? ==> op.id != id
    requires Agrees(catalog, st, id)
    ensures Agrees(catalog, Step(catalog, st, op), id)
    ensures Covered(catalog, st, id) ==> Covered(catalog, Step(catalog, st, op), id)
  {
    match op
    case Hydrate(world) => HydrateSyncs(catalog, st, world, id);
    case Reload(target, world) => if target == id { ReloadSyncs(catalog, st, id, world); }
    case Refresh(world) => if id in st.byId { ProbeAlwaysExplains(st.byId[id], world); }
    case ApplyHandshake(target, snapshot) =>
      if target == id && id in st.stored {
        var row := st.stored[id].(handshake := Overlay(st.stored[id].handshake, Update(catalog, st, id, snapshot)));
        if Decodable(row, catalog.hostAllows) {
          CachedExplainsExcept(Decoded(id, row));
        }
      }
    case Save(_, _) =>
  }

  /** After any run each cached row that was not written behind the registry's back is the stored
    * row, handshake included; and once a hydrate has run it is cached. */
  lemma {:induction false} CacheAgreesWithStorage(catalog: Catalog, stored: map<string, Row>, ops: seq<Op>, id: string)
    requires id !in Unsynced(ops)
    ensures Agrees(catalog, Run(catalog, stored, ops), id)
    ensures Hydrated(ops) ==> Covered(catalog, Run(catalog, stored, ops), id)
  {
    if ops == [] {
    } else {
      var before, op := ops[..|ops| - 1], ops[|ops| - 1];
      var st := Run(catalog, stored, before);
      if op.Hydrate? {
        HydrateSyncs(catalog, st, op.world, id);
      } else if op.Reload? && op.id == id {
        ReloadSyncs(catalog, st, id, op.world);
      } else {
        CacheAgreesWithStorage(catalog, stored, before, id);
        StepKeepsAgreement(catalog, st, op, id);
        if Hydrated(ops) {
          var k :| 0 <= k < |ops| && ops[k].Hydrate?;
          assert before[k] == ops[k];
        }
      }
    }
  }

  // ---- The cache is transparent ----

  /** A registry without a cache, which merges a handshake against the stored row. */
  function StoredStep(catalog: Catalog, stored: map<string, Row>, op: Op): map<string, Row> {
    match op
    case ApplyHandshake(id, snapshot) =>
      if id !in stored then stored
      else
        var was := stored[id].handshake;
        var update := Enriched(catalog, Merged(catalog, was.configOptions, snapshot));
        stored[id := stored[id].(handshake := Overlay(was, update))]
    case Save(id, row) => Put(stored, id, row)
    case _ => stored
  }

  function StoredRun(catalog: Catalog, stored: map<string, Row>, ops: seq<Op>): map<string, Row> {
    if ops == [] then stored
    else StoredStep(catalog, StoredRun(catalog, stored, ops[..|ops| - 1]), ops[|ops| - 1])
  }

  /** A handshake of `id` merges against the options that are stored. */
  predicate InStep(st: State, id: string) {
    id in st.stored ==> CachedConfig(st, id) == st.stored[id].handshake.configOptions
  }

  /** Told by which options it is merged against. */
  function Telling(catalog: Catalog, existing: Option<Json>): Catalog {
    catalog.(merge := (options, sent) => Some(if options == existing then "kept" else "lost"))
  }

  /** Whatever merging means, a handshake leaves storage as merging against storage would: that
    * holds exactly if the cached options are the stored ones. */
  lemma StepIsTransparentIff(catalog: Catalog, st: State, id: string, snapshot: Handshake)
    requires id in st.stored && snapshot.configOptions.Some?
    ensures (forall merge ::
               HandshakeStep(catalog.(merge := merge), st, id, snapshot).stored
               == StoredStep(catalog.(merge := merge), st.stored, ApplyHandshake(id, snapshot)))
            <==> InStep(st, id)
  {
    var stored := st.stored[id].handshake.configOptions;
    if !InStep(st, id) {
      var telling := Telling(catalog, stored);
      assert HandshakeStep(telling, st, id, snapshot).stored[id].handshake.configOptions == Some("lost");
      assert StoredStep(telling, st.stored, ApplyHandshake(id, snapshot))[id].handshake.configOptions == Some("kept");
      assert "lost"[0] != "kept"[0];
      assert telling == catalog.(merge := telling.merge);
    }
  }

  /** After any run, for a row not written behind the registry's back, that is: the row is cached,
    * or has no config options stored. */
  lemma InStepAfterRun(catalog: Catalog, stored: map<string, Row>, ops: seq<Op>, id: string)
    requires id !in Unsynced(ops)
    ensures var st := Run(catalog, stored, ops);
            InStep(st, id) <==>
              (id in st.stored ==> id in st.byId || st.stored[id].handshake.configOptions.None?)
  {
    CacheAgreesWithStorage(catalog, stored, ops, id);
  }

  /** Handshakes with config options come for rows whose cached options are the stored ones. */
  predicate Orderly(catalog: Catalog, stored: map<string, Row>, ops: seq<Op>) {
    ops == [] ||
    var before, op := ops[..|ops| - 1], ops[|ops| - 1];
    && Orderly(catalog, stored, before)
    && (op.ApplyHandshake? && op.snapshot.configOptions.Some? ==> InStep(Run(catalog, stored, before), op.id))
  }

  /** Over such a run merging against the cache is merging against storage. */
  lemma {:induction false} CacheIsTransparent(catalog: Catalog, stored: map<string, Row>, ops: seq<Op>)
    requires Orderly(catalog, stored, ops)
    ensures Run(catalog, stored, ops).stored == StoredRun(catalog, stored, ops)
  {
    if ops == [] {
    } else {
      var before, op := ops[..|ops| - 1], ops[|ops| - 1];
      CacheIsTransparent(catalog, stored, before);
    }
  }

  function ConfigAt(stored: map<string, Row>, id: string): Option<Json> {
    if id in stored then stored[id].handshake.configOptions else None
  }

  /** Before the first hydrate it need not be: the stored config options are merged into nothing. */
  lemma MergeBeforeHydrateForgets(catalog: Catalog, row: Row, id: string, snapshot: Handshake, kept: Json, sent: Json)
    requires row.handshake.configOptions == Some(kept) && snapshot.configOptions == Some(sent)
    requires catalog.merge(None, sent) == Some(sent) && catalog.merge(Some(kept), sent) == Some(kept + sent)
    requires kept != ""
    ensures var ops := [ApplyHandshake(id, snapshot)];
            && sent != kept + sent
            && ConfigAt(Run(catalog, map[id := row], ops).stored, id) == Some(sent)
            && ConfigAt(StoredRun(catalog, map[id := row], ops), id) == Some(kept + sent)
  {
    assert [ApplyHandshake(id, snapshot)][..0] == [];
    assert |kept + sent| > |sent|;
  }

  // ---- Fields that are never merged ----

  datatype Field = AgentCapabilities | AuthMethods | AvailableCommands

  function Get(handshake: Handshake, field: Field): Option<Json> {
    match field
    case AgentCapabilities => handshake.agentCapabilities
    case AuthMethods => handshake.authMethods
    case AvailableCommands => handshake.availableCommands
  }

  /** The value a field was last given, by a handshake or with the whole row. */
  function Latest(stored: map<string, Row>, ops: seq<Op>, id: string, field: Field): Option<Json> {
    if ops == [] then
      if id in stored then Get(stored[id].handshake, field) else None
    else
      var earlier := Latest(stored, ops[..|ops| - 1], id, field);
      match ops[|ops| - 1]
      case ApplyHandshake(target, snapshot) =>
        if target == id && Get(snapshot, field).Some? then Get(snapshot, field) else earlier
      case Save(target, row) =>
        if target != id then earlier else if row.Some? then Get(row.value.handshake, field) else None
      case _ => earlier
  }

  lemma StepSetsField(catalog: Catalog, st: State, op: Op, id: string, field: Field)
    requires id in st.stored && !(op.Save? && op.id == id)
    ensures id in Step(catalog, st, op).stored
    ensures Get(Step(catalog, st, op).stored[id].handshake, field) ==
              if op.ApplyHandshake? && op.id == id && Get(op.snapshot, field).Some?
              then Get(op.snapshot, field) else Get(st.stored[id].handshake, field)
  {
  }

  lemma {:induction false} StoredFieldIsLatest(catalog: Catalog, stored: map<string, Row>, ops: seq<Op>,
        id: string, field: Field)
    requires id in Run(catalog, stored, ops).stored
    ensures Get(Run(catalog, stored, ops).stored[id].handshake, field) == Latest(stored, ops, id, field)
  {
    if ops == [] {
    } else {
      var before, op := ops[..|ops| - 1], ops[|ops| - 1];
      if !(op.Save? && op.id == id) {
        assert id in Run(catalog, stored, before).stored;
        StoredFieldIsLatest(catalog, stored, before, id, field);
        StepSetsField(catalog, Run(catalog, stored, before), op, id, field);
      }
    }
  }

  /** So a cached row shows the latest value, too. */
  lemma CachedFieldIsLatest(catalog: Catalog, stored: map<string, Row>, ops: seq<Op>, id: string, field: Field)
    requires id in Run(catalog, stored, ops).byId && id !in Unsynced(ops)
    ensures Get(Run(catalog, stored, ops).byId[id].handshake, field) == Latest(stored, ops, id, field)
  {
    CacheAgreesWithStorage(catalog, stored, ops, id);
    StoredFieldIsLatest(catalog, stored, ops, id, field);
  }

  // ---- Modes and models follow the config options ----

  /** Modes and models are the ones the config options imply, where they imply any. */
  predicate Follows(catalog: Catalog, handshake: Handshake) {
    handshake.configOptions.Some? ==>
      var config := handshake.configOptions.value;
      && (catalog.deriveModes(config).Some? ==> handshake.availableModes == catalog.deriveModes(config))
      && (catalog.deriveModels(config).Some? ==> handshake.availableModels == catalog.deriveModels(config))
  }

  /** What arrived for a field agrees with what the config options imply for it. */
  predicate Agreeable(arrived: Option<Json>, implied: Option<Json>) {
    arrived.None? || implied.None? || arrived == implied
  }

  /** A handshake with config options always brings this about; one without keeps it exactly if
    * the modes and models it carries are the ones the stored options imply, where they imply any. */
  lemma HandshakeFollows(catalog: Catalog, st: State, id: string, snapshot: Handshake)
    requires id in st.stored
    ensures snapshot.configOptions.Some? ==>
              Follows(catalog, HandshakeStep(catalog, st, id, snapshot).stored[id].handshake)
    ensures var was := st.stored[id].handshake;
            snapshot.configOptions.None? && Follows(catalog, was) ==>
              (Follows(catalog, HandshakeStep(catalog, st, id, snapshot).stored[id].handshake)
               <==> (was.configOptions.Some? ==>
                       && Agreeable(snapshot.availableModes, catalog.deriveModes(was.configOptions.value))
                       && Agreeable(snapshot.availableModels, catalog.deriveModels(was.configOptions.value))))
  {
  }
}
