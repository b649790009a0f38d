/** The agent registry of registry.rs: cached rows, reasons why rows are unavailable, and the
  * stored rows, kept in step by four operations while other services write rows. Each is taken as one
  * atomic act. */
module Registry {
  import opened AgentAvailability
  import opened AgentTypes
  import opened Wrappers

  datatype State = State(byId: map<string, Metadata>, reasons: map<string, Reason>, stored: map<string, Row>)

  /** The parts of the catalogue code the registry calls but this model leaves open. */
  datatype Catalog = Catalog(
    merge: (Option<Json>, Json) -> Option<Json>,   // merge_config_option_values
    deriveModes: Json -> Option<Json>,             // the modes a config option list implies
    deriveModels: Json -> Option<Json>,
    hostAllows: AgentType -> bool)

  datatype Op =
    | ApplyHandshake(id: string, snapshot: Handshake)
    | Hydrate(world: World)
    | Refresh(world: World)
    | Reload(id: string, world: World)
    | Save(id: string, row: Option<Row>)    // another service writes or deletes the stored row

  // ---- Handshakes ----

  function Merged(catalog: Catalog, existing: Option<Json>, snapshot: Handshake): Handshake {
    if snapshot.configOptions.None? then snapshot
    else snapshot.(configOptions := Or(catalog.merge(existing, snapshot.configOptions.value), snapshot.configOptions))
  }

  function Enriched(catalog: Catalog, snapshot: Handshake): Handshake {
    if snapshot.configOptions.None? then snapshot
    else snapshot.(availableModes := Or(catalog.deriveModes(snapshot.configOptions.value), snapshot.availableModes),
                   availableModels := Or(catalog.deriveModels(snapshot.configOptions.value), snapshot.availableModels))
  }

  /** The partial update of the stored columns: an unset field leaves its column alone. */
  function Overlay(stored: Handshake, update: Handshake): Handshake {
    Handshake(Or(update.agentCapabilities, stored.agentCapabilities), Or(update.authMethods, stored.authMethods),
              Or(update.configOptions, stored.configOptions), Or(update.availableModes, stored.availableModes),
              Or(update.availableModels, stored.availableModels),
              Or(update.availableCommands, stored.availableCommands))
  }

  function CachedConfig(st: State, id: string): Option<Json> {
    if id in st.byId then st.byId[id].handshake.configOptions else None
  }

  function Update(catalog: Catalog, st: State, id: string, snapshot: Handshake): Handshake {
    Enriched(catalog, Merged(catalog, CachedConfig(st, id), snapshot))
  }

  /** Set or clear one key. */
  function Put<V>(m: map<string, V>, key: string, value: Option<V>): map<string, V> {
    if value.Some? then m[key := value.value] else m - {key}
  }

  /** The judgement a handshake leaves on its row: the cached one, unless the row is cached
    * already and keeps the availability it has. */
  function HandshakeJudgement(st: State, id: string, decoded: Metadata): Judged {
    var judged := ApplyCached(decoded);
    if id in st.byId then
      var meta := judged.0.(available := st.byId[id].available, resolvedCommand := st.byId[id].resolvedCommand);
      (meta, if meta.available then None else if id in st.reasons then Some(st.reasons[id]) else judged.1)
    else judged
  }

  function HandshakeStep(catalog: Catalog, st: State, id: string, snapshot: Handshake): State {
    if id !in st.stored then st
    else
      var row := st.stored[id].(handshake := Overlay(st.stored[id].handshake, Update(catalog, st, id, snapshot)));
      var saved := st.(stored := st.stored[id := row]);
      if !Decodable(row, catalog.hostAllows) then saved
      else
        var (meta, reason) := HandshakeJudgement(st, id, Decoded(id, row));
        saved.(byId := st.byId[id := meta], reasons := Put(st.reasons, id, reason))
  }

  // ---- Whole-catalogue operations ----

  function Candidates(catalog: Catalog, stored: map<string, Row>): map<string, Metadata> {
    map id | id in stored && Decodable(stored[id], catalog.hostAllows) :: Decoded(id, stored[id])
  }

  function ProbeAll(candidates: map<string, Metadata>, world: World): map<string, Judged> {
    map id | id in candidates :: Probed(candidates[id], world)
  }

  function Rows(judged: map<string, Judged>): map<string, Metadata> {
    map id | id in judged :: judged[id].0
  }

  function Reasons(judged: map<string, Judged>): map<string, Reason> {
    map id | id in judged && judged[id].1.Some? :: judged[id].1.value
  }

  function HydrateStep(catalog: Catalog, st: State, world: World): State {
    var judged := ProbeAll(Candidates(catalog, st.stored), world);
    st.(byId := Rows(judged), reasons := Reasons(judged))
  }

  function RefreshStep(st: State, world: World): State {
    var judged := ProbeAll(st.byId, world);
    st.(byId := Rows(judged), reasons := Reasons(judged))
  }

  function ReloadStep(catalog: Catalog, st: State, id: string, world: World): State {
    if id !in st.stored || !Decodable(st.stored[id], catalog.hostAllows) then
      st.(byId := st.byId - {id}, reasons := st.reasons - {id})
    else
      var (meta, reason) := Probed(Decoded(id, st.stored[id]), world);
      st.(byId := st.byId[id := meta], reasons := Put(st.reasons, id, reason))
  }

  function Step(catalog: Catalog, st: State, op: Op): State {
    match op
    case ApplyHandshake(id, snapshot) => HandshakeStep(catalog, st, id, snapshot)
    case Hydrate(world) => HydrateStep(catalog, st, world)
    case Refresh(world) => RefreshStep(st, world)
    case Reload(id, world) => ReloadStep(catalog, st, id, world)
    case Save(id, row) => st.(stored := Put(st.stored, id, row))
  }

  // ---- The registry object ----

  class AgentRegistry {
    var byId: map<string, Metadata>
    var unavailableReasons: map<string, Reason>
    var stored: map<string, Row>    // the repository behind the registry
    const catalog: Catalog

    ghost function View(): State
      reads this
    {
      State(byId, unavailableReasons, stored)
    }

    /** Cached rows know their own key. */
    ghost predicate Valid()
      reads this
    {
      forall id | id in byId :: byId[id].id == id
    }

    constructor (stored: map<string, Row>, catalog: Catalog)
      ensures Valid() && View() == State(map[], map[], stored) && this.catalog == catalog
    {
      byId, unavailableReasons := map[], map[];
      this.stored, this.catalog := stored, catalog;
    }

    method UpdateCachedUnavailableReason(id: string, reason: Option<Reason>)
      modifies this`unavailableReasons
      ensures unavailableReasons == Put(old(unavailableReasons), id, reason)
    {
      if reason.Some? {
        unavailableReasons := unavailableReasons[id := reason.value];
      } else {
        unavailableReasons := unavailableReasons - {id};
      }
    }

    method ApplyHandshakeInner(id: string, incoming: Handshake)
      requires Valid()
      modifies this
      ensures Valid() && View() == Step(catalog, old(View()), ApplyHandshake(id, incoming))
    {
      var snapshot := incoming;
      if incoming.configOptions.Some? {
        var existing := if id in byId then byId[id].handshake.configOptions else None;
        var merged := catalog.merge(existing, incoming.configOptions.value);
        if merged.Some? {
          snapshot := snapshot.(configOptions := merged);
        }
      }
      snapshot := Enriched(catalog, snapshot);
      if id !in stored {
        return;
      }
      var row := stored[id].(handshake := Overlay(stored[id].handshake, snapshot));
      stored := stored[id := row];
      if Decodable(row, catalog.hostAllows) {
        Cache(Decoded(id, row));
      }
    }

    /** Put a row the handshake changed into the cache, with the availability it had there. */
    method Cache(decoded: Metadata)
      requires Valid()
      modifies this`byId, this`unavailableReasons
      ensures Valid()
      ensures byId == old(byId)[decoded.id := HandshakeJudgement(old(View()), decoded.id, decoded).0]
      ensures unavailableReasons
           == Put(old(unavailableReasons), decoded.id, HandshakeJudgement(old(View()), decoded.id, decoded).1)
    {
      var id := decoded.id;
      var (meta, reason) := ApplyCached(decoded);
      if id in byId {
        meta := meta.(available := byId[id].available, resolvedCommand := byId[id].resolvedCommand);
        if meta.available {
          reason := None;
        } else if id in unavailableReasons {
          reason := Some(unavailableReasons[id]);
        }
      }
      UpdateCachedUnavailableReason(id, reason);
      byId := byId[id := meta];
    }

    /** Split judged rows into the two cached maps; the probes finish in any order. */
    method Split(judged: map<string, Judged>) returns (rows: map<string, Metadata>, reasons: map<string, Reason>)
      ensures rows == Rows(judged) && reasons == Reasons(judged)
    {
      rows, reasons := map[], map[];
      var pending := judged.Keys;
      while pending != {}
        invariant pending <= judged.Keys
        invariant rows == Rows(judged - pending)
        invariant reasons == Reasons(judged - pending)
        decreases pending
      {
        var id :| id in pending;
        pending := pending - {id};
        if judged[id].1.Some? {
          reasons := reasons[id := judged[id].1.value];
        }
        rows := rows[id := judged[id].0];
      }
      assert judged - pending == judged;
    }

    method HydrateAll(world: World)
      requires Valid()
      modifies this`byId, this`unavailableReasons
      ensures Valid() && View() == Step(catalog, old(View()), Hydrate(world))
    {
      var candidates := Candidates(catalog, stored);
      forall id | id in candidates { ProbeAlwaysExplains(candidates[id], world); }
      byId, unavailableReasons := Split(ProbeAll(candidates, world));
    }

    method RefreshAvailability(world: World)
      requires Valid()
      modifies this`byId, this`unavailableReasons
      ensures Valid() && View() == Step(catalog, old(View()), Refresh(world))
    {
      var judged := ProbeAll(byId, world);
      var _, reasons := Split(judged);
      WriteAvailability(judged, world);
      unavailableReasons := reasons;
    }

    /** Only the two availability fields of each cached row are written. */
    method WriteAvailability(judged: map<string, Judged>, ghost world: World)
      requires Valid() && judged == ProbeAll(byId, world)
      modifies this`byId
      ensures Valid() && byId == Rows(judged)
    {
      ghost var before := byId;
      var pending := judged.Keys;
      while pending != {}
        invariant pending <= judged.Keys == byId.Keys == before.Keys
        invariant forall id | id in byId :: byId[id] == if id in pending then before[id] else judged[id].0
        decreases pending
      {
        var id :| id in pending;
        pending := pending - {id};
        ProbeAlwaysExplains(before[id], world);
        var (meta, _) := judged[id];
        byId := byId[id := byId[id].(available := meta.available, resolvedCommand := meta.resolvedCommand)];
      }
      forall id | id in before { ProbeAlwaysExplains(before[id], world); }
    }

    method ReloadOne(id: string, world: World) returns (reloaded: Option<Metadata>)
      requires Valid()
      modifies this`byId, this`unavailableReasons
      ensures Valid() && View() == Step(catalog, old(View()), Reload(id, world))
      ensures reloaded == if id in byId then Some(byId[id]) else None
    {
      if id !in stored || !Decodable(stored[id], catalog.hostAllows) {
        byId := byId - {id};
        unavailableReasons := unavailableReasons - {id};
        return None;
      }
      var (meta, reason) := Probed(Decoded(id, stored[id]), world);
      UpdateCachedUnavailableReason(id, reason);
      byId := byId[id := meta];
      reloaded := Some(meta);
    }
  }
}
