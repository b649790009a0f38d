/** The registry's sweeps in two steps: hydrate, refresh_availability and reload_one read, probe the
  * machine, and only then write; handshakes and other services' writes come in between. */
module RegistryRaces {
  import opened AgentAvailability
  import opened AgentTypes
  import opened Registry
  import opened RegistryTheorems
  import opened Wrappers

  datatype Sweep =
    | Hydrating(world: World)
    | Refreshing(world: World)
    | Reloading(id: string, world: World)

  /** A `Write` names the place in the run of the read whose results it writes. */
  datatype Event =
    | Read(sweep: Sweep)
    | Write(read: nat)
    | Handshaken(id: string, snapshot: Handshake)
    | Saved(id: string, row: Option<Row>)

  /** `judged` holds the results that have been read and not been written yet. */
  datatype Racing = Racing(reg: State, judged: map<nat, map<string, Judged>>)

  function Results(catalog: Catalog, reg: State, sweep: Sweep): map<string, Judged> {
    match sweep
    case Hydrating(world) => ProbeAll(Candidates(catalog, reg.stored), world)
    case Refreshing(world) => ProbeAll(reg.byId, world)
    case Reloading(id, world) => ProbeAll(map row | row in Candidates(catalog, reg.stored) && row == id
                                            :: Candidates(catalog, reg.stored)[row], world)
  }

  /** A refresh writes the two availability fields of the rows that are still cached. */
  function Refreshed(byId: map<string, Metadata>, judged: map<string, Judged>): map<string, Metadata> {
    map id | id in byId ::
      if id in judged
      then byId[id].(available := judged[id].0.available, resolvedCommand := judged[id].0.resolvedCommand)
      else byId[id]
  }

  function Written(reg: State, sweep: Sweep, judged: map<string, Judged>): State {
    match sweep
    case Hydrating(_) => reg.(byId := Rows(judged), reasons := Reasons(judged))
    case Refreshing(_) => reg.(byId := Refreshed(reg.byId, judged), reasons := Reasons(judged))
    case Reloading(id, _) =>
      if id in judged then reg.(byId := reg.byId[id := judged[id].0], reasons := Put(reg.reasons, id, judged[id].1))
      else reg.(byId := reg.byId - {id}, reasons := reg.reasons - {id})
  }

  predicate CanWrite(racing: Racing, events: seq<Event>, read: nat) {
    read < |events| && events[read].Read? && read in racing.judged
  }

  function After(catalog: Catalog, stored: map<string, Row>, events: seq<Event>): Racing {
    if events == [] then Racing(Booted(stored), map[])
    else
      var n := |events| - 1;
      var racing := After(catalog, stored, events[..n]);
      match events[n]
      case Read(sweep) => racing.(judged := racing.judged[n := Results(catalog, racing.reg, sweep)])
      case Write(read) =>
        if CanWrite(racing, events[..n], read)
        then Racing(Written(racing.reg, events[read].sweep, racing.judged[read]), racing.judged - {read})
        else racing
      case Handshaken(id, snapshot) => racing.(reg := HandshakeStep(catalog, racing.reg, id, snapshot))
      case Saved(id, row) => racing.(reg := racing.reg.(stored := Put(racing.reg.stored, id, row)))
  }

  /** A read that is written at once is the operation taken as one act. */
  lemma ReadThenWriteIsStep(catalog: Catalog, reg: State, sweep: Sweep)
    requires forall id | id in reg.byId :: reg.byId[id].id == id
    ensures Written(reg, sweep, Results(catalog, reg, sweep)) ==
              match sweep
              case Hydrating(world) => Step(catalog, reg, Hydrate(world))
              case Refreshing(world) => Step(catalog, reg, Refresh(world))
              case Reloading(id, world) => Step(catalog, reg, Reload(id, world))
  {
    if sweep.Refreshing? {
      RefreshedAtOnce(reg.byId, sweep.world);
    }
  }

  lemma RefreshedAtOnce(byId: map<string, Metadata>, world: World)
    ensures Refreshed(byId, ProbeAll(byId, world)) == Rows(ProbeAll(byId, world))
  {
    forall id | id in byId { ProbeAlwaysExplains(byId[id], world); }
  }

  // ---- Which storage the cache shows ----

  /** The row the decoder makes of storage, before its availability is judged. */
  function Image(catalog: Catalog, stored: map<string, Row>, id: string): Option<Metadata> {
    if id in stored && Decodable(stored[id], catalog.hostAllows) then Some(Decoded(id, stored[id])) else None
  }

  function Bare(meta: Metadata): Metadata {
    meta.(available := false, resolvedCommand := None)
  }

  /** The cached row, availability aside. */
  function Mirror(reg: State, id: string): Option<Metadata> {
    if id in reg.byId then Some(Bare(reg.byId[id])) else None
  }

  /** The cached row is what the decoder would make of storage now. */
  predicate UpToDate(catalog: Catalog, reg: State, id: string) {
    Mirror(reg, id) == Image(catalog, reg.stored, id)
  }

  /** The number of events after which storage was what the cache shows for `id`; none if nothing
    * has been written for it. */
  function ShownAfter(catalog: Catalog, stored: map<string, Row>, events: seq<Event>, id: string): (n: Option<nat>)
    ensures n.Some? ==> n.value <= |events|
  {
    if events == [] then None
    else
      var n := |events| - 1;
      var racing, earlier := After(catalog, stored, events[..n]), ShownAfter(catalog, stored, events[..n], id);
      match events[n]
      case Write(read) =>
        if CanWrite(racing, events[..n], read)
           && (events[read].sweep.Hydrating? || (events[read].sweep.Reloading? && events[read].sweep.id == id))
        then Some(read) else earlier
      case Handshaken(target, _) =>
        if target == id && Image(catalog, racing.reg.stored, id).Some? then Some(n + 1) else earlier
      case _ => earlier
  }

  function StoredAfter(catalog: Catalog, stored: map<string, Row>, events: seq<Event>): map<string, Row> {
    After(catalog, stored, events).reg.stored
  }

  /** Results wait unchanged for their write. */
  lemma {:induction false} ResultsWait(catalog: Catalog, stored: map<string, Row>, events: seq<Event>, r: nat)
    requires r in After(catalog, stored, events).judged
    ensures r < |events| && events[r].Read?
    ensures After(catalog, stored, events).judged[r] ==
            Results(catalog, After(catalog, stored, events[..r]).reg, events[r].sweep)
    decreases |events|
  {
    var n := |events| - 1;
    if r == n && events[n].Read? {
    } else {
      ResultsWait(catalog, stored, events[..n], r);
      assert events[..n][..r] == events[..r];
    }
  }

  lemma HydratingShows(catalog: Catalog, was: State, now: State, world: World, id: string)
    ensures Mirror(Written(now, Hydrating(world), Results(catalog, was, Hydrating(world))), id)
         == Image(catalog, was.stored, id)
  {
    if id in Candidates(catalog, was.stored) {
      ProbeAlwaysExplains(Decoded(id, was.stored[id]), world);
    }
  }

  lemma ReloadingShows(catalog: Catalog, was: State, now: State, target: string, world: World, id: string)
    ensures Mirror(Written(now, Reloading(target, world), Results(catalog, was, Reloading(target, world))), id)
         == if id == target then Image(catalog, was.stored, id) else Mirror(now, id)
  {
    if target in Candidates(catalog, was.stored) {
      ProbeAlwaysExplains(Decoded(target, was.stored[target]), world);
    }
  }

  lemma RefreshingShows(now: State, world: World, judged: map<string, Judged>, id: string)
    ensures Mirror(Written(now, Refreshing(world), judged), id) == Mirror(now, id)
  {
  }

  lemma HandshakeShows(catalog: Catalog, reg: State, target: string, snapshot: Handshake, id: string)
    ensures var after := HandshakeStep(catalog, reg, target, snapshot);
            && Mirror(after, id) == (if target == id && Image(catalog, reg.stored, id).Some?
                                     then Image(catalog, after.stored, id) else Mirror(reg, id))
            && (Image(catalog, after.stored, id).Some? <==> Image(catalog, reg.stored, id).Some?)
  {
    if target in reg.stored {
      var update := Update(catalog, reg, target, snapshot);
      var row := reg.stored[target].(handshake := Overlay(reg.stored[target].handshake, update));
      if Decodable(row, catalog.hostAllows) {
        CachedExplainsExcept(Decoded(target, row));
      }
    }
  }

  lemma WriteShows(catalog: Catalog, stored: map<string, Row>, events: seq<Event>, r: nat, id: string)
    requires CanWrite(After(catalog, stored, events), events, r)
    ensures var racing, sweep := After(catalog, stored, events), events[r].sweep;
            Mirror(Written(racing.reg, sweep, racing.judged[r]), id) ==
              if sweep.Hydrating? || (sweep.Reloading? && sweep.id == id)
              then Image(catalog, StoredAfter(catalog, stored, events[..r]), id) else Mirror(racing.reg, id)
  {
    var racing, was := After(catalog, stored, events), After(catalog, stored, events[..r]).reg;
    ResultsWait(catalog, stored, events, r);
    match events[r].sweep
    case Hydrating(world) => HydratingShows(catalog, was, racing.reg, world, id);
    case Refreshing(world) => RefreshingShows(racing.reg, world, racing.judged[r], id);
    case Reloading(target, world) => ReloadingShows(catalog, was, racing.reg, target, world, id);
  }

  /** After any interleaving the cache shows for each row what storage held when the last results
    * written for it were read, or when the last handshake reached it, whichever came last. */
  lemma {:induction false} CacheShowsEarlierStorage(
    catalog: Catalog, stored: map<string, Row>, events: seq<Event>, id: string)
    ensures Mirror(After(catalog, stored, events).reg, id) ==
            match ShownAfter(catalog, stored, events, id)
            case Some(n) => Image(catalog, StoredAfter(catalog, stored, events[..n]), id)
            case None => None
    decreases |events|
  {
    if events == [] {
    } else {
      var n := |events| - 1;
      var before := events[..n];
      var racing := After(catalog, stored, before);
      CacheShowsEarlierStorage(catalog, stored, before, id);
      PrefixStays(catalog, stored, events, id);
      match events[n]
      case Write(read) =>
        if CanWrite(racing, before, read) {
          WriteShows(catalog, stored, before, read, id);
          assert before[..read] == events[..read] && before[read] == events[read];
        }
      case Handshaken(target, snapshot) =>
        HandshakeShows(catalog, racing.reg, target, snapshot, id);
        assert events[..n + 1] == events;
      case _ =>
    }
  }

  lemma PrefixStays(catalog: Catalog, stored: map<string, Row>, events: seq<Event>, id: string)
    requires events != []
    ensures var shown := ShownAfter(catalog, stored, events[..|events| - 1], id);
            shown.Some? ==> events[..|events| - 1][..shown.value] == events[..shown.value]
  {
  }

  /** So a cached row is up to date exactly if what the decoder makes of storage has not changed
    * since; a row nothing was written for, exactly if there is nothing to cache. */
  lemma UpToDateExactly(catalog: Catalog, stored: map<string, Row>, events: seq<Event>, id: string)
    ensures UpToDate(catalog, After(catalog, stored, events).reg, id) <==>
            var now := Image(catalog, StoredAfter(catalog, stored, events), id);
            match ShownAfter(catalog, stored, events, id)
            case Some(n) => Image(catalog, StoredAfter(catalog, stored, events[..n]), id) == now
            case None => now == None
  {
    CacheShowsEarlierStorage(catalog, stored, events, id);
  }

  predicate Touches(event: Event, id: string) {
    (event.Handshaken? || event.Saved?) && event.id == id
  }

  /** Storage of a row changes only by handshakes and writes of that row. */
  lemma {:induction false} UntouchedStays(
    catalog: Catalog, stored: map<string, Row>, events: seq<Event>, n: nat, id: string)
    requires n <= |events| && forall k | n <= k < |events| :: !Touches(events[k], id)
    ensures Image(catalog, StoredAfter(catalog, stored, events[..n]), id)
         == Image(catalog, StoredAfter(catalog, stored, events), id)
    decreases |events|
  {
    if n == |events| {
      assert events[..n] == events;
    } else {
      var m := |events| - 1;
      assert events[..m][..n] == events[..n];
      UntouchedStays(catalog, stored, events[..m], n, id);
      UntouchedByStep(catalog, stored, events, id);
    }
  }

  lemma UntouchedByStep(catalog: Catalog, stored: map<string, Row>, events: seq<Event>, id: string)
    requires events != [] && !Touches(events[|events| - 1], id)
    ensures Image(catalog, StoredAfter(catalog, stored, events[..|events| - 1]), id)
         == Image(catalog, StoredAfter(catalog, stored, events), id)
  {
  }

  // ---- A handshake between a hydrate's read and its write ----

  /** The config options a hydrate has read for a row. */
  function OptionsRead(catalog: Catalog, stored: map<string, Row>, id: string): Option<Json> {
    if Image(catalog, stored, id).Some? then stored[id].handshake.configOptions else None
  }

  /** The write of a hydrate leaves the options a handshake will be merged against in step with
    * storage exactly if the stored options are the ones the hydrate has read. */
  lemma HydrateWriteKeepsOptions(catalog: Catalog, stored: map<string, Row>, events: seq<Event>, r: nat, id: string)
    requires CanWrite(After(catalog, stored, events), events, r) && events[r].sweep.Hydrating?
    requires id in StoredAfter(catalog, stored, events)
    ensures InStep(After(catalog, stored, events + [Write(r)]).reg, id) <==>
              OptionsRead(catalog, StoredAfter(catalog, stored, events[..r]), id)
              == ConfigAt(StoredAfter(catalog, stored, events), id)
  {
    var all := events + [Write(r)];
    assert all[..|events|] == events && all[r] == events[r];
    WriteShows(catalog, stored, events, r, id);
  }

  lemma AfterOneMore(catalog: Catalog, stored: map<string, Row>, events: seq<Event>, event: Event)
    ensures var racing, n := After(catalog, stored, events), |events|;
            match event
            case Read(sweep) =>
              After(catalog, stored, events + [event])
              == racing.(judged := racing.judged[n := Results(catalog, racing.reg, sweep)])
            case Handshaken(id, snapshot) =>
              After(catalog, stored, events + [event])
              == racing.(reg := HandshakeStep(catalog, racing.reg, id, snapshot))
            case _ => true
  {
    assert (events + [event])[..|events|] == events;
  }

  lemma HandshakeStores(catalog: Catalog, stored: map<string, Row>, id: string, snapshot: Handshake, sent: Json)
    requires id in stored && snapshot.configOptions == Some(sent) && catalog.merge(None, sent) == Some(sent)
    ensures ConfigAt(HandshakeStep(catalog, Booted(stored), id, snapshot).stored, id) == Some(sent)
  {
  }

  lemma HydrateThenHandshake(catalog: Catalog, stored: map<string, Row>, world: World, id: string, snapshot: Handshake)
    ensures After(catalog, stored, [Read(Hydrating(world)), Handshaken(id, snapshot)])
         == Racing(HandshakeStep(catalog, Booted(stored), id, snapshot),
                   map[0 := Results(catalog, Booted(stored), Hydrating(world))])
  {
    var read, told := Read(Hydrating(world)), Handshaken(id, snapshot);
    AfterOneMore(catalog, stored, [], read);
    AfterOneMore(catalog, stored, [read], told);
    assert [] + [read] == [read] && [read] + [told] == [read, told];
  }

  /** A handshake that comes in between reaches storage, and the hydrate then forgets it. */
  lemma HydrateForgetsHandshake(catalog: Catalog, world: World, id: string, snapshot: Handshake, sent: Json)
    requires catalog.hostAllows(Acp) && snapshot.configOptions == Some(sent)
    requires catalog.merge(None, sent) == Some(sent)
    ensures var events := [Read(Hydrating(world)), Handshaken(id, snapshot), Write(0)];
            var reg := After(catalog, map[id := MANAGED_ROW], events).reg;
            Mirror(reg, id) == Some(Decoded(id, MANAGED_ROW)) && ConfigAt(reg.stored, id) == Some(sent)
  {
    var stored := map[id := MANAGED_ROW];
    var between := [Read(Hydrating(world)), Handshaken(id, snapshot)];
    HydrateThenHandshake(catalog, stored, world, id, snapshot);
    HandshakeStores(catalog, stored, id, snapshot, sent);
    var all := [Read(Hydrating(world)), Handshaken(id, snapshot), Write(0)];
    assert all[..2] == between;
    HydratingShows(catalog, Booted(stored), After(catalog, stored, between).reg, world, id);
  }

  // ---- Availability under interleaving ----

  /** An available row has no stored reason, and a resolved command means available. */
  ghost predicate SoundRows(reg: State) {
    forall id | id in reg.byId ::
      && reg.byId[id].id == id
      && (reg.byId[id].available ==> id !in reg.reasons)
      && (reg.byId[id].resolvedCommand.Some? ==> reg.byId[id].available)
  }

  ghost predicate SoundResults(judged: map<string, Judged>) {
    forall id | id in judged ::
      judged[id].0.id == id && Sound(judged[id]) && (!judged[id].0.available <==> judged[id].1.Some?)
  }

  lemma ResultsAreSound(catalog: Catalog, reg: State, sweep: Sweep)
    requires SoundRows(reg)
    ensures SoundResults(Results(catalog, reg, sweep))
  {
    forall meta, world { ProbeAlwaysExplains(meta, world); }
  }

  lemma WriteKeepsSound(reg: State, sweep: Sweep, judged: map<string, Judged>)
    requires SoundRows(reg) && SoundResults(judged)
    ensures SoundRows(Written(reg, sweep, judged))
  {
  }

  lemma HandshakeKeepsSound(catalog: Catalog, reg: State, id: string, snapshot: Handshake)
    requires SoundRows(reg)
    ensures SoundRows(HandshakeStep(catalog, reg, id, snapshot))
  {
    if id in reg.stored {
      var row := reg.stored[id].(handshake := Overlay(reg.stored[id].handshake, Update(catalog, reg, id, snapshot)));
      if Decodable(row, catalog.hostAllows) {
        CachedExplainsExcept(Decoded(id, row));
      }
    }
  }

  /** However the sweeps interleave, an available row never has a reason. */
  lemma {:induction false} RowsStaySound(catalog: Catalog, stored: map<string, Row>, events: seq<Event>)
    ensures SoundRows(After(catalog, stored, events).reg)
    ensures forall r | r in After(catalog, stored, events).judged ::
              SoundResults(After(catalog, stored, events).judged[r])
    decreases |events|
  {
    if events == [] {
    } else {
      var n := |events| - 1;
      var racing := After(catalog, stored, events[..n]);
      RowsStaySound(catalog, stored, events[..n]);
      match events[n]
      case Read(sweep) => ResultsAreSound(catalog, racing.reg, sweep);
      case Write(read) =>
        if CanWrite(racing, events[..n], read) {
          WriteKeepsSound(racing.reg, events[read].sweep, racing.judged[read]);
        }
      case Handshaken(id, snapshot) => HandshakeKeepsSound(catalog, racing.reg, id, snapshot);
      case Saved(_, _) =>
    }
  }

  /** The write of a refresh replaces all reasons by those it has read: rows cached since stay
    * explained exactly if they are available, and no reason is left over exactly if the rows the
    * refresh found unavailable are still cached. */
  lemma RefreshWriteExplains(reg: State, world: World, judged: map<string, Judged>)
    requires SoundRows(reg) && SoundResults(judged)
    ensures Explained(Written(reg, Refreshing(world), judged)) <==>
            forall id | id in reg.byId && id !in judged :: reg.byId[id].available
    ensures Written(reg, Refreshing(world), judged).reasons.Keys <= reg.byId.Keys <==>
            forall id | id in judged && !judged[id].0.available :: id in reg.byId
  {
    var after := Written(reg, Refreshing(world), judged);
    forall id | id in reg.byId
      ensures (after.byId[id].available || id in after.reasons) <==> (id in judged || reg.byId[id].available)
    {
    }
  }
}
