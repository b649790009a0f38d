/** When a catalogue row counts as available (registry.rs).
  *
  * The machine the registry probes is an oracle; a JSON value is its canonical text, so that
  * writing it to a column and parsing it back is a round trip.
  */
module AgentAvailability {
  import opened AgentTypes
  import opened RustStrings
  import opened Wrappers

  type Json = string

  datatype Handshake = Handshake(
    agentCapabilities: Option<Json>, authMethods: Option<Json>, configOptions: Option<Json>,
    availableModes: Option<Json>, availableModels: Option<Json>, availableCommands: Option<Json>)

  datatype CheckStatus = Online | Offline

  /** The persisted result of the last health check. */
  datatype Snapshot = Snapshot(
    status: Option<CheckStatus>, kind: Option<string>, errorCode: Option<string>, errorMessage: Option<string>,
    at: Option<int>, successAt: Option<int>, failureAt: Option<int>)

  datatype SourceInfo = SourceInfo(binaryName: Option<string>, bridgeBinary: Option<string>)

  /** A stored row. A type or source the decoder does not know is `None`. */
  datatype Row = Row(
    agentType: Option<AgentType>, agentSource: Option<AgentSource>, info: SourceInfo, backend: Option<string>,
    enabled: bool, command: Option<string>, commandOverride: Option<string>, snapshot: Snapshot, handshake: Handshake)

  /** A cached row. */
  datatype Metadata = Metadata(
    id: string, agentType: AgentType, agentSource: AgentSource, info: SourceInfo, backend: Option<string>,
    enabled: bool, command: Option<string>, hasCommandOverride: bool, snapshot: Snapshot, handshake: Handshake,
    available: bool, resolvedCommand: Option<string>)

  datatype Reason =
    | Disabled
    | NoCommand
    | BridgeMissing(bridge: string)
    | PrimaryMissing(binary: string)
    | PrimaryUnusable(binary: string, detail: string)
    | CommandMissing(command: string)
    | ManagedRuntimeUnavailable(resource: string, detail: string)

  /** What probing the machine yields at some moment. */
  datatype World = World(
    nodeProblem: Option<string>,              // why the Node runtime is not supported
    toolProblem: string -> Option<string>,    // why a managed tool is not supported
    candidate: string -> Option<string>,      // where a command resolves to
    versionProblem: Metadata -> Option<string>)  // why the version probe of the CLI fails

  // ---- Classifying a row ----

  function ManagedTool(backend: string): Option<string> {
    if backend == "codex" then Some("codex-acp")
    else if backend == "claude" then Some("claude-agent-acp")
    else None
  }

  predicate IsBuiltinManaged(meta: Metadata) {
    meta.agentSource == Builtin && meta.backend.Some? && ManagedTool(meta.backend.value).Some?
  }

  predicate IsInternalCommandless(meta: Metadata) {
    meta.enabled && meta.command.None? && meta.agentSource == Internal
  }

  predicate ShouldDeferProbe(meta: Metadata) {
    meta.agentType == Acp && (meta.agentSource != Builtin || IsBuiltinManaged(meta))
  }

  predicate HasSnapshot(meta: Metadata) {
    meta.snapshot.status.Some? || meta.snapshot.kind.Some? || meta.snapshot.errorCode.Some?
    || meta.snapshot.at.Some? || meta.snapshot.successAt.Some? || meta.snapshot.failureAt.Some?
  }

  const MISSING_CODES := {"command_not_found", "command_missing", "primary_missing", "bridge_missing",
                          "managed_runtime_unavailable", "no_command", "disabled"}

  predicate SnapshotIndicatesMissing(meta: Metadata) {
    meta.snapshot.errorCode.Some? && meta.snapshot.errorCode.value in MISSING_CODES
  }

  function Or<T>(first: Option<T>, second: Option<T>): Option<T> {
    if first.Some? then first else second
  }

  function GetOr<T>(option: Option<T>, default: T): T {
    if option.Some? then option.value else default
  }

  function CachedReason(meta: Metadata): Option<Reason> {
    if meta.snapshot.errorCode.None? then None
    else
      var code := meta.snapshot.errorCode.value;
      if code == "disabled" then Some(Disabled)
      else if code == "no_command" then Some(NoCommand)
      else if code == "bridge_missing" then
        if meta.info.bridgeBinary.Some? then Some(BridgeMissing(meta.info.bridgeBinary.value)) else None
      else if code == "primary_missing" then
        if meta.info.binaryName.Some? then Some(PrimaryMissing(meta.info.binaryName.value)) else None
      else if code == "command_not_found" || code == "command_missing" then
        Some(CommandMissing(GetOr(Or(meta.info.binaryName, meta.command), "command")))
      else if code == "managed_runtime_unavailable" then
        Some(ManagedRuntimeUnavailable(GetOr(meta.backend, "runtime"),
               GetOr(meta.snapshot.errorMessage, "managed runtime was unavailable during the last health check")))
      else None
  }

  // ---- Projections ----

  type Judged = (Metadata, Option<Reason>)

  /** Availability from the stored state alone. */
  function ApplyCached(meta: Metadata): Judged {
    if !meta.enabled then (meta.(available := false), Some(Disabled))
    else if IsInternalCommandless(meta) then (meta.(available := true), None)
    else if SnapshotIndicatesMissing(meta) then (meta.(available := false), CachedReason(meta))
    else if !HasSnapshot(meta) then
      (meta.(available := false),
       if IsBuiltinManaged(meta) then None
       else if meta.command.None? || meta.command.value == "" then Some(NoCommand)
       else None)
    else (meta.(available := true), None)
  }

  function ProbeResolved(meta: Metadata, world: World): Result<string, Reason> {
    if !meta.enabled then Err(Disabled)
    else if IsBuiltinManaged(meta) then
      var tool := ManagedTool(meta.backend.value).value;
      if world.nodeProblem.Some? then Err(ManagedRuntimeUnavailable("node", world.nodeProblem.value))
      else if world.toolProblem(tool).Some? then Err(ManagedRuntimeUnavailable(tool, world.toolProblem(tool).value))
      else Ok(tool)
    else if meta.command.None? || meta.command.value == "" then Err(NoCommand)
    else
      var command := meta.command.value;
      var bridge, primary := meta.info.bridgeBinary, meta.info.binaryName;
      if bridge.Some? && bridge.value != command && world.candidate(bridge.value).None? then
        Err(BridgeMissing(bridge.value))
      else if primary.Some? && primary.value != command && bridge != primary
              && world.candidate(primary.value).None? then
        Err(PrimaryMissing(primary.value))
      else if world.candidate(command).Some? then Ok(world.candidate(command).value)
      else Err(CommandMissing(command))
  }

  /** Availability against the machine; commands of external ACP agents are not looked up. */
  function ApplyProbe(meta: Metadata, world: World): Judged {
    if ShouldDeferProbe(meta) then
      var m := meta.(resolvedCommand := None);
      if !meta.enabled then (m.(available := false), Some(Disabled))
      else
        var available := IsBuiltinManaged(meta) || (meta.command.Some? && Trim(meta.command.value) != "");
        (m.(available := available), if available then None else Some(NoCommand))
    else
      match ProbeResolved(meta, world)
      case Ok(path) => (meta.(resolvedCommand := Some(path), available := true), None)
      case Err(reason) =>
        var available := IsInternalCommandless(meta);
        (meta.(resolvedCommand := None, available := available), if available then None else Some(reason))
  }

  function CliName(meta: Metadata): Option<string> {
    if meta.hasCommandOverride && meta.command.Some? && meta.command.value != "" then meta.command
    else Or(meta.info.binaryName, meta.command)
  }

  /** The version probe of builtin agents. */
  function Validate(judged: Judged, world: World): Judged {
    var meta := judged.0;
    if !meta.available || meta.agentSource != Builtin || ShouldDeferProbe(meta) || CliName(meta).None? then judged
    else
      match world.versionProblem(meta)
      case None => (meta, None)
      case Some(detail) =>
        (meta.(available := false, resolvedCommand := None), Some(PrimaryUnusable(CliName(meta).value, detail)))
  }

  function Probed(meta: Metadata, world: World): Judged {
    Validate(ApplyProbe(meta, world), world)
  }

  // ---- What the catalogue reads show ----

  datatype ManagementStatus = Missing | Unchecked | StatusOnline | StatusOffline

  function DeriveStatus(meta: Metadata, reason: Option<Reason>): ManagementStatus {
    if !meta.available then if reason.Some? || HasSnapshot(meta) then Missing else Unchecked
    else if IsInternalCommandless(meta) then StatusOnline
    else
      match meta.snapshot.status
      case Some(Offline) => StatusOffline
      case Some(Online) => StatusOnline
      case None => Unchecked
  }

  predicate IsVisible(meta: Metadata) {
    meta.enabled && DeriveStatus(meta, None) == StatusOnline
  }

  // ---- Decoding a stored row ----

  predicate IsInternalAionCli(row: Row) {
    row.agentType == Some(Aionrs) && row.agentSource == Some(Internal)
  }

  function CommandOverride(row: Row): Option<string> {
    if row.commandOverride.Some? && Trim(row.commandOverride.value) != ""
    then Some(Trim(row.commandOverride.value))
    else None
  }

  predicate Decodable(row: Row, hostAllows: AgentType -> bool) {
    row.agentType.Some? && hostAllows(row.agentType.value) && row.agentSource.Some?
  }

  /** The row before its availability is judged. */
  function Decoded(id: string, row: Row): Metadata
    requires row.agentType.Some? && row.agentSource.Some?
  {
    var override := CommandOverride(row);
    Metadata(id, row.agentType.value, row.agentSource.value, row.info, row.backend, row.enabled,
             if IsInternalAionCli(row) then None else Or(override, row.command),
             override.Some? && !IsInternalAionCli(row), row.snapshot, row.handshake, false, None)
  }

  // ---- What a judgement always satisfies ----

  /** An available row comes without a reason; a resolved command means available. */
  predicate Sound(judged: Judged) {
    && (judged.0.available ==> judged.1.None?)
    && (judged.0.resolvedCommand.Some? ==> judged.0.available)
  }

  /** A live probe is sound and always says why a row is unavailable, so the warning that an
    * unavailable row has no reason is never logged. It changes nothing but the two fields. */
  lemma ProbeAlwaysExplains(meta: Metadata, world: World)
    ensures Sound(Probed(meta, world))
    ensures !Probed(meta, world).0.available <==> Probed(meta, world).1.Some?
    ensures Probed(meta, world).0 ==
              meta.(available := Probed(meta, world).0.available,
                    resolvedCommand := Probed(meta, world).0.resolvedCommand)
  {
  }

  predicate Found(world: World, meta: Metadata, binary: Option<string>) {
    binary.None? || binary == meta.command || world.candidate(binary.value).Some?
  }

  /** A live lookup resolves a command exactly if everything the row needs is there; if not, the
    * reason names what is missing, and what it is looked up after is not. */
  lemma ProbeNamesFirstMissing(meta: Metadata, world: World)
    ensures var bridge, primary := Found(world, meta, meta.info.bridgeBinary), Found(world, meta, meta.info.binaryName);
            match ProbeResolved(meta, world)
            case Ok(path) =>
              meta.enabled
              && (if IsBuiltinManaged(meta)
                  then world.nodeProblem.None? && world.toolProblem(path).None?
                       && ManagedTool(meta.backend.value) == Some(path)
                  else meta.command.Some? && meta.command.value != "" && bridge && primary
                       && world.candidate(meta.command.value) == Some(path))
            case Err(Disabled) => !meta.enabled
            case Err(NoCommand) =>
              meta.enabled && !IsBuiltinManaged(meta) && (meta.command.None? || meta.command == Some(""))
            case Err(BridgeMissing(name)) => meta.info.bridgeBinary == Some(name) && !bridge
            case Err(PrimaryMissing(name)) => meta.info.binaryName == Some(name) && bridge && !primary
            case Err(CommandMissing(name)) =>
              meta.command == Some(name) && bridge && primary && world.candidate(name).None?
            case Err(ManagedRuntimeUnavailable(resource, detail)) =>
              IsBuiltinManaged(meta)
              && (if resource == "node" then world.nodeProblem == Some(detail)
                  else world.nodeProblem.None? && world.toolProblem(resource) == Some(detail))
            case Err(PrimaryUnusable(_, _)) => false
  {
    assert "codex-acp"[0] == 'c' && "claude-agent-acp"[0] == 'c' && "node"[0] == 'n';
  }

  /** The cached judgement leaves a row unavailable without a reason in exactly these cases. */
  predicate CachedLeavesUnexplained(meta: Metadata) {
    && meta.enabled && !IsInternalCommandless(meta)
    && (if SnapshotIndicatesMissing(meta)
        then || (meta.snapshot.errorCode.value == "bridge_missing" && meta.info.bridgeBinary.None?)
             || (meta.snapshot.errorCode.value == "primary_missing" && meta.info.binaryName.None?)
        else !HasSnapshot(meta) && (IsBuiltinManaged(meta) || (meta.command.Some? && meta.command.value != "")))
  }

  lemma CachedExplainsExcept(meta: Metadata)
    requires meta.resolvedCommand.None?
    ensures Sound(ApplyCached(meta))
    ensures !ApplyCached(meta).0.available && ApplyCached(meta).1.None? <==> CachedLeavesUnexplained(meta)
    ensures ApplyCached(meta).0 == meta.(available := ApplyCached(meta).0.available)
  {
  }

  /** A row that is available without looking its command up. */
  predicate NeedsNoLookup(meta: Metadata) {
    meta.enabled
    && if ShouldDeferProbe(meta) then IsBuiltinManaged(meta) || (meta.command.Some? && Trim(meta.command.value) != "")
       else IsInternalCommandless(meta)
  }

  /** `resolved_command` is not `Some` exactly when `available`: the rows that need no lookup are
    * available without one, and only they. */
  lemma ResolvedUnlessDeferredOrInternal(meta: Metadata, world: World)
    ensures Probed(meta, world).0.available && Probed(meta, world).0.resolvedCommand.None? <==> NeedsNoLookup(meta)
  {
  }

  /** Whether a row is visible does not depend on the reason its status is derived with. */
  lemma VisibilityIgnoresReason(meta: Metadata, reason: Option<Reason>)
    ensures IsVisible(meta) <==> meta.enabled && DeriveStatus(meta, reason) == StatusOnline
  {
  }

  // ---- The judgements, told from the row and the machine ----

  /** The tool a managed builtin agent runs as. */
  function Slug(meta: Metadata): Option<string> {
    if meta.agentSource != Builtin then None
    else if meta.backend == Some("codex") then Some("codex-acp")
    else if meta.backend == Some("claude") then Some("claude-agent-acp")
    else None
  }

  predicate HasCommand(meta: Metadata) {
    meta.command.Some? && meta.command.value != ""
  }

  /** All the row needs is on the machine, and `path` is what it resolves to. */
  predicate ResolvesTo(meta: Metadata, world: World, path: string) {
    if Slug(meta).Some? then
      world.nodeProblem.None? && Slug(meta) == Some(path) && world.toolProblem(path).None?
    else
      && HasCommand(meta) && Found(world, meta, meta.info.bridgeBinary) && Found(world, meta, meta.info.binaryName)
      && world.candidate(meta.command.value) == Some(path)
  }

  /** The command whose version is probed: an override, else the binary, else the command. */
  predicate IsCli(meta: Metadata, name: string) {
    if meta.hasCommandOverride && HasCommand(meta) then meta.command == Some(name)
    else if meta.info.binaryName.Some? then meta.info.binaryName == Some(name)
    else meta.command == Some(name)
  }

  /** The version probe of a builtin agent that resolves to `path` finds this problem. */
  predicate VersionFails(meta: Metadata, world: World, path: string, name: string, detail: string) {
    && meta.agentSource == Builtin && IsCli(meta, name)
    && world.versionProblem(meta.(available := true, resolvedCommand := Some(path))) == Some(detail)
  }

  /** The reason is true, and nothing that is looked at before was wrong. */
  ghost predicate NamesTheProblem(meta: Metadata, world: World, reason: Reason) {
    var bridge, primary := Found(world, meta, meta.info.bridgeBinary), Found(world, meta, meta.info.binaryName);
    match reason
    case Disabled => !meta.enabled
    case NoCommand => meta.enabled && Slug(meta).None? && !HasCommand(meta)
    case BridgeMissing(name) =>
      meta.enabled && Slug(meta).None? && HasCommand(meta) && !bridge && meta.info.bridgeBinary == Some(name)
    case PrimaryMissing(name) =>
      meta.enabled && Slug(meta).None? && HasCommand(meta) && bridge && !primary && meta.info.binaryName == Some(name)
    case CommandMissing(name) =>
      meta.enabled && Slug(meta).None? && HasCommand(meta) && bridge && primary
      && meta.command == Some(name) && world.candidate(name).None?
    case ManagedRuntimeUnavailable(resource, detail) =>
      meta.enabled && Slug(meta).Some?
      && if world.nodeProblem.Some? then resource == "node" && world.nodeProblem == Some(detail)
         else Slug(meta) == Some(resource) && world.toolProblem(resource) == Some(detail)
    case PrimaryUnusable(name, detail) =>
      meta.enabled && exists path :: ResolvesTo(meta, world, path) && VersionFails(meta, world, path, name, detail)
  }

  predicate IsDeferred(meta: Metadata) {
    meta.agentType == Acp && (meta.agentSource != Builtin || Slug(meta).Some?)
  }

  /** What a live probe should make of a row. */
  ghost predicate RightlyProbed(meta: Metadata, world: World, judged: Judged) {
    var (m, reason) := judged;
    && m == meta.(available := m.available, resolvedCommand := m.resolvedCommand)
    && (reason.Some? <==> !m.available)
    && if IsDeferred(meta) then
         && m.resolvedCommand.None?
         && (m.available <==>
               meta.enabled && (Slug(meta).Some?
                                || (meta.command.Some? && exists c :: c in meta.command.value && !IsWhitespace(c))))
         && (reason.Some? ==> reason == Some(if meta.enabled then NoCommand else Disabled))
       else
         && (forall path :: m.resolvedCommand == Some(path) <==>
               meta.enabled && ResolvesTo(meta, world, path)
               && forall name, detail :: !VersionFails(meta, world, path, name, detail))
         && (m.available <==>
               m.resolvedCommand.Some? || (meta.enabled && meta.command.None? && meta.agentSource == Internal))
         && (reason.Some? ==> NamesTheProblem(meta, world, reason.value))
  }

  lemma DeferredIsRightlyProbed(meta: Metadata, world: World)
    requires IsDeferred(meta)
    ensures RightlyProbed(meta, world, Probed(meta, world))
  {
    if meta.command.Some? {
      BlankIffAllWhitespace(meta.command.value);
    }
  }

  lemma LookupIsRight(meta: Metadata, world: World)
    ensures forall path :: ProbeResolved(meta, world) == Ok(path) <==> meta.enabled && ResolvesTo(meta, world, path)
    ensures ProbeResolved(meta, world).Err? ==> NamesTheProblem(meta, world, ProbeResolved(meta, world).error)
  {
    ProbeNamesFirstMissing(meta, world);
  }

  lemma CliNameIsCli(meta: Metadata)
    ensures forall name :: CliName(meta) == Some(name) <==> IsCli(meta, name)
  {
  }

  lemma ResolvedIsRightlyProbed(meta: Metadata, world: World, path: string)
    requires !IsDeferred(meta) && ProbeResolved(meta, world) == Ok(path)
    ensures RightlyProbed(meta, world, Probed(meta, world))
  {
    LookupIsRight(meta, world);
    CliNameIsCli(meta);
    var found := meta.(available := true, resolvedCommand := Some(path));
    if meta.agentSource == Builtin && CliName(meta).Some? {
      var name := CliName(meta).value;
      assert IsCli(meta, name);
      match world.versionProblem(found)
      case None =>
      case Some(detail) =>
        assert VersionFails(meta, world, path, name, detail);
    }
  }

  lemma UnresolvedIsRightlyProbed(meta: Metadata, world: World)
    requires !IsDeferred(meta) && ProbeResolved(meta, world).Err?
    ensures RightlyProbed(meta, world, Probed(meta, world))
  {
    LookupIsRight(meta, world);
  }

  /** A live probe resolves a row exactly if it is enabled, all it needs is there and its version
    * probe, if there is one, finds no problem; else it says what is wrong first. */
  lemma ProbeIsRight(meta: Metadata, world: World)
    ensures RightlyProbed(meta, world, Probed(meta, world))
  {
    if IsDeferred(meta) {
      DeferredIsRightlyProbed(meta, world);
    } else {
      match ProbeResolved(meta, world)
      case Ok(path) => ResolvedIsRightlyProbed(meta, world, path);
      case Err(_) => UnresolvedIsRightlyProbed(meta, world);
    }
  }

  /** The code a reason is stored under. */
  function ReasonCode(reason: Reason): string {
    match reason
    case Disabled => "disabled"
    case NoCommand => "no_command"
    case BridgeMissing(_) => "bridge_missing"
    case PrimaryMissing(_) => "primary_missing"
    case PrimaryUnusable(_, _) => "primary_unusable"
    case CommandMissing(_) => "command_missing"
    case ManagedRuntimeUnavailable(_, _) => "managed_runtime_unavailable"
  }

  /** The codes that say something is missing; an unusable binary is not among them. */
  predicate SaysMissing(code: string) {
    || code == "disabled" || code == "no_command" || code == "bridge_missing" || code == "primary_missing"
    || code == "command_missing" || code == "command_not_found" || code == "managed_runtime_unavailable"
  }

  predicate WasChecked(snapshot: Snapshot) {
    snapshot != Snapshot(None, None, None, snapshot.errorMessage, None, None, None)
  }

  /** The details of a reason restored from a stored code come from the row. */
  predicate TakesDetailsFrom(meta: Metadata, reason: Reason) {
    match reason
    case BridgeMissing(name) => meta.info.bridgeBinary == Some(name)
    case PrimaryMissing(name) => meta.info.binaryName == Some(name)
    case CommandMissing(name) =>
      name == if meta.info.binaryName.Some? then meta.info.binaryName.value
              else if meta.command.Some? then meta.command.value else "command"
    case ManagedRuntimeUnavailable(resource, detail) =>
      && resource == (if meta.backend.Some? then meta.backend.value else "runtime")
      && detail == if meta.snapshot.errorMessage.Some? then meta.snapshot.errorMessage.value
                   else "managed runtime was unavailable during the last health check"
    case _ => true
  }

  predicate RunsInside(meta: Metadata) {
    meta.command.None? && meta.agentSource == Internal
  }

  predicate FoundMissing(meta: Metadata) {
    meta.snapshot.errorCode.Some? && SaysMissing(meta.snapshot.errorCode.value)
  }

  /** Availability from the stored state: a row is available exactly if it is enabled, and either runs
    * inside or was checked with nothing missing. */
  lemma CachedAvailabilityIsRight(meta: Metadata)
    ensures ApplyCached(meta).0 == meta.(available := ApplyCached(meta).0.available)
    ensures ApplyCached(meta).0.available <==>
              meta.enabled && (RunsInside(meta) || (WasChecked(meta.snapshot) && !FoundMissing(meta)))
    ensures ApplyCached(meta).0.available ==> ApplyCached(meta).1.None?
    ensures !meta.enabled ==> ApplyCached(meta).1 == Some(Disabled)
    ensures meta.enabled && !RunsInside(meta) && !WasChecked(meta.snapshot) ==>
              ApplyCached(meta).1 == if Slug(meta).None? && !HasCommand(meta) then Some(NoCommand) else None
  {
  }

  /** The code a check has stored comes back in the reason, with details from the row. */
  lemma StoredCodeComesBack(meta: Metadata)
    requires meta.enabled && !RunsInside(meta) && FoundMissing(meta)
    ensures var reason, code := ApplyCached(meta).1, meta.snapshot.errorCode.value;
            && (reason.None? <==> (code == "bridge_missing" && meta.info.bridgeBinary.None?)
                                  || (code == "primary_missing" && meta.info.binaryName.None?))
            && (reason.Some? ==>
                  && TakesDetailsFrom(meta, reason.value)
                  && ReasonCode(reason.value) == if code == "command_not_found" then "command_missing" else code)
  {
  }

  /** The status a row is managed under, told from its fields. */
  lemma StatusIsRight(meta: Metadata, reason: Option<Reason>)
    ensures var inside := meta.enabled && meta.command.None? && meta.agentSource == Internal;
            var status := DeriveStatus(meta, reason);
            && (status == StatusOnline <==> meta.available && (inside || meta.snapshot.status == Some(Online)))
            && (status == StatusOffline <==> meta.available && !inside && meta.snapshot.status == Some(Offline))
            && (status == Missing <==> !meta.available && (reason.Some? || WasChecked(meta.snapshot)))
    ensures IsVisible(meta) <==>
              && meta.enabled && meta.available
              && (meta.snapshot.status == Some(Online) || (meta.command.None? && meta.agentSource == Internal))
  {
  }

  /** What the decoder makes of a stored row: the override, trimmed, goes before the stored command,
    * except for the internal CLI, which runs without one. */
  lemma DecodedIsRight(id: string, row: Row)
    requires row.agentType.Some? && row.agentSource.Some?
    ensures var m := Decoded(id, row);
            var inner := row.agentType == Some(Aionrs) && row.agentSource == Some(Internal);
            var overridden := row.commandOverride.Some?
                              && exists c :: c in row.commandOverride.value && !IsWhitespace(c);
            && m.id == id && Some(m.agentType) == row.agentType && Some(m.agentSource) == row.agentSource
            && m.info == row.info && m.backend == row.backend && m.enabled == row.enabled
            && m.snapshot == row.snapshot && m.handshake == row.handshake
            && !m.available && m.resolvedCommand.None?
            && (m.hasCommandOverride <==> overridden && !inner)
            && (inner ==> m.command.None?)
            && (!inner && overridden ==> m.command == Some(Trim(row.commandOverride.value)))
            && (!inner && !overridden ==> m.command == row.command)
  {
    if row.commandOverride.Some? {
      BlankIffAllWhitespace(row.commandOverride.value);
    }
  }
}
