/** The worker task manager (task_manager.rs) and the idle scan (idle_scanner.rs), one call at
  * a time. The agents' own kill work is left out: `kills` records what they were asked.
  */
module TaskManager {
  import opened AgentTypes
  import opened Wrappers
  import opened ManagedTasks
  import opened SessionOptions
  import opened AgentRuntimes
  import Leases = ActiveLeases
  import Tokens = RuntimeTokens
  import History = TokenHistory
  import Strings = RustStrings

  /** An agent as the manager sees it when it looks. */
  datatype AgentInstance = AgentInstance(
    id: nat, agentType: AgentType, status: Option<ConversationStatus>, lastActivityAt: Leases.Millis)

  datatype TaskError = KillRefused | BuildFailed

  const TEAM_SCOPES := {Tokens.TeamContext, Tokens.TeamCall}

  /** The grants once the tokens of a conversation are gone. */
  function Dropped(grants: Tokens.Grants, id: string): Tokens.Grants {
    Tokens.Step(grants, Tokens.InvalidateConversationId(id))
  }

  /** The same for several conversations. */
  function DroppedAll(grants: Tokens.Grants, gone: set<string>): Tokens.Grants {
    map p | p in grants && grants[p].claims.conversation !in gone :: grants[p]
  }

  /** The grants after the tasks of the first `n` ids have been removed one after the other. */
  function DroppedUpTo(grants: Tokens.Grants, tasks: Tasks<AgentInstance>, ids: seq<string>, n: nat): Tokens.Grants
    requires n <= |ids|
  {
    if n == 0 then grants
    else if ids[n - 1] in tasks && ids[n - 1] !in ids[..n - 1] then
      Dropped(DroppedUpTo(grants, tasks, ids, n - 1), ids[n - 1])
    else DroppedUpTo(grants, tasks, ids, n - 1)
  }

  lemma {:induction false} DroppedUpToIsDroppedAll(grants: Tokens.Grants, tasks: Tasks<AgentInstance>,
        ids: seq<string>, n: nat)
    requires n <= |ids|
    ensures DroppedUpTo(grants, tasks, ids, n) == DroppedAll(grants, set id | id in ids[..n] && id in tasks)
  {
    if n == 0 {
    } else {
      assert ids[..n] == ids[..n - 1] + [ids[n - 1]];
      DroppedUpToIsDroppedAll(grants, tasks, ids, n - 1);
    }
  }

  function TeamIssue(user: string, conversation: string, token: string, at: int): Tokens.Op {
    Tokens.Issue(user, conversation, Tokens.TEAM_RUNTIME_TOKEN_SESSION_GENERATION, TEAM_SCOPES, token, at)
  }

  // ---- What an idle scan selects ----

  predicate Idle(slot: Option<Managed<AgentInstance>>, now: Leases.Millis, threshold: Leases.Millis) {
    && slot.Some?
    && slot.value.agent.agentType == Acp
    && (slot.value.agent.status == None || slot.value.agent.status == Some(Finished))
    && Leases.Saturate(now - slot.value.agent.lastActivityAt) > threshold
  }

  predicate Selected(tasks: Tasks<AgentInstance>, leases: Leases.Leases, id: string, now: Leases.Millis,
        threshold: Leases.Millis)
  {
    id in tasks && Idle(tasks[id], now, threshold) && Leases.Answer(leases, id, now).None?
  }

  ghost predicate NoRepeats(ids: seq<string>) {
    forall j, k | 0 <= j < k < |ids| :: ids[j] != ids[k]
  }

  class WorkerTaskManager {
    var tasks: Tasks<AgentInstance>
    var kills: seq<(string, AgentInstance)>
    const leases: Leases.ActiveLeaseRegistry
    const tokens: Tokens.RuntimeTokenService?

    ghost predicate Valid()
      reads this, tokens
    {
      tokens != null ==> tokens.Valid()
    }

    constructor (leases: Leases.ActiveLeaseRegistry, tokens: Tokens.RuntimeTokenService?)
      requires tokens != null ==> tokens.Valid()
      ensures Valid() && tasks == map[] && kills == []
      ensures this.leases == leases && this.tokens == tokens
    {
      this.leases, this.tokens := leases, tokens;
      tasks, kills := map[], [];
    }

    method InvalidateRuntimeTokens(id: string)
      requires Valid()
      modifies tokens
      ensures Valid()
      ensures tokens != null ==> tokens.Live() == Dropped(old(tokens.Live()), id)
    {
      if tokens != null {
        tokens.InvalidateConversationId(id);
      }
    }

    /** `random` and `now` are what the token service draws and reads if it is asked. */
    method RefreshRuntimeTokenForNewTask(options: BuildTaskOptions, random: seq<Tokens.Byte>, now: int)
      requires Valid() && |random| == 32
      requires tokens != null ==> !Tokens.Held(tokens.Live(), Tokens.Hex(random))
      modifies tokens, options`runtimeEnv
      ensures Valid()
      ensures !options.team || tokens == null ==> options.runtimeEnv == old(options.runtimeEnv)
      ensures tokens != null ==>
                var op := TeamIssue(options.userId, options.conversationId, Tokens.Hex(random), now);
                tokens.Live() == (if options.team then Tokens.Step(old(tokens.Live()), op) else old(tokens.Live()))
                && (options.team ==>
                      options.runtimeEnv
                      == WithToken(old(options.runtimeEnv), Tokens.Issued(old(tokens.Live()), op).token))
    {
      if !options.team || tokens == null {
        return;
      }
      var scopes := [Tokens.TeamContext, Tokens.TeamCall];
      assert (set s | s in scopes) == TEAM_SCOPES;
      var issue := tokens.Issue(options.userId, options.conversationId, Tokens.TEAM_RUNTIME_TOKEN_SESSION_GENERATION,
                                scopes, random, now);
      options.ReplaceToken(issue.token);
    }

    /** `accepted` is what the agent answers to the kill. */
    method Kill(id: string, accepted: bool) returns (result: Result<(), TaskError>)
      requires Valid()
      modifies this, tokens
      ensures Valid() && tasks == old(tasks) - {id}
      ensures kills == old(kills) + Sent(old(tasks), id)
      ensures tokens != null ==>
                tokens.Live() == if id in old(tasks) then Dropped(old(tokens.Live()), id) else old(tokens.Live())
      ensures result == if Victim(old(tasks), id).Some? && !accepted then Err(KillRefused) else Ok(())
    {
      if id in tasks {
        var slot := tasks[id];
        tasks := tasks - {id};
        InvalidateRuntimeTokens(id);
        if slot.Some? {
          kills := kills + [(id, slot.value.agent)];
          if !accepted {
            return Err(KillRefused);
          }
        }
      }
      result := Ok(());
    }

    /** The slot's cell, if empty, stays empty: nobody else is there to fill it. */
    method KillAndWait(id: string)
      requires Valid()
      modifies this, tokens
      ensures Valid() && tasks == old(tasks) - {id}
      ensures kills == old(kills) + Sent(old(tasks), id)
      ensures tokens != null ==>
                tokens.Live() == if id in old(tasks) then Dropped(old(tokens.Live()), id) else old(tokens.Live())
    {
      if id in tasks {
        var slot := tasks[id];
        tasks := tasks - {id};
        InvalidateRuntimeTokens(id);
        if slot.Some? {
          kills := kills + [(id, slot.value.agent)];
        }
      }
    }

    /** `accepted` is what a stale agent answers to its kill, `built` what the factory yields if
      * it runs; `launched` is the environment the factory was started with. */
    method GetOrBuildTask(id: string, options: BuildTaskOptions, accepted: bool, built: Option<AgentInstance>,
                          random: seq<Tokens.Byte>, now: int)
      returns (result: Result<AgentInstance, TaskError>, launched: Option<Env>)
      requires Valid() && |random| == 32
      requires tokens != null ==> !Tokens.Held(tokens.Live(), Tokens.Hex(random))
      modifies this, tokens, options`runtimeEnv
      ensures Valid()
      ensures var served := Serve(old(tasks), id, options.runtimeCapabilities, accepted, built);
              && tasks == served.tasks
              && (result.Ok? <==> served.result.Some?) && (result.Ok? ==> Some(result.value) == served.result)
              && kills == old(kills) + (if served.killed.Some? then [(id, served.killed.value)] else [])
              && launched == (if served.launched then Some(options.runtimeEnv) else None)
      ensures var stale := Stale(old(tasks), id, options.runtimeCapabilities);
              var op := TeamIssue(options.userId, options.conversationId, Tokens.Hex(random), now);
              && (tokens == null || !stale || !accepted || !options.team ==>
                    options.runtimeEnv == old(options.runtimeEnv))
              && (tokens != null ==>
                    var dropped := if stale then Dropped(old(tokens.Live()), id) else old(tokens.Live());
                    if stale && accepted && options.team
                    then tokens.Live() == Tokens.Step(dropped, op)
                         && options.runtimeEnv == WithToken(old(options.runtimeEnv), Tokens.Issued(dropped, op).token)
                    else tokens.Live() == dropped)
    {
      var ready := KillIfStale(id, options, accepted, random, now);
      if ready.Err? {
        return Err(ready.error), None;
      }
      result, launched := InitialiseSlot(id, options, built);
    }

    /** The first half of get_or_build_task: kill a task that lacks the capabilities. */
    method KillIfStale(id: string, options: BuildTaskOptions, accepted: bool, random: seq<Tokens.Byte>, now: int)
      returns (result: Result<(), TaskError>)
      requires Valid() && |random| == 32
      requires tokens != null ==> !Tokens.Held(tokens.Live(), Tokens.Hex(random))
      modifies this, tokens, options`runtimeEnv
      ensures Valid()
      ensures var stale := Stale(old(tasks), id, options.runtimeCapabilities);
              var op := TeamIssue(options.userId, options.conversationId, Tokens.Hex(random), now);
              && tasks == (if stale then old(tasks) - {id} else old(tasks))
              && kills == old(kills) + (if stale then [(id, Victim(old(tasks), id).value)] else [])
              && result == (if stale && !accepted then Err(KillRefused) else Ok(()))
              && (tokens == null || !stale || !accepted || !options.team ==>
                    options.runtimeEnv == old(options.runtimeEnv))
              && (tokens != null ==>
                    var dropped := if stale then Dropped(old(tokens.Live()), id) else old(tokens.Live());
                    if stale && accepted && options.team
                    then tokens.Live() == Tokens.Step(dropped, op)
                         && options.runtimeEnv == WithToken(old(options.runtimeEnv), Tokens.Issued(dropped, op).token)
                    else tokens.Live() == dropped)
    {
      if id in tasks && tasks[id].Some? && !tasks[id].value.capabilities.Satisfies(options.runtimeCapabilities) {
        result := Kill(id, accepted);
        if result.Ok? {
          RefreshRuntimeTokenForNewTask(options, random, now);
        }
      } else {
        result := Ok(());
      }
    }

    /** The second half: enter a slot if there is none, and fill it if it is empty. */
    method InitialiseSlot(id: string, options: BuildTaskOptions, built: Option<AgentInstance>)
      returns (result: Result<AgentInstance, TaskError>, launched: Option<Env>)
      modifies this`tasks
      ensures var agent := Victim(old(tasks), id);
              && launched == (if agent.Some? then None else Some(options.runtimeEnv))
              && result == (if agent.Some? then Ok(agent.value)
                            else if built.Some? then Ok(built.value) else Err(BuildFailed))
              && tasks == (if agent.Some? then old(tasks)
                           else old(tasks)[id := if built.Some?
                                                 then Some(Managed(built.value, options.runtimeCapabilities))
                                                 else None])
    {
      if id !in tasks {
        tasks := tasks[id := None];
      }
      if tasks[id].Some? {
        return Ok(tasks[id].value.agent), None;
      }
      launched := Some(options.runtimeEnv);
      if built.Some? {
        tasks := tasks[id := Some(Managed(built.value, options.runtimeCapabilities))];
        result := Ok(built.value);
      } else {
        result := Err(BuildFailed);
      }
    }

    /** Remove and kill one task after the other. */
    method KillEach(ids: seq<string>)
      requires Valid()
      modifies this, tokens
      ensures Valid() && tasks == WithoutTasks(old(tasks), ids) && kills == old(kills) + Kills(old(tasks), ids)
      ensures tokens != null ==> tokens.Live() == DroppedUpTo(old(tokens.Live()), old(tasks), ids, |ids|)
    {
      ghost var before, sent := tasks, kills;
      ghost var grants := if tokens != null then tokens.Live() else map[];
      ghost var left := grants;
      assert WithoutTasks(tasks, []) == tasks;
      var k := 0;
      while k < |ids|
        invariant 0 <= k <= |ids| && Valid()
        invariant tasks == WithoutTasks(before, ids[..k])
        invariant kills == sent + KillsUpTo(before, ids, k)
        invariant left == DroppedUpTo(grants, before, ids, k)
        invariant tokens != null ==> tokens.Live() == left
      {
        RemovalNext(before, ids, k);
        left := if ids[k] in tasks then Dropped(left, ids[k]) else left;
        assert left == DroppedUpTo(grants, before, ids, k + 1);
        KillAndWait(ids[k]);
        k := k + 1;
      }
      assert ids[..k] == ids;
    }

    /** The keys of the map, in the order in which it yields them. */
    method Keys() returns (all: seq<string>)
      ensures NoRepeats(all) && forall id :: id in all <==> id in tasks
    {
      all := [];
      var pending := tasks.Keys;
      while pending != {}
        invariant pending <= tasks.Keys
        invariant NoRepeats(all) && forall id :: id in all <==> id in tasks.Keys - pending
        decreases pending
      {
        var id :| id in pending;
        NoRepeatsAppend(all, id);
        all, pending := all + [id], pending - {id};
      }
    }

    /** Empty the map; `keys` is the order in which the hash map yields its keys. */
    method Clear() returns (ghost keys: seq<string>)
      requires Valid()
      modifies this, tokens
      ensures Valid() && tasks == map[]
      ensures NoRepeats(keys) && (forall id :: id in keys <==> id in old(tasks))
      ensures kills == old(kills) + Kills(old(tasks), keys)
      ensures tokens != null ==> tokens.Live() == DroppedAll(old(tokens.Live()), old(tasks).Keys)
    {
      var all := Keys();
      keys := all;
      if tokens != null {
        DroppedUpToIsDroppedAll(tokens.Live(), tasks, all, |all|);
        assert all[..|all|] == all;
      }
      assert (set id | id in all && id in tasks) == tasks.Keys;
      KillEach(all);
    }

    /** The conversations an idle scan selects at time `now`, in the order the hash map yields
      * them. The lease lookups may drop leases that have expired. */
    method CollectIdle(threshold: Leases.Millis, now: Leases.Millis) returns (ids: seq<string>)
      modifies leases
      ensures NoRepeats(ids)
      ensures forall id :: id in ids <==> Selected(tasks, old(leases.leases), id, now, threshold)
      ensures forall id, at: Leases.Millis | at >= now ::
                Leases.Answer(leases.leases, id, at) == Leases.Answer(old(leases.leases), id, at)
    {
      ids := [];
      var pending := tasks.Keys;
      while pending != {}
        invariant pending <= tasks.Keys && NoRepeats(ids)
        invariant forall id :: id in ids <==>
                    id in tasks.Keys - pending && Selected(tasks, old(leases.leases), id, now, threshold)
        invariant forall id, at: Leases.Millis | at >= now ::
                    Leases.Answer(leases.leases, id, at) == Leases.Answer(old(leases.leases), id, at)
        decreases pending
      {
        var id :| id in pending;
        pending := pending - {id};
        if Idle(tasks[id], now, threshold) {
          var until := leases.ActiveUntil(id, now);
          if until.None? {
            NoRepeatsAppend(ids, id);
            ids := ids + [id];
          }
        }
      }
    }

    /** One scan. `coordinator` says which of the idle conversations are left to be killed. */
    method ScanAndCleanup(threshold: Leases.Millis, now: Leases.Millis, coordinator: Option<seq<string> -> seq<string>>)
      returns (ghost idle: seq<string>, ghost killed: seq<string>)
      requires Valid()
      modifies this, tokens, leases
      ensures Valid()
      ensures NoRepeats(idle)
      ensures forall id :: id in idle <==> Selected(old(tasks), old(leases.leases), id, now, threshold)
      ensures killed == if coordinator.Some? && idle != [] then coordinator.value(idle) else idle
      ensures tasks == WithoutTasks(old(tasks), killed) && kills == old(kills) + Kills(old(tasks), killed)
      ensures tokens != null ==>
                tokens.Live() == DroppedAll(old(tokens.Live()), set id | id in killed && id in old(tasks))
    {
      var ids := CollectIdle(threshold, now);
      idle := ids;
      if coordinator.Some? && ids != [] {
        ids := coordinator.value(ids);
      }
      killed := ids;
      if tokens != null {
        DroppedUpToIsDroppedAll(tokens.Live(), tasks, ids, |ids|);
        assert ids[..|ids|] == ids;
      }
      KillEach(ids);
    }
  }

  /** What removing `ids[k]` adds to what removing the ones before it has done. */
  lemma RemovalNext(tasks: Tasks<AgentInstance>, ids: seq<string>, k: nat)
    requires k < |ids|
    ensures WithoutTasks(tasks, ids[..k + 1]) == WithoutTasks(tasks, ids[..k]) - {ids[k]}
    ensures ids[k] in WithoutTasks(tasks, ids[..k]) <==> ids[k] in tasks && ids[k] !in ids[..k]
    ensures Sent(WithoutTasks(tasks, ids[..k]), ids[k]) == if ids[k] in ids[..k] then [] else Sent(tasks, ids[k])
  {
    assert ids[..k + 1] == ids[..k] + [ids[k]];
  }

  lemma NoRepeatsAppend(ids: seq<string>, id: string)
    requires NoRepeats(ids) && id !in ids
    ensures NoRepeats(ids + [id])
  {
  }

  // ---- What a scan and a rebuild come to ----

  /** A scan without a coordinator sends one kill each to exactly the built ACP tasks whose status is
    * none or finished, which have been idle for longer than the threshold and hold no lease that
    * lies ahead; it takes exactly those out of the map and leaves every other slot as it was. */
  lemma ScanIsExact(tasks: Tasks<AgentInstance>, leases: Leases.Leases, now: Leases.Millis, threshold: Leases.Millis,
                    idle: seq<string>)
    requires forall id :: id in idle <==> Selected(tasks, leases, id, now, threshold)
    ensures forall id, agent :: (id, agent) in Kills(tasks, idle) <==>
              && id in tasks && tasks[id].Some? && tasks[id].value.agent == agent
              && agent.agentType == Acp && (agent.status == None || agent.status == Some(Finished))
              && now - agent.lastActivityAt > threshold && threshold < 9_223_372_036_854_775_807
              && (id in leases ==> leases[id] <= now)
    ensures forall id | id in tasks ::
              id !in WithoutTasks(tasks, idle) <==>
                tasks[id].Some? && (id, tasks[id].value.agent) in Kills(tasks, idle)
    ensures forall id | id in WithoutTasks(tasks, idle) :: id in tasks && WithoutTasks(tasks, idle)[id] == tasks[id]
    ensures forall j, k | 0 <= j < k < |Kills(tasks, idle)| :: Kills(tasks, idle)[j].0 != Kills(tasks, idle)[k].0
  {
    KillsAreExact(tasks, idle);
  }

  /** A task whose agent is pending or running, or is not an ACP agent, or which is still being
    * built, stays what it is. */
  lemma BusyTasksStay(tasks: Tasks<AgentInstance>, leases: Leases.Leases, now: Leases.Millis, threshold: Leases.Millis,
                      idle: seq<string>, id: string)
    requires forall other :: other in idle <==> Selected(tasks, leases, other, now, threshold)
    requires id in tasks
    requires tasks[id].Some? ==>
               var agent := tasks[id].value.agent;
               agent.status == Some(Pending) || agent.status == Some(Running) || agent.agentType != Acp
    ensures id in WithoutTasks(tasks, idle) && WithoutTasks(tasks, idle)[id] == tasks[id]
    ensures forall agent :: (id, agent) !in Kills(tasks, idle)
  {
    ScanIsExact(tasks, leases, now, threshold, idle);
  }

  /** Under the same leases a later scan, or one with a lower threshold, collects no less. */
  lemma LaterScanCollectsMore(tasks: Tasks<AgentInstance>, leases: Leases.Leases, id: string,
                              now: Leases.Millis, threshold: Leases.Millis, later: Leases.Millis, lower: Leases.Millis)
    requires now <= later && lower <= threshold
    requires Selected(tasks, leases, id, now, threshold)
    ensures Selected(tasks, leases, id, later, lower)
  {
  }

  /** A team task is rebuilt after the token history `ops`: its factory gets exactly one token
    * entry, and that token opens both scopes. */
  lemma RebuildHandsOverWorkingToken(ops: seq<Tokens.Op>, user: string, id: string, random: seq<Tokens.Byte>, at: int,
                                     env: Env, scope: Tokens.Scope)
    requires |random| == 32
    requires History.FreshDraws(
               ops + [Tokens.InvalidateConversationId(id), TeamIssue(user, id, Tokens.Hex(random), at)])
    ensures var issue := TeamIssue(user, id, Tokens.Hex(random), at);
            var token := Tokens.Issued(Dropped(History.Run(ops), id), issue).token;
            var after := Tokens.Step(Dropped(History.Run(ops), id), issue);
            && Values(WithToken(env, token), AIONUI_RUNTIME_TOKEN_ENV) == [token]
            && Tokens.Validated(after, Some(token), user, id, scope, "default").Ok?
  {
    var drop, issue := Tokens.InvalidateConversationId(id), TeamIssue(user, id, Tokens.Hex(random), at);
    var all := ops + [drop, issue];
    RunTwoMore(ops, drop, issue);
    NoGrantAfterDrop(ops, user, id);
    assert all[..|ops| + 1] == ops + [drop] && all[|ops| + 1] == issue;
    assert History.Alive(all, |ops| + 1);
    RefreshLeavesOneToken(env, issue.token);
    Tokens.TrimRecoversToken(random, "", "");
    assert "" + Tokens.Hex(random) + "" == Tokens.Hex(random);
    History.TokenHistoryDecides(all, issue.token, user, id, scope, Tokens.TEAM_RUNTIME_TOKEN_SESSION_GENERATION);
  }

  /** And every token that was ever issued for the conversation before is unknown. */
  lemma RebuildRevokesEarlierTokens(ops: seq<Tokens.Op>, user: string, id: string, random: seq<Tokens.Byte>, at: int,
                                    earlier: nat, raw: string, asUser: string, scope: Tokens.Scope, generation: string)
    requires |random| == 32
    requires History.FreshDraws(
               ops + [Tokens.InvalidateConversationId(id), TeamIssue(user, id, Tokens.Hex(random), at)])
    requires earlier < |ops| && ops[earlier].Issue? && ops[earlier].conversation == id
    requires ops[earlier].token == Strings.Trim(raw)
    ensures Tokens.Validated(Tokens.Step(Dropped(History.Run(ops), id), TeamIssue(user, id, Tokens.Hex(random), at)),
                             Some(raw), asUser, id, scope, generation) == Err(Tokens.Unknown)
  {
    var drop, issue := Tokens.InvalidateConversationId(id), TeamIssue(user, id, Tokens.Hex(random), at);
    var all := ops + [drop, issue];
    RunTwoMore(ops, drop, issue);
    assert all[earlier] == ops[earlier] && all[|ops|] == drop;
    History.TokenHistoryDecides(all, raw, asUser, id, scope, generation);
    forall k: nat | History.Alive(all, k)
      ensures all[k].token != Strings.Trim(raw)
    {
      if all[k].token == Strings.Trim(raw) {
        assert k == earlier;
        assert History.Ends(all[|ops|], all[k]);
      }
    }
  }

  lemma RunTwoMore(ops: seq<Tokens.Op>, first: Tokens.Op, second: Tokens.Op)
    ensures History.Run(ops + [first]) == Tokens.Step(History.Run(ops), first)
    ensures History.Run(ops + [first, second]) == Tokens.Step(Tokens.Step(History.Run(ops), first), second)
  {
    assert (ops + [first])[..|ops|] == ops;
    assert (ops + [first, second])[..|ops| + 1] == ops + [first];
  }

  lemma NoGrantAfterDrop(ops: seq<Tokens.Op>, user: string, id: string)
    ensures (user, id) !in Dropped(History.Run(ops), id)
  {
    if (user, id) in History.Run(ops) {
      var k := History.GrantedIsAlive(ops, (user, id));
    }
  }
}
