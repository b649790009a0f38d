/** What the task manager's operations do when nothing interleaves with them. */
module ManagedTasks {
  import opened Wrappers
  import opened Capabilities

  datatype Managed<A> = Managed(agent: A, capabilities: RuntimeCapabilities)

  /** One slot per conversation; a slot whose build failed stays, empty. */
  type Tasks<A> = map<string, Option<Managed<A>>>

  /** The conversation's task is built but lacks the requested capabilities. */
  predicate Stale<A>(tasks: Tasks<A>, id: string, wants: RuntimeCapabilities) {
    id in tasks && tasks[id].Some? && !tasks[id].value.capabilities.Satisfies(wants)
  }

  /** The agent a removal of `id` has to kill. */
  function Victim<A>(tasks: Tasks<A>, id: string): Option<A> {
    if id in tasks && tasks[id].Some? then Some(tasks[id].value.agent) else None
  }

  datatype Served<A> = Served(tasks: Tasks<A>, killed: Option<A>, launched: bool, result: Option<A>)

  /** get_or_build_task: `accepted` is what the old agent answers to a kill, `built` what the
    * factory yields if it runs. */
  function Serve<A>(tasks: Tasks<A>, id: string, wants: RuntimeCapabilities, accepted: bool,
        built: Option<A>): Served<A>
  {
    var stale := Stale(tasks, id, wants);
    var kept := if stale then tasks - {id} else tasks;
    var killed := if stale then Victim(tasks, id) else None;
    if stale && !accepted then Served(kept, killed, false, None)
    else if Victim(kept, id).Some? then Served(kept, killed, false, Victim(kept, id))
    else Served(kept[id := if built.Some? then Some(Managed(built.value, wants)) else None], killed, true, built)
  }

  /** Every agent handed out satisfies the request it was handed out for, and is the mapped one. */
  lemma ServedAgentSatisfies<A>(tasks: Tasks<A>, id: string, wants: RuntimeCapabilities, accepted: bool,
        built: Option<A>)
    ensures var s := Serve(tasks, id, wants, accepted, built);
            && (s.result.Some? ==> Victim(s.tasks, id) == s.result && s.tasks[id].value.capabilities.Satisfies(wants))
            && (s.killed.Some? <==> Stale(tasks, id, wants))
            && (s.launched && built.None? ==> s.result.None? && id in s.tasks && s.tasks[id].None?)
            && (forall other | other != id :: (other in s.tasks <==> other in tasks)
                  && (other in tasks ==> s.tasks[other] == tasks[other]))
  {
  }

  // ---- How often a conversation is rebuilt ----

  /** The mapped task's version rank, 0 if there is none. */
  function Rank<A>(tasks: Tasks<A>, id: string): nat {
    if Victim(tasks, id).Some? then tasks[id].value.capabilities.Rank() else 0
  }

  /** Requests for one conversation, each built by `built` if the factory has to run. */
  function ServeAll<A>(tasks: Tasks<A>, id: string, requests: seq<(RuntimeCapabilities, A)>): Tasks<A>
    decreases |requests|
  {
    if requests == [] then tasks
    else ServeAll(Serve(tasks, id, requests[0].0, true, Some(requests[0].1)).tasks, id, requests[1..])
  }

  function Rebuilds<A>(tasks: Tasks<A>, id: string, requests: seq<(RuntimeCapabilities, A)>): nat
    decreases |requests|
  {
    if requests == [] then 0
    else (if Stale(tasks, id, requests[0].0) then 1 else 0)
         + Rebuilds(Serve(tasks, id, requests[0].0, true, Some(requests[0].1)).tasks, id, requests[1..])
  }

  /** A rebuild strictly raises the rank, and nothing lowers it. */
  lemma {:induction false} RebuildsRaiseRank<A>(tasks: Tasks<A>, id: string, requests: seq<(RuntimeCapabilities, A)>)
    ensures Rank(tasks, id) + Rebuilds(tasks, id, requests) <= Rank(ServeAll(tasks, id, requests), id)
    decreases |requests|
  {
    if requests == [] {
    } else {
      var next := Serve(tasks, id, requests[0].0, true, Some(requests[0].1)).tasks;
      RebuildsRaiseRank(next, id, requests[1..]);
    }
  }

  lemma {:induction false} RankStaysBelow<A>(tasks: Tasks<A>, id: string, requests: seq<(RuntimeCapabilities, A)>,
        top: nat)
    requires Rank(tasks, id) <= top
    requires forall k | 0 <= k < |requests| :: requests[k].0.Rank() <= top
    ensures Rank(ServeAll(tasks, id, requests), id) <= top
    decreases |requests|
  {
    if requests == [] {
    } else {
      var next := Serve(tasks, id, requests[0].0, true, Some(requests[0].1)).tasks;
      RankStaysBelow(next, id, requests[1..], top);
    }
  }

  /** With versions up to `v`, successful builds and accepted kills, a conversation is rebuilt
    * at most v + 1 times. */
  lemma RebuildsAreBounded<A>(tasks: Tasks<A>, id: string, requests: seq<(RuntimeCapabilities, A)>, v: nat)
    requires Victim(tasks, id).Some? ==> tasks[id].value.capabilities.Rank() <= v + 1
    requires forall k | 0 <= k < |requests| :: requests[k].0.Rank() <= v + 1
    ensures Rebuilds(tasks, id, requests) <= v + 1
  {
    RebuildsRaiseRank(tasks, id, requests);
    RankStaysBelow(tasks, id, requests, v + 1);
  }

  /** Requests for no version, then for versions 0 up to `v`. */
  function Climb<A>(v: nat, built: A): seq<(RuntimeCapabilities, A)> {
    if v == 0 then [(RuntimeCapabilities(None), built), (RuntimeCapabilities(Some(0)), built)]
    else Climb(v - 1, built) + [(RuntimeCapabilities(Some(v)), built)]
  }

  lemma {:induction false} RebuildsAppend<A>(tasks: Tasks<A>, id: string, requests: seq<(RuntimeCapabilities, A)>,
                                             last: (RuntimeCapabilities, A))
    ensures var mid := ServeAll(tasks, id, requests);
            && Rebuilds(tasks, id, requests + [last])
               == Rebuilds(tasks, id, requests) + (if Stale(mid, id, last.0) then 1 else 0)
            && ServeAll(tasks, id, requests + [last]) == Serve(mid, id, last.0, true, Some(last.1)).tasks
    decreases |requests|
  {
    if requests == [] {
      assert requests + [last] == [last] && [last][1..] == [];
    } else {
      assert (requests + [last])[1..] == requests[1..] + [last];
      RebuildsAppend(Serve(tasks, id, requests[0].0, true, Some(requests[0].1)).tasks, id, requests[1..], last);
    }
  }

  /** The bound is reached. */
  lemma {:induction false} ClimbReachesBound<A>(v: nat, id: string, built: A)
    ensures Rebuilds(map[], id, Climb(v, built)) == v + 1
    ensures Rank(ServeAll(map[], id, Climb(v, built)), id) == v + 1
    ensures forall k | 0 <= k < |Climb(v, built)| :: Climb(v, built)[k].0.Rank() <= v + 1
  {
    if v == 0 {
      var first := (RuntimeCapabilities(None), built);
      assert Climb(v, built) == [first] + [(RuntimeCapabilities(Some(0)), built)];
      RebuildsAppend<A>(map[], id, [], first);
      assert [] + [first] == [first];
      RebuildsAppend<A>(map[], id, [first], (RuntimeCapabilities(Some(0)), built));
    } else {
      ClimbReachesBound(v - 1, id, built);
      RebuildsAppend(map[], id, Climb(v - 1, built), (RuntimeCapabilities(Some(v)), built));
    }
  }

  // ---- Removing several tasks ----

  /** The kill sent when the task of `id` is removed. */
  function Sent<A>(tasks: Tasks<A>, id: string): seq<(string, A)> {
    if Victim(tasks, id).Some? then [(id, Victim(tasks, id).value)] else []
  }

  /** The kills sent when the tasks of the first `n` ids are removed one after the other. */
  function KillsUpTo<A>(tasks: Tasks<A>, ids: seq<string>, n: nat): seq<(string, A)>
    requires n <= |ids|
  {
    if n == 0 then []
    else if ids[n - 1] in ids[..n - 1] then KillsUpTo(tasks, ids, n - 1)
    else KillsUpTo(tasks, ids, n - 1) + Sent(tasks, ids[n - 1])
  }

  function Kills<A>(tasks: Tasks<A>, ids: seq<string>): seq<(string, A)> {
    KillsUpTo(tasks, ids, |ids|)
  }

  function WithoutTasks<A>(tasks: Tasks<A>, ids: seq<string>): Tasks<A> {
    map id | id in tasks && id !in ids :: tasks[id]
  }

  lemma {:induction false} KillsUpToAreExact<A>(tasks: Tasks<A>, ids: seq<string>, n: nat)
    requires n <= |ids|
    ensures forall id, agent :: (id, agent) in KillsUpTo(tasks, ids, n) <==>
              id in ids[..n] && Victim(tasks, id) == Some(agent)
    ensures forall j, k | 0 <= j < k < |KillsUpTo(tasks, ids, n)| ::
              KillsUpTo(tasks, ids, n)[j].0 != KillsUpTo(tasks, ids, n)[k].0
  {
    if n == 0 {
    } else {
      KillsUpToAreExact(tasks, ids, n - 1);
      assert ids[..n] == ids[..n - 1] + [ids[n - 1]];
      var before := KillsUpTo(tasks, ids, n - 1);
      forall k | 0 <= k < |before|
        ensures before[k].0 in ids[..n - 1]
      {
        var (id, agent) := before[k];
        assert (id, agent) in before;
      }
    }
  }

  /** Each built task among `ids` is sent exactly one kill, and nothing else is. */
  lemma KillsAreExact<A>(tasks: Tasks<A>, ids: seq<string>)
    ensures forall id, agent :: (id, agent) in Kills(tasks, ids) <==> id in ids && Victim(tasks, id) == Some(agent)
    ensures forall j, k | 0 <= j < k < |Kills(tasks, ids)| :: Kills(tasks, ids)[j].0 != Kills(tasks, ids)[k].0
  {
    KillsUpToAreExact(tasks, ids, |ids|);
    assert ids[..|ids|] == ids;
  }
}
