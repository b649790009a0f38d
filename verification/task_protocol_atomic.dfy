/** Left alone, a call of the task protocol does what the sequential description says: on every
  * run, and for every way the agents and the factory can answer on some run. */
module TaskProtocolAtomic {
  import opened Wrappers
  import opened Capabilities
  import MT = ManagedTasks
  import opened TaskProtocol
  import opened TaskProtocolInvariants
  import opened TaskProtocolTheorems
  import opened TaskProtocolProgress

  // ---- The state seen from outside ----

  ghost predicate Indexed(st: State) {
    forall c | c in st.tasks :: st.tasks[c] < |st.slots| && st.slots[st.tasks[c]].conversation == c
  }

  /** What the map of slots looks like from outside. */
  function View(st: State): MT.Tasks<AgentId>
    requires forall c | c in st.tasks :: st.tasks[c] < |st.slots|
  {
    map c | c in st.tasks :: st.slots[st.tasks[c]].cell
  }

  function KilledAgents(log: seq<Event>): seq<AgentId> {
    if log == [] then []
    else
      var last := log[|log| - 1];
      KilledAgents(log[..|log| - 1]) + if last.Killed? then [last.agent] else []
  }

  function AgentOf(cell: Option<MT.Managed<AgentId>>): seq<AgentId> {
    if cell.Some? then [cell.value.agent] else []
  }

  lemma KilledAppend(log: seq<Event>, e: Event)
    ensures KilledAgents(log + [e]) == KilledAgents(log) + if e.Killed? then [e.agent] else []
  {
    assert (log + [e])[..|log|] == log;
  }

  /** Map, agents killed and agents built, as seen from outside. */
  ghost predicate Shows(st: State, tasks: MT.Tasks<AgentId>, killed: seq<AgentId>, agents: AgentId) {
    Indexed(st) && View(st) == tasks && KilledAgents(st.log) == killed && st.agents == agents
  }

  lemma SameShows(a: State, b: State, tasks: MT.Tasks<AgentId>, killed: seq<AgentId>, agents: AgentId)
    requires Shows(a, tasks, killed, agents) && b.tasks == a.tasks && b.agents == a.agents
    requires |a.slots| == |b.slots| && KilledAgents(b.log) == KilledAgents(a.log)
    requires forall s | 0 <= s < |a.slots| :: b.slots[s].conversation == a.slots[s].conversation
                                             && b.slots[s].cell == a.slots[s].cell
    ensures Shows(b, tasks, killed, agents)
  {
  }

  // ---- Lone runs ----

  /** Every call except `i` has returned. */
  ghost predicate Alone(st: State, i: CallId) {
    i < |st.calls| && forall j | 0 <= j < |st.calls| && j != i :: st.calls[j].pc.Returned?
  }

  ghost predicate Quiet(st: State) {
    forall j | 0 <= j < |st.calls| :: st.calls[j].pc.Returned?
  }

  /** How agents may answer a kill, and the factory a build. */
  datatype Answers = Answers(kills: set<bool>, builds: set<bool>)

  const ANY := Answers({false, true}, {false, true})

  /** Agents and factory do answer. */
  predicate Answered(answers: Answers) {
    (true in answers.kills || false in answers.kills) && (true in answers.builds || false in answers.builds)
  }

  /** No new call, no future dropped, and only these answers. */
  predicate Allowed(l: Label, answers: Answers) {
    && !l.Spawn? && !l.Drop?
    && (l.Look? ==> l.accepted in answers.kills)
    && (l.Build? ==> true in answers.builds)
    && (l.Fail? ==> false in answers.builds)
  }

  ghost predicate AllAllowed(ls: seq<Label>, answers: Answers) {
    forall l | l in ls :: Allowed(l, answers)
  }

  /** A call starts in `st`, makes the steps `ls` and has returned in `st'`. */
  ghost predicate LoneRun(st: State, op: Op, ids: seq<Conversation>, answers: Answers, ls: seq<Label>, st': State) {
    && (op.Clear? || |ids| == 1)
    && Leads(Apply(st, Spawn(op, ids)), ls, st') && AllAllowed(ls, answers)
    && |st.calls| < |st'.calls| && st'.calls[|st.calls|].pc.Returned?
  }

  /** Only the lone call can move. */
  lemma LoneStep(st: State, i: CallId, l: Label, answers: Answers)
    requires Alone(st, i) && Enabled(st, l) && Allowed(l, answers)
    ensures l.call == i && Alone(Apply(st, l), i) && |Apply(st, l).calls| == |st.calls|
    ensures Apply(st, l).calls[i].op == st.calls[i].op
  {
    StepMovesOne(st, l);
  }

  lemma StepMovesOne(st: State, l: Label)
    requires Enabled(st, l) && !l.Spawn?
    ensures Apply(st, l).calls == st.calls[l.call := Apply(st, l).calls[l.call]]
    ensures Apply(st, l).calls[l.call].op == st.calls[l.call].op
  {
  }

  /** The next step of the lone call, with these answers. */
  function NextAlone(st: State, i: CallId, accepted: bool, ok: bool): Label
    requires i < |st.calls|
  {
    match st.calls[i].pc
    case Checking => Check(i)
    case Removing => Remove(i)
    case Looking(_) => Look(i, accepted)
    case Taking => Take(i)
    case Polling(_) => Poll(i)
    case Queued(s) =>
      if s < |st.slots| && st.slots[s].cell.Some? then Wake(i)
      else if st.calls[i].op.KillAndWait? then GiveUp(i) else Start(i)
    case Running(_) => if ok then Build(i) else Fail(i)
    case Returned(_) => Drop(i)
  }

  lemma LoneCallCanMove(st: State, i: CallId, accepted: bool, ok: bool)
    requires Inv(st) && Alone(st, i) && !st.calls[i].pc.Returned?
    ensures Enabled(st, NextAlone(st, i, accepted, ok))
    ensures Allowed(NextAlone(st, i, accepted, ok), Answers({accepted}, {ok}))
  {
    assert CallOk(st.slots, st.calls[i], i);
    if st.calls[i].pc.Queued? {
      assert QueueOk(st.calls, st.slots[st.calls[i].pc.slot], st.calls[i].pc.slot);
    }
  }

  /** Whatever the answers are, the lone call gets to its end. */
  lemma {:induction false} LoneCallReturns(st: State, i: CallId, accepted: bool, ok: bool)
    returns (ls: seq<Label>, st': State)
    requires Inv(st) && Alone(st, i)
    ensures Leads(st, ls, st') && AllAllowed(ls, Answers({accepted}, {ok}))
    ensures i < |st'.calls| && st'.calls[i].pc.Returned?
    decreases Rank(st.calls[i])
  {
    if st.calls[i].pc.Returned? {
      ls, st' := [], st;
    } else {
      var l := NextAlone(st, i, accepted, ok);
      LoneCallCanMove(st, i, accepted, ok);
      LoneStep(st, i, l, Answers({accepted}, {ok}));
      StepLowersRank(st, l);
      KeepsInv(st, l);
      var rest;
      rest, st' := LoneCallReturns(Apply(st, l), i, accepted, ok);
      ls := [l] + rest;
      assert ls[1..] == rest;
    }
  }

  /** The state in which a call stands alone at its start. */
  lemma SpawnedIsAlone(st: State, op: Op, ids: seq<Conversation>)
    requires Inv(st) && Quiet(st) && (op.Clear? || |ids| == 1)
    ensures var a := Apply(st, Spawn(op, ids));
            && Inv(a) && Alone(a, |st.calls|) && a.calls[|st.calls|] == Spawned(op, ids)
            && Shows(a, View(st), KilledAgents(st.log), st.agents)
  {
    var a := Apply(st, Spawn(op, ids));
    KeepsInv(st, Spawn(op, ids));
    SameShows(st, a, View(st), KilledAgents(st.log), st.agents);
  }

  // ---- Single steps, seen from outside ----

  lemma StaleIsSeen(st: State, c: Conversation, wants: RuntimeCapabilities)
    requires Indexed(st)
    ensures MappedIsStale(st, c, wants) <==> MT.Stale(View(st), c, wants)
  {
  }

  lemma CheckMoves(st: State, i: CallId)
    requires Enabled(st, Check(i))
    ensures var b, call := Apply(st, Check(i)), st.calls[i];
            && b.tasks == st.tasks && b.slots == st.slots && b.agents == st.agents && b.log == st.log + [Checked(i)]
            && b.calls[i].todo == call.todo
            && b.calls[i].pc == (if MappedIsStale(st, call.todo[0], call.op.wants) then Removing else Taking)
  {
  }

  lemma CheckStep(st: State, i: CallId)
    requires Indexed(st) && Enabled(st, Check(i))
    ensures var b, call := Apply(st, Check(i)), st.calls[i];
            && Shows(b, View(st), KilledAgents(st.log), st.agents)
            && b.calls[i].todo == call.todo
            && b.calls[i].pc == (if MT.Stale(View(st), call.todo[0], call.op.wants) then Removing else Taking)
  {
    CheckMoves(st, i);
    StaleIsSeen(st, st.calls[i].todo[0], st.calls[i].op.wants);
    KilledAppend(st.log, Checked(i));
    SameShows(st, Apply(st, Check(i)), View(st), KilledAgents(st.log), st.agents);
  }

  lemma RemoveMapped(st: State, i: CallId)
    requires Indexed(st) && Enabled(st, Remove(i)) && st.calls[i].todo[0] in st.tasks
    ensures var a, id := Apply(st, Remove(i)), st.calls[i].todo[0];
            && Shows(a, View(st) - {id}, KilledAgents(st.log), st.agents)
            && a.calls[i] == st.calls[i].(pc := Looking(st.tasks[id]))
            && st.tasks[id] < |a.slots| && a.slots[st.tasks[id]].cell == View(st)[id]
  {
    KilledAppend(st.log, Removed(i, st.tasks[st.calls[i].todo[0]]));
  }

  lemma RemoveUnmapped(st: State, i: CallId)
    requires Indexed(st) && Enabled(st, Remove(i)) && st.calls[i].todo[0] !in st.tasks
    ensures Shows(Apply(st, Remove(i)), View(st), KilledAgents(st.log), st.agents)
    ensures Apply(st, Remove(i)).calls[i] == st.calls[i].AfterRemoval()
    ensures View(st) - {st.calls[i].todo[0]} == View(st)
  {
  }

  /** Where a call stands after it has looked at the slot it removed. */
  function LookedAt(call: Call, built: bool, accepted: bool): Call
    requires call.pc.Looking?
  {
    if built && !accepted && (call.op.GetOrBuild? || call.op.Kill?) then call.(pc := Returned(Failed))
    else if !built && call.op.KillAndWait? then call.(pc := Polling(call.pc.slot))
    else call.AfterRemoval()
  }

  lemma LookMoves(st: State, i: CallId, accepted: bool)
    requires Enabled(st, Look(i, accepted))
    ensures var b, cell := Apply(st, Look(i, accepted)), st.slots[st.calls[i].pc.slot].cell;
            && b.calls[i] == LookedAt(st.calls[i], cell.Some?, accepted)
            && b.agents == st.agents && b.tasks == st.tasks && b.slots == st.slots
            && (cell.Some? ==> b.log == st.log + [Killed(i, st.calls[i].pc.slot, cell.value.agent)])
            && (cell.None? ==> b.log == st.log || b.log == st.log + [Missed(i, st.calls[i].pc.slot)])
  {
  }

  lemma LookStep(st: State, i: CallId, accepted: bool)
    requires Enabled(st, Look(i, accepted)) && Indexed(st)
    ensures var b, cell := Apply(st, Look(i, accepted)), st.slots[st.calls[i].pc.slot].cell;
            && Shows(b, View(st), KilledAgents(st.log) + AgentOf(cell), st.agents)
            && b.slots == st.slots && b.calls[i] == LookedAt(st.calls[i], cell.Some?, accepted)
  {
    var s := st.calls[i].pc.slot;
    LookMoves(st, i, accepted);
    if st.slots[s].cell.Some? {
      KilledAppend(st.log, Killed(i, s, st.slots[s].cell.value.agent));
    } else {
      KilledAppend(st.log, Missed(i, s));
    }
  }

  lemma TakeMapped(st: State, i: CallId)
    requires Indexed(st) && Enabled(st, Take(i)) && st.calls[i].todo[0] in st.tasks
    ensures Shows(Apply(st, Take(i)), View(st), KilledAgents(st.log), st.agents)
    ensures Apply(st, Take(i)).tasks == st.tasks
    ensures Apply(st, Take(i)).calls[i] == st.calls[i].(pc := Polling(st.tasks[st.calls[i].todo[0]]))
  {
  }

  lemma TakeMoves(st: State, i: CallId)
    requires Enabled(st, Take(i)) && st.calls[i].todo[0] !in st.tasks
    ensures var a, id := Apply(st, Take(i)), st.calls[i].todo[0];
            && a.tasks == st.tasks[id := |st.slots|] && a.slots == st.slots + [Slot(id, None, None, [], None)]
            && a.agents == st.agents && a.log == st.log + [Inserted(i, |st.slots|)]
            && a.calls[i] == st.calls[i].(pc := Polling(|st.slots|))
  {
  }

  lemma NewSlotShows(st: State, a: State, id: Conversation)
    requires Indexed(st) && id !in st.tasks && a.tasks == st.tasks[id := |st.slots|]
    requires a.slots == st.slots + [Slot(id, None, None, [], None)]
    ensures Indexed(a) && View(a) == View(st)[id := None]
  {
  }

  lemma TakeUnmapped(st: State, i: CallId)
    requires Indexed(st) && Enabled(st, Take(i)) && st.calls[i].todo[0] !in st.tasks
    ensures var a, id := Apply(st, Take(i)), st.calls[i].todo[0];
            && Shows(a, View(st)[id := None], KilledAgents(st.log), st.agents)
            && id in a.tasks && a.calls[i] == st.calls[i].(pc := Polling(a.tasks[id]))
  {
    TakeMoves(st, i);
    NewSlotShows(st, Apply(st, Take(i)), st.calls[i].todo[0]);
    KilledAppend(st.log, Inserted(i, |st.slots|));
  }

  lemma TakeStep(st: State, i: CallId)
    requires Indexed(st) && Enabled(st, Take(i))
    ensures var a, id := Apply(st, Take(i)), st.calls[i].todo[0];
            && Shows(a, if id in View(st) then View(st) else View(st)[id := None], KilledAgents(st.log), st.agents)
            && id in a.tasks && a.calls[i] == st.calls[i].(pc := Polling(a.tasks[id]))
  {
    if st.calls[i].todo[0] in st.tasks {
      TakeMapped(st, i);
    } else {
      TakeUnmapped(st, i);
    }
  }

  lemma PollStep(st: State, i: CallId)
    requires Indexed(st) && Enabled(st, Poll(i))
    ensures Shows(Apply(st, Poll(i)), View(st), KilledAgents(st.log), st.agents)
    ensures Apply(st, Poll(i)).calls[i] == st.calls[i].(pc := Queued(st.calls[i].pc.slot))
    ensures Apply(st, Poll(i)).tasks == st.tasks && |Apply(st, Poll(i)).slots| == |st.slots|
    ensures Apply(st, Poll(i)).slots[st.calls[i].pc.slot].cell == st.slots[st.calls[i].pc.slot].cell
  {
    SameShows(st, Apply(st, Poll(i)), View(st), KilledAgents(st.log), st.agents);
  }

  lemma StartStep(st: State, i: CallId)
    requires Indexed(st) && Enabled(st, Start(i))
    ensures Shows(Apply(st, Start(i)), View(st), KilledAgents(st.log), st.agents)
    ensures Apply(st, Start(i)).calls[i] == st.calls[i].(pc := Running(st.calls[i].pc.slot))
    ensures Apply(st, Start(i)).tasks == st.tasks && Apply(st, Start(i)).slots == st.slots
  {
  }

  lemma BuildMoves(st: State, i: CallId)
    requires Enabled(st, Build(i))
    ensures var b, s, wants := Apply(st, Build(i)), st.calls[i].pc.slot, st.calls[i].op.wants;
            && b.tasks == st.tasks && |b.slots| == |st.slots| && b.log == st.log + [Built(i, s, st.agents)]
            && (forall t | 0 <= t < |st.slots| ::
                  && b.slots[t].conversation == st.slots[t].conversation
                  && b.slots[t].cell == if t == s then Some(MT.Managed(st.agents, wants)) else st.slots[t].cell)
            && b.calls[i] == st.calls[i].(pc := Returned(Agent(s, st.agents)))
  {
  }

  lemma BuildStep(st: State, i: CallId, id: Conversation)
    requires Indexed(st) && Enabled(st, Build(i)) && id in st.tasks && st.tasks[id] == st.calls[i].pc.slot
    ensures var b, wants := Apply(st, Build(i)), st.calls[i].op.wants;
            && Indexed(b) && View(b) == View(st)[id := Some(MT.Managed(st.agents, wants))]
            && KilledAgents(b.log) == KilledAgents(st.log)
            && b.calls[i] == st.calls[i].(pc := Returned(Agent(st.tasks[id], st.agents)))
  {
    BuildMoves(st, i);
    KilledAppend(st.log, Built(i, st.tasks[id], st.agents));
  }

  lemma FailStep(st: State, i: CallId)
    requires Indexed(st) && Enabled(st, Fail(i))
    ensures Shows(Apply(st, Fail(i)), View(st), KilledAgents(st.log), st.agents)
    ensures Apply(st, Fail(i)).calls[i] == st.calls[i].(pc := Returned(Failed))
  {
    SameShows(st, Apply(st, Fail(i)), View(st), KilledAgents(st.log), st.agents);
  }

  lemma SharedStep(st: State, i: CallId)
    requires Indexed(st) && Enabled(st, Wake(i)) && st.calls[i].op.GetOrBuild?
    ensures var s := st.calls[i].pc.slot;
            && Shows(Apply(st, Wake(i)), View(st), KilledAgents(st.log), st.agents)
            && Apply(st, Wake(i)).calls[i] == st.calls[i].(pc := Returned(Agent(s, st.slots[s].cell.value.agent)))
  {
  }

  lemma GiveUpMoves(st: State, i: CallId)
    requires Enabled(st, GiveUp(i))
    ensures var b := Apply(st, GiveUp(i));
            && b.tasks == st.tasks && |b.slots| == |st.slots| && b.agents == st.agents
            && (forall t | 0 <= t < |st.slots| ::
                  && b.slots[t].conversation == st.slots[t].conversation && b.slots[t].cell == st.slots[t].cell)
            && b.log == st.log + [GaveUp(i, st.calls[i].pc.slot)]
            && b.calls[i] == st.calls[i].(pc := Returned(Finished))
  {
  }

  lemma GiveUpStep(st: State, i: CallId)
    requires Indexed(st) && Enabled(st, GiveUp(i))
    ensures Shows(Apply(st, GiveUp(i)), View(st), KilledAgents(st.log), st.agents)
    ensures Apply(st, GiveUp(i)).calls[i] == st.calls[i].(pc := Returned(Finished))
  {
    GiveUpMoves(st, i);
    KilledAppend(st.log, GaveUp(i, st.calls[i].pc.slot));
    SameShows(st, Apply(st, GiveUp(i)), View(st), KilledAgents(st.log), st.agents);
  }

  // ---- get_or_build_task ----

  /** Where a lone get_or_build_task starts from. */
  datatype Request = Request(
    tasks: MT.Tasks<AgentId>, killed: seq<AgentId>, agents: AgentId, id: Conversation, wants: RuntimeCapabilities)
  {
    predicate Stale() {
      MT.Stale(tasks, id, wants)
    }

    /** The map once a stale task is gone, and once there is a slot. */
    function Checked(): MT.Tasks<AgentId> {
      if Stale() then tasks - {id} else tasks
    }

    function Taken(): MT.Tasks<AgentId> {
      if id in Checked() then Checked() else Checked()[id := None]
    }

    function Killed(): seq<AgentId> {
      killed + if Stale() then [tasks[id].value.agent] else []
    }

    /** The end the sequential description foresees for these answers. */
    predicate ServedAs(accepted: bool, ok: bool, tasks': MT.Tasks<AgentId>, killed': seq<AgentId>, outcome: Outcome) {
      var served := MT.Serve(tasks, id, wants, accepted, if ok then Some(agents) else None);
      && tasks' == served.tasks
      && killed' == killed + (if served.killed.Some? then [served.killed.value] else [])
      && match served.result
         case Some(agent) => outcome.Agent? && outcome.agent == agent
         case None => outcome == Failed
    }
  }

  ghost predicate Served(st: State, r: Request, answers: Answers, outcome: Outcome) {
    Indexed(st) && exists accepted, ok :: accepted in answers.kills && ok in answers.builds
                     && r.ServedAs(accepted, ok, View(st), KilledAgents(st.log), outcome)
  }

  /** How far a lone get_or_build_task has come. */
  ghost predicate Serving(st: State, i: CallId, r: Request, answers: Answers) {
    && i < |st.calls| && st.calls[i].op == GetOrBuild(r.wants)
    && (!st.calls[i].pc.Returned? ==> st.calls[i].todo == [r.id])
    && match st.calls[i].pc
       case Checking => Shows(st, r.tasks, r.killed, r.agents)
       case Removing => r.Stale() && Shows(st, r.tasks, r.killed, r.agents)
       case Looking(s) => r.Stale() && Shows(st, r.tasks - {r.id}, r.killed, r.agents)
                          && s < |st.slots| && st.slots[s].cell == r.tasks[r.id]
       case Taking => GoneOn(r, answers) && Shows(st, r.Checked(), r.Killed(), r.agents)
       case Polling(s) => GoneOn(r, answers) && AtSlot(st, r, s)
       case Queued(s) => GoneOn(r, answers) && AtSlot(st, r, s)
       case Running(s) => GoneOn(r, answers) && AtSlot(st, r, s) && st.slots[s].cell.None?
       case Returned(outcome) => Served(st, r, answers, outcome)
  }

  /** A stale task has accepted its kill. */
  predicate GoneOn(r: Request, answers: Answers) {
    r.Stale() ==> true in answers.kills
  }

  ghost predicate AtSlot(st: State, r: Request, s: SlotId) {
    Shows(st, r.Taken(), r.Killed(), r.agents) && r.id in st.tasks && st.tasks[r.id] == s && s < |st.slots|
  }

  lemma TakenIsServed(r: Request, answers: Answers, accepted: bool, ok: bool)
    requires GoneOn(r, answers) && accepted in answers.kills && (r.Stale() ==> accepted)
    ensures var victim := MT.Victim(r.Taken(), r.id);
            && (victim.Some? ==> forall s :: r.ServedAs(accepted, ok, r.Taken(), r.Killed(), Agent(s, victim.value)))
            && (victim.None? && !ok ==> r.ServedAs(accepted, ok, r.Taken(), r.Killed(), Failed))
            && (victim.None? && ok ==>
                  forall s :: r.ServedAs(accepted, ok, r.Taken()[r.id := Some(MT.Managed(r.agents, r.wants))],
                                         r.Killed(), Agent(s, r.agents)))
  {
  }

  lemma ServeChecks(st: State, i: CallId, r: Request, answers: Answers)
    requires Enabled(st, Check(i)) && Serving(st, i, r, answers)
    ensures Serving(Apply(st, Check(i)), i, r, answers)
  {
    CheckStep(st, i);
    StepMovesOne(st, Check(i));
  }

  lemma ServeRemoves(st: State, i: CallId, r: Request, answers: Answers)
    requires Enabled(st, Remove(i)) && Serving(st, i, r, answers)
    ensures Serving(Apply(st, Remove(i)), i, r, answers)
  {
    RemoveMapped(st, i);
  }

  lemma RefusalIsServed(r: Request, ok: bool)
    requires r.Stale()
    ensures r.ServedAs(false, ok, r.tasks - {r.id}, r.Killed(), Failed)
  {
  }

  lemma ServeLooks(st: State, i: CallId, accepted: bool, r: Request, answers: Answers)
    requires Enabled(st, Look(i, accepted)) && Serving(st, i, r, answers)
    requires accepted in answers.kills && Answered(answers)
    ensures Serving(Apply(st, Look(i, accepted)), i, r, answers)
  {
    var b := Apply(st, Look(i, accepted));
    LookStep(st, i, accepted);
    assert Shows(b, r.tasks - {r.id}, r.Killed(), r.agents);
    if accepted {
      assert b.calls[i] == st.calls[i].(pc := Taking);
    } else {
      var ok := true in answers.builds;
      RefusalIsServed(r, ok);
      assert r.ServedAs(accepted, ok, View(b), KilledAgents(b.log), Failed);
    }
  }

  lemma ServeTakes(st: State, i: CallId, r: Request, answers: Answers)
    requires Enabled(st, Take(i)) && Serving(st, i, r, answers)
    ensures Serving(Apply(st, Take(i)), i, r, answers)
  {
    TakeStep(st, i);
  }

  lemma ServeQueues(st: State, i: CallId, l: Label, r: Request, answers: Answers)
    requires l == Poll(i) || l == Start(i)
    requires Enabled(st, l) && Serving(st, i, r, answers) && CallOk(Apply(st, l).slots, Apply(st, l).calls[i], i)
    ensures Serving(Apply(st, l), i, r, answers)
  {
    if l.Poll? {
      PollStep(st, i);
    } else {
      StartStep(st, i);
    }
  }

  lemma ServeBuilds(st: State, i: CallId, r: Request, answers: Answers)
    requires Enabled(st, Build(i)) && Serving(st, i, r, answers) && Allowed(Build(i), answers) && Answered(answers)
    ensures Serving(Apply(st, Build(i)), i, r, answers)
  {
    var accepted := true in answers.kills;
    TakenIsServed(r, answers, accepted, true);
    BuildStep(st, i, r.id);
    var b := Apply(st, Build(i));
    assert r.ServedAs(accepted, true, View(b), KilledAgents(b.log), b.calls[i].pc.outcome);
  }

  lemma ServeFails(st: State, i: CallId, r: Request, answers: Answers)
    requires Enabled(st, Fail(i)) && Serving(st, i, r, answers) && Allowed(Fail(i), answers) && Answered(answers)
    ensures Serving(Apply(st, Fail(i)), i, r, answers)
  {
    var accepted := true in answers.kills;
    TakenIsServed(r, answers, accepted, false);
    FailStep(st, i);
    assert r.ServedAs(accepted, false, View(Apply(st, Fail(i))), KilledAgents(Apply(st, Fail(i)).log), Failed);
  }

  lemma ServeShares(st: State, i: CallId, r: Request, answers: Answers)
    requires Enabled(st, Wake(i)) && Serving(st, i, r, answers) && Answered(answers)
    ensures Serving(Apply(st, Wake(i)), i, r, answers)
  {
    var accepted, ok := true in answers.kills, true in answers.builds;
    TakenIsServed(r, answers, accepted, ok);
    SharedStep(st, i);
    var b := Apply(st, Wake(i));
    assert r.ServedAs(accepted, ok, View(b), KilledAgents(b.log), b.calls[i].pc.outcome);
  }

  lemma KeepsServing(st: State, i: CallId, l: Label, r: Request, answers: Answers)
    requires Core(st) && Alone(st, i) && Enabled(st, l) && Allowed(l, answers) && Serving(st, i, r, answers)
    requires Answered(answers)
    ensures Serving(Apply(st, l), i, r, answers)
  {
    LoneStep(st, i, l, answers);
    KeepsCore(st, l);
    match l
    case Check(_) => ServeChecks(st, i, r, answers);
    case Remove(_) => ServeRemoves(st, i, r, answers);
    case Look(_, accepted) => ServeLooks(st, i, accepted, r, answers);
    case Take(_) => ServeTakes(st, i, r, answers);
    case Poll(_) => ServeQueues(st, i, l, r, answers);
    case Start(_) => ServeQueues(st, i, l, r, answers);
    case Build(_) => ServeBuilds(st, i, r, answers);
    case Fail(_) => ServeFails(st, i, r, answers);
    case Wake(_) => ServeShares(st, i, r, answers);
    case GiveUp(_) =>
  }

  lemma {:induction false} RunKeepsServing(st: State, i: CallId, ls: seq<Label>, st': State, r: Request,
        answers: Answers)
    requires Inv(st) && Alone(st, i) && Leads(st, ls, st') && AllAllowed(ls, answers) && Serving(st, i, r, answers)
    requires Answered(answers)
    ensures Serving(st', i, r, answers)
    decreases |ls|
  {
    if ls == [] {
    } else {
      KeepsServing(st, i, ls[0], r, answers);
      LoneStep(st, i, ls[0], answers);
      KeepsInv(st, ls[0]);
      RunKeepsServing(Apply(st, ls[0]), i, ls[1..], st', r, answers);
    }
  }

  /** A lone get_or_build_task that has returned did, with some answers of the agents and the
    * factory, what `Serve` says. */
  ghost predicate DidServe(st: State, st': State, id: Conversation, wants: RuntimeCapabilities, accepted: bool,
        ok: bool)
  {
    && Indexed(st) && Indexed(st') && |st.calls| < |st'.calls| && st'.calls[|st.calls|].pc.Returned?
    && Request(View(st), KilledAgents(st.log), st.agents, id, wants)
       .ServedAs(accepted, ok, View(st'), KilledAgents(st'.log), st'.calls[|st.calls|].pc.outcome)
  }

  lemma LoneRunServes(st: State, id: Conversation, wants: RuntimeCapabilities, answers: Answers, ls: seq<Label>,
        st': State)
    requires Inv(st) && Quiet(st) && Answered(answers) && LoneRun(st, GetOrBuild(wants), [id], answers, ls, st')
    ensures exists accepted, ok ::
              accepted in answers.kills && ok in answers.builds && DidServe(st, st', id, wants, accepted, ok)
  {
    var i, a := |st.calls|, Apply(st, Spawn(GetOrBuild(wants), [id]));
    SpawnedIsAlone(st, GetOrBuild(wants), [id]);
    var r := Request(View(st), KilledAgents(st.log), st.agents, id, wants);
    RunKeepsServing(a, i, ls, st', r, answers);
    var accepted, ok :| accepted in answers.kills && ok in answers.builds
                        && r.ServedAs(accepted, ok, View(st'), KilledAgents(st'.log), st'.calls[i].pc.outcome);
    assert DidServe(st, st', id, wants, accepted, ok);
  }

  lemma LoneRunExists(st: State, op: Op, ids: seq<Conversation>, accepted: bool, ok: bool)
    returns (ls: seq<Label>, st': State)
    requires Inv(st) && Quiet(st) && (op.Clear? || |ids| == 1)
    ensures LoneRun(st, op, ids, Answers({accepted}, {ok}), ls, st') && LoneRun(st, op, ids, ANY, ls, st')
  {
    SpawnedIsAlone(st, op, ids);
    ls, st' := LoneCallReturns(Apply(st, Spawn(op, ids)), |st.calls|, accepted, ok);
  }

  ghost predicate CanServe(st: State, id: Conversation, wants: RuntimeCapabilities, accepted: bool, ok: bool) {
    exists ls, st' :: LoneRun(st, GetOrBuild(wants), [id], ANY, ls, st') && DidServe(st, st', id, wants, accepted, ok)
  }

  /** Alone, get_or_build_task does what `Serve` says: every run ends so for some answers, and for
    * every answers some run ends so. */
  lemma GetOrBuildAlone(st: State, id: Conversation, wants: RuntimeCapabilities)
    requires Inv(st) && Quiet(st)
    ensures forall ls, st' :: LoneRun(st, GetOrBuild(wants), [id], ANY, ls, st') ==>
              exists accepted, ok :: DidServe(st, st', id, wants, accepted, ok)
    ensures forall accepted, ok :: CanServe(st, id, wants, accepted, ok)
  {
    forall ls, st' | LoneRun(st, GetOrBuild(wants), [id], ANY, ls, st')
      ensures exists accepted, ok :: DidServe(st, st', id, wants, accepted, ok)
    {
      LoneRunServes(st, id, wants, ANY, ls, st');
    }
    forall accepted, ok
      ensures CanServe(st, id, wants, accepted, ok)
    {
      var ls, st' := LoneRunExists(st, GetOrBuild(wants), [id], accepted, ok);
      LoneRunServes(st, id, wants, Answers({accepted}, {ok}), ls, st');
    }
  }

  // ---- kill, kill_and_wait and clear ----

  /** The agents killed when the listed tasks are removed one after the other. */
  function Victims(tasks: MT.Tasks<AgentId>, ids: seq<Conversation>): seq<AgentId>
    decreases |ids|
  {
    if ids == [] then []
    else (if MT.Victim(tasks, ids[0]).Some? then [MT.Victim(tasks, ids[0]).value] else [])
         + Victims(tasks - {ids[0]}, ids[1..])
  }

  /** The end of removing the listed tasks: what the map becomes, and who has been killed. */
  ghost predicate Cleared(v: MT.Tasks<AgentId>, killed: seq<AgentId>, ids: seq<Conversation>,
                          v': MT.Tasks<AgentId>, killed': seq<AgentId>) {
    v' == MT.WithoutTasks(v, ids) && killed' == killed + Victims(v, ids)
  }

  lemma ClearedNone(v: MT.Tasks<AgentId>, killed: seq<AgentId>, v': MT.Tasks<AgentId>, killed': seq<AgentId>)
    ensures Cleared(v, killed, [], v', killed') <==> v' == v && killed' == killed
  {
  }

  lemma ClearedNext(v: MT.Tasks<AgentId>, killed: seq<AgentId>, ids: seq<Conversation>,
                    v': MT.Tasks<AgentId>, killed': seq<AgentId>)
    requires ids != []
    ensures Cleared(v, killed, ids, v', killed') <==>
            Cleared(v - {ids[0]}, killed + (if ids[0] in v then AgentOf(v[ids[0]]) else []), ids[1..], v', killed')
  {
    assert ids == [ids[0]] + ids[1..];
    assert MT.WithoutTasks(v, ids) == MT.WithoutTasks(v - {ids[0]}, ids[1..]);
    var first := if ids[0] in v then AgentOf(v[ids[0]]) else [];
    assert Victims(v, ids) == first + Victims(v - {ids[0]}, ids[1..]);
    assert killed + (first + Victims(v - {ids[0]}, ids[1..])) == (killed + first) + Victims(v - {ids[0]}, ids[1..]);
  }

  /** Where a lone removal has to end; `built`: a plain kill finds an agent. */
  datatype Goal = Goal(tasks: MT.Tasks<AgentId>, killed: seq<AgentId>, built: bool)

  /** Map and kills so far, with `ids` still to be removed, lead to the goal. */
  ghost predicate LeftToDo(st: State, more: seq<AgentId>, ids: seq<Conversation>, g: Goal) {
    Indexed(st) && Cleared(View(st), KilledAgents(st.log) + more, ids, g.tasks, g.killed)
  }

  ghost predicate Arrived(st: State, g: Goal) {
    Indexed(st) && View(st) == g.tasks && KilledAgents(st.log) == g.killed
  }

  ghost predicate EmptySlot(st: State, s: SlotId, g: Goal) {
    Arrived(st, g) && s < |st.slots| && st.slots[s].cell.None?
  }

  /** A plain kill that finds an agent reports a refusal; nothing else fails. */
  predicate Reported(op: Op, built: bool, answers: Answers, outcome: Outcome) {
    if op.Kill? && built
    then (outcome == Finished && true in answers.kills) || (outcome == Failed && false in answers.kills)
    else outcome == Finished
  }

  /** How far a lone kill, kill_and_wait or clear has come. */
  ghost predicate Sweeping(st: State, i: CallId, op: Op, g: Goal, answers: Answers) {
    && i < |st.calls| && st.calls[i].op == op && !op.GetOrBuild?
    && var call := st.calls[i];
    && (!op.Clear? && !call.pc.Returned? ==> |call.todo| == 1)
    && match call.pc
       case Removing => call.todo != [] && LeftToDo(st, [], call.todo, g)
                        && (op.Kill? ==> (MT.Victim(View(st), call.todo[0]).Some? <==> g.built))
       case Looking(s) => call.todo != [] && s < |st.slots|
                          && LeftToDo(st, AgentOf(st.slots[s].cell), call.todo[1..], g)
                          && (op.Kill? ==> (st.slots[s].cell.Some? <==> g.built))
       case Polling(s) => op.KillAndWait? && EmptySlot(st, s, g)
       case Queued(s) => op.KillAndWait? && EmptySlot(st, s, g)
       case Returned(outcome) => Arrived(st, g) && Reported(op, g.built, answers, outcome)
       case _ => false
  }

  /** A call that is through with the first of its tasks goes on to the rest. */
  lemma SweepGoesOn(st: State, i: CallId, op: Op, ids: seq<Conversation>, g: Goal, answers: Answers)
    requires i < |st.calls| && st.calls[i].op == op && !op.GetOrBuild? && ids != [] && (!op.Clear? ==> |ids| == 1)
    requires exists pc :: st.calls[i] == Call(op, ids, pc, st.calls[i].checkedAt).AfterRemoval()
    requires LeftToDo(st, [], ids[1..], g) && (op.Kill? && g.built ==> true in answers.kills)
    ensures Sweeping(st, i, op, g, answers)
  {
    assert KilledAgents(st.log) + [] == KilledAgents(st.log);
    if |ids| == 1 {
      assert ids[1..] == [];
      ClearedNone(View(st), KilledAgents(st.log), g.tasks, g.killed);
    }
  }

  lemma SweepRemoves(st: State, i: CallId, op: Op, g: Goal, answers: Answers)
    requires Enabled(st, Remove(i)) && Sweeping(st, i, op, g, answers)
    ensures Sweeping(Apply(st, Remove(i)), i, op, g, answers)
  {
    var call := st.calls[i];
    var ids, k := call.todo, KilledAgents(st.log);
    assert k + [] == k;
    ClearedNext(View(st), k, ids, g.tasks, g.killed);
    if ids[0] in st.tasks {
      RemoveMapped(st, i);
    } else {
      RemoveUnmapped(st, i);
      assert call == Call(op, ids, Removing, call.checkedAt);
      SweepGoesOn(Apply(st, Remove(i)), i, op, ids, g, answers);
    }
  }

  lemma SweepLooks(st: State, i: CallId, accepted: bool, op: Op, g: Goal, answers: Answers)
    requires Enabled(st, Look(i, accepted)) && Sweeping(st, i, op, g, answers) && accepted in answers.kills
    ensures Sweeping(Apply(st, Look(i, accepted)), i, op, g, answers)
  {
    var call, b := st.calls[i], Apply(st, Look(i, accepted));
    var s, ids := call.pc.slot, call.todo;
    LookStep(st, i, accepted);
    assert KilledAgents(b.log) + [] == KilledAgents(b.log);
    if |ids| == 1 {
      assert ids[1..] == [];
      ClearedNone(View(b), KilledAgents(b.log), g.tasks, g.killed);
    }
    if b.calls[i] == call.AfterRemoval() {
      assert call == Call(op, ids, Looking(s), call.checkedAt);
      SweepGoesOn(b, i, op, ids, g, answers);
    }
  }

  lemma SweepWaits(st: State, i: CallId, l: Label, op: Op, g: Goal, answers: Answers)
    requires l == Poll(i) || l == GiveUp(i)
    requires Enabled(st, l) && Sweeping(st, i, op, g, answers)
    ensures Sweeping(Apply(st, l), i, op, g, answers)
  {
    if l.Poll? {
      PollStep(st, i);
    } else {
      GiveUpStep(st, i);
    }
  }

  lemma KeepsSweeping(st: State, i: CallId, l: Label, op: Op, g: Goal, answers: Answers)
    requires Alone(st, i) && Enabled(st, l) && Allowed(l, answers) && Sweeping(st, i, op, g, answers)
    ensures Sweeping(Apply(st, l), i, op, g, answers)
  {
    LoneStep(st, i, l, answers);
    match l
    case Remove(_) => SweepRemoves(st, i, op, g, answers);
    case Look(_, accepted) => SweepLooks(st, i, accepted, op, g, answers);
    case Poll(_) => SweepWaits(st, i, l, op, g, answers);
    case GiveUp(_) => SweepWaits(st, i, l, op, g, answers);
    case _ =>
  }

  lemma {:induction false} RunKeepsSweeping(st: State, i: CallId, ls: seq<Label>, st': State, op: Op, g: Goal,
        answers: Answers)
    requires Alone(st, i) && Leads(st, ls, st') && AllAllowed(ls, answers) && Sweeping(st, i, op, g, answers)
    ensures Sweeping(st', i, op, g, answers)
    decreases |ls|
  {
    if ls == [] {
    } else {
      KeepsSweeping(st, i, ls[0], op, g, answers);
      LoneStep(st, i, ls[0], answers);
      RunKeepsSweeping(Apply(st, ls[0]), i, ls[1..], st', op, g, answers);
    }
  }

  /** The listed tasks are gone, their agents killed in order, and the call returned this. */
  ghost predicate DidRemove(st: State, st': State, ids: seq<Conversation>, outcome: Outcome) {
    && Indexed(st) && Indexed(st') && |st.calls| < |st'.calls| && st'.calls[|st.calls|].pc == Returned(outcome)
    && View(st') == MT.WithoutTasks(View(st), ids)
    && KilledAgents(st'.log) == KilledAgents(st.log) + Victims(View(st), ids)
  }

  predicate HasAgent(st: State, id: Conversation)
    requires forall c | c in st.tasks :: st.tasks[c] < |st.slots|
  {
    MT.Victim(View(st), id).Some?
  }

  lemma LoneRunRemoves(st: State, op: Op, ids: seq<Conversation>, answers: Answers, ls: seq<Label>, st': State)
    requires Inv(st) && Quiet(st) && !op.GetOrBuild? && LoneRun(st, op, ids, answers, ls, st')
    ensures st'.calls[|st.calls|].pc.Returned? && DidRemove(st, st', ids, st'.calls[|st.calls|].pc.outcome)
    ensures Reported(op, op.Kill? && HasAgent(st, ids[0]), answers, st'.calls[|st.calls|].pc.outcome)
  {
    var i, a, k := |st.calls|, Apply(st, Spawn(op, ids)), KilledAgents(st.log);
    SpawnedIsAlone(st, op, ids);
    var g := Goal(MT.WithoutTasks(View(st), ids), k + Victims(View(st), ids), op.Kill? && HasAgent(st, ids[0]));
    assert k + [] == k;
    if ids == [] {
      ClearedNone(View(st), k, g.tasks, g.killed);
    }
    RunKeepsSweeping(a, i, ls, st', op, g, answers);
  }

  /** The task is gone and its agent killed; the call failed if there was an agent and it refused. */
  ghost predicate DidKill(st: State, st': State, id: Conversation, accepted: bool) {
    Indexed(st) && DidRemove(st, st', [id], if HasAgent(st, id) && !accepted then Failed else Finished)
  }

  ghost predicate CanKill(st: State, id: Conversation, accepted: bool) {
    exists ls, st' :: LoneRun(st, Kill, [id], ANY, ls, st') && DidKill(st, st', id, accepted)
  }

  /** Alone, kill removes the task and kills its agent, and fails just if that refuses: on every
    * run, and for both answers on some run. */
  lemma KillAlone(st: State, id: Conversation)
    requires Inv(st) && Quiet(st)
    ensures forall ls, st' :: LoneRun(st, Kill, [id], ANY, ls, st') ==>
              DidKill(st, st', id, true) || DidKill(st, st', id, false)
    ensures forall accepted :: CanKill(st, id, accepted)
  {
    forall ls, st' | LoneRun(st, Kill, [id], ANY, ls, st')
      ensures DidKill(st, st', id, true) || DidKill(st, st', id, false)
    {
      LoneRunRemoves(st, Kill, [id], ANY, ls, st');
    }
    forall accepted
      ensures CanKill(st, id, accepted)
    {
      var ls, st' := LoneRunExists(st, Kill, [id], accepted, true);
      LoneRunRemoves(st, Kill, [id], Answers({accepted}, {true}), ls, st');
      assert DidKill(st, st', id, accepted);
    }
  }

  /** Alone, kill_and_wait removes the task and kills its agent, and clear all the listed ones;
    * neither fails, whatever the agents answer: on every run, and there is one. */
  lemma RemovalAlone(st: State, op: Op, ids: seq<Conversation>)
    requires Inv(st) && Quiet(st) && (op.Clear? || (op.KillAndWait? && |ids| == 1))
    ensures forall ls, st' :: LoneRun(st, op, ids, ANY, ls, st') ==> DidRemove(st, st', ids, Finished)
    ensures exists ls, st' :: LoneRun(st, op, ids, ANY, ls, st')
  {
    forall ls, st' | LoneRun(st, op, ids, ANY, ls, st')
      ensures DidRemove(st, st', ids, Finished)
    {
      LoneRunRemoves(st, op, ids, ANY, ls, st');
    }
    var ls, st' := LoneRunExists(st, op, ids, true, true);
  }
}
