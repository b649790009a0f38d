/** The task manager of task_manager.rs as a protocol: any number of calls interleave,
  * one atomic access to shared state per step.
  *
  * Shared state is the `tasks` map and the once-cells it points to. A once-cell is a
  * value that may be absent plus tokio's one-permit FIFO semaphore: a released permit
  * goes straight to the first waiter, and setting the value closes the semaphore and
  * wakes everyone. `removedBy`, `checkedAt` and `log` record history; no step reads them.
  */
module TaskProtocol {
  import opened Wrappers
  import opened Capabilities
  import opened ManagedTasks

  type Conversation = string
  type SlotId = nat
  type CallId = nat
  type AgentId = nat

  datatype Slot = Slot(
    conversation: Conversation,
    cell: Option<Managed<AgentId>>,
    holder: Option<CallId>,
    waiters: seq<CallId>,
    removedBy: Option<CallId>)

  datatype Op =
    | GetOrBuild(wants: RuntimeCapabilities)
    | Kill
    | KillAndWait
    | Clear

  datatype Outcome =
    | Agent(slot: SlotId, agent: AgentId)
    | Failed
    | Finished
    | Cancelled

  /** Where a call stands: the shared access it makes next. */
  datatype Pc =
    | Checking                 // read the mapped task's capabilities
    | Removing                 // tasks.remove(todo[0])
    | Looking(slot: SlotId)    // slot.get() on the slot just removed
    | Taking                   // tasks.entry(..).or_insert
    | Polling(slot: SlotId)    // first poll of get_or_try_init
    | Queued(slot: SlotId)     // waiting for, or just handed, the permit
    | Running(slot: SlotId)    // holding the permit, factory running
    | Returned(outcome: Outcome)

  datatype Call = Call(op: Op, todo: seq<Conversation>, pc: Pc, checkedAt: nat) {
    /** The call as it goes on after it has dealt with `todo[0]`. */
    function AfterRemoval(): Call {
      if op.GetOrBuild? then this.(pc := Taking)
      else if op.Clear? && |todo| > 1 then this.(todo := todo[1..], pc := Removing)
      else this.(pc := Returned(Finished))
    }
  }

  datatype Event =
    | Checked(who: CallId)
    | Inserted(who: CallId, slot: SlotId)
    | Removed(who: CallId, slot: SlotId)
    | Built(who: CallId, slot: SlotId, agent: AgentId)
    | Killed(who: CallId, slot: SlotId, agent: AgentId)
    | Missed(who: CallId, slot: SlotId)     // kill or clear found the cell empty
    | GaveUp(who: CallId, slot: SlotId)     // kill_and_wait held the permit over an empty cell
    | Dropped(who: CallId, slot: SlotId)    // kill_and_wait's future was dropped

  datatype State = State(
    tasks: map<Conversation, SlotId>,
    slots: seq<Slot>,
    calls: seq<Call>,
    agents: AgentId,
    log: seq<Event>)

  const INITIAL := State(map[], [], [], 0, [])

  /** One step. `Spawn` starts a call; every other label names the call that moves. */
  datatype Label =
    | Spawn(op: Op, todo: seq<Conversation>)
    | Check(call: CallId)
    | Remove(call: CallId)
    | Look(call: CallId, accepted: bool)   // accepted: what agent.kill answers
    | Take(call: CallId)
    | Poll(call: CallId)
    | Start(call: CallId)
    | Build(call: CallId)
    | Fail(call: CallId)
    | Wake(call: CallId)
    | GiveUp(call: CallId)
    | Drop(call: CallId)

  // ---- Pieces of state update ----

  function Put(st: State, i: CallId, call: Call): State
    requires i < |st.calls|
  {
    st.(calls := st.calls[i := call])
  }

  function Goto(st: State, i: CallId, pc: Pc): State
    requires i < |st.calls|
  {
    Put(st, i, st.calls[i].(pc := pc))
  }

  function PutSlot(st: State, s: SlotId, slot: Slot): State
    requires s < |st.slots|
  {
    st.(slots := st.slots[s := slot])
  }

  function Note(st: State, e: Event): State {
    st.(log := st.log + [e])
  }

  /** Hand the permit on: to the first waiter, or to nobody. */
  function Release(slot: Slot): Slot {
    if slot.waiters == [] then slot.(holder := None)
    else slot.(holder := Some(slot.waiters[0]), waiters := slot.waiters[1..])
  }

  function Without(waiters: seq<CallId>, i: CallId): seq<CallId> {
    if waiters == [] then []
    else if waiters[0] == i then Without(waiters[1..], i)
    else [waiters[0]] + Without(waiters[1..], i)
  }

  /** Call `i` lets go of the semaphore: gives the permit back, or its place in the queue. */
  function Leave(slot: Slot, i: CallId): Slot {
    if slot.holder == Some(i) then Release(slot)
    else slot.(waiters := Without(slot.waiters, i))
  }

  function Depart(st: State, i: CallId, s: SlotId, outcome: Outcome): State
    requires i < |st.calls| && s < |st.slots|
  {
    Goto(PutSlot(st, s, Leave(st.slots[s], i)), i, Returned(outcome))
  }

  /** The mapped task is built but lacks the requested capabilities. */
  predicate MappedIsStale(st: State, conversation: Conversation, wants: RuntimeCapabilities) {
    conversation in st.tasks
    && st.tasks[conversation] < |st.slots|
    && var cell := st.slots[st.tasks[conversation]].cell;
    cell.Some? && !cell.value.capabilities.Satisfies(wants)
  }

  // ---- Steps ----

  predicate Enabled(st: State, l: Label) {
    if l.Spawn? then
      l.op.Clear? || |l.todo| == 1
    else
      l.call < |st.calls|
      && var call := st.calls[l.call];
      match l
      case Check(_) => call.pc.Checking? && call.op.GetOrBuild? && call.todo != []
      case Remove(_) => call.pc.Removing? && call.todo != []
                        && (call.todo[0] in st.tasks ==> st.tasks[call.todo[0]] < |st.slots|)
      case Look(_, _) => call.pc.Looking? && call.pc.slot < |st.slots|
      case Take(_) => call.pc.Taking? && call.todo != []
      case Poll(_) => call.pc.Polling? && call.pc.slot < |st.slots|
      case Start(_) => call.pc.Queued? && call.pc.slot < |st.slots| && call.op.GetOrBuild?
                       && st.slots[call.pc.slot].holder == Some(l.call)
      case Build(_) => call.pc.Running? && call.pc.slot < |st.slots| && call.op.GetOrBuild?
      case Fail(_) => call.pc.Running? && call.pc.slot < |st.slots|
      case Wake(_) => call.pc.Queued? && call.pc.slot < |st.slots| && st.slots[call.pc.slot].cell.Some?
      case GiveUp(_) => call.pc.Queued? && call.pc.slot < |st.slots| && call.op.KillAndWait?
                        && st.slots[call.pc.slot].holder == Some(l.call)
      case Drop(_) => (call.pc.Queued? || call.pc.Running? || (call.pc.Polling? && call.op.KillAndWait?))
                      && call.pc.slot < |st.slots|
  }

  function Spawned(op: Op, todo: seq<Conversation>): Call {
    Call(op, todo,
         if op.GetOrBuild? then Checking else if todo == [] then Returned(Finished) else Removing,
         0)
  }

  function DoCheck(st: State, i: CallId): State
    requires Enabled(st, Check(i))
  {
    var call := st.calls[i];
    var next := if MappedIsStale(st, call.todo[0], call.op.wants) then Removing else Taking;
    Note(Put(st, i, call.(pc := next, checkedAt := |st.log|)), Checked(i))
  }

  function DoRemove(st: State, i: CallId): State
    requires Enabled(st, Remove(i))
  {
    var call := st.calls[i];
    var conversation := call.todo[0];
    if conversation in st.tasks then
      var s := st.tasks[conversation];
      Note(Goto(PutSlot(st, s, st.slots[s].(removedBy := Some(i))), i, Looking(s)).(tasks := st.tasks - {conversation}),
           Removed(i, s))
    else
      Put(st, i, call.AfterRemoval())
  }

  /** `kill` and a rebuild report a refused kill; `kill_and_wait` and `clear` ignore it. */
  function DoLook(st: State, i: CallId, accepted: bool): State
    requires Enabled(st, Look(i, accepted))
  {
    var call := st.calls[i];
    var s := call.pc.slot;
    match st.slots[s].cell
    case Some(m) =>
      var next := if (call.op.GetOrBuild? || call.op.Kill?) && !accepted
                  then call.(pc := Returned(Failed)) else call.AfterRemoval();
      Note(Put(st, i, next), Killed(i, s, m.agent))
    case None =>
      if call.op.KillAndWait? then Goto(st, i, Polling(s))
      else Note(Put(st, i, call.AfterRemoval()), Missed(i, s))
  }

  function DoTake(st: State, i: CallId): State
    requires Enabled(st, Take(i))
  {
    var conversation := st.calls[i].todo[0];
    if conversation in st.tasks then
      Goto(st, i, Polling(st.tasks[conversation]))
    else
      var s := |st.slots|;
      Note(Goto(st, i, Polling(s)).(tasks := st.tasks[conversation := s],
                                    slots := st.slots + [Slot(conversation, None, None, [], None)]),
           Inserted(i, s))
  }

  function DoPoll(st: State, i: CallId): State
    requires Enabled(st, Poll(i))
  {
    var s := st.calls[i].pc.slot;
    var slot := st.slots[s];
    var slot' := if slot.cell.Some? then slot
                 else if slot.holder.None? then slot.(holder := Some(i))
                 else slot.(waiters := slot.waiters + [i]);
    Goto(PutSlot(st, s, slot'), i, Queued(s))
  }

  function DoBuild(st: State, i: CallId): State
    requires Enabled(st, Build(i))
  {
    var call := st.calls[i];
    var s := call.pc.slot;
    var a := st.agents;
    var slot := st.slots[s].(cell := Some(Managed(a, call.op.wants)), holder := None, waiters := []);
    Note(Goto(PutSlot(st, s, slot), i, Returned(Agent(s, a))).(agents := a + 1), Built(i, s, a))
  }

  function DoWake(st: State, i: CallId): State
    requires Enabled(st, Wake(i))
  {
    var call := st.calls[i];
    var s := call.pc.slot;
    var a := st.slots[s].cell.value.agent;
    if call.op.GetOrBuild? then Goto(st, i, Returned(Agent(s, a)))
    else Note(Goto(st, i, Returned(Finished)), Killed(i, s, a))
  }

  function DoDrop(st: State, i: CallId): State
    requires Enabled(st, Drop(i))
  {
    var call := st.calls[i];
    var gone := Depart(st, i, call.pc.slot, Cancelled);
    if call.op.KillAndWait? then Note(gone, Dropped(i, call.pc.slot)) else gone
  }

  function Apply(st: State, l: Label): State
    requires Enabled(st, l)
  {
    match l
    case Spawn(op, todo) => st.(calls := st.calls + [Spawned(op, todo)])
    case Check(i) => DoCheck(st, i)
    case Remove(i) => DoRemove(st, i)
    case Look(i, accepted) => DoLook(st, i, accepted)
    case Take(i) => DoTake(st, i)
    case Poll(i) => DoPoll(st, i)
    case Start(i) => Goto(st, i, Running(st.calls[i].pc.slot))
    case Build(i) => DoBuild(st, i)
    case Fail(i) => Depart(st, i, st.calls[i].pc.slot, Failed)
    case Wake(i) => DoWake(st, i)
    case GiveUp(i) => Note(Depart(st, i, st.calls[i].pc.slot, Finished), GaveUp(i, st.calls[i].pc.slot))
    case Drop(i) => DoDrop(st, i)
  }

  /** The steps `ls`, each enabled where it is taken, lead from `st` to `st'`. */
  ghost predicate Leads(st: State, ls: seq<Label>, st': State)
    decreases |ls|
  {
    if ls == [] then st == st'
    else Enabled(st, ls[0]) && Leads(Apply(st, ls[0]), ls[1..], st')
  }

  ghost predicate Reachable(st: State) {
    exists ls :: Leads(INITIAL, ls, st)
  }
}
