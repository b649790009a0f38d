/** What every step of the task protocol keeps. */
module TaskProtocolInvariants {
  import opened Wrappers
  import opened TaskProtocol

  predicate AtSemaphore(call: Call, s: SlotId) {
    call.pc == Queued(s) || call.pc == Running(s)
  }

  /** The call that took slot `s` out of the map still has to settle what becomes of it. */
  predicate Owes(call: Call, s: SlotId) {
    call.pc == Looking(s)
    || (call.op.KillAndWait? && (call.pc == Polling(s) || call.pc == Queued(s)))
  }

  predicate Mapped(st: State, s: SlotId) {
    s < |st.slots| && st.slots[s].conversation in st.tasks && st.tasks[st.slots[s].conversation] == s
  }

  ghost predicate MapOk(st: State) {
    && (forall c | c in st.tasks :: st.tasks[c] < |st.slots| && st.slots[st.tasks[c]].conversation == c)
    && (forall s | 0 <= s < |st.slots| :: Mapped(st, s) <==> st.slots[s].removedBy.None?)
  }

  ghost predicate Distinct(ws: seq<CallId>) {
    forall a, b | 0 <= a < b < |ws| :: ws[a] != ws[b]
  }

  /** The permit and the queue of one slot. */
  ghost predicate QueueOk(calls: seq<Call>, slot: Slot, s: SlotId) {
    && (slot.cell.Some? || slot.holder.None? ==> slot.waiters == [])
    && (slot.cell.Some? ==> slot.holder.None?)
    && (slot.holder.Some? ==>
          && slot.holder.value < |calls|
          && AtSemaphore(calls[slot.holder.value], s)
          && slot.holder.value !in slot.waiters)
    && (forall w | w in slot.waiters :: w < |calls| && calls[w].pc == Queued(s))
    && Distinct(slot.waiters)
  }

  ghost predicate QueuesOk(st: State) {
    forall s | 0 <= s < |st.slots| :: QueueOk(st.calls, st.slots[s], s)
  }

  /** What a call's position says about the slot it points at. */
  predicate CallOk(slots: seq<Slot>, call: Call, i: CallId) {
    && (!call.op.Clear? ==> |call.todo| == 1)
    && match call.pc
       case Checking => call.op.GetOrBuild?
       case Taking => call.op.GetOrBuild?
       case Removing => call.todo != []
       case Looking(s) => call.todo != [] && s < |slots| && slots[s].removedBy == Some(i)
       case Polling(s) => s < |slots| && WaiterOk(slots[s], call, i)
       case Queued(s) => s < |slots| && WaiterOk(slots[s], call, i)
                         && (slots[s].cell.Some? || slots[s].holder == Some(i) || i in slots[s].waiters)
       case Running(s) => s < |slots| && call.op.GetOrBuild? && slots[s].holder == Some(i) && slots[s].cell.None?
       case Returned(outcome) =>
         outcome.Agent? ==>
           && call.op.GetOrBuild?
           && outcome.slot < |slots|
           && slots[outcome.slot].cell.Some?
           && slots[outcome.slot].cell.value.agent == outcome.agent
  }

  predicate WaiterOk(slot: Slot, call: Call, i: CallId) {
    call.op.GetOrBuild? || (call.op.KillAndWait? && slot.removedBy == Some(i))
  }

  ghost predicate CallsOk(st: State) {
    forall i | 0 <= i < |st.calls| :: CallOk(st.slots, st.calls[i], i)
  }

  ghost predicate Core(st: State) {
    MapOk(st) && QueuesOk(st) && CallsOk(st)
  }

  lemma {:induction false} WithoutIsFilter(ws: seq<CallId>, i: CallId)
    ensures forall w :: w in Without(ws, i) <==> w in ws && w != i
    ensures Distinct(ws) ==> Distinct(Without(ws, i))
  {
    if ws == [] {
    } else {
      WithoutIsFilter(ws[1..], i);
      assert ws == [ws[0]] + ws[1..];
      if Distinct(ws) {
        assert Distinct(ws[1..]) && ws[0] !in ws[1..];
      }
    }
  }

  lemma LeaveKeepsQueue(slot: Slot, i: CallId)
    requires slot.cell.Some? || slot.holder.None? ==> slot.waiters == []
    requires slot.holder.Some? ==> slot.holder.value !in slot.waiters
    requires Distinct(slot.waiters)
    ensures var slot' := Leave(slot, i);
            && Distinct(slot'.waiters)
            && (slot'.holder.None? ==> slot'.waiters == [])
            && slot'.holder != Some(i) && i !in slot'.waiters
            && (slot'.holder.Some? ==> slot'.holder.value !in slot'.waiters)
            && (slot'.holder.Some? && slot'.holder != slot.holder ==> slot'.holder.value in slot.waiters)
            && (forall w | w in slot'.waiters :: w in slot.waiters)
            && (forall w | w in slot.waiters && w != i :: w in slot'.waiters || slot'.holder == Some(w))
            && (forall w | slot.holder == Some(w) && w != i :: slot'.holder == Some(w))
  {
    WithoutIsFilter(slot.waiters, i);
    if slot.waiters != [] {
      assert slot.waiters == [slot.waiters[0]] + slot.waiters[1..];
    }
  }

  lemma DepartKeepsMap(st: State, i: CallId, s: SlotId, outcome: Outcome)
    requires Core(st) && i < |st.calls| && s < |st.slots| && !outcome.Agent?
    requires AtSemaphore(st.calls[i], s) || st.calls[i].pc == Polling(s)
    ensures MapOk(Depart(st, i, s, outcome))
  {
    LeaveKeepsQueue(st.slots[s], i);
  }

  lemma DepartKeepsQueues(st: State, i: CallId, s: SlotId, outcome: Outcome)
    requires Core(st) && i < |st.calls| && s < |st.slots| && !outcome.Agent?
    requires AtSemaphore(st.calls[i], s) || st.calls[i].pc == Polling(s)
    ensures QueuesOk(Depart(st, i, s, outcome))
  {
    LeaveKeepsQueue(st.slots[s], i);
  }

  lemma DepartKeepsCalls(st: State, i: CallId, s: SlotId, outcome: Outcome)
    requires Core(st) && i < |st.calls| && s < |st.slots| && !outcome.Agent?
    requires AtSemaphore(st.calls[i], s) || st.calls[i].pc == Polling(s)
    ensures CallsOk(Depart(st, i, s, outcome))
  {
    LeaveKeepsQueue(st.slots[s], i);
  }

  lemma SpawnKeepsCore(st: State, op: Op, todo: seq<Conversation>)
    requires Core(st) && Enabled(st, Spawn(op, todo))
    ensures Core(Apply(st, Spawn(op, todo)))
  {
  }

  lemma CheckKeepsCore(st: State, i: CallId)
    requires Core(st) && Enabled(st, Check(i))
    ensures Core(Apply(st, Check(i)))
  {
  }

  lemma StartKeepsCore(st: State, i: CallId)
    requires Core(st) && Enabled(st, Start(i))
    ensures Core(Apply(st, Start(i)))
  {
  }

  lemma BuildKeepsCore(st: State, i: CallId)
    requires Core(st) && Enabled(st, Build(i))
    ensures Core(Apply(st, Build(i)))
  {
  }

  lemma WakeKeepsCore(st: State, i: CallId)
    requires Core(st) && Enabled(st, Wake(i))
    ensures Core(Apply(st, Wake(i)))
  {
  }

  lemma RemoveKeepsMap(st: State, i: CallId)
    requires Core(st) && Enabled(st, Remove(i))
    ensures MapOk(Apply(st, Remove(i)))
  {
  }

  lemma RemoveKeepsQueues(st: State, i: CallId)
    requires Core(st) && Enabled(st, Remove(i))
    ensures QueuesOk(Apply(st, Remove(i)))
  {
  }

  lemma RemoveKeepsCalls(st: State, i: CallId)
    requires Core(st) && Enabled(st, Remove(i))
    ensures CallsOk(Apply(st, Remove(i)))
  {
  }

  lemma LookKeepsMap(st: State, i: CallId, accepted: bool)
    requires Core(st) && Enabled(st, Look(i, accepted))
    ensures MapOk(Apply(st, Look(i, accepted)))
  {
  }

  lemma LookKeepsQueues(st: State, i: CallId, accepted: bool)
    requires Core(st) && Enabled(st, Look(i, accepted))
    ensures QueuesOk(Apply(st, Look(i, accepted)))
  {
  }

  lemma LookKeepsCalls(st: State, i: CallId, accepted: bool)
    requires Core(st) && Enabled(st, Look(i, accepted))
    ensures CallsOk(Apply(st, Look(i, accepted)))
  {
  }

  lemma TakeKeepsMap(st: State, i: CallId)
    requires Core(st) && Enabled(st, Take(i))
    ensures MapOk(Apply(st, Take(i)))
  {
  }

  lemma TakeKeepsQueues(st: State, i: CallId)
    requires Core(st) && Enabled(st, Take(i))
    ensures QueuesOk(Apply(st, Take(i)))
  {
  }

  lemma TakeKeepsCalls(st: State, i: CallId)
    requires Core(st) && Enabled(st, Take(i))
    ensures CallsOk(Apply(st, Take(i)))
  {
  }

  lemma PollKeepsMap(st: State, i: CallId)
    requires Core(st) && Enabled(st, Poll(i))
    ensures MapOk(Apply(st, Poll(i)))
  {
  }

  lemma PollKeepsQueues(st: State, i: CallId)
    requires Core(st) && Enabled(st, Poll(i))
    ensures QueuesOk(Apply(st, Poll(i)))
  {
  }

  lemma PollKeepsCalls(st: State, i: CallId)
    requires Core(st) && Enabled(st, Poll(i))
    ensures CallsOk(Apply(st, Poll(i)))
  {
  }

  lemma KeepsCore(st: State, l: Label)
    requires Core(st) && Enabled(st, l)
    ensures Core(Apply(st, l))
  {
    match l
    case Spawn(op, todo) => SpawnKeepsCore(st, op, todo);
    case Check(i) => CheckKeepsCore(st, i);
    case Remove(i) => RemoveKeepsMap(st, i); RemoveKeepsQueues(st, i); RemoveKeepsCalls(st, i);
    case Look(i, accepted) =>
      LookKeepsMap(st, i, accepted);
      LookKeepsQueues(st, i, accepted);
      LookKeepsCalls(st, i, accepted);
    case Take(i) => TakeKeepsMap(st, i); TakeKeepsQueues(st, i); TakeKeepsCalls(st, i);
    case Poll(i) => PollKeepsMap(st, i); PollKeepsQueues(st, i); PollKeepsCalls(st, i);
    case Start(i) => StartKeepsCore(st, i);
    case Build(i) => BuildKeepsCore(st, i);
    case Wake(i) => WakeKeepsCore(st, i);
    case Fail(i) => DepartKeepsCore(st, i, st.calls[i].pc.slot, Failed);
    case GiveUp(i) => DepartKeepsCore(st, i, st.calls[i].pc.slot, Finished);
    case Drop(i) => DepartKeepsCore(st, i, st.calls[i].pc.slot, Cancelled);
  }

  lemma DepartKeepsCore(st: State, i: CallId, s: SlotId, outcome: Outcome)
    requires Core(st) && i < |st.calls| && s < |st.slots| && !outcome.Agent?
    requires AtSemaphore(st.calls[i], s) || st.calls[i].pc == Polling(s)
    ensures Core(Depart(st, i, s, outcome))
  {
    DepartKeepsMap(st, i, s, outcome);
    DepartKeepsQueues(st, i, s, outcome);
    DepartKeepsCalls(st, i, s, outcome);
  }
}
