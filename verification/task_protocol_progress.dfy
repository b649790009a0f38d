/** Progress of the task protocol: no deadlock, bounded work, first come first served; and
  * runs that show what the protocol does not promise. */
module TaskProtocolProgress {
  import opened Wrappers
  import opened Capabilities
  import opened ManagedTasks
  import opened TaskProtocol
  import opened TaskProtocolInvariants
  import opened TaskProtocolLedger
  import opened TaskProtocolTheorems

  // ---- Bounded work ----

  /** An upper bound on the steps a call still makes. */
  function Rank(call: Call): nat {
    match call.pc
    case Checking => 7
    case Removing => 2 * |call.todo| + 4
    case Looking(_) => 2 * |call.todo| + 3
    case Taking => 4
    case Polling(_) => 3
    case Queued(_) => 2
    case Running(_) => 1
    case Returned(_) => 0
  }

  function Work(calls: seq<Call>): nat {
    if calls == [] then 0 else Rank(calls[0]) + Work(calls[1..])
  }

  lemma {:induction false} WorkUpdate(calls: seq<Call>, i: nat, call: Call)
    requires i < |calls|
    ensures Work(calls[i := call]) == Work(calls) - Rank(calls[i]) + Rank(call)
  {
    if i == 0 {
      assert calls[i := call][1..] == calls[1..];
    } else {
      WorkUpdate(calls[1..], i - 1, call);
      assert calls[i := call][1..] == calls[1..][i - 1 := call];
    }
  }

  lemma StepLowersRank(st: State, l: Label)
    requires Core(st) && Enabled(st, l) && !l.Spawn?
    ensures |Apply(st, l).calls| == |st.calls|
    ensures Rank(Apply(st, l).calls[l.call]) < Rank(st.calls[l.call])
  {
    assert CallOk(st.slots, st.calls[l.call], l.call);
  }

  /** Without new calls a run is no longer than the work its calls had left. */
  lemma {:induction false} RunsEnd(st: State, ls: seq<Label>, st': State)
    requires Inv(st) && Leads(st, ls, st') && forall l | l in ls :: !l.Spawn?
    ensures |ls| + Work(st'.calls) <= Work(st.calls)
    decreases |ls|
  {
    if ls == [] {
    } else {
      var l, mid := ls[0], Apply(st, ls[0]);
      StepLowersRank(st, l);
      StepMovesOneCall(st, l);
      assert mid.calls == st.calls[l.call := mid.calls[l.call]];
      WorkUpdate(st.calls, l.call, mid.calls[l.call]);
      KeepsInv(st, l);
      RunsEnd(mid, ls[1..], st');
    }
  }

  // ---- No deadlock ----

  /** The step call `i` would make, or, while it waits for a permit, the step of the permit's holder. */
  function NextLabel(st: State, i: CallId): Label
    requires i < |st.calls|
  {
    match st.calls[i].pc
    case Checking => Check(i)
    case Removing => Remove(i)
    case Looking(_) => Look(i, true)
    case Taking => Take(i)
    case Polling(_) => Poll(i)
    case Queued(s) =>
      if s < |st.slots| && st.slots[s].cell.Some? then Wake(i)
      else if s < |st.slots| && st.slots[s].holder.Some? && st.slots[s].holder.value < |st.calls| then
        var h := st.slots[s].holder.value;
        if st.calls[h].pc.Running? then Build(h)
        else if st.calls[h].op.KillAndWait? then GiveUp(h) else Start(h)
      else Drop(i)
    case Running(_) => Build(i)
    case Returned(_) => Drop(i)
  }

  /** A future can be dropped where it awaits something and nowhere else: in the queue for a permit, in
    * the factory, or, for kill_and_wait, between its removal and its first poll. */
  lemma OnlyAwaitingCallsDrop(st: State, i: CallId)
    requires Core(st) && i < |st.calls|
    ensures Enabled(st, Drop(i)) <==>
              match st.calls[i].pc
              case Queued(_) => true
              case Running(_) => true
              case Polling(_) => st.calls[i].op.KillAndWait?
              case _ => false
  {
    assert CallOk(st.slots, st.calls[i], i);
  }

  /** A call that has not returned can move, or waits for a permit whose holder can. */
  lemma NoDeadlock(st: State, i: CallId)
    requires Reachable(st) && i < |st.calls| && !st.calls[i].pc.Returned?
    ensures Enabled(st, NextLabel(st, i)) && !NextLabel(st, i).Spawn? && !NextLabel(st, i).Drop?
  {
    ReachableInv(st);
    assert CallOk(st.slots, st.calls[i], i);
    if st.calls[i].pc.Queued? {
      var s := st.calls[i].pc.slot;
      assert QueueOk(st.calls, st.slots[s], s);
      if st.slots[s].holder.Some? {
        var h := st.slots[s].holder.value;
        assert CallOk(st.slots, st.calls[h], h);
      }
    }
  }

  /** Every run without new calls is finite, and where it cannot go on every call has returned. */
  lemma QuietRunsFinish(st: State, ls: seq<Label>, st': State)
    requires Reachable(st) && Leads(st, ls, st') && forall l | l in ls :: !l.Spawn?
    ensures |ls| <= Work(st.calls)
    ensures (forall l :: Enabled(st', l) ==> l.Spawn?) ==> forall i | 0 <= i < |st'.calls| :: st'.calls[i].pc.Returned?
  {
    ReachableInv(st);
    RunsEnd(st, ls, st');
    LeadsReachable(st, ls, st');
    forall i | 0 <= i < |st'.calls| && !st'.calls[i].pc.Returned?
      ensures exists l :: Enabled(st', l) && !l.Spawn?
    {
      NoDeadlock(st', i);
    }
  }

  lemma {:induction false} LeadsAppend(a: State, ls: seq<Label>, b: State, l: Label)
    requires Leads(a, ls, b) && Enabled(b, l)
    ensures Leads(a, ls + [l], Apply(b, l))
    decreases |ls|
  {
    if ls == [] {
      assert Leads(Apply(b, l), [], Apply(b, l));
      assert ls + [l] == [l] && [l][1..] == [];
    } else {
      LeadsAppend(Apply(a, ls[0]), ls[1..], b, l);
      assert (ls + [l])[1..] == ls[1..] + [l];
    }
  }

  lemma ReachableStep(st: State, l: Label)
    requires Reachable(st) && Enabled(st, l)
    ensures Reachable(Apply(st, l))
  {
    var ls :| Leads(INITIAL, ls, st);
    LeadsAppend(INITIAL, ls, st, l);
  }

  lemma {:induction false} LeadsReachable(st: State, ls: seq<Label>, st': State)
    requires Reachable(st) && Leads(st, ls, st')
    ensures Reachable(st')
    decreases |ls|
  {
    if ls == [] {
    } else {
      ReachableStep(st, ls[0]);
      LeadsReachable(Apply(st, ls[0]), ls[1..], st');
    }
  }

  // ---- First come, first served ----

  ghost predicate Before(ws: seq<CallId>, j: CallId, i: CallId) {
    exists a, b :: 0 <= a < b < |ws| && ws[a] == j && ws[b] == i
  }

  /** Call `j` holds the permit call `i` waits for, or waits for it in front of `i`. */
  ghost predicate Ahead(slot: Slot, j: CallId, i: CallId) {
    i != j && i in slot.waiters && (slot.holder == Some(j) || Before(slot.waiters, j, i))
  }

  lemma BeforeTail(w: CallId, ws: seq<CallId>, j: CallId, i: CallId)
    ensures Before([w] + ws, j, i) <==> (w == j && i in ws) || Before(ws, j, i)
  {
    var all := [w] + ws;
    if Before(all, j, i) {
      var a, b :| 0 <= a < b < |all| && all[a] == j && all[b] == i;
      assert all[b] == ws[b - 1];
      if a > 0 {
        assert ws[a - 1] == j && ws[b - 1] == i;
      }
    }
    if w == j && i in ws {
      var b :| 0 <= b < |ws| && ws[b] == i;
      assert all[0] == j && all[b + 1] == i;
    }
    if Before(ws, j, i) {
      var a, b :| 0 <= a < b < |ws| && ws[a] == j && ws[b] == i;
      assert all[a + 1] == j && all[b + 1] == i;
    }
  }

  lemma {:induction false} WithoutKeepsOrder(ws: seq<CallId>, x: CallId, j: CallId, i: CallId)
    requires Before(ws, j, i) && x != j && x != i
    ensures Before(Without(ws, x), j, i)
  {
    assert ws == [ws[0]] + ws[1..];
    BeforeTail(ws[0], ws[1..], j, i);
    WithoutIsFilter(ws[1..], x);
    if Before(ws[1..], j, i) {
      WithoutKeepsOrder(ws[1..], x, j, i);
    }
    if ws[0] != x {
      BeforeTail(ws[0], Without(ws[1..], x), j, i);
    }
  }

  lemma LeaveKeepsAhead(slot: Slot, x: CallId, j: CallId, i: CallId)
    requires Ahead(slot, j, i) && Distinct(slot.waiters) && x != i && x != j
    requires slot.holder.Some? ==> slot.holder.value !in slot.waiters
    ensures Ahead(Leave(slot, x), j, i)
  {
    var ws := slot.waiters;
    WithoutIsFilter(ws, x);
    if slot.holder == Some(x) {
      assert ws == [ws[0]] + ws[1..];
      BeforeTail(ws[0], ws[1..], j, i);
    } else if slot.holder != Some(j) {
      WithoutKeepsOrder(ws, x, j, i);
    }
  }

  lemma StepKeepsAhead(st: State, l: Label, s: SlotId, j: CallId, i: CallId)
    requires Core(st) && Enabled(st, l) && s < |st.slots| && Ahead(st.slots[s], j, i)
    requires i < |st.calls| && j < |st.calls|
    ensures var st' := Apply(st, l);
            && s < |st'.slots| && i < |st'.calls| && j < |st'.calls|
            && (Ahead(st'.slots[s], j, i) || st'.slots[s].cell.Some?
                || st'.calls[i].pc.Returned? || st'.calls[j].pc.Returned?)
  {
    StepMovesOneCall(st, l);
    var slot, slot' := st.slots[s], Apply(st, l).slots[s];
    assert QueueOk(st.calls, slot, s);
    if slot' != slot {
      if l.Fail? || l.GiveUp? || l.Drop? {
        if l.call != i && l.call != j {
          LeaveKeepsAhead(slot, l.call, j, i);
        }
      } else if l.Poll? && slot.holder != Some(j) {
        var a, b :| 0 <= a < b < |slot.waiters| && slot.waiters[a] == j && slot.waiters[b] == i;
        assert slot'.waiters[a] == j && slot'.waiters[b] == i;
      }
    }
  }

  lemma {:induction false} RunKeepsAhead(st: State, ls: seq<Label>, st': State, s: SlotId, j: CallId, i: CallId)
    requires Inv(st) && Leads(st, ls, st') && s < |st.slots| && i < |st.calls| && j < |st.calls|
    requires Ahead(st.slots[s], j, i)
    ensures s < |st'.slots| && i < |st'.calls| && j < |st'.calls|
    ensures Ahead(st'.slots[s], j, i) || st'.slots[s].cell.Some?
            || st'.calls[i].pc.Returned? || st'.calls[j].pc.Returned?
    decreases |ls|
  {
    if ls == [] {
    } else {
      var mid := Apply(st, ls[0]);
      StepKeepsAhead(st, ls[0], s, j, i);
      KeepsInv(st, ls[0]);
      if Ahead(mid.slots[s], j, i) {
        RunKeepsAhead(mid, ls[1..], st', s, j, i);
      } else {
        RunGrows(mid, ls[1..], st');
      }
    }
  }

  /** Whoever was ahead of a kill_and_wait call in the queue has returned, without an agent of
    * that slot, by the time the call gives up. */
  lemma GivingUpIsLastInLine(st: State, ls: seq<Label>, st': State, s: SlotId, j: CallId, i: CallId)
    requires Reachable(st) && Leads(st, ls, st') && s < |st.slots| && i < |st.calls| && j < |st.calls|
    requires Ahead(st.slots[s], j, i)
    requires Enabled(st', GiveUp(i)) && st'.calls[i].pc.slot == s
    ensures j < |st'.calls| && st'.calls[j].pc.Returned?
    ensures st'.calls[j].pc.outcome.Agent? ==> st'.calls[j].pc.outcome.slot != s
  {
    ReachableInv(st);
    RunKeepsAhead(st, ls, st', s, j, i);
    RunKeepsInv(st, ls, st');
    assert QueueOk(st'.calls, st'.slots[s], s) && CallOk(st'.slots, st'.calls[j], j);
  }

  // ---- When a removed slot can still be built ----

  /** Some run fills the empty cell of slot `s`. */
  ghost predicate CanStillBuild(st: State, s: SlotId) {
    exists ls, st' :: Leads(st, ls, st') && s < |st'.slots| && st'.slots[s].cell.Some?
  }

  lemma StepThenBuild(st: State, l: Label, s: SlotId)
    requires Enabled(st, l) && CanStillBuild(Apply(st, l), s)
    ensures CanStillBuild(st, s)
  {
    var ls, st' :| Leads(Apply(st, l), ls, st') && s < |st'.slots| && st'.slots[s].cell.Some?;
    assert ([l] + ls)[1..] == ls;
    assert Leads(st, [l] + ls, st');
  }

  lemma RunnerCanBuild(st: State, s: SlotId, i: CallId)
    requires s < |st.slots| && i < |st.calls| && st.calls[i].op.GetOrBuild? && st.calls[i].pc == Running(s)
    ensures CanStillBuild(st, s)
  {
    assert Leads(Apply(st, Build(i)), [], Apply(st, Build(i)));
    StepThenBuild(st, Build(i), s);
  }

  lemma HolderCanBuild(st: State, s: SlotId, i: CallId)
    requires s < |st.slots| && i < |st.calls| && st.calls[i].op.GetOrBuild? && st.calls[i].pc == Queued(s)
    requires st.slots[s].holder == Some(i)
    ensures CanStillBuild(st, s)
  {
    RunnerCanBuild(Apply(st, Start(i)), s, i);
    StepThenBuild(st, Start(i), s);
  }

  lemma PollerCanBuild(st: State, s: SlotId, i: CallId)
    requires s < |st.slots| && i < |st.calls| && st.calls[i].op.GetOrBuild? && st.calls[i].pc == Polling(s)
    requires st.slots[s].holder.None? && st.slots[s].cell.None?
    ensures CanStillBuild(st, s)
  {
    HolderCanBuild(Apply(st, Poll(i)), s, i);
    StepThenBuild(st, Poll(i), s);
  }

  /** A removed slot its remover is done with, whichever call that was, can still be built exactly
    * if a build call that took it earlier has not returned. */
  lemma RemovedSlotCanStillBuild(st: State, s: SlotId)
    requires Inv(st) && s < |st.slots| && st.slots[s].cell.None? && !Mapped(st, s) && !BeingRemoved(st, s)
    ensures CanStillBuild(st, s) <==> Holders(st, s) != {}
  {
    if Holders(st, s) == {} {
      forall ls, st' | Leads(st, ls, st')
        ensures s < |st'.slots| && st'.slots[s].cell.None?
      {
        RemovedSlotRunsDry(st, ls, st', s);
      }
    } else {
      var slot := st.slots[s];
      assert QueueOk(st.calls, slot, s) && SlotLedgerOk(st, s);
      var h :| h in Holders(st, s);
      assert CallOk(st.slots, st.calls[h], h);
      if slot.holder.Some? {
        var p := slot.holder.value;
        assert CallOk(st.slots, st.calls[p], p);
        if st.calls[p].pc.Running? {
          RunnerCanBuild(st, s, p);
        } else {
          HolderCanBuild(st, s, p);
        }
      } else {
        PollerCanBuild(st, s, h);
      }
    }
  }

  // ---- What the protocol does not promise ----

  const PLAIN := RuntimeCapabilities(None)
  const CURRENT := RuntimeCapabilities(Some(CONVERSATION_RUNTIME_CONTEXT_VERSION))

  /** Call 0 asks for a task of conversation "c" and has its factory running on slot 0. */
  lemma BuildUnderWay() returns (st: State)
    ensures Reachable(st)
    ensures st == State(map["c" := 0], [Slot("c", None, Some(0), [], None)],
                        [Call(GetOrBuild(PLAIN), ["c"], Running(0), 0)], 0, [Checked(0), Inserted(0, 0)])
  {
    assert Leads(INITIAL, [], INITIAL);
    st := INITIAL;
    ReachableStep(st, Spawn(GetOrBuild(PLAIN), ["c"])); st := Apply(st, Spawn(GetOrBuild(PLAIN), ["c"]));
    ReachableStep(st, Check(0)); st := Apply(st, Check(0));
    ReachableStep(st, Take(0)); st := Apply(st, Take(0));
    ReachableStep(st, Poll(0)); st := Apply(st, Poll(0));
    ReachableStep(st, Start(0)); st := Apply(st, Start(0));
  }

  /** Plain kill does not reach a build that is still running. */
  lemma PlainKillMissesRunningBuild() returns (st: State)
    ensures Reachable(st) && |st.slots| == 1 && |st.calls| == 2
    ensures st.calls[1] == Call(Kill, ["c"], Returned(Finished), 0)
    ensures st.slots[0].removedBy == Some(1) && st.calls[0].pc == Returned(Agent(0, 0))
    ensures !WasKilled(st, 0) && !BeingRemoved(st, 0) && forall i | 0 <= i < |st.calls| :: st.calls[i].pc.Returned?
  {
    st := BuildUnderWay();
    ReachableStep(st, Spawn(Kill, ["c"])); st := Apply(st, Spawn(Kill, ["c"]));
    ReachableStep(st, Remove(1)); st := Apply(st, Remove(1));
    ReachableStep(st, Look(1, true)); st := Apply(st, Look(1, true));
    ReachableStep(st, Build(0)); st := Apply(st, Build(0));
  }

  /** A caller that shares a slot another caller is building can be handed an agent that does
    * not have the capabilities it asked for. */
  lemma SharedSlotCanFallShort() returns (st: State)
    ensures Reachable(st) && |st.slots| == 1 && |st.calls| == 2
    ensures st.calls[1] == Call(GetOrBuild(CURRENT), ["c"], Returned(Agent(0, 0)), 2)
    ensures st.slots[0].cell == Some(Managed(0, PLAIN)) && !PLAIN.Satisfies(CURRENT)
  {
    st := BuildUnderWay();
    ReachableStep(st, Spawn(GetOrBuild(CURRENT), ["c"])); st := Apply(st, Spawn(GetOrBuild(CURRENT), ["c"]));
    ReachableStep(st, Check(1)); st := Apply(st, Check(1));
    ReachableStep(st, Take(1)); st := Apply(st, Take(1));
    ReachableStep(st, Build(0)); st := Apply(st, Build(0));
    ReachableStep(st, Poll(1)); st := Apply(st, Poll(1));
    ReachableStep(st, Wake(1)); st := Apply(st, Wake(1));
  }

  /** Call 1 joins call 0, which builds, and is about to poll the slot. */
  lemma BuildShared() returns (st: State)
    ensures Reachable(st)
    ensures st == State(map["c" := 0], [Slot("c", None, Some(0), [], None)],
                        [Call(GetOrBuild(PLAIN), ["c"], Running(0), 0), Call(GetOrBuild(PLAIN), ["c"], Polling(0), 2)],
                        0, [Checked(0), Inserted(0, 0), Checked(1)])
  {
    st := BuildUnderWay();
    ReachableStep(st, Spawn(GetOrBuild(PLAIN), ["c"])); st := Apply(st, Spawn(GetOrBuild(PLAIN), ["c"]));
    ReachableStep(st, Check(1)); st := Apply(st, Check(1));
    ReachableStep(st, Take(1)); st := Apply(st, Take(1));
  }

  /** Kill_and_wait call 2 takes the slot out of the map and is about to poll it, too. */
  lemma SharedBuildRemoved() returns (st: State)
    ensures Reachable(st)
    ensures st == State(map[], [Slot("c", None, Some(0), [], Some(2))],
                        [Call(GetOrBuild(PLAIN), ["c"], Running(0), 0), Call(GetOrBuild(PLAIN), ["c"], Polling(0), 2),
                         Call(KillAndWait, ["c"], Polling(0), 0)],
                        0, [Checked(0), Inserted(0, 0), Checked(1), Removed(2, 0)])
  {
    st := BuildShared();
    ReachableStep(st, Spawn(KillAndWait, ["c"])); st := Apply(st, Spawn(KillAndWait, ["c"]));
    ReachableStep(st, Remove(2)); st := Apply(st, Remove(2));
    assert st.tasks == map[];
    ReachableStep(st, Look(2, true)); st := Apply(st, Look(2, true));
  }

  /** It queues before call 1. */
  lemma KillQueuedFirst() returns (st: State)
    ensures Reachable(st)
    ensures st == State(map[], [Slot("c", None, Some(0), [2, 1], Some(2))],
                        [Call(GetOrBuild(PLAIN), ["c"], Running(0), 0), Call(GetOrBuild(PLAIN), ["c"], Queued(0), 2),
                         Call(KillAndWait, ["c"], Queued(0), 0)],
                        0, [Checked(0), Inserted(0, 0), Checked(1), Removed(2, 0)])
  {
    st := SharedBuildRemoved();
    ReachableStep(st, Poll(2)); st := Apply(st, Poll(2));
    ReachableStep(st, Poll(1)); st := Apply(st, Poll(1));
    assert st.slots[0].waiters == [2, 1];
  }

  /** A call that already holds a removed slot can still build after kill_and_wait gave up. */
  lemma GivenUpSlotCanStillBuild() returns (st: State)
    ensures Reachable(st) && |st.slots| == 1 && |st.calls| == 3
    ensures st.calls[2] == Call(KillAndWait, ["c"], Returned(Finished), 0) && st.slots[0].removedBy == Some(2)
    ensures st.calls[1].pc == Returned(Agent(0, 0)) && !WasKilled(st, 0) && !BeingRemoved(st, 0)
  {
    st := KillQueuedFirst();
    ReachableStep(st, Fail(0)); st := Apply(st, Fail(0));
    ReachableStep(st, GiveUp(2)); st := Apply(st, GiveUp(2));
    ReachableStep(st, Start(1)); st := Apply(st, Start(1));
    ReachableStep(st, Build(1)); st := Apply(st, Build(1));
  }
}
