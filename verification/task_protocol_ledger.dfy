/** The history the task protocol writes, and how it stays in step with the state. */
module TaskProtocolLedger {
  import opened Wrappers
  import opened ManagedTasks
  import opened TaskProtocol
  import opened TaskProtocolInvariants

  /** What an event can be for a slot. A settlement ends the duty to deal with a removed slot. */
  datatype Kind = Birth | Exit | Success | Settlement | Death

  predicate Is(e: Event, kind: Kind, s: SlotId) {
    match kind
    case Birth => e.Inserted? && e.slot == s
    case Exit => e.Removed? && e.slot == s
    case Success => e.Built? && e.slot == s
    case Settlement => (e.Killed? || e.Missed? || e.GaveUp? || e.Dropped?) && e.slot == s
    case Death => e.Killed? && e.slot == s
  }

  /** How many events of a kind a log holds for a slot. */
  function Tally(log: seq<Event>, kind: Kind, s: SlotId): nat {
    if log == [] then 0
    else Tally(log[..|log| - 1], kind, s) + if Is(log[|log| - 1], kind, s) then 1 else 0
  }

  lemma TallyAppend(log: seq<Event>, e: Event)
    ensures forall kind, s :: Tally(log + [e], kind, s) == Tally(log, kind, s) + if Is(e, kind, s) then 1 else 0
  {
    assert (log + [e])[..|log|] == log;
  }

  lemma {:induction false} TallyPrefix(log: seq<Event>, k: nat, kind: Kind, s: SlotId)
    requires k <= |log|
    ensures Tally(log[..k], kind, s) <= Tally(log, kind, s)
  {
    if k < |log| {
      TallyPrefix(log[..|log| - 1], k, kind, s);
      assert log[..|log| - 1][..k] == log[..k];
    } else {
      assert log[..k] == log;
    }
  }

  lemma {:induction false} TallyCounts(log: seq<Event>, k: nat, kind: Kind, s: SlotId)
    requires k < |log| && Is(log[k], kind, s)
    ensures Tally(log, kind, s) >= Tally(log[..k], kind, s) + 1
  {
    TallyPrefix(log, k + 1, kind, s);
    assert log[..k + 1][..k] == log[..k];
  }

  /** Two places with an event of one kind for one slot are counted twice. */
  lemma TallyCountsBoth(log: seq<Event>, j: nat, k: nat, kind: Kind, s: SlotId)
    requires j < k < |log| && Is(log[j], kind, s) && Is(log[k], kind, s)
    ensures Tally(log, kind, s) >= 2
  {
    TallyCounts(log[..k], j, kind, s);
    TallyCounts(log, k, kind, s);
  }

  lemma {:induction false} TallyFinds(log: seq<Event>, kind: Kind, s: SlotId)
    requires Tally(log, kind, s) > 0
    ensures exists k :: 0 <= k < |log| && Is(log[k], kind, s)
  {
    var n := |log| - 1;
    if !Is(log[n], kind, s) {
      TallyFinds(log[..n], kind, s);
      var k :| 0 <= k < n && Is(log[..n][k], kind, s);
      assert log[k] == log[..n][k];
    }
  }

  lemma {:induction false} DeathsAreSettlements(log: seq<Event>, s: SlotId)
    ensures Tally(log, Death, s) <= Tally(log, Settlement, s)
  {
    if log == [] {
    } else {
      DeathsAreSettlements(log[..|log| - 1], s);
    }
  }

  // ---- The ledger invariant ----

  /** Slot `s` was born once, left the map as often as it is marked removed, was built as
    * often as its cell is set, and is settled once its remover owes nothing more. */
  ghost predicate SlotLedgerOk(st: State, s: SlotId)
    requires s < |st.slots|
  {
    var slot := st.slots[s];
    && Tally(st.log, Birth, s) == 1
    && Tally(st.log, Exit, s) == (if slot.removedBy.Some? then 1 else 0)
    && Tally(st.log, Success, s) == (if slot.cell.Some? then 1 else 0)
    && (slot.removedBy.Some? ==> slot.removedBy.value < |st.calls|)
    && Tally(st.log, Settlement, s) ==
         (if slot.removedBy.None? || Owes(st.calls[slot.removedBy.value], s) then 0 else 1)
  }

  ghost predicate TalliesOk(st: State) {
    && (forall s | 0 <= s < |st.slots| :: SlotLedgerOk(st, s))
    && (forall s: SlotId, kind | s >= |st.slots| :: Tally(st.log, kind, s) == 0)
  }

  /** Agents are numbered in the order they are built, so no two cells hold the same one. */
  ghost predicate AgentsOk(st: State) {
    && (forall s | 0 <= s < |st.slots| && st.slots[s].cell.Some? :: st.slots[s].cell.value.agent < st.agents)
    && (forall s, t | 0 <= s < t < |st.slots| && st.slots[s].cell.Some? && st.slots[t].cell.Some? ::
          st.slots[s].cell.value.agent != st.slots[t].cell.value.agent)
  }

  /** What one logged event says about the present. */
  predicate EventOk(st: State, e: Event) {
    && e.who < |st.calls|
    && match e
       case Checked(_) => true
       case Inserted(_, s) => s < |st.slots|
       case Removed(i, s) => s < |st.slots| && st.slots[s].removedBy == Some(i)
       case Built(i, s, a) => && s < |st.slots|
                              && st.calls[i].op.GetOrBuild?
                              && st.slots[s].cell == Some(Managed(a, st.calls[i].op.wants))
       case Killed(i, s, a) => && s < |st.slots| && st.slots[s].removedBy == Some(i)
                               && st.slots[s].cell.Some? && st.slots[s].cell.value.agent == a
       case Missed(i, s) => s < |st.slots| && st.slots[s].removedBy == Some(i) && !st.calls[i].op.KillAndWait?
       case GaveUp(i, s) => s < |st.slots| && st.slots[s].removedBy == Some(i) && st.calls[i].op.KillAndWait?
       case Dropped(i, s) => && s < |st.slots| && st.slots[s].removedBy == Some(i) && st.calls[i].op.KillAndWait?
                             && st.calls[i].pc == Returned(Cancelled)
  }

  ghost predicate EventsOk(st: State) {
    forall k | 0 <= k < |st.log| :: EventOk(st, st.log[k])
  }

  /** A slot is settled after it left the map; a remover that found the cell empty found it
    * so before any success. */
  ghost predicate OrderOk(log: seq<Event>) {
    && (forall k | 0 <= k < |log| && (log[k].Missed? || log[k].GaveUp?) ::
          Tally(log[..k], Success, log[k].slot) == 0)
    && (forall k | 0 <= k < |log| && (log[k].Killed? || log[k].Missed? || log[k].GaveUp? || log[k].Dropped?) ::
          Tally(log[..k], Exit, log[k].slot) == 1)
  }

  ghost predicate Ledger(st: State) {
    TalliesOk(st) && AgentsOk(st) && EventsOk(st) && OrderOk(st.log)
  }

  lemma OrderAppend(log: seq<Event>, e: Event)
    requires OrderOk(log)
    requires e.Missed? || e.GaveUp? ==> Tally(log, Success, e.slot) == 0
    requires e.Killed? || e.Missed? || e.GaveUp? || e.Dropped? ==> Tally(log, Exit, e.slot) == 1
    ensures OrderOk(log + [e])
  {
    forall k | 0 <= k <= |log|
      ensures (log + [e])[..k] == log[..k]
    {
    }
    assert log[..|log|] == log;
  }

  // ---- What only grows ----

  /** From `st` to `st'` nothing is forgotten: a set cell, a recorded remover, a returned
    * outcome and every logged event stay what they were. */
  ghost predicate Grows(st: State, st': State) {
    && |st.slots| <= |st'.slots|
    && |st.calls| <= |st'.calls|
    && st.log <= st'.log
    && (forall s | 0 <= s < |st.slots| ::
          && st'.slots[s].conversation == st.slots[s].conversation
          && (st.slots[s].cell.Some? ==> st'.slots[s].cell == st.slots[s].cell)
          && (st.slots[s].removedBy.Some? ==> st'.slots[s].removedBy == st.slots[s].removedBy))
    && (forall i | 0 <= i < |st.calls| ::
          && st'.calls[i].op == st.calls[i].op
          && (st.calls[i].pc.Returned? ==> st'.calls[i] == st.calls[i]))
  }

  lemma MovingGrows(st: State, l: Label)
    requires l.Spawn? || l.Check? || l.Start? || l.Poll?
    requires Core(st) && Enabled(st, l)
    ensures Grows(st, Apply(st, l))
  {
  }

  lemma LookingGrows(st: State, l: Label)
    requires l.Look? || l.Wake?
    requires Core(st) && Enabled(st, l)
    ensures Grows(st, Apply(st, l))
  {
  }

  lemma MappingGrows(st: State, l: Label)
    requires l.Remove? || l.Take?
    requires Core(st) && Enabled(st, l)
    ensures Grows(st, Apply(st, l))
  {
  }

  lemma DepartingGrows(st: State, l: Label)
    requires l.Fail? || l.GiveUp? || l.Drop?
    requires Core(st) && Enabled(st, l)
    ensures Grows(st, Apply(st, l))
  {
  }

  lemma BuildingGrows(st: State, l: Label)
    requires l.Build?
    requires Core(st) && Enabled(st, l)
    ensures Grows(st, Apply(st, l))
  {
    assert CallOk(st.slots, st.calls[l.call], l.call);
  }

  lemma StepGrows(st: State, l: Label)
    requires Core(st) && Enabled(st, l)
    ensures Grows(st, Apply(st, l))
  {
    match l
    case Look(_, _) => LookingGrows(st, l);
    case Wake(_) => LookingGrows(st, l);
    case Remove(_) => MappingGrows(st, l);
    case Take(_) => MappingGrows(st, l);
    case Fail(_) => DepartingGrows(st, l);
    case GiveUp(_) => DepartingGrows(st, l);
    case Drop(_) => DepartingGrows(st, l);
    case Build(_) => BuildingGrows(st, l);
    case _ => MovingGrows(st, l);
  }

  lemma StepMovesOneCall(st: State, l: Label)
    requires Enabled(st, l)
    ensures |Apply(st, l).calls| >= |st.calls|
    ensures forall j | 0 <= j < |st.calls| && (l.Spawn? || j != l.call) :: Apply(st, l).calls[j] == st.calls[j]
  {
  }

  lemma StepLogsAtMostOne(st: State, l: Label)
    requires Core(st) && Enabled(st, l)
    ensures var log := Apply(st, l).log;
            log == st.log || (|log| == |st.log| + 1 && log == st.log + [log[|st.log|]])
  {
  }

  lemma KeepsAgents(st: State, l: Label)
    requires Core(st) && AgentsOk(st) && Enabled(st, l)
    ensures AgentsOk(Apply(st, l))
  {
    if !l.Build? {
      forall s | 0 <= s < |Apply(st, l).slots| {
        CellsStay(st, l, s);
      }
    }
  }

  lemma CellsStay(st: State, l: Label, s: SlotId)
    requires Core(st) && Enabled(st, l) && !l.Build? && s < |Apply(st, l).slots|
    ensures Apply(st, l).slots[s].cell == if s < |st.slots| then st.slots[s].cell else None
    ensures Apply(st, l).agents == st.agents
  {
  }

  lemma EventStaysOk(st: State, st': State, e: Event)
    requires Grows(st, st') && EventOk(st, e)
    ensures EventOk(st', e)
  {
  }

  lemma NewEventOk(st: State, l: Label)
    requires Core(st) && Enabled(st, l)
    ensures var st' := Apply(st, l); st'.log != st.log ==> EventOk(st', st'.log[|st'.log| - 1])
  {
  }

  lemma KeepsEvents(st: State, l: Label)
    requires Core(st) && EventsOk(st) && Enabled(st, l)
    ensures EventsOk(Apply(st, l))
  {
    var st' := Apply(st, l);
    StepGrows(st, l);
    StepLogsAtMostOne(st, l);
    NewEventOk(st, l);
    forall k | 0 <= k < |st'.log|
      ensures EventOk(st', st'.log[k])
    {
      if k < |st.log| {
        EventStaysOk(st, st', st.log[k]);
      }
    }
  }

  lemma KeepsOrder(st: State, l: Label)
    requires Core(st) && Ledger(st) && Enabled(st, l)
    ensures OrderOk(Apply(st, l).log)
  {
    var st' := Apply(st, l);
    StepLogsAtMostOne(st, l);
    if st'.log != st.log {
      var e := st'.log[|st.log|];
      if e.Killed? || e.Missed? || e.GaveUp? || e.Dropped? {
        assert SlotLedgerOk(st, e.slot);
      }
      OrderAppend(st.log, e);
    }
  }

  /** A logged step by call `i` that neither builds nor takes slots keeps the ledger of slot
    * `s` if it logs a settlement of `s` exactly when `i` stops owing one. */
  lemma SettlingKeepsSlotLedger(st: State, st': State, i: CallId, e: Event, s: SlotId)
    requires s < |st.slots| == |st'.slots| && i < |st.calls| == |st'.calls| && SlotLedgerOk(st, s)
    requires st'.calls == st.calls[i := st'.calls[i]]
    requires st'.slots[s].cell == st.slots[s].cell && st'.slots[s].removedBy == st.slots[s].removedBy
    requires st'.log == st.log + [e] && !e.Inserted? && !e.Removed? && !e.Built?
    requires !Owes(st'.calls[i], s)
    requires Is(e, Settlement, s) <==> Owes(st.calls[i], s)
    requires Owes(st.calls[i], s) ==> st.slots[s].removedBy == Some(i)
    ensures SlotLedgerOk(st', s)
  {
    TallyAppend(st.log, e);
  }

  lemma QuietKeepsSlotLedger(st: State, l: Label, s: SlotId)
    requires l.Spawn? || l.Poll? || l.Start? || l.Fail?
    requires Core(st) && Ledger(st) && Enabled(st, l) && s < |st.slots|
    ensures SlotLedgerOk(Apply(st, l), s)
  {
    var st' := Apply(st, l);
    assert SlotLedgerOk(st, s);
    StepMovesOneCall(st, l);
  }

  lemma CheckKeepsSlotLedger(st: State, l: Label, s: SlotId)
    requires l.Check?
    requires Core(st) && Ledger(st) && Enabled(st, l) && s < |st.slots|
    ensures SlotLedgerOk(Apply(st, l), s)
  {
    var st' := Apply(st, l);
    assert SlotLedgerOk(st, s);
    if |st'.log| > |st.log| {
      SettlingKeepsSlotLedger(st, st', l.call, st'.log[|st.log|], s);
    }
  }

  lemma KillingKeepsSlotLedger(st: State, l: Label, s: SlotId)
    requires l.Look? || l.Wake?
    requires Core(st) && Ledger(st) && Enabled(st, l) && s < |st.slots|
    ensures SlotLedgerOk(Apply(st, l), s)
  {
    var st' := Apply(st, l);
    assert SlotLedgerOk(st, s);
    if |st'.log| > |st.log| {
      SettlingKeepsSlotLedger(st, st', l.call, st'.log[|st.log|], s);
    }
  }

  lemma LeavingKeepsSlotLedger(st: State, l: Label, s: SlotId)
    requires l.GiveUp? || l.Drop?
    requires Core(st) && Ledger(st) && Enabled(st, l) && s < |st.slots|
    ensures SlotLedgerOk(Apply(st, l), s)
  {
    var st' := Apply(st, l);
    assert SlotLedgerOk(st, s);
    if |st'.log| > |st.log| {
      SettlingKeepsSlotLedger(st, st', l.call, st'.log[|st.log|], s);
    }
  }

  lemma RemoveKeepsSlotLedger(st: State, l: Label, s: SlotId)
    requires l.Remove?
    requires Core(st) && Ledger(st) && Enabled(st, l) && s < |st.slots|
    ensures SlotLedgerOk(Apply(st, l), s)
  {
    var st' := Apply(st, l);
    assert SlotLedgerOk(st, s);
    assert !Owes(st.calls[l.call], s);
    if |st'.log| > |st.log| {
      var e := st'.log[|st.log|];
      TallyAppend(st.log, e);
      if s == e.slot {
        assert st.slots[s].removedBy.None?;
      } else {
        assert st'.slots[s] == st.slots[s] && !Owes(st'.calls[l.call], s);
      }
    }
  }

  lemma BuildKeepsSlotLedger(st: State, l: Label, s: SlotId)
    requires l.Build?
    requires Core(st) && Ledger(st) && Enabled(st, l) && s < |st.slots|
    ensures SlotLedgerOk(Apply(st, l), s)
  {
    var st' := Apply(st, l);
    assert SlotLedgerOk(st, s);
    TallyAppend(st.log, st'.log[|st.log|]);
  }

  lemma TakeKeepsSlotLedger(st: State, l: Label, s: SlotId)
    requires l.Take?
    requires Core(st) && Ledger(st) && Enabled(st, l) && s < |st.slots|
    ensures SlotLedgerOk(Apply(st, l), s)
  {
    var st' := Apply(st, l);
    assert SlotLedgerOk(st, s);
    if |st'.log| > |st.log| {
      TallyAppend(st.log, st'.log[|st.log|]);
    }
  }

  lemma KeepsSlotLedger(st: State, l: Label, s: SlotId)
    requires Core(st) && Ledger(st) && Enabled(st, l) && s < |st.slots|
    ensures SlotLedgerOk(Apply(st, l), s)
  {
    match l
    case Check(_) => CheckKeepsSlotLedger(st, l, s);
    case Look(_, _) => KillingKeepsSlotLedger(st, l, s);
    case Wake(_) => KillingKeepsSlotLedger(st, l, s);
    case GiveUp(_) => LeavingKeepsSlotLedger(st, l, s);
    case Drop(_) => LeavingKeepsSlotLedger(st, l, s);
    case Remove(_) => RemoveKeepsSlotLedger(st, l, s);
    case Build(_) => BuildKeepsSlotLedger(st, l, s);
    case Take(_) => TakeKeepsSlotLedger(st, l, s);
    case _ => QuietKeepsSlotLedger(st, l, s);
  }

  /** Only `Take` makes a slot. */
  lemma NewSlotIsTaken(st: State, l: Label)
    requires Enabled(st, l) && !l.Take?
    ensures |Apply(st, l).slots| == |st.slots|
  {
  }

  lemma TakeMakesSlot(st: State, l: Label)
    requires l.Take?
    requires Core(st) && TalliesOk(st) && Enabled(st, l)
    ensures forall s | |st.slots| <= s < |Apply(st, l).slots| :: SlotLedgerOk(Apply(st, l), s)
  {
    var st' := Apply(st, l);
    if st'.log != st.log {
      TallyAppend(st.log, st'.log[|st.log|]);
    }
  }

  /** A slot made by this step, and the slots still to come. */
  lemma KeepsNewSlots(st: State, l: Label)
    requires Core(st) && Ledger(st) && Enabled(st, l)
    ensures var st' := Apply(st, l);
            && (forall s | |st.slots| <= s < |st'.slots| :: SlotLedgerOk(st', s))
            && (forall s: SlotId, kind | s >= |st'.slots| :: Tally(st'.log, kind, s) == 0)
  {
    var st' := Apply(st, l);
    StepGrows(st, l);
    StepLogsAtMostOne(st, l);
    NewEventOk(st, l);
    if st'.log != st.log {
      TallyAppend(st.log, st'.log[|st.log|]);
    }
    if l.Take? {
      TakeMakesSlot(st, l);
    } else {
      NewSlotIsTaken(st, l);
    }
  }

  lemma KeepsLedger(st: State, l: Label)
    requires Core(st) && Ledger(st) && Enabled(st, l)
    ensures Ledger(Apply(st, l))
  {
    KeepsAgents(st, l);
    KeepsEvents(st, l);
    KeepsOrder(st, l);
    KeepsNewSlots(st, l);
    var st' := Apply(st, l);
    forall s | 0 <= s < |st'.slots|
      ensures SlotLedgerOk(st', s)
    {
      if s < |st.slots| {
        KeepsSlotLedger(st, l, s);
      }
    }
  }
}
