/** How far a returned agent can fall short of what its caller asked for. */
module TaskProtocolRaces {
  import opened TaskProtocol
  import opened TaskProtocolInvariants
  import opened TaskProtocolLedger

  /** If slot `s` holds an agent the caller finds wanting, it was built after the caller's check. */
  predicate BuiltLate(st: State, s: SlotId, call: Call)
    requires s < |st.slots| && call.op.GetOrBuild? && call.checkedAt <= |st.log|
  {
    var cell := st.slots[s].cell;
    cell.Some? && !cell.value.capabilities.Satisfies(call.op.wants) ==>
      Tally(st.log[..call.checkedAt], Success, s) == 0
  }

  predicate RaceOk(st: State, call: Call, i: CallId) {
    && call.checkedAt <= |st.log|
    && (call.op.GetOrBuild? ==>
          && (!call.pc.Checking? ==> call.checkedAt < |st.log| && st.log[call.checkedAt] == Checked(i))
          && match call.pc
             case Checking => true
             case Removing => true
             case Looking(_) => MappedLate(st, call)
             case Taking => MappedLate(st, call)
             case Polling(s) => s < |st.slots| && BuiltLate(st, s, call)
             case Queued(s) => s < |st.slots| && BuiltLate(st, s, call)
             case Running(s) => true
             case Returned(outcome) =>
               outcome.Agent? ==> outcome.slot < |st.slots| && BuiltLate(st, outcome.slot, call))
  }

  /** The same of whatever slot is mapped for the call's conversation now. */
  predicate MappedLate(st: State, call: Call)
    requires call.op.GetOrBuild? && call.checkedAt <= |st.log|
  {
    call.todo != [] && call.todo[0] in st.tasks ==>
      st.tasks[call.todo[0]] < |st.slots| && BuiltLate(st, st.tasks[call.todo[0]], call)
  }

  ghost predicate RacesOk(st: State) {
    forall i | 0 <= i < |st.calls| :: RaceOk(st, st.calls[i], i)
  }

  /** A cell set since `st` was never built before; a slot mapped since `st` is new and empty. */
  ghost predicate OnlyNewSuccesses(st: State, st': State) {
    && st.log <= st'.log
    && |st.slots| <= |st'.slots|
    && (forall s | 0 <= s < |st.slots| ::
          st'.slots[s].cell == st.slots[s].cell || Tally(st.log, Success, s) == 0)
    && (forall s | |st.slots| <= s < |st'.slots| :: st'.slots[s].cell.None?)
    && (forall c | c in st'.tasks :: st'.tasks[c] < |st'.slots|
          && ((c in st.tasks && st'.tasks[c] == st.tasks[c]) || st'.tasks[c] >= |st.slots|))
  }

  /** A slot mapped after a step was mapped before, or is new. */
  lemma MappedBeforeOrNew(st: State, l: Label)
    requires Core(st) && Enabled(st, l)
    ensures var st' := Apply(st, l);
            forall c | c in st'.tasks :: st'.tasks[c] < |st'.slots|
              && ((c in st.tasks && st'.tasks[c] == st.tasks[c]) || st'.tasks[c] >= |st.slots|)
  {
  }

  lemma BuildIsNewSuccess(st: State, l: Label, s: SlotId)
    requires l.Build?
    requires Core(st) && Ledger(st) && Enabled(st, l) && s < |st.slots|
    ensures |Apply(st, l).slots| == |st.slots|
    ensures Apply(st, l).slots[s].cell == st.slots[s].cell || Tally(st.log, Success, s) == 0
  {
    assert SlotLedgerOk(st, s) && CallOk(st.slots, st.calls[l.call], l.call);
  }

  lemma StepOnlyNewSuccesses(st: State, l: Label)
    requires Core(st) && Ledger(st) && Enabled(st, l)
    ensures OnlyNewSuccesses(st, Apply(st, l))
  {
    StepLogsAtMostOne(st, l);
    StepGrows(st, l);
    MappedBeforeOrNew(st, l);
    forall s | 0 <= s < |Apply(st, l).slots|
      ensures s < |st.slots| ==> Apply(st, l).slots[s].cell == st.slots[s].cell || Tally(st.log, Success, s) == 0
      ensures s >= |st.slots| ==> Apply(st, l).slots[s].cell.None?
    {
      if !l.Build? {
        CellsStay(st, l, s);
      } else if s < |st.slots| {
        BuildIsNewSuccess(st, l, s);
      } else {
        NewSlotIsTaken(st, l);
      }
    }
  }

  lemma BuiltLateStays(st: State, st': State, s: SlotId, call: Call)
    requires OnlyNewSuccesses(st, st')
    requires s < |st'.slots| && call.op.GetOrBuild? && call.checkedAt <= |st.log|
    requires s < |st.slots| ==> BuiltLate(st, s, call)
    ensures BuiltLate(st', s, call)
  {
    assert st'.log[..call.checkedAt] == st.log[..call.checkedAt];
    if s < |st.slots| {
      TallyPrefix(st.log, call.checkedAt, Success, s);
    }
  }

  lemma RaceStaysOk(st: State, st': State, call: Call, i: CallId)
    requires OnlyNewSuccesses(st, st') && RaceOk(st, call, i)
    ensures RaceOk(st', call, i)
  {
    if call.op.GetOrBuild? {
      forall s | 0 <= s < |st'.slots| && (s < |st.slots| ==> BuiltLate(st, s, call))
        ensures BuiltLate(st', s, call)
      {
        BuiltLateStays(st, st', s, call);
      }
    }
  }

  // The call that moves: its new position, judged before anything else changes.

  lemma CheckedCallRaceOk(st: State, l: Label)
    requires l.Check? || l.Remove? || l.Look?
    requires Core(st) && Ledger(st) && RacesOk(st) && Enabled(st, l)
    ensures RaceOk(Apply(st, l), Apply(st, l).calls[l.call], l.call)
  {
    StepOnlyNewSuccesses(st, l);
    RaceStaysOk(st, Apply(st, l), st.calls[l.call], l.call);
  }

  lemma TakingCallRaceOk(st: State, l: Label)
    requires l.Take? || l.Poll? || l.Start?
    requires Core(st) && Ledger(st) && RacesOk(st) && Enabled(st, l)
    ensures RaceOk(Apply(st, l), Apply(st, l).calls[l.call], l.call)
  {
    StepOnlyNewSuccesses(st, l);
    RaceStaysOk(st, Apply(st, l), st.calls[l.call], l.call);
  }

  lemma EndingCallRaceOk(st: State, l: Label)
    requires l.Build? || l.Wake? || l.Fail? || l.GiveUp? || l.Drop?
    requires Core(st) && Ledger(st) && RacesOk(st) && Enabled(st, l)
    ensures RaceOk(Apply(st, l), Apply(st, l).calls[l.call], l.call)
  {
    StepOnlyNewSuccesses(st, l);
    RaceStaysOk(st, Apply(st, l), st.calls[l.call], l.call);
  }

  lemma MovedCallRaceOk(st: State, l: Label)
    requires Core(st) && Ledger(st) && RacesOk(st) && Enabled(st, l) && !l.Spawn?
    ensures RaceOk(Apply(st, l), Apply(st, l).calls[l.call], l.call)
  {
    if l.Check? || l.Remove? || l.Look? {
      CheckedCallRaceOk(st, l);
    } else if l.Take? || l.Poll? || l.Start? {
      TakingCallRaceOk(st, l);
    } else {
      EndingCallRaceOk(st, l);
    }
  }

  lemma KeepsRaces(st: State, l: Label)
    requires Core(st) && Ledger(st) && RacesOk(st) && Enabled(st, l)
    ensures RacesOk(Apply(st, l))
  {
    var st' := Apply(st, l);
    StepOnlyNewSuccesses(st, l);
    StepMovesOneCall(st, l);
    forall i | 0 <= i < |st'.calls|
      ensures RaceOk(st', st'.calls[i], i)
    {
      if l.Spawn? && i == |st.calls| {
      } else if !l.Spawn? && i == l.call {
        MovedCallRaceOk(st, l);
      } else {
        RaceStaysOk(st, st', st.calls[i], i);
      }
    }
  }
}
