/** A kill_and_wait future that waits on its slot, or was dropped, found the slot's cell empty
  * when it took the slot out of the map. */
module TaskProtocolDrops {
  import opened TaskProtocol
  import opened TaskProtocolInvariants
  import opened TaskProtocolLedger

  /** Slot `s` was out of the map before any success in it. */
  ghost predicate ExitFirst(log: seq<Event>, s: SlotId) {
    forall k | 0 <= k < |log| && log[k].Built? && log[k].slot == s :: Tally(log[..k], Exit, s) == 1
  }

  predicate Waits(st: State, s: SlotId) {
    && s < |st.slots| && st.slots[s].removedBy.Some? && st.slots[s].removedBy.value < |st.calls|
    && var call := st.calls[st.slots[s].removedBy.value];
       call.op.KillAndWait? && (call.pc == Polling(s) || call.pc == Queued(s))
  }

  ghost predicate WasDropped(log: seq<Event>, s: SlotId) {
    exists k :: 0 <= k < |log| && log[k].Dropped? && log[k].slot == s
  }

  ghost predicate DropsOk(st: State) {
    forall s: SlotId | Waits(st, s) || WasDropped(st.log, s) :: ExitFirst(st.log, s)
  }

  lemma ExitFirstAppend(log: seq<Event>, e: Event, s: SlotId)
    requires ExitFirst(log, s) && (e.Built? && e.slot == s ==> Tally(log, Exit, s) == 1)
    ensures ExitFirst(log + [e], s)
  {
    forall k | 0 <= k <= |log|
      ensures (log + [e])[..k] == log[..k]
    {
    }
    assert log[..|log|] == log;
  }

  lemma NoSuccessNoBuild(log: seq<Event>, s: SlotId)
    requires Tally(log, Success, s) == 0
    ensures ExitFirst(log, s)
  {
    forall k | 0 <= k < |log|
      ensures !Is(log[k], Success, s)
    {
      if Is(log[k], Success, s) {
        TallyCounts(log, k, Success, s);
      }
    }
  }

  lemma MovingStartsNoWait(st: State, l: Label, s: SlotId)
    requires l.Spawn? || l.Check? || l.Poll? || l.Start?
    requires Core(st) && Enabled(st, l) && Waits(Apply(st, l), s)
    ensures Waits(st, s)
  {
    StepMovesOneCall(st, l);
  }

  lemma MappingStartsNoWait(st: State, l: Label, s: SlotId)
    requires l.Remove? || l.Take?
    requires Core(st) && Enabled(st, l) && Waits(Apply(st, l), s)
    ensures Waits(st, s)
  {
    StepMovesOneCall(st, l);
  }

  lemma EndingStartsNoWait(st: State, l: Label, s: SlotId)
    requires l.Build? || l.Wake? || l.Fail? || l.GiveUp? || l.Drop?
    requires Core(st) && Enabled(st, l) && Waits(Apply(st, l), s)
    ensures Waits(st, s)
  {
    StepMovesOneCall(st, l);
  }

  /** Whoever starts to wait has just found the cell empty. */
  lemma WaitStartsEmpty(st: State, l: Label, s: SlotId)
    requires Core(st) && Enabled(st, l) && Waits(Apply(st, l), s) && !Waits(st, s)
    ensures s < |st.slots| && st.slots[s].cell.None? && Apply(st, l).log == st.log
  {
    match l
    case Look(_, _) => StepMovesOneCall(st, l);
    case Remove(_) => MappingStartsNoWait(st, l, s);
    case Take(_) => MappingStartsNoWait(st, l, s);
    case Build(_) => EndingStartsNoWait(st, l, s);
    case Wake(_) => EndingStartsNoWait(st, l, s);
    case Fail(_) => EndingStartsNoWait(st, l, s);
    case GiveUp(_) => EndingStartsNoWait(st, l, s);
    case Drop(_) => EndingStartsNoWait(st, l, s);
    case _ => MovingStartsNoWait(st, l, s);
  }

  /** Whoever is dropped was waiting. */
  lemma DropEndsWait(st: State, l: Label, s: SlotId)
    requires Core(st) && Enabled(st, l) && WasDropped(Apply(st, l).log, s) && !WasDropped(st.log, s)
    ensures Waits(st, s)
  {
    StepLogsAtMostOne(st, l);
    var log := Apply(st, l).log;
    var k :| 0 <= k < |log| && log[k].Dropped? && log[k].slot == s;
    assert k == |st.log|;
  }

  /** Both kinds of slot are out of the map. */
  lemma WaitedIsRemoved(st: State, s: SlotId)
    requires Ledger(st) && (Waits(st, s) || WasDropped(st.log, s))
    ensures s < |st.slots| && Tally(st.log, Exit, s) == 1
  {
    if WasDropped(st.log, s) {
      var k :| 0 <= k < |st.log| && st.log[k].Dropped? && st.log[k].slot == s;
      assert EventOk(st, st.log[k]);
    }
    assert SlotLedgerOk(st, s);
  }

  lemma KeepsDrops(st: State, l: Label)
    requires Core(st) && Ledger(st) && DropsOk(st) && Enabled(st, l)
    ensures DropsOk(Apply(st, l))
  {
    var st' := Apply(st, l);
    StepLogsAtMostOne(st, l);
    forall s: SlotId | Waits(st', s) || WasDropped(st'.log, s)
      ensures ExitFirst(st'.log, s)
    {
      if !Waits(st, s) && !WasDropped(st.log, s) {
        if Waits(st', s) {
          WaitStartsEmpty(st, l, s);
          assert SlotLedgerOk(st, s);
          NoSuccessNoBuild(st.log, s);
        } else {
          DropEndsWait(st, l, s);
        }
      } else if st'.log != st.log {
        WaitedIsRemoved(st, s);
        ExitFirstAppend(st.log, st'.log[|st.log|], s);
      }
    }
  }
}
