/** What holds in every reachable state and over every run of the task protocol. */
module TaskProtocolTheorems {
  import opened Wrappers
  import opened TaskProtocol
  import opened TaskProtocolInvariants
  import opened TaskProtocolLedger
  import opened TaskProtocolRaces
  import opened TaskProtocolDrops

  ghost predicate Inv(st: State) {
    Core(st) && Ledger(st) && RacesOk(st) && DropsOk(st)
  }

  lemma KeepsInv(st: State, l: Label)
    requires Inv(st) && Enabled(st, l)
    ensures Inv(Apply(st, l))
  {
    KeepsCore(st, l);
    KeepsLedger(st, l);
    KeepsRaces(st, l);
    KeepsDrops(st, l);
  }

  lemma {:induction false} RunKeepsInv(st: State, ls: seq<Label>, st': State)
    requires Inv(st) && Leads(st, ls, st')
    ensures Inv(st')
    decreases |ls|
  {
    if ls == [] {
    } else {
      KeepsInv(st, ls[0]);
      RunKeepsInv(Apply(st, ls[0]), ls[1..], st');
    }
  }

  lemma ReachableInv(st: State)
    requires Reachable(st)
    ensures Inv(st)
  {
    var ls :| Leads(INITIAL, ls, st);
    RunKeepsInv(INITIAL, ls, st);
  }

  // ---- Agent accounting ----

  ghost predicate WasKilled(st: State, a: AgentId) {
    exists k :: 0 <= k < |st.log| && st.log[k].Killed? && st.log[k].agent == a
  }

  /** The remover of slot `s` settled it without a kill: it met the cell empty, or its future was
    * dropped; and slot `s` was out of the map, uninitialised, before the success at place `k`. */
  ghost predicate LetGo(st: State, s: SlotId, k: nat)
    requires k < |st.log|
  {
    && Tally(st.log[..k], Exit, s) == 1
    && exists j :: 0 <= j < |st.log|
         && (((st.log[j].Missed? || st.log[j].GaveUp?) && st.log[j].slot == s && j < k)
             || (st.log[j].Dropped? && st.log[j].slot == s))
  }

  predicate BeingRemoved(st: State, s: SlotId) {
    && s < |st.slots|
    && st.slots[s].removedBy.Some?
    && st.slots[s].removedBy.value < |st.calls|
    && Owes(st.calls[st.slots[s].removedBy.value], s)
  }

  /** Every slot enters the map once and leaves it at most once, exactly when it is unmapped. */
  lemma SlotsAreUsedOnce(st: State, s: SlotId)
    requires Reachable(st) && s < |st.slots|
    ensures Tally(st.log, Birth, s) == 1
    ensures Tally(st.log, Exit, s) == if Mapped(st, s) then 0 else 1
    ensures Tally(st.log, Success, s) <= 1 && Tally(st.log, Death, s) <= Tally(st.log, Settlement, s) <= 1
  {
    ReachableInv(st);
    assert SlotLedgerOk(st, s);
    DeathsAreSettlements(st.log, s);
  }

  lemma NoAgentIsKilledTwice(st: State, j: nat, k: nat)
    requires Reachable(st) && j < k < |st.log| && st.log[j].Killed? && st.log[k].Killed?
    ensures st.log[j].agent != st.log[k].agent
  {
    ReachableInv(st);
    assert EventOk(st, st.log[j]) && EventOk(st, st.log[k]);
    var s := st.log[j].slot;
    assert SlotLedgerOk(st, s);
    if st.log[k].slot == s {
      TallyCountsBoth(st.log, j, k, Settlement, s);
    }
  }

  /** Of the four things that can have become of a built agent, exactly one holds. */
  lemma AgentAccounting(st: State, k: nat)
    requires Reachable(st) && k < |st.log| && st.log[k].Built?
    ensures var s, a := st.log[k].slot, st.log[k].agent;
            && s < |st.slots| && st.slots[s].cell.Some? && st.slots[s].cell.value.agent == a
            && (Mapped(st, s) || BeingRemoved(st, s) || WasKilled(st, a) || LetGo(st, s, k))
            && !(Mapped(st, s) && BeingRemoved(st, s))
            && (Mapped(st, s) || BeingRemoved(st, s) ==> !WasKilled(st, a) && !LetGo(st, s, k))
            && !(WasKilled(st, a) && LetGo(st, s, k))
  {
    ReachableInv(st);
    var s, a := st.log[k].slot, st.log[k].agent;
    assert EventOk(st, st.log[k]) && SlotLedgerOk(st, s);
    if WasKilled(st, a) {
      KilledMeansSettled(st, s, k);
    } else if LetGo(st, s, k) {
      LetGoMeansSettled(st, s, k);
    }
    if !Mapped(st, s) && !BeingRemoved(st, s) && !WasKilled(st, a) {
      SettledMeansLetGo(st, s, k);
    }
  }

  lemma KilledMeansSettled(st: State, s: SlotId, k: nat)
    requires EventsOk(st) && AgentsOk(st) && k < |st.log| && st.log[k].Built? && st.log[k].slot == s
    requires WasKilled(st, st.log[k].agent)
    ensures Tally(st.log, Settlement, s) > 0
    ensures LetGo(st, s, k) ==> Tally(st.log, Settlement, s) > 1
  {
    var a := st.log[k].agent;
    var d :| 0 <= d < |st.log| && st.log[d].Killed? && st.log[d].agent == a;
    assert EventOk(st, st.log[k]) && EventOk(st, st.log[d]);
    TallyCounts(st.log, d, Settlement, s);
    if LetGo(st, s, k) {
      var j :| 0 <= j < |st.log| && Is(st.log[j], Settlement, s) && !st.log[j].Killed?;
      TallyCountsBoth(st.log, if j < d then j else d, if j < d then d else j, Settlement, s);
    }
  }

  lemma LetGoMeansSettled(st: State, s: SlotId, k: nat)
    requires k < |st.log| && LetGo(st, s, k)
    ensures Tally(st.log, Settlement, s) > 0
  {
    var j :| 0 <= j < |st.log| && Is(st.log[j], Settlement, s);
    TallyCounts(st.log, j, Settlement, s);
  }

  lemma SettledMeansLetGo(st: State, s: SlotId, k: nat)
    requires Inv(st) && k < |st.log| && st.log[k].Built? && st.log[k].slot == s && s < |st.slots|
    requires Tally(st.log, Settlement, s) > 0 && !WasKilled(st, st.log[k].agent)
    ensures LetGo(st, s, k)
  {
    TallyFinds(st.log, Settlement, s);
    var j :| 0 <= j < |st.log| && Is(st.log[j], Settlement, s);
    assert EventOk(st, st.log[k]) && EventOk(st, st.log[j]);
    if st.log[j].Dropped? {
      assert WasDropped(st.log, s) && ExitFirst(st.log, s);
    } else {
      MetEmptyFirst(st, s, j, k);
    }
  }

  /** A settlement that met the cell empty came before the success, and after the exit. */
  lemma MetEmptyFirst(st: State, s: SlotId, j: nat, k: nat)
    requires Inv(st) && j < |st.log| && k < |st.log| && s < |st.slots|
    requires (st.log[j].Missed? || st.log[j].GaveUp?) && st.log[j].slot == s
    requires st.log[k].Built? && st.log[k].slot == s
    ensures j < k && Tally(st.log[..k], Exit, s) == 1
  {
    assert Tally(st.log[..j], Success, s) == 0 && Tally(st.log[..j], Exit, s) == 1;
    if k < j {
      assert st.log[..j][k] == st.log[k];
      TallyCounts(st.log[..j], k, Success, s);
    }
    assert SlotLedgerOk(st, s);
    assert st.log[..k][..j] == st.log[..j];
    TallyPrefix(st.log[..k], j, Exit, s);
    TallyPrefix(st.log, k, Exit, s);
  }

  // ---- Single flight ----

  lemma SingleFlight(st: State, i: CallId, j: CallId, s: SlotId)
    requires Reachable(st) && i < |st.calls| && j < |st.calls|
    ensures st.calls[i].pc == Running(s) && st.calls[j].pc == Running(s) ==> i == j
    ensures st.calls[i].pc == Running(s) && s < |st.slots| ==> st.slots[s].cell.None?
    ensures forall a, b :: st.calls[i].pc == Returned(Agent(s, a)) && st.calls[j].pc == Returned(Agent(s, b)) ==> a == b
  {
    ReachableInv(st);
    assert CallOk(st.slots, st.calls[i], i) && CallOk(st.slots, st.calls[j], j);
  }

  /** Over any run a set cell, a remover, an outcome and the log stay; this is `Grows`. */
  lemma {:induction false} RunGrows(st: State, ls: seq<Label>, st': State)
    requires Inv(st) && Leads(st, ls, st')
    ensures Grows(st, st')
    decreases |ls|
  {
    if ls == [] {
    } else {
      var mid := Apply(st, ls[0]);
      StepGrows(st, ls[0]);
      KeepsInv(st, ls[0]);
      RunGrows(mid, ls[1..], st');
      GrowsTransitive(st, mid, st');
    }
  }

  lemma GrowsTransitive(a: State, b: State, c: State)
    requires Grows(a, b) && Grows(b, c)
    ensures Grows(a, c)
  {
  }

  lemma CellIsSetOnce(st: State, ls: seq<Label>, st': State, s: SlotId)
    requires Reachable(st) && Leads(st, ls, st') && s < |st.slots| && st.slots[s].cell.Some?
    ensures s < |st'.slots| && st'.slots[s].cell == st.slots[s].cell
  {
    ReachableInv(st);
    RunGrows(st, ls, st');
  }

  // ---- kill_and_wait ----

  /** A kill_and_wait call that removed slot `s` and has run to its end settled it exactly
    * once, by a kill or by giving up. */
  lemma KillAndWaitSettles(st: State, i: CallId, s: SlotId)
    requires Reachable(st) && i < |st.calls| && st.calls[i].op.KillAndWait?
    requires s < |st.slots| && st.slots[s].removedBy == Some(i) && st.calls[i].pc == Returned(Finished)
    ensures exists k :: 0 <= k < |st.log| && (st.log[k].Killed? || st.log[k].GaveUp?)
              && st.log[k].who == i && st.log[k].slot == s
    ensures Tally(st.log, Settlement, s) == 1
  {
    ReachableInv(st);
    assert SlotLedgerOk(st, s);
    TallyFinds(st.log, Settlement, s);
    var k :| 0 <= k < |st.log| && Is(st.log[k], Settlement, s);
    assert EventOk(st, st.log[k]);
  }

  /** It gives up only while it holds the slot's one permit over an empty cell, when no
    * factory runs there. */
  lemma GivingUpMeansNoBuildRuns(st: State, i: CallId, j: CallId)
    requires Reachable(st) && Enabled(st, GiveUp(i)) && j < |st.calls|
    ensures st.slots[st.calls[i].pc.slot].cell.None?
    ensures st.slots[st.calls[i].pc.slot].holder == Some(i)
    ensures st.calls[j].pc != Running(st.calls[i].pc.slot)
  {
    ReachableInv(st);
    var s := st.calls[i].pc.slot;
    assert QueueOk(st.calls, st.slots[s], s) && CallOk(st.slots, st.calls[j], j);
  }

  ghost predicate HasKilled(st: State, i: CallId, s: SlotId) {
    exists k :: 0 <= k < |st.log| && st.log[k].Killed? && st.log[k].who == i && st.log[k].slot == s
  }

  /** Build `b` on slot `s` still runs, or has filled the cell, or failed; and kill_and_wait
    * call `i` still has to deal with the slot, or has killed its agent, or was dropped. */
  ghost predicate BuildMeetsKill(st: State, b: CallId, i: CallId, s: SlotId) {
    && s < |st.slots| && i < |st.calls| && b < |st.calls| && st.calls[i].op.KillAndWait?
    && ((st.calls[b].pc == Running(s) && Owes(st.calls[i], s))
        || (st.slots[s].cell.Some? && Owes(st.calls[i], s))
        || HasKilled(st, i, s)
        || st.calls[i].pc == Returned(Cancelled)
        || st.calls[b].pc == Returned(Failed) || st.calls[b].pc == Returned(Cancelled))
  }

  /** The part of it that can still change. */
  ghost predicate KillIsDue(st: State, b: CallId, i: CallId, s: SlotId) {
    && s < |st.slots| && i < |st.calls| && b < |st.calls| && st.calls[i].op.KillAndWait? && Owes(st.calls[i], s)
    && (st.calls[b].pc == Running(s) || st.slots[s].cell.Some?)
  }

  lemma OthersKeepKillDue(st: State, l: Label, b: CallId, i: CallId, s: SlotId)
    requires Core(st) && Enabled(st, l) && KillIsDue(st, b, i, s) && (l.Spawn? || (l.call != i && l.call != b))
    ensures KillIsDue(Apply(st, l), b, i, s)
  {
    StepGrows(st, l);
    StepMovesOneCall(st, l);
  }

  lemma BuilderKeepsKillDue(st: State, l: Label, b: CallId, i: CallId, s: SlotId)
    requires Core(st) && Enabled(st, l) && KillIsDue(st, b, i, s) && !l.Spawn? && l.call == b != i
    ensures BuildMeetsKill(Apply(st, l), b, i, s)
  {
    StepGrows(st, l);
    StepMovesOneCall(st, l);
    assert CallOk(st.slots, st.calls[b], b);
  }

  lemma KillerKeepsKillDue(st: State, l: Label, b: CallId, i: CallId, s: SlotId)
    requires Core(st) && Enabled(st, l) && KillIsDue(st, b, i, s) && !l.Spawn? && l.call == i
    ensures BuildMeetsKill(Apply(st, l), b, i, s)
  {
    var st' := Apply(st, l);
    StepGrows(st, l);
    StepMovesOneCall(st, l);
    assert CallOk(st.slots, st.calls[i], i) && CallOk(st.slots, st.calls[b], b);
    if st'.log != st.log && st'.log[|st.log|].Killed? {
      assert HasKilled(st', i, s);
    }
  }

  lemma StepKeepsBuildMeetsKill(st: State, l: Label, b: CallId, i: CallId, s: SlotId)
    requires Core(st) && Enabled(st, l) && BuildMeetsKill(st, b, i, s)
    ensures BuildMeetsKill(Apply(st, l), b, i, s)
  {
    if KillIsDue(st, b, i, s) {
      if l.Spawn? || (l.call != i && l.call != b) {
        OthersKeepKillDue(st, l, b, i, s);
      } else if l.call == i {
        KillerKeepsKillDue(st, l, b, i, s);
      } else {
        BuilderKeepsKillDue(st, l, b, i, s);
      }
    } else {
      StepGrows(st, l);
      if HasKilled(st, i, s) {
        var k :| 0 <= k < |st.log| && st.log[k].Killed? && st.log[k].who == i && st.log[k].slot == s;
        assert Apply(st, l).log[k] == st.log[k];
      }
    }
  }

  lemma {:induction false} RunKeepsBuildMeetsKill(st: State, ls: seq<Label>, st': State, b: CallId, i: CallId,
        s: SlotId)
    requires Inv(st) && Leads(st, ls, st') && BuildMeetsKill(st, b, i, s)
    ensures BuildMeetsKill(st', b, i, s)
    decreases |ls|
  {
    if ls == [] {
    } else {
      StepKeepsBuildMeetsKill(st, ls[0], b, i, s);
      KeepsInv(st, ls[0]);
      RunKeepsBuildMeetsKill(Apply(st, ls[0]), ls[1..], st', b, i, s);
    }
  }

  /** A build that runs while kill_and_wait call `i` still has to deal with its slot, and that
    * succeeds, is killed by `i` before `i` finishes. */
  lemma RunningBuildIsKilled(st: State, ls: seq<Label>, st': State, b: CallId, i: CallId, s: SlotId, a: AgentId)
    requires Reachable(st) && Leads(st, ls, st') && i < |st.calls| && b < |st.calls|
    requires st.calls[b].pc == Running(s) && st.calls[i].op.KillAndWait? && Owes(st.calls[i], s)
    requires b < |st'.calls| && st'.calls[b].pc == Returned(Agent(s, a))
    requires i < |st'.calls| && st'.calls[i].pc == Returned(Finished)
    ensures exists k :: 0 <= k < |st'.log| && st'.log[k] == Killed(i, s, a)
  {
    ReachableInv(st);
    assert CallOk(st.slots, st.calls[b], b);
    RunKeepsBuildMeetsKill(st, ls, st', b, i, s);
    RunKeepsInv(st, ls, st');
    var k :| 0 <= k < |st'.log| && st'.log[k].Killed? && st'.log[k].who == i && st'.log[k].slot == s;
    assert EventOk(st', st'.log[k]) && CallOk(st'.slots, st'.calls[b], b);
  }

  // ---- Removed slots run dry ----

  /** The build calls that hold slot `s` and have not returned. */
  ghost function Holders(st: State, s: SlotId): set<CallId> {
    set i | 0 <= i < |st.calls| && st.calls[i].op.GetOrBuild?
            && (st.calls[i].pc == Polling(s) || AtSemaphore(st.calls[i], s))
  }

  lemma RemovedStaysRemoved(st: State, l: Label, s: SlotId)
    requires Core(st) && Enabled(st, l) && s < |st.slots| && !Mapped(st, s)
    ensures s < |Apply(st, l).slots| && !Mapped(Apply(st, l), s)
  {
    StepGrows(st, l);
    KeepsCore(st, l);
  }

  lemma TakeAddsNoHolder(st: State, l: Label, s: SlotId)
    requires l.Take?
    requires Core(st) && Enabled(st, l) && s < |st.slots| && !Mapped(st, s)
    ensures Apply(st, l).calls[l.call].pc != Polling(s)
  {
  }

  lemma HolderWasHolder(st: State, l: Label, s: SlotId, i: CallId)
    requires Core(st) && Enabled(st, l) && !l.Take? && !l.Spawn? && l.call == i && s < |st.slots| && !Mapped(st, s)
    requires i in Holders(Apply(st, l), s)
    ensures i in Holders(st, s)
  {
  }

  lemma HoldersShrink(st: State, l: Label, s: SlotId)
    requires Core(st) && Enabled(st, l) && s < |st.slots| && !Mapped(st, s)
    ensures Holders(Apply(st, l), s) <= Holders(st, s)
  {
    StepMovesOneCall(st, l);
    forall i | i in Holders(Apply(st, l), s)
      ensures i in Holders(st, s)
    {
      if l.Take? && l.call == i {
        TakeAddsNoHolder(st, l, s);
      } else if !l.Spawn? && l.call == i {
        HolderWasHolder(st, l, s, i);
      }
    }
  }

  lemma OnlyHoldersSetCells(st: State, l: Label, s: SlotId)
    requires Core(st) && Enabled(st, l) && s < |st.slots|
    ensures s < |Apply(st, l).slots|
    ensures Apply(st, l).slots[s].cell != st.slots[s].cell ==> l.Build? && l.call in Holders(st, s)
  {
  }

  /** No call newly takes a slot that left the map; once its last holder is gone, its cell is
    * fixed and no factory runs on it again. */
  lemma {:induction false} RemovedSlotRunsDry(st: State, ls: seq<Label>, st': State, s: SlotId)
    requires Inv(st) && Leads(st, ls, st') && s < |st.slots| && !Mapped(st, s)
    ensures s < |st'.slots| && !Mapped(st', s) && Holders(st', s) <= Holders(st, s)
    ensures Holders(st, s) == {} ==> st'.slots[s].cell == st.slots[s].cell
    ensures Holders(st, s) == {} ==> forall i | 0 <= i < |st'.calls| :: st'.calls[i].pc != Running(s)
    decreases |ls|
  {
    if ls == [] {
      forall i | 0 <= i < |st.calls| && st.calls[i].pc == Running(s)
        ensures i in Holders(st, s)
      {
        assert CallOk(st.slots, st.calls[i], i);
      }
    } else {
      RemovedStaysRemoved(st, ls[0], s);
      HoldersShrink(st, ls[0], s);
      OnlyHoldersSetCells(st, ls[0], s);
      KeepsInv(st, ls[0]);
      RemovedSlotRunsDry(Apply(st, ls[0]), ls[1..], st', s);
    }
  }

  // ---- Capabilities under concurrency ----

  predicate BuiltForLess(st: State, e: Event, i: CallId, s: SlotId, a: AgentId)
    requires i < |st.calls| && st.calls[i].op.GetOrBuild?
  {
    && e.Built? && e.slot == s && e.agent == a && e.who != i && e.who < |st.calls|
    && st.calls[e.who].op.GetOrBuild? && !st.calls[e.who].op.wants.Satisfies(st.calls[i].op.wants)
  }

  /** An agent falls short of what its caller asked for exactly if another call, which asked
    * for less, built it after the caller had made its check. */
  lemma StaleAgentWasRaced(st: State, i: CallId, s: SlotId, a: AgentId)
    requires Reachable(st) && i < |st.calls| && st.calls[i].pc == Returned(Agent(s, a))
    ensures s < |st.slots| && st.slots[s].cell.Some? && st.calls[i].op.GetOrBuild?
    ensures !st.slots[s].cell.value.capabilities.Satisfies(st.calls[i].op.wants) <==>
              exists c, k :: 0 <= c < k < |st.log| && st.log[c] == Checked(i) && BuiltForLess(st, st.log[k], i, s, a)
  {
    ReachableInv(st);
    var call := st.calls[i];
    assert CallOk(st.slots, call, i) && RaceOk(st, call, i) && SlotLedgerOk(st, s);
    if !st.slots[s].cell.value.capabilities.Satisfies(call.op.wants) {
      TallyFinds(st.log, Success, s);
      var k :| 0 <= k < |st.log| && Is(st.log[k], Success, s);
      assert EventOk(st, st.log[k]);
      var c := call.checkedAt;
      if k < c {
        assert st.log[..c][k] == st.log[k];
        TallyCounts(st.log[..c], k, Success, s);
      }
      assert 0 <= c < k < |st.log| && st.log[c] == Checked(i) && BuiltForLess(st, st.log[k], i, s, a);
    }
    forall k | 0 <= k < |st.log| && BuiltForLess(st, st.log[k], i, s, a)
      ensures !st.slots[s].cell.value.capabilities.Satisfies(call.op.wants)
    {
      assert EventOk(st, st.log[k]);
    }
  }
}
