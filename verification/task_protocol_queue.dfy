/** What the queue for a slot decides: whether a caller who waits there can be handed an agent
  * that falls short of what it asked for. */
module TaskProtocolQueue {
  import opened Wrappers
  import opened TaskProtocol
  import opened TaskProtocolInvariants
  import opened TaskProtocolLedger
  import opened TaskProtocolTheorems
  import opened TaskProtocolProgress

  /** Call `i` has returned an agent whose capabilities do not satisfy its request. */
  predicate FallsShort(st: State, i: CallId) {
    && i < |st.calls| && st.calls[i].op.GetOrBuild?
    && st.calls[i].pc.Returned? && st.calls[i].pc.outcome.Agent?
    && var s := st.calls[i].pc.outcome.slot;
       s < |st.slots| && st.slots[s].cell.Some? && !st.slots[s].cell.value.capabilities.Satisfies(st.calls[i].op.wants)
  }

  ghost predicate CanFallShort(st: State, i: CallId) {
    exists ls, st' :: Leads(st, ls, st') && FallsShort(st', i)
  }

  predicate Calm(ls: seq<Label>) {
    forall l | l in ls :: !l.Spawn? && !l.Drop?
  }

  ghost predicate CanFallShortCalmly(st: State, i: CallId) {
    exists ls, st' :: Leads(st, ls, st') && Calm(ls) && FallsShort(st', i)
  }

  /** Caller `i` waits for slot `s`, whose cell is empty. */
  ghost predicate WaitsFor(st: State, i: CallId, s: SlotId) {
    && i < |st.calls| && st.calls[i].op.GetOrBuild? && st.calls[i].pc == Queued(s)
    && s < |st.slots| && st.slots[s].cell.None?
  }

  /** Ahead of `i`, holding the permit or in the queue, is build call `h`, which asks for too little. */
  ghost predicate LesserAhead(st: State, s: SlotId, h: CallId, i: CallId) {
    && s < |st.slots| && i < |st.calls| && st.calls[i].op.GetOrBuild?
    && Ahead(st.slots[s], h, i)
    && h < |st.calls| && st.calls[h].op.GetOrBuild? && !st.calls[h].op.wants.Satisfies(st.calls[i].op.wants)
  }

  // ---- Someone who asks for less is ahead: it can happen ----

  lemma StepThenShort(st: State, l: Label, i: CallId)
    requires Enabled(st, l) && !l.Spawn? && !l.Drop? && CanFallShortCalmly(Apply(st, l), i)
    ensures CanFallShortCalmly(st, i)
  {
    var ls, st' :| Leads(Apply(st, l), ls, st') && Calm(ls) && FallsShort(st', i);
    assert ([l] + ls)[1..] == ls;
    assert Leads(st, [l] + ls, st');
  }

  lemma WokenShort(st: State, i: CallId, s: SlotId)
    requires i < |st.calls| && st.calls[i].op.GetOrBuild? && st.calls[i].pc == Queued(s)
    requires s < |st.slots| && st.slots[s].cell.Some?
    requires !st.slots[s].cell.value.capabilities.Satisfies(st.calls[i].op.wants)
    ensures CanFallShortCalmly(st, i)
  {
    var st' := Apply(st, Wake(i));
    assert Leads(st', [], st') && Calm([]) && FallsShort(st', i);
    StepThenShort(st, Wake(i), i);
  }

  lemma BuiltShort(st: State, s: SlotId, h: CallId, i: CallId)
    requires WaitsFor(st, i, s) && h != i && h < |st.calls| && st.calls[h].op.GetOrBuild?
    requires st.calls[h].pc == Running(s) && !st.calls[h].op.wants.Satisfies(st.calls[i].op.wants)
    ensures CanFallShortCalmly(st, i)
  {
    WokenShort(Apply(st, Build(h)), i, s);
    StepThenShort(st, Build(h), i);
  }

  lemma StartedShort(st: State, s: SlotId, h: CallId, i: CallId)
    requires WaitsFor(st, i, s) && h != i && h < |st.calls| && st.calls[h].op.GetOrBuild?
    requires st.slots[s].holder == Some(h) && (st.calls[h].pc == Running(s) || st.calls[h].pc == Queued(s))
    requires !st.calls[h].op.wants.Satisfies(st.calls[i].op.wants)
    ensures CanFallShortCalmly(st, i)
  {
    if st.calls[h].pc == Running(s) {
      BuiltShort(st, s, h, i);
    } else {
      BuiltShort(Apply(st, Start(h)), s, h, i);
      StepThenShort(st, Start(h), i);
    }
  }

  /** From `st` to `st'` call `p` has let go of slot `s`, and nothing else matters. */
  ghost predicate LetsGo(st: State, st': State, s: SlotId, p: CallId) {
    && s < |st.slots| == |st'.slots| && p < |st.calls| == |st'.calls|
    && st'.slots[s] == Leave(st.slots[s], p)
    && forall j | 0 <= j < |st.calls| && j != p :: st'.calls[j] == st.calls[j]
  }

  lemma LastStepLetsGo(st: State, l: Label, s: SlotId)
    requires (l.Fail? || l.GiveUp?) && Enabled(st, l) && st.calls[l.call].pc.slot == s
    ensures LetsGo(st, Apply(st, l), s, l.call)
  {
  }

  /** The holder of a permit can fail, or give up. */
  lemma HolderCanLetGo(st: State, s: SlotId, p: CallId, i: CallId) returns (st': State)
    requires Inv(st) && s < |st.slots| && st.slots[s].holder == Some(p)
    ensures Inv(st') && LetsGo(st, st', s, p)
    ensures CanFallShortCalmly(st', i) ==> CanFallShortCalmly(st, i)
  {
    assert QueueOk(st.calls, st.slots[s], s) && CallOk(st.slots, st.calls[p], p);
    var before := st;
    if st.calls[p].pc == Queued(s) && st.calls[p].op.GetOrBuild? {
      KeepsInv(st, Start(p));
      before := Apply(st, Start(p));
    }
    var l := if st.calls[p].op.GetOrBuild? then Fail(p) else GiveUp(p);
    LastStepLetsGo(before, l, s);
    KeepsInv(before, l);
    st' := Apply(before, l);
    if CanFallShortCalmly(st', i) {
      StepThenShort(before, l, i);
      if before != st {
        StepThenShort(st, Start(p), i);
      }
    }
  }

  /** Permit after permit is let go until the lesser request has it. */
  lemma {:induction false} LesserGetsItsTurn(st: State, s: SlotId, h: CallId, i: CallId)
    requires Inv(st) && WaitsFor(st, i, s) && LesserAhead(st, s, h, i)
    ensures CanFallShortCalmly(st, i)
    decreases |st.slots[s].waiters|
  {
    var slot := st.slots[s];
    assert QueueOk(st.calls, slot, s);
    var p := slot.holder.value;
    if p == h {
      StartedShort(st, s, h, i);
    } else {
      var st' := HolderCanLetGo(st, s, p, i);
      LeaveKeepsAhead(slot, p, h, i);
      LesserGetsItsTurn(st', s, h, i);
    }
  }

  // ---- Nobody who asks for less is ahead: it cannot happen ----

  lemma {:induction false} WithoutAddsNoOrder(ws: seq<CallId>, x: CallId, h: CallId, i: CallId)
    requires Before(Without(ws, x), h, i)
    ensures Before(ws, h, i)
  {
    if ws == [] {
    } else {
      assert ws == [ws[0]] + ws[1..];
      BeforeTail(ws[0], ws[1..], h, i);
      if ws[0] == x {
        WithoutAddsNoOrder(ws[1..], x, h, i);
      } else {
        BeforeTail(ws[0], Without(ws[1..], x), h, i);
        WithoutIsFilter(ws[1..], x);
        if Before(Without(ws[1..], x), h, i) {
          WithoutAddsNoOrder(ws[1..], x, h, i);
        }
      }
    }
  }

  lemma LeavingAddsNobody(slot: Slot, x: CallId, h: CallId, i: CallId)
    requires Ahead(Leave(slot, x), h, i)
    ensures Ahead(slot, h, i)
  {
    WithoutIsFilter(slot.waiters, x);
    if slot.holder == Some(x) {
      assert slot.waiters == [slot.waiters[0]] + slot.waiters[1..];
      BeforeTail(slot.waiters[0], slot.waiters[1..], h, i);
    } else if slot.holder != Some(h) {
      WithoutAddsNoOrder(slot.waiters, x, h, i);
    }
  }

  lemma QueueingAddsNobody(slot: Slot, j: CallId, h: CallId, i: CallId)
    requires i != j && Ahead(slot.(waiters := slot.waiters + [j]), h, i)
    ensures Ahead(slot, h, i)
  {
    if slot.holder != Some(h) {
      var ws := slot.waiters + [j];
      var a, b :| 0 <= a < b < |ws| && ws[a] == h && ws[b] == i;
      assert slot.waiters[a] == h && slot.waiters[b] == i;
    }
  }

  /** Call `i` has failed, or holds or is bound to get an agent that satisfies it. */
  ghost predicate Safe(st: State, i: CallId, s: SlotId) {
    && i < |st.calls| && st.calls[i].op.GetOrBuild? && s < |st.slots|
    && match st.calls[i].pc
       case Returned(outcome) => outcome.Agent? ==> outcome.slot == s && Suits(st, i, s)
       case Queued(t) => t == s && (st.slots[s].cell.Some? ==> Suits(st, i, s))
                         && (st.slots[s].cell.None? ==> NoLesserAhead(st, i, s))
       case Running(t) => t == s
       case _ => false
  }

  predicate Suits(st: State, i: CallId, s: SlotId)
    requires i < |st.calls| && st.calls[i].op.GetOrBuild? && s < |st.slots|
  {
    st.slots[s].cell.Some? && st.slots[s].cell.value.capabilities.Satisfies(st.calls[i].op.wants)
  }

  ghost predicate NoLesserAhead(st: State, i: CallId, s: SlotId) {
    forall h :: !LesserAhead(st, s, h, i)
  }

  lemma AheadIsQueued(slot: Slot, h: CallId, i: CallId)
    requires Ahead(slot, h, i)
    ensures slot.holder == Some(h) || h in slot.waiters
  {
  }

  /** If nobody comes to be ahead of `i`, no lesser request does. */
  lemma NobodyNewAhead(st: State, st': State, i: CallId, s: SlotId)
    requires Grows(st, st') && s < |st.slots| && i < |st.calls|
    requires QueueOk(st.calls, st.slots[s], s) && NoLesserAhead(st, i, s)
    requires forall h :: Ahead(st'.slots[s], h, i) ==> Ahead(st.slots[s], h, i)
    ensures NoLesserAhead(st', i, s)
  {
    forall h: CallId
      ensures !LesserAhead(st', s, h, i)
    {
      if LesserAhead(st', s, h, i) {
        AheadIsQueued(st.slots[s], h, i);
        assert LesserAhead(st, s, h, i);
      }
    }
  }

  /** The slot's cell and queue are what they were, apart from a poll, a departure or a build. */
  lemma SlotQueueStays(st: State, l: Label, s: SlotId)
    requires Enabled(st, l) && s < |st.slots|
    requires (l.Build? || l.Fail? || l.GiveUp? || l.Drop? || l.Poll?) ==> st.calls[l.call].pc.slot != s
    ensures s < |Apply(st, l).slots|
    ensures Apply(st, l).slots[s].(removedBy := None) == st.slots[s].(removedBy := None)
  {
  }

  lemma UntouchedKeepsSafe(st: State, l: Label, i: CallId, s: SlotId)
    requires Core(st) && Enabled(st, l) && Safe(st, i, s) && (l.Spawn? || l.call != i)
    requires (l.Build? || l.Fail? || l.GiveUp? || l.Drop? || l.Poll?) ==> st.calls[l.call].pc.slot != s
    ensures Safe(Apply(st, l), i, s)
  {
    StepGrows(st, l);
    StepMovesOneCall(st, l);
    SlotQueueStays(st, l, s);
    if st.calls[i].pc.Queued? && st.slots[s].cell.None? {
      assert QueueOk(st.calls, st.slots[s], s);
      NobodyNewAhead(st, Apply(st, l), i, s);
    }
  }

  lemma OwnStepKeepsSafe(st: State, l: Label, i: CallId, s: SlotId)
    requires Core(st) && Enabled(st, l) && Safe(st, i, s) && !l.Spawn? && l.call == i
    ensures Safe(Apply(st, l), i, s)
  {
    assert CallOk(st.slots, st.calls[i], i);
  }

  lemma BuildKeepsSafe(st: State, l: Label, i: CallId, s: SlotId)
    requires l.Build? && Enabled(st, l) && l.call != i && st.calls[l.call].pc.slot == s
    requires Core(st) && Safe(st, i, s)
    ensures Safe(Apply(st, l), i, s)
  {
    var b := l.call;
    StepMovesOneCall(st, l);
    assert CallOk(st.slots, st.calls[b], b) && CallOk(st.slots, st.calls[i], i);
    if st.calls[i].pc.Queued? {
      assert Ahead(st.slots[s], b, i);
      assert !LesserAhead(st, s, b, i);
    }
  }

  lemma LeavingKeepsSafe(st: State, l: Label, i: CallId, s: SlotId)
    requires (l.Fail? || l.GiveUp? || l.Drop?) && Enabled(st, l) && l.call != i && st.calls[l.call].pc.slot == s
    requires Core(st) && Safe(st, i, s)
    ensures Safe(Apply(st, l), i, s)
  {
    var st' := Apply(st, l);
    StepGrows(st, l);
    StepMovesOneCall(st, l);
    assert st'.slots[s] == Leave(st.slots[s], l.call);
    if st.calls[i].pc.Queued? && st.slots[s].cell.None? {
      forall h
        ensures Ahead(st'.slots[s], h, i) ==> Ahead(st.slots[s], h, i)
      {
        if Ahead(st'.slots[s], h, i) {
          LeavingAddsNobody(st.slots[s], l.call, h, i);
        }
      }
      assert QueueOk(st.calls, st.slots[s], s);
      NobodyNewAhead(st, st', i, s);
    }
  }

  lemma PollKeepsSafe(st: State, l: Label, i: CallId, s: SlotId)
    requires l.Poll? && Enabled(st, l) && l.call != i && st.calls[l.call].pc.slot == s
    requires Core(st) && Safe(st, i, s)
    ensures Safe(Apply(st, l), i, s)
  {
    var st' := Apply(st, l);
    StepGrows(st, l);
    StepMovesOneCall(st, l);
    if st.calls[i].pc.Queued? && st.slots[s].cell.None? {
      assert CallOk(st.slots, st.calls[i], i) && QueueOk(st.calls, st.slots[s], s);
      assert st'.slots[s] == st.slots[s].(waiters := st.slots[s].waiters + [l.call]);
      forall h
        ensures Ahead(st'.slots[s], h, i) ==> Ahead(st.slots[s], h, i)
      {
        if Ahead(st'.slots[s], h, i) {
          QueueingAddsNobody(st.slots[s], l.call, h, i);
        }
      }
      NobodyNewAhead(st, st', i, s);
    }
  }

  lemma KeepsSafe(st: State, l: Label, i: CallId, s: SlotId)
    requires Core(st) && Enabled(st, l) && Safe(st, i, s)
    ensures Safe(Apply(st, l), i, s)
  {
    if l.Spawn? {
      UntouchedKeepsSafe(st, l, i, s);
    } else if l.call == i {
      OwnStepKeepsSafe(st, l, i, s);
    } else if (l.Build? || l.Fail? || l.GiveUp? || l.Drop? || l.Poll?) && st.calls[l.call].pc.slot == s {
      match l
      case Build(_) => BuildKeepsSafe(st, l, i, s);
      case Poll(_) => PollKeepsSafe(st, l, i, s);
      case _ => LeavingKeepsSafe(st, l, i, s);
    } else {
      UntouchedKeepsSafe(st, l, i, s);
    }
  }

  lemma {:induction false} RunKeepsSafe(st: State, ls: seq<Label>, st': State, i: CallId, s: SlotId)
    requires Inv(st) && Leads(st, ls, st') && Safe(st, i, s)
    ensures Safe(st', i, s)
    decreases |ls|
  {
    if ls == [] {
    } else {
      KeepsSafe(st, ls[0], i, s);
      KeepsInv(st, ls[0]);
      RunKeepsSafe(Apply(st, ls[0]), ls[1..], st', i, s);
    }
  }

  // ---- Exactly when ----

  /** A caller who waits for a slot can be handed an agent that falls short exactly if a build call
    * that asks for too little is ahead of it; then that happens on a run that starts no new call
    * and drops none. */
  lemma WaiterCanFallShort(st: State, i: CallId, s: SlotId)
    requires Inv(st) && WaitsFor(st, i, s)
    ensures CanFallShort(st, i) <==> exists h :: LesserAhead(st, s, h, i)
    ensures CanFallShort(st, i) <==> CanFallShortCalmly(st, i)
  {
    if h :| LesserAhead(st, s, h, i) {
      LesserGetsItsTurn(st, s, h, i);
      var ls, st' :| Leads(st, ls, st') && Calm(ls) && FallsShort(st', i);
      assert CanFallShort(st, i);
    } else {
      forall ls, st' | Leads(st, ls, st')
        ensures !FallsShort(st', i)
      {
        RunKeepsSafe(st, ls, st', i, s);
      }
    }
  }
}
