/** The status of a running agent and its terminal events (agent_runtime.rs). */
module AgentRuntimes {
  import opened Wrappers

  datatype ConversationStatus = Pending | Running | Finished

  /** Terminal events; what they carry does not matter to the status. */
  datatype Event = Finish(sessionId: Option<string>) | Error(message: string)

  type Status = Option<ConversationStatus>

  /** Finished absorbs every transition. */
  function Transitioned(status: Status, to: ConversationStatus): Status {
    if status == Some(Finished) then status else Some(to)
  }

  // ---- One call after the other ----

  class AgentRuntime {
    var status: Status
    var lastActivity: int
    var events: seq<Event>    // everything broadcast so far

    constructor (now: int)
      ensures status == None && lastActivity == now && events == []
    {
      status, lastActivity, events := None, now, [];
    }

    method BumpActivity(now: int)
      modifies this`lastActivity
      ensures lastActivity == now
    {
      lastActivity := now;
    }

    method TransitionTo(to: ConversationStatus)
      modifies this`status
      ensures status == if old(status) == Some(Finished) then Some(Finished) else Some(to)
    {
      if status == Some(Finished) {
        return;
      }
      status := Some(to);
    }

    method ResetForNewTurn(to: ConversationStatus)
      modifies this`status
      ensures status == Some(to)
    {
      status := Some(to);
    }

    method Emit(event: Event)
      modifies this`events
      ensures events == old(events) + [event]
    {
      events := events + [event];
    }

    method EmitFinish(sessionId: Option<string>)
      modifies this`status, this`events
      ensures status == Some(Finished)
      ensures events == old(events) + if old(status) == Some(Finished) then [] else [Finish(sessionId)]
    {
      var alreadyFinished := status == Some(Finished);
      if !alreadyFinished {
        status := Some(Finished);
      }
      if alreadyFinished {
        return;
      }
      Emit(Finish(sessionId));
    }

    method EmitError(message: string)
      modifies this`status, this`events
      ensures status == Some(Finished)
      ensures events == old(events) + if old(status) == Some(Finished) then [] else [Error(message)]
    {
      var alreadyFinished := status == Some(Finished);
      if !alreadyFinished {
        status := Some(Finished);
      }
      if alreadyFinished {
        return;
      }
      Emit(Error(message));
    }
  }

  // ---- Many calls at once: the claim and the send are separate steps ----

  datatype Stage = Ready | Claimed | Done

  datatype Emitter = Emitter(event: Event, stage: Stage)

  /** `sent` lists the emitters whose events went out, in order. */
  datatype State = State(status: Status, emitters: seq<Emitter>, sent: seq<nat>)

  const INITIAL := State(None, [], [])

  datatype Label =
    | Begin(event: Event)
    | Claim(emitter: nat)
    | Send(emitter: nat)
    | Transition(to: ConversationStatus)
    | Reset(to: ConversationStatus)

  predicate Enabled(st: State, l: Label) {
    match l
    case Claim(i) => i < |st.emitters| && st.emitters[i].stage.Ready?
    case Send(i) => i < |st.emitters| && st.emitters[i].stage.Claimed?
    case _ => true
  }

  function Stand(st: State, i: nat, stage: Stage): State
    requires i < |st.emitters|
  {
    st.(emitters := st.emitters[i := st.emitters[i].(stage := stage)])
  }

  function Apply(st: State, l: Label): State
    requires Enabled(st, l)
  {
    match l
    case Begin(event) => st.(emitters := st.emitters + [Emitter(event, Ready)])
    case Claim(i) =>
      if st.status == Some(Finished) then Stand(st, i, Done)
      else Stand(st, i, Claimed).(status := Some(Finished))
    case Send(i) => Stand(st, i, Done).(sent := st.sent + [i])
    case Transition(to) => st.(status := Transitioned(st.status, to))
    case Reset(to) => st.(status := Some(to))
  }

  ghost predicate Leads(st: State, ls: seq<Label>, st': State)
    decreases |ls|
  {
    if ls == [] then st == st'
    else Enabled(st, ls[0]) && Leads(Apply(st, ls[0]), ls[1..], st')
  }

  /** Emitters that have claimed the turn's terminal event and not sent it yet. */
  function Waiting(emitters: seq<Emitter>): nat {
    if emitters == [] then 0
    else (if emitters[0].stage.Claimed? then 1 else 0) + Waiting(emitters[1..])
  }

  function Resets(ls: seq<Label>): nat {
    if ls == [] then 0 else (if ls[0].Reset? then 1 else 0) + Resets(ls[1..])
  }

  lemma {:induction false} WaitingUpdate(emitters: seq<Emitter>, i: nat, e: Emitter)
    requires i < |emitters|
    ensures Waiting(emitters[i := e]) ==
              Waiting(emitters) - (if emitters[i].stage.Claimed? then 1 else 0) + (if e.stage.Claimed? then 1 else 0)
  {
    if i == 0 {
      assert emitters[i := e][1..] == emitters[1..];
    } else {
      WaitingUpdate(emitters[1..], i - 1, e);
      assert emitters[i := e][1..] == emitters[1..][i - 1 := e];
    }
  }

  lemma {:induction false} WaitingAppend(emitters: seq<Emitter>, e: Emitter)
    ensures Waiting(emitters + [e]) == Waiting(emitters) + (if e.stage.Claimed? then 1 else 0)
  {
    if emitters == [] {
      assert emitters + [e] == [e] && [e][1..] == [];
    } else {
      assert (emitters + [e])[1..] == emitters[1..] + [e];
      WaitingAppend(emitters[1..], e);
    }
  }

  /** Terminal events sent or claimed, plus one if the turn is still open. */
  function Spent(st: State): nat {
    |st.sent| + Waiting(st.emitters) + if st.status == Some(Finished) then 0 else 1
  }

  lemma OnlyResetsOpenATurn(st: State, l: Label)
    requires Enabled(st, l)
    ensures Spent(Apply(st, l)) <= Spent(st) + (if l.Reset? then 1 else 0)
    ensures !l.Reset? && st.status == Some(Finished) ==> Apply(st, l).status == Some(Finished)
  {
    match l
    case Begin(event) => WaitingAppend(st.emitters, Emitter(event, Ready));
    case Claim(i) => WaitingUpdate(st.emitters, i, Apply(st, l).emitters[i]);
    case Send(i) => WaitingUpdate(st.emitters, i, Apply(st, l).emitters[i]);
    case _ =>
  }

  lemma {:induction false} SpentIsBounded(st: State, ls: seq<Label>, st': State)
    requires Leads(st, ls, st')
    ensures Spent(st') <= Spent(st) + Resets(ls)
    decreases |ls|
  {
    if ls == [] {
    } else {
      OnlyResetsOpenATurn(st, ls[0]);
      SpentIsBounded(Apply(st, ls[0]), ls[1..], st');
    }
  }

  /** However the calls interleave, terminal events sent and claimed never exceed one more than
    * the resets. */
  lemma OneTerminalEventPerTurn(ls: seq<Label>, st: State)
    requires Leads(INITIAL, ls, st)
    ensures |st.sent| + Waiting(st.emitters) <= 1 + Resets(ls)
  {
    SpentIsBounded(INITIAL, ls, st);
  }

  /** Whoever has claimed in `to` had claimed in `from`. */
  ghost predicate NobodyElseClaimed(from: seq<Emitter>, to: seq<Emitter>) {
    forall i: nat | i < |to| && to[i].stage.Claimed? :: i < |from| && from[i].stage.Claimed?
  }

  /** A step that is no reset leaves a finished status alone, and then no emitter claims. */
  lemma FinishedStep(st: State, l: Label)
    requires Enabled(st, l) && !l.Reset? && st.status == Some(Finished)
    ensures Apply(st, l).status == Some(Finished)
    ensures |Apply(st, l).sent| + Waiting(Apply(st, l).emitters) == |st.sent| + Waiting(st.emitters)
    ensures NobodyElseClaimed(st.emitters, Apply(st, l).emitters)
  {
    match l
    case Begin(event) => WaitingAppend(st.emitters, Emitter(event, Ready));
    case Claim(j) => WaitingUpdate(st.emitters, j, Apply(st, l).emitters[j]);
    case Send(j) => WaitingUpdate(st.emitters, j, Apply(st, l).emitters[j]);
    case _ =>
  }

  /** Between resets Finished is never left, and once the turn is closed nobody claims: what is
    * sent and claimed stays the same in number, and no emitter is newly claimed. */
  lemma {:induction false} FinishedAbsorbs(st: State, ls: seq<Label>, st': State)
    requires Leads(st, ls, st') && Resets(ls) == 0 && st.status == Some(Finished)
    ensures st'.status == Some(Finished)
    ensures |st'.sent| + Waiting(st'.emitters) == |st.sent| + Waiting(st.emitters)
    ensures NobodyElseClaimed(st.emitters, st'.emitters)
    decreases |ls|
  {
    if ls == [] {
    } else {
      FinishedStep(st, ls[0]);
      FinishedAbsorbs(Apply(st, ls[0]), ls[1..], st');
    }
  }

  // ---- How many events one turn can send ----

  lemma {:induction false} SomebodyWaits(emitters: seq<Emitter>) returns (i: nat)
    requires Waiting(emitters) > 0
    ensures i < |emitters| && emitters[i].stage.Claimed?
  {
    if emitters[0].stage.Claimed? {
      i := 0;
    } else {
      var j := SomebodyWaits(emitters[1..]);
      i := j + 1;
    }
  }

  /** Every claimed event can still be sent. */
  lemma {:induction false} WaitingCanSend(st: State) returns (ls: seq<Label>, st': State)
    ensures Leads(st, ls, st') && Resets(ls) == 0
    ensures |st'.sent| == |st.sent| + Waiting(st.emitters)
    decreases Waiting(st.emitters)
  {
    if Waiting(st.emitters) == 0 {
      ls, st' := [], st;
    } else {
      var i := SomebodyWaits(st.emitters);
      var mid := Apply(st, Send(i));
      WaitingUpdate(st.emitters, i, mid.emitters[i]);
      var rest;
      rest, st' := WaitingCanSend(mid);
      ls := [Send(i)] + rest;
      assert ls[1..] == rest;
    }
  }

  /** A turn can send everything it has left to spend: the claimed events and, if it is open, one more. */
  lemma TurnCanSpendAll(st: State) returns (ls: seq<Label>, st': State)
    ensures Leads(st, ls, st') && Resets(ls) == 0 && |st'.sent| == Spent(st)
  {
    if st.status == Some(Finished) {
      ls, st' := WaitingCanSend(st);
    } else {
      var e := Emitter(Finish(None), Ready);
      var begun := Apply(st, Begin(e.event));
      WaitingAppend(st.emitters, e);
      var claimed := Apply(begun, Claim(|st.emitters|));
      WaitingUpdate(begun.emitters, |st.emitters|, e.(stage := Claimed));
      var rest;
      rest, st' := WaitingCanSend(claimed);
      ls := [Begin(e.event), Claim(|st.emitters|)] + rest;
      assert ls[1..] == [Claim(|st.emitters|)] + rest && ls[1..][1..] == rest;
      assert Leads(begun, ls[1..], st');
    }
  }

  /** No run without a reset sends more than `n` further events. */
  ghost predicate TurnSendsAtMost(st: State, n: nat) {
    forall ls, st' :: Leads(st, ls, st') && Resets(ls) == 0 ==> |st'.sent| <= |st.sent| + n
  }

  /** The exact bound on the events sent from `st` until the next reset. */
  lemma TurnBound(st: State, n: nat)
    ensures TurnSendsAtMost(st, n) <==> Waiting(st.emitters) + (if st.status == Some(Finished) then 0 else 1) <= n
  {
    forall ls, st' | Leads(st, ls, st') && Resets(ls) == 0
      ensures |st'.sent| <= Spent(st)
    {
      SpentIsBounded(st, ls, st');
    }
    var all, end := TurnCanSpendAll(st);
  }

  /** So a turn sends at most one terminal event exactly if it is opened while nobody waits to
    * send: a caller of reset_for_new_turn can tell. */
  lemma TurnSendsOneIffNobodyWaits(st: State, to: ConversationStatus)
    requires to != Finished
    ensures TurnSendsAtMost(Apply(st, Reset(to)), 1) <==> Waiting(st.emitters) == 0
  {
    TurnBound(Apply(st, Reset(to)), 1);
  }

  /** A transition to anything but Finished leaves an open turn open, at that status, and no event
    * more or less to come. */
  lemma TransitionMovesOpenTurn(st: State, to: ConversationStatus, n: nat)
    requires st.status != Some(Finished) && to != Finished
    ensures Apply(st, Transition(to)).status == Some(to)
    ensures TurnSendsAtMost(Apply(st, Transition(to)), n) <==> TurnSendsAtMost(st, n)
  {
    TurnBound(st, n);
    TurnBound(Apply(st, Transition(to)), n);
  }

  /** A reset opens a turn from any status, at the one it is given, and leaves the waiting events to
    * be sent in it. */
  lemma ResetOpensTurn(st: State, to: ConversationStatus, n: nat)
    requires to != Finished
    ensures Apply(st, Reset(to)).status == Some(to)
    ensures TurnSendsAtMost(Apply(st, Reset(to)), n) <==> Waiting(st.emitters) + 1 <= n
  {
    TurnBound(Apply(st, Reset(to)), n);
  }

  /** A transition to Finished closes an open turn without an event: one event less is to come, and
    * who has not claimed by then does not claim in this turn. */
  lemma FinishingClosesTurn(st: State, n: nat)
    requires st.status != Some(Finished)
    ensures Apply(st, Transition(Finished)).status == Some(Finished)
    ensures TurnSendsAtMost(Apply(st, Transition(Finished)), n) <==> TurnSendsAtMost(st, n + 1)
    ensures forall ls, st' :: Leads(Apply(st, Transition(Finished)), ls, st') && Resets(ls) == 0 ==>
              NobodyElseClaimed(st.emitters, st'.emitters)
  {
    var closed := Apply(st, Transition(Finished));
    TurnBound(st, n + 1);
    TurnBound(closed, n);
    forall ls, st' | Leads(closed, ls, st') && Resets(ls) == 0
      ensures NobodyElseClaimed(st.emitters, st'.emitters)
    {
      FinishedAbsorbs(closed, ls, st');
    }
  }

  // ---- No emitter sends twice ----

  ghost predicate SendersAreDone(st: State) {
    && (forall k | 0 <= k < |st.sent| :: st.sent[k] < |st.emitters| && st.emitters[st.sent[k]].stage.Done?)
    && (forall j, k | 0 <= j < k < |st.sent| :: st.sent[j] != st.sent[k])
  }

  lemma {:induction false} NobodySendsTwice(st: State, ls: seq<Label>, st': State)
    requires SendersAreDone(st) && Leads(st, ls, st')
    ensures SendersAreDone(st')
    decreases |ls|
  {
    if ls == [] {
    } else {
      assert SendersAreDone(Apply(st, ls[0]));
      NobodySendsTwice(Apply(st, ls[0]), ls[1..], st');
    }
  }

  // ---- Alone, and not alone ----

  /** A claim followed at once by its send is the call described by `EmitFinish` and `EmitError`. */
  lemma ClaimThenSendIsEmit(st: State, i: nat) returns (st': State)
    requires Enabled(st, Claim(i))
    ensures st'.status == Some(Finished) && |st'.emitters| == |st.emitters| && st'.emitters[i].stage.Done?
    ensures st'.sent == st.sent + if st.status == Some(Finished) then [] else [i]
    ensures exists ls :: Leads(st, ls, st') && |ls| <= 2
  {
    var mid := Apply(st, Claim(i));
    if st.status == Some(Finished) {
      st' := mid;
      assert [Claim(i)][1..] == [];
      assert Leads(st, [Claim(i)], st');
    } else {
      st' := Apply(mid, Send(i));
      assert [Send(i)][1..] == [] && [Claim(i), Send(i)][1..] == [Send(i)];
      assert Leads(mid, [Send(i)], st');
      assert Leads(st, [Claim(i), Send(i)], st');
    }
  }

  /** The claim and the send are not one atomic act: a send can trail a reset, so that two
    * terminal events go out within one turn. */
  lemma SendCanTrailReset() returns (before: State, after: State, ls: seq<Label>)
    ensures exists start: seq<Label> :: Leads(INITIAL, start, before) && start != [] && start[|start| - 1].Reset?
    ensures Leads(before, ls, after) && Resets(ls) == 0
    ensures |before.sent| == 0 && |after.sent| == 2
  {
    var f := Finish(None);
    var a := Apply(INITIAL, Begin(f));
    var b := Apply(a, Claim(0));
    before := Apply(b, Reset(Running));
    var start := [Begin(f), Claim(0), Reset(Running)];
    assert start[1..] == [Claim(0), Reset(Running)] && start[1..][1..] == [Reset(Running)];
    assert start[1..][1..][1..] == [];
    assert Leads(b, [Reset(Running)], before);
    assert Leads(a, [Claim(0), Reset(Running)], before);
    assert Leads(INITIAL, start, before);
    assert before.emitters == [Emitter(f, Claimed)] && before.emitters[1..] == [];
    assert Waiting(before.emitters) == 1 + Waiting(before.emitters[1..]) == 1;
    ls, after := TurnCanSpendAll(before);
  }
}
