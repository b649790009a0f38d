/** Issuing a token in its three separate accesses to the store, interleaved with everything else. */
module TokenRaces {
  import opened RuntimeTokens

  /** Where an issue stands: before the scan, before clearing the pair, before the insert. */
  datatype Stage =
    | Scanning
    | Clearing
    | Inserting
    | Returned(token: string)

  datatype IssueCall = IssueCall(op: Op, stage: Stage)

  /** `store` maps a live token to its claims (the hash is injective); `drawn` and `gone` are
    * history: every token drawn, and every token that has left the store. */
  datatype State = State(store: map<string, Claims>, calls: seq<IssueCall>, drawn: set<string>, gone: set<string>)

  const INITIAL := State(map[], [], {}, {})

  datatype Label =
    | Begin(op: Op)
    | Reuse(call: nat, token: string)   // the scan found a live grant that covers the request
    | Draw(call: nat)                   // the scan found none; the random token is drawn
    | Clear(call: nat)
    | Insert(call: nat)
    | Invalidate(op: Op)

  predicate Serves(claims: Claims, op: Op)
    requires op.Issue?
  {
    claims.user == op.user && claims.conversation == op.conversation
    && claims.generation == op.generation && op.scopes <= claims.scopes
  }

  predicate Enabled(st: State, l: Label) {
    match l
    case Begin(op) => op.Issue?
    case Invalidate(op) => !op.Issue?
    case Reuse(i, token) => i < |st.calls| && st.calls[i].op.Issue? && st.calls[i].stage.Scanning?
                            && token in st.store && Serves(st.store[token], st.calls[i].op)
    case Draw(i) => i < |st.calls| && st.calls[i].op.Issue? && st.calls[i].stage.Scanning?
                    && st.calls[i].op.token !in st.drawn
                    && forall t | t in st.store :: !Serves(st.store[t], st.calls[i].op)
    case Clear(i) => i < |st.calls| && st.calls[i].op.Issue? && st.calls[i].stage.Clearing?
    case Insert(i) => i < |st.calls| && st.calls[i].op.Issue? && st.calls[i].stage.Inserting?
  }

  function Retained(store: map<string, Claims>, op: Op): map<string, Claims> {
    map t | t in store && !Revokes(op, store[t]) :: store[t]
  }

  function Remove(st: State, op: Op): State {
    var kept := Retained(st.store, op);
    st.(store := kept, gone := st.gone + (st.store.Keys - kept.Keys))
  }

  function Goto(st: State, i: nat, stage: Stage): State
    requires i < |st.calls|
  {
    st.(calls := st.calls[i := st.calls[i].(stage := stage)])
  }

  function Apply(st: State, l: Label): State
    requires Enabled(st, l)
  {
    match l
    case Begin(op) => st.(calls := st.calls + [IssueCall(op, Scanning)])
    case Invalidate(op) => Remove(st, op)
    case Reuse(i, token) => Goto(st, i, Returned(token))
    case Draw(i) => Goto(st, i, Clearing).(drawn := st.drawn + {st.calls[i].op.token})
    case Clear(i) =>
      var op := st.calls[i].op;
      Goto(Remove(st, InvalidateConversation(op.user, op.conversation)), i, Inserting)
    case Insert(i) =>
      var op := st.calls[i].op;
      Goto(st, i, Returned(op.token)).(store := st.store[op.token := Fresh(op).claims])
  }

  ghost predicate Leads(st: State, ls: seq<Label>, st': State)
    decreases |ls|
  {
    if ls == [] then st == st'
    else Enabled(st, ls[0]) && Leads(Apply(st, ls[0]), ls[1..], st')
  }

  ghost predicate Reachable(st: State) {
    exists ls :: Leads(INITIAL, ls, st)
  }

  lemma FirstStepLeads(st: State, l: Label, ls: seq<Label>, st': State)
    requires Enabled(st, l) && Leads(Apply(st, l), ls, st')
    ensures Leads(st, [l] + ls, st')
  {
    assert ([l] + ls)[1..] == ls;
  }

  // ---- Without interleaving: the issue as one act ----

  /** The store holds exactly these grants, each under its token. */
  ghost predicate Mirrors(store: map<string, Claims>, grants: Grants) {
    && (forall t | t in store :: PairOf(store[t]) in grants && grants[PairOf(store[t])] == Grant(t, store[t]))
    && (forall p | p in grants :: PairOf(grants[p].claims) == p
          && grants[p].token in store && store[grants[p].token] == grants[p].claims)
  }

  /** An issue scans, and either returns what it found or draws, clears and inserts, in this order. */
  lemma IssueStepsInOrder(st: State, l: Label)
    requires Enabled(st, l) && !l.Begin? && !l.Invalidate?
    ensures match st.calls[l.call].stage
            case Scanning => l.Reuse? || l.Draw?
            case Clearing => l.Clear?
            case Inserting => l.Insert?
            case Returned(_) => false
  {
  }

  /** Left alone, an issue that is covered returns the live token and changes nothing, whatever
    * order its scan takes. */
  lemma CoveredIssueReuses(st: State, op: Op, grants: Grants)
    requires op.Issue? && Mirrors(st.store, grants)
    ensures var begun, i := Apply(st, Begin(op)), |st.calls|;
            && (forall t :: Enabled(begun, Reuse(i, t)) <==> Reuses(grants, op) && t == Issued(grants, op).token)
            && (Enabled(begun, Draw(i)) <==> !Reuses(grants, op) && op.token !in st.drawn)
            && (Reuses(grants, op) ==> Step(grants, op) == grants)
  {
    var p := (op.user, op.conversation);
    if p in grants {
      assert grants[p].token in st.store;
    }
  }

  /** And one that is not covered draws, clears and inserts what it should. */
  lemma UncoveredIssueInserts(st: State, op: Op, grants: Grants) returns (st': State)
    requires op.Issue? && Mirrors(st.store, grants) && !Reuses(grants, op) && op.token !in st.drawn
    requires op.token !in st.store
    ensures Leads(Apply(st, Begin(op)), [Draw(|st.calls|), Clear(|st.calls|), Insert(|st.calls|)], st')
    ensures Mirrors(st'.store, Step(grants, op))
    ensures |st'.calls| == |st.calls| + 1 && st'.calls[|st.calls|].stage == Returned(op.token)
  {
    var i, begun := |st.calls|, Apply(st, Begin(op));
    CoveredIssueReuses(st, op, grants);
    var drawn := Apply(begun, Draw(i));
    var cleared := Apply(drawn, Clear(i));
    st' := Apply(cleared, Insert(i));
    FirstStepLeads(cleared, Insert(i), [], st');
    FirstStepLeads(drawn, Clear(i), [Insert(i)], st');
    FirstStepLeads(begun, Draw(i), [Clear(i)] + [Insert(i)], st');
    assert [Draw(i)] + ([Clear(i)] + [Insert(i)]) == [Draw(i), Clear(i), Insert(i)];
    MirrorsInsert(st.store, op, grants, st'.store);
  }

  lemma MirrorsInsert(store: map<string, Claims>, op: Op, grants: Grants, store': map<string, Claims>)
    requires op.Issue? && Mirrors(store, grants) && !Reuses(grants, op) && op.token !in store
    requires store' == Retained(store, InvalidateConversation(op.user, op.conversation))[op.token := Fresh(op).claims]
    ensures Mirrors(store', Step(grants, op))
  {
  }

  /** An invalidation takes the same grants away in both views. */
  lemma InvalidationMirrors(st: State, op: Op, grants: Grants)
    requires !op.Issue? && Mirrors(st.store, grants)
    ensures Mirrors(Apply(st, Invalidate(op)).store, Step(grants, op))
  {
  }

  predicate Carries(call: IssueCall, token: string) {
    call.op.Issue? && call.op.token == token && (call.stage.Clearing? || call.stage.Inserting?)
  }

  /** A drawn token is on its way in, or in the store, or gone, and never two of these. */
  ghost predicate Inv(st: State) {
    && (forall t | t in st.store :: t in st.drawn && t !in st.gone)
    && st.gone <= st.drawn
    && (forall i, t | 0 <= i < |st.calls| && Carries(st.calls[i], t) ::
          t in st.drawn && t !in st.store && t !in st.gone)
    && (forall i, j, t | 0 <= i < j < |st.calls| && Carries(st.calls[i], t) :: !Carries(st.calls[j], t))
  }

  lemma KeepsInv(st: State, l: Label)
    requires Inv(st) && Enabled(st, l)
    ensures Inv(Apply(st, l)) && st.gone <= Apply(st, l).gone
    ensures forall t | t in st.store :: t in Apply(st, l).store || t in Apply(st, l).gone
  {
  }

  lemma {:induction false} RunKeepsInv(st: State, ls: seq<Label>, st': State)
    requires Inv(st) && Leads(st, ls, st')
    ensures Inv(st') && st.gone <= st'.gone
    ensures forall t | t in st.store :: t in st'.store || t in st'.gone
    decreases |ls|
  {
    if ls == [] {
    } else {
      KeepsInv(st, ls[0]);
      RunKeepsInv(Apply(st, ls[0]), ls[1..], st');
    }
  }

  /** A token that has been in the store and has left it is in no state that follows, so
    * presenting it is answered with Unknown for ever. */
  lemma RevocationIsPermanent(st: State, ls: seq<Label>, mid: State, ms: seq<Label>, st': State, token: string)
    requires Reachable(st) && token in st.store
    requires Leads(st, ls, mid) && token !in mid.store
    requires Leads(mid, ms, st')
    ensures token !in st'.store
  {
    var start :| Leads(INITIAL, start, st);
    RunKeepsInv(INITIAL, start, st);
    RunKeepsInv(st, ls, mid);
    RunKeepsInv(mid, ms, st');
  }

  // ---- How many tokens a pair can have ----

  /** `token` is live for pair `p`, or a call that has cleared `p` is about to insert it. */
  predicate For(st: State, token: string, p: Pair) {
    || (token in st.store && PairOf(st.store[token]) == p)
    || exists i :: 0 <= i < |st.calls| && Cleared(st.calls[i], token, p)
  }

  predicate Cleared(call: IssueCall, token: string, p: Pair) {
    call.op.Issue? && call.stage.Inserting? && call.op.token == token && (call.op.user, call.op.conversation) == p
  }

  ghost predicate OneToken(st: State, p: Pair) {
    forall s, t | For(st, s, p) && For(st, t, p) :: s == t
  }

  /** This step does not clear `p` while another issue stands between clearing `p` and its insert. */
  ghost predicate NoOverlap(st: State, l: Label, p: Pair) {
    l.Clear? && Enabled(st, l) && (st.calls[l.call].op.user, st.calls[l.call].op.conversation) == p ==>
      forall j, t | 0 <= j < |st.calls| && j != l.call :: !Cleared(st.calls[j], t, p)
  }

  /** A step keeps the pair to one token exactly if it does not overlap. */
  lemma KeepsOneToken(st: State, l: Label, p: Pair)
    requires Inv(st) && Enabled(st, l) && OneToken(st, p)
    ensures OneToken(Apply(st, l), p) <==> NoOverlap(st, l, p)
  {
    var st' := Apply(st, l);
    if NoOverlap(st, l, p) {
      forall s, t | For(st', s, p) && For(st', t, p)
        ensures s == t
      {
        OriginOf(st, l, p, s);
        OriginOf(st, l, p, t);
      }
    } else {
      var j, t :| 0 <= j < |st.calls| && j != l.call && Cleared(st.calls[j], t, p);
      var own := st.calls[l.call].op.token;
      assert Carries(st.calls[j], t) && Carries(st.calls[l.call], own);
      assert own != t;
      assert st'.calls[j] == st.calls[j];
      assert Cleared(st'.calls[j], t, p) && Cleared(st'.calls[l.call], own, p);
      assert For(st', t, p) && For(st', own, p);
    }
  }

  /** Two calls that both stand between clearing a pair and inserting leave it with two live
    * tokens if nothing else happens before their inserts. */
  lemma OverlapEndsInTwoTokens(st: State, i: nat, j: nat, s: string, t: string, p: Pair) returns (st': State)
    requires Inv(st) && i != j && i < |st.calls| && j < |st.calls|
    requires Cleared(st.calls[i], s, p) && Cleared(st.calls[j], t, p)
    ensures Leads(st, [Insert(i), Insert(j)], st')
    ensures s != t && s in st'.store && t in st'.store && PairOf(st'.store[s]) == p && PairOf(st'.store[t]) == p
  {
    assert Carries(st.calls[i], s) && Carries(st.calls[j], t);
    var mid := Apply(st, Insert(i));
    assert mid.calls[j] == st.calls[j];
    st' := Apply(mid, Insert(j));
    assert [Insert(i), Insert(j)][1..] == [Insert(j)] && [Insert(j)][1..] == [];
    assert Leads(mid, [Insert(j)], st');
  }

  /** Clearing leaves only the clearing call's own token; every other step adds no candidate. */
  lemma OriginOf(st: State, l: Label, p: Pair, t: string)
    requires Enabled(st, l) && NoOverlap(st, l, p) && For(Apply(st, l), t, p)
    ensures if l.Clear? && (st.calls[l.call].op.user, st.calls[l.call].op.conversation) == p
            then t == st.calls[l.call].op.token
            else For(st, t, p)
  {
    var st' := Apply(st, l);
    if !(t in st'.store && PairOf(st'.store[t]) == p) {
      var i :| 0 <= i < |st'.calls| && Cleared(st'.calls[i], t, p);
      if i < |st.calls| && (l.Begin? || l.Invalidate? || i != l.call) {
        assert st.calls[i] == st'.calls[i];
      }
    } else if l.Insert? && t !in st.store {
      assert Cleared(st.calls[l.call], t, p);
    }
  }

  ghost predicate Apart(st: State, ls: seq<Label>, p: Pair)
    decreases |ls|
  {
    ls != [] ==> NoOverlap(st, ls[0], p) && (Enabled(st, ls[0]) ==> Apart(Apply(st, ls[0]), ls[1..], p))
  }

  /** As long as no two issues for a pair overlap between clearing and inserting, the pair never
    * has more than one live token. */
  lemma {:induction false} OneTokenWithoutOverlap(st: State, ls: seq<Label>, st': State, p: Pair)
    requires Inv(st) && OneToken(st, p) && Leads(st, ls, st') && Apart(st, ls, p)
    ensures forall s, t | s in st'.store && t in st'.store
              && PairOf(st'.store[s]) == p && PairOf(st'.store[t]) == p :: s == t
    ensures OneToken(st', p)
    decreases |ls|
  {
    if ls == [] {
      forall s | s in st.store && PairOf(st.store[s]) == p
        ensures For(st, s, p)
      {
      }
    } else {
      KeepsOneToken(st, ls[0], p);
      KeepsInv(st, ls[0]);
      OneTokenWithoutOverlap(Apply(st, ls[0]), ls[1..], st', p);
    }
  }

  /** Two issues for one pair, drawn and past their clearing step. */
  lemma BothCleared(a: Op, b: Op) returns (ls: seq<Label>, st: State)
    requires a == Issue("u", "c", "default", {TeamCall}, "a", 0) && b == a.(token := "b")
    ensures Leads(INITIAL, ls, st) && st.calls == [IssueCall(a, Inserting), IssueCall(b, Inserting)]
  {
    var begun := Apply(Apply(INITIAL, Begin(a)), Begin(b));
    var drawn := Apply(Apply(begun, Draw(0)), Draw(1));
    st := Apply(Apply(drawn, Clear(0)), Clear(1));
    FirstStepLeads(Apply(drawn, Clear(0)), Clear(1), [], st);
    FirstStepLeads(drawn, Clear(0), [Clear(1)], st);
    FirstStepLeads(Apply(begun, Draw(0)), Draw(1), [Clear(0)] + [Clear(1)], st);
    ls := [Draw(1)] + ([Clear(0)] + [Clear(1)]);
    FirstStepLeads(begun, Draw(0), ls, st);
    ls := [Draw(0)] + ls;
    FirstStepLeads(Apply(INITIAL, Begin(a)), Begin(b), ls, st);
    ls := [Begin(b)] + ls;
    FirstStepLeads(INITIAL, Begin(a), ls, st);
    ls := [Begin(a)] + ls;
  }

  lemma {:induction false} LeadsOn(a: State, ls: seq<Label>, b: State, ms: seq<Label>, c: State)
    requires Leads(a, ls, b) && Leads(b, ms, c)
    ensures Leads(a, ls + ms, c)
    decreases |ls|
  {
    if ls == [] {
      assert ls + ms == ms;
    } else {
      LeadsOn(Apply(a, ls[0]), ls[1..], b, ms, c);
      assert (ls + ms)[1..] == ls[1..] + ms;
    }
  }

  /** Two issues for one pair that overlap leave the pair with two live tokens. */
  lemma OverlapLeavesTwoTokens() returns (st: State)
    ensures Reachable(st)
    ensures "a" in st.store && "b" in st.store && PairOf(st.store["a"]) == PairOf(st.store["b"]) && "a" != "b"
  {
    var a := Issue("u", "c", "default", {TeamCall}, "a", 0);
    var ls, mid := BothCleared(a, a.(token := "b"));
    RunKeepsInv(INITIAL, ls, mid);
    st := OverlapEndsInTwoTokens(mid, 0, 1, "a", "b", ("u", "c"));
    LeadsOn(INITIAL, ls, mid, [Insert(0), Insert(1)], st);
  }
}
