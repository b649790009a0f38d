/** Which token validates after which history of operations. */
module TokenHistory {
  import opened Wrappers
  import opened RuntimeTokens
  import opened RustStrings

  /** The grants after `ops`, one operation after the other from an empty store. */
  function Run(ops: seq<Op>): Grants {
    if ops == [] then map[] else Step(Run(ops[..|ops| - 1]), ops[|ops| - 1])
  }

  /** No random draw repeats, and none is empty. */
  ghost predicate FreshDraws(ops: seq<Op>) {
    && (forall j, k | 0 <= j < k < |ops| && ops[j].Issue? && ops[k].Issue? :: ops[j].token != ops[k].token)
    && (forall k | 0 <= k < |ops| && ops[k].Issue? :: ops[k].token != "")
  }

  function PairOfOp(op: Op): Pair
    requires op.Issue?
  {
    (op.user, op.conversation)
  }

  /** The issue at place `k` made a new grant. */
  predicate Created(ops: seq<Op>, k: nat) {
    k < |ops| && ops[k].Issue? && !Reuses(Run(ops[..k]), ops[k])
  }

  /** `op` puts an end to the grant that `issue` made: it revokes it, or asks for the same pair
    * with another generation or with scopes the grant does not cover. */
  predicate Ends(op: Op, issue: Op)
    requires issue.Issue?
  {
    if op.Issue? then
      PairOfOp(op) == PairOfOp(issue) && !(op.generation == issue.generation && op.scopes <= issue.scopes)
    else
      || (op.InvalidateConversationId? && op.conversation == issue.conversation)
      || (op.InvalidateConversation? && op.conversation == issue.conversation && op.user == issue.user)
      || (op.InvalidateGeneration? && op.conversation == issue.conversation && op.generation == issue.generation)
  }

  /** Made at place `k` and not ended since. */
  ghost predicate Alive(ops: seq<Op>, k: nat) {
    Created(ops, k) && forall j | k < j < |ops| :: !Ends(ops[j], ops[k])
  }

  lemma {:induction false} AliveIsGranted(ops: seq<Op>, k: nat)
    requires Alive(ops, k)
    ensures PairOfOp(ops[k]) in Run(ops) && Run(ops)[PairOfOp(ops[k])] == Fresh(ops[k])
    decreases |ops|
  {
    var n := |ops| - 1;
    if k < n {
      assert ops[..n][..k] == ops[..k];
      assert Alive(ops[..n], k);
      AliveIsGranted(ops[..n], k);
      assert !Ends(ops[n], ops[k]);
    }
  }

  lemma {:induction false} GrantedIsAlive(ops: seq<Op>, p: Pair) returns (k: nat)
    requires p in Run(ops)
    ensures Alive(ops, k) && PairOfOp(ops[k]) == p && Run(ops)[p] == Fresh(ops[k])
    decreases |ops|
  {
    var n := |ops| - 1;
    if Created(ops, n) && PairOfOp(ops[n]) == p {
      k := n;
    } else {
      k := GrantedIsAlive(ops[..n], p);
      assert ops[..n][..k] == ops[..k];
      forall j | k < j < |ops|
        ensures !Ends(ops[j], ops[k])
      {
        if j < n {
          assert ops[..n][j] == ops[j];
        }
      }
    }
  }

  /** A token of the history validates as the claims of the one live grant that carries it,
    * and is unknown when no live grant does. */
  lemma TokenHistoryDecides(ops: seq<Op>, raw: string, user: string, conversation: string, scope: Scope,
        generation: string)
    requires FreshDraws(ops)
    ensures Validated(Run(ops), Some(raw), user, conversation, scope, generation).Ok? <==>
              exists k: nat :: Alive(ops, k) && ops[k].token == Trim(raw) && ops[k].user == user
                && ops[k].conversation == conversation && ops[k].generation == generation && scope in ops[k].scopes
    ensures Validated(Run(ops), Some(raw), user, conversation, scope, generation) == Err(Unknown) <==>
              Trim(raw) != "" && forall k: nat :: Alive(ops, k) ==> ops[k].token != Trim(raw)
  {
    var token := Trim(raw);
    var grants := Run(ops);
    if Held(grants, token) {
      var h := GrantedIsAlive(ops, HolderOf(grants, token));
      forall k: nat | Alive(ops, k) && ops[k].token == token
        ensures k == h
      {
      }
    } else {
      forall k: nat | Alive(ops, k)
        ensures ops[k].token != token
      {
        AliveIsGranted(ops, k);
      }
    }
  }

  /** The live issue at place `k` made the token that `raw` presents. */
  ghost predicate Presents(ops: seq<Op>, k: nat, raw: Option<string>) {
    raw.Some? && Alive(ops, k) && ops[k].token == Trim(raw.value)
  }

  lemma PresentedIsHeld(ops: seq<Op>, k: nat, raw: Option<string>)
    requires FreshDraws(ops) && Presents(ops, k, raw)
    ensures Trim(raw.value) != "" && Held(Run(ops), Trim(raw.value))
    ensures HolderOf(Run(ops), Trim(raw.value)) == (ops[k].user, ops[k].conversation)
    ensures Run(ops)[(ops[k].user, ops[k].conversation)].claims
         == Claims(ops[k].user, ops[k].conversation, ops[k].scopes, ops[k].at, ops[k].generation)
  {
    AliveIsGranted(ops, k);
    var j := GrantedIsAlive(ops, HolderOf(Run(ops), Trim(raw.value)));
    assert j == k;
  }

  /** What validation answers to a token that a live issue made: the first disagreement, in this
    * order, or all that was issued. */
  lemma PresentedTokenAnswers(ops: seq<Op>, k: nat, raw: Option<string>, user: string, conversation: string,
        scope: Scope, generation: string)
    requires FreshDraws(ops) && Presents(ops, k, raw)
    ensures var answer, issue := Validated(Run(ops), raw, user, conversation, scope, generation), ops[k];
            && (answer == Err(UserMismatch) <==> issue.user != user)
            && (answer == Err(ConversationMismatch) <==> issue.user == user && issue.conversation != conversation)
            && (answer == Err(ScopeMissing) <==>
                  issue.user == user && issue.conversation == conversation && scope !in issue.scopes)
            && (answer == Err(GenerationMismatch) <==>
                  issue.user == user && issue.conversation == conversation && scope in issue.scopes
                  && issue.generation != generation)
            && (answer.Ok? ==>
                  answer.value == Claims(issue.user, issue.conversation, issue.scopes, issue.at, issue.generation))
            && answer != Err(Missing) && answer != Err(Unknown)
  {
    PresentedIsHeld(ops, k, raw);
  }

  /** A token is missing exactly if nothing, or nothing but white space, is presented, and unknown
    * exactly if something is and no live issue made it. */
  lemma UnpresentedTokenAnswers(ops: seq<Op>, raw: Option<string>, user: string, conversation: string,
        scope: Scope, generation: string)
    requires FreshDraws(ops)
    ensures Validated(Run(ops), raw, user, conversation, scope, generation) == Err(Missing) <==>
              raw.None? || forall c | c in raw.value :: IsWhitespace(c)
    ensures Validated(Run(ops), raw, user, conversation, scope, generation) == Err(Unknown) <==>
              raw.Some? && (exists c :: c in raw.value && !IsWhitespace(c)) && forall k: nat :: !Presents(ops, k, raw)
  {
    if raw.Some? {
      BlankIffAllWhitespace(raw.value);
      TokenHistoryDecides(ops, raw.value, user, conversation, scope, generation);
      forall k: nat
        ensures Presents(ops, k, raw) <==> Alive(ops, k) && ops[k].token == Trim(raw.value)
      {
      }
    }
  }
}
