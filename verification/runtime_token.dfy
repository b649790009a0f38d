/** The team runtime tokens of runtime_token.rs: a store keyed by token hash and scanned
  * linearly, which behaves like a map from (user, conversation) to one grant.
  *
  * Assumed: the hash has no collisions, and a random draw never repeats.
  */
module RuntimeTokens {
  import opened RustStrings
  import opened Wrappers

  const TEAM_RUNTIME_TOKEN_SESSION_GENERATION := "default"

  datatype Scope = TeamContext | TeamCall

  datatype Claims = Claims(user: string, conversation: string, scopes: set<Scope>, issuedAt: int, generation: string)

  datatype Grant = Grant(token: string, claims: Claims)

  datatype TokenError = Missing | Unknown | UserMismatch | ConversationMismatch | ScopeMissing | GenerationMismatch

  type Pair = (string, string)

  /** The simple view: at most one grant per (user, conversation). */
  type Grants = map<Pair, Grant>

  function PairOf(claims: Claims): Pair {
    (claims.user, claims.conversation)
  }

  // ---- Random tokens ----

  newtype Byte = b: int | 0 <= b < 256

  predicate IsHexDigit(c: char) {
    '0' <= c <= '9' || 'a' <= c <= 'f'
  }

  function HexDigit(n: int): (c: char)
    requires 0 <= n < 16
    ensures IsHexDigit(c)
  {
    if n < 10 then '0' + n as char else 'a' + (n - 10) as char
  }

  function Hex(bytes: seq<Byte>): (text: string)
    ensures |text| == 2 * |bytes|
    ensures forall k | 0 <= k < |text| :: IsHexDigit(text[k])
  {
    if bytes == [] then []
    else [HexDigit(bytes[0] as int / 16), HexDigit(bytes[0] as int % 16)] + Hex(bytes[1..])
  }

  lemma HexDigitIsInjective(m: int, n: int)
    requires 0 <= m < 16 && 0 <= n < 16 && HexDigit(m) == HexDigit(n)
    ensures m == n
  {
  }

  lemma {:induction false} HexIsInjective(a: seq<Byte>, b: seq<Byte>)
    requires Hex(a) == Hex(b)
    ensures a == b
  {
    if a != [] && b != [] {
      var s, t := Hex(a), Hex(b);
      assert s[2..] == Hex(a[1..]) && t[2..] == Hex(b[1..]);
      HexIsInjective(a[1..], b[1..]);
      HexDigitIsInjective(a[0] as int / 16, b[0] as int / 16);
      HexDigitIsInjective(a[0] as int % 16, b[0] as int % 16);
      assert a == [a[0]] + a[1..] && b == [b[0]] + b[1..];
    }
  }

  /** A generated token is not changed by trimming, and padding around it is. */
  lemma TrimRecoversToken(bytes: seq<Byte>, before: string, after: string)
    requires bytes != []
    requires forall c | c in before || c in after :: IsWhitespace(c)
    ensures Trim(before + Hex(bytes) + after) == Hex(bytes)
  {
    var t := Hex(bytes);
    assert IsHexDigit(t[0]) && IsHexDigit(t[|t| - 1]);
    TrimStartSkips(before, t + after);
    assert before + t + after == before + (t + after);
    assert (t + after)[0] == t[0];
    TrimEndSkips(t, after);
  }

  // ---- The simple view and its operations ----

  datatype Op =
    | Issue(user: string, conversation: string, generation: string, scopes: set<Scope>, token: string, at: int)
    | InvalidateConversation(user: string, conversation: string)
    | InvalidateConversationId(conversation: string)
    | InvalidateGeneration(conversation: string, generation: string)

  /** The live grant already serves this issue. */
  predicate Covers(grant: Grant, op: Op)
    requires op.Issue?
  {
    grant.claims.generation == op.generation && op.scopes <= grant.claims.scopes
  }

  function Fresh(op: Op): Grant
    requires op.Issue?
  {
    Grant(op.token, Claims(op.user, op.conversation, op.scopes, op.at, op.generation))
  }

  predicate Reuses(grants: Grants, op: Op) {
    op.Issue? && (op.user, op.conversation) in grants && Covers(grants[(op.user, op.conversation)], op)
  }

  /** What an issue hands to its caller. */
  function Issued(grants: Grants, op: Op): Grant
    requires op.Issue?
  {
    if Reuses(grants, op) then grants[(op.user, op.conversation)] else Fresh(op)
  }

  /** An invalidation takes away the grants with these claims. */
  predicate Revokes(op: Op, claims: Claims) {
    match op
    case Issue(_, _, _, _, _, _) => false
    case InvalidateConversation(user, conversation) => claims.user == user && claims.conversation == conversation
    case InvalidateConversationId(conversation) => claims.conversation == conversation
    case InvalidateGeneration(conversation, generation) =>
      claims.conversation == conversation && claims.generation == generation
  }

  function Step(grants: Grants, op: Op): Grants {
    if op.Issue? then grants[(op.user, op.conversation) := Issued(grants, op)]
    else map p | p in grants && !Revokes(op, grants[p].claims) :: grants[p]
  }

  ghost predicate Held(grants: Grants, token: string) {
    exists p :: p in grants && grants[p].token == token
  }

  ghost function HolderOf(grants: Grants, token: string): Pair
    requires Held(grants, token)
  {
    var p :| p in grants && grants[p].token == token;
    p
  }

  function CheckClaims(claims: Claims, user: string, conversation: string, scope: Scope, generation: string)
    : Result<Claims, TokenError>
  {
    if claims.user != user then Err(UserMismatch)
    else if claims.conversation != conversation then Err(ConversationMismatch)
    else if scope !in claims.scopes then Err(ScopeMissing)
    else if claims.generation != generation then Err(GenerationMismatch)
    else Ok(claims)
  }

  ghost function Validated(grants: Grants, raw: Option<string>, user: string, conversation: string,
                           scope: Scope, generation: string): Result<Claims, TokenError>
  {
    if raw.None? || Trim(raw.value) == "" then Err(Missing)
    else if !Held(grants, Trim(raw.value)) then Err(Unknown)
    else CheckClaims(grants[HolderOf(grants, Trim(raw.value))].claims, user, conversation, scope, generation)
  }

  ghost predicate Collisionless(hash: string -> string) {
    forall a, b :: hash(a) == hash(b) ==> a == b
  }

  /** Replacing is clearing the pair and inserting. */
  lemma IssueClearsThenInserts(grants: Grants, op: Op)
    requires op.Issue? && !Reuses(grants, op)
    requires forall p | p in grants :: PairOf(grants[p].claims) == p
    ensures var cleared := Step(grants, InvalidateConversation(op.user, op.conversation));
            && (op.user, op.conversation) !in cleared
            && (forall p | p in cleared :: p in grants && cleared[p] == grants[p])
            && Step(grants, op) == cleared[(op.user, op.conversation) := Fresh(op)]
  {
  }

  // ---- The store ----

  /** `tokens` holds exactly these grants, each under its token's hash. */
  ghost predicate Represents(hash: string -> string, tokens: map<string, Grant>, grants: Grants) {
    && (forall h | h in tokens :: h == hash(tokens[h].token)
          && PairOf(tokens[h].claims) in grants && grants[PairOf(tokens[h].claims)] == tokens[h])
    && (forall p | p in grants :: PairOf(grants[p].claims) == p
          && hash(grants[p].token) in tokens && tokens[hash(grants[p].token)] == grants[p])
  }

  lemma RepresentsOne(hash: string -> string, tokens: map<string, Grant>, a: Grants, b: Grants)
    requires Represents(hash, tokens, a) && Represents(hash, tokens, b)
    ensures a == b
  {
    forall p | p in a
      ensures p in b && b[p] == a[p]
    {
    }
    forall p | p in b
      ensures p in a
    {
    }
  }

  lemma RepresentsIsUniquePerPair(hash: string -> string, tokens: map<string, Grant>, grants: Grants)
    requires Represents(hash, tokens, grants)
    ensures forall g, h | g in tokens && h in tokens && PairOf(tokens[g].claims) == PairOf(tokens[h].claims) :: g == h
  {
  }

  lemma RetainRepresents(hash: string -> string, tokens: map<string, Grant>, grants: Grants, op: Op)
    requires Represents(hash, tokens, grants) && !op.Issue?
    ensures Represents(hash, map h | h in tokens && !Revokes(op, tokens[h].claims) :: tokens[h], Step(grants, op))
  {
  }

  lemma InsertRepresents(hash: string -> string, tokens: map<string, Grant>, grants: Grants, grant: Grant)
    requires Collisionless(hash) && Represents(hash, tokens, grants)
    requires PairOf(grant.claims) !in grants && !Held(grants, grant.token)
    ensures Represents(hash, tokens[hash(grant.token) := grant], grants[PairOf(grant.claims) := grant])
  {
  }

  class RuntimeTokenService {
    const hash: string -> string
    var tokens: map<string, Grant>

    /** Entries sit under the hash of their token, and no pair has two. */
    ghost predicate Valid()
      reads this
    {
      && Collisionless(hash)
      && (forall h | h in tokens :: h == hash(tokens[h].token))
      && (forall g, h | g in tokens && h in tokens && PairOf(tokens[g].claims) == PairOf(tokens[h].claims) :: g == h)
    }

    /** The store as a map from pairs to grants. */
    ghost function Live(): (grants: Grants)
      requires Valid()
      reads this
      ensures Represents(hash, tokens, grants)
    {
      map h | h in tokens :: PairOf(tokens[h].claims) := tokens[h]
    }

    constructor (hash: string -> string)
      requires Collisionless(hash)
      ensures Valid() && Live() == map[] && this.hash == hash
    {
      this.hash := hash;
      tokens := map[];
    }

    /** The scan visits the entries in whatever order the hash map yields them. */
    method ExistingToken(user: string, conversation: string, generation: string, scopes: set<Scope>)
      returns (found: Option<Grant>)
      requires Valid()
      ensures var p := (user, conversation);
              found == if p in Live() && Live()[p].claims.generation == generation && scopes <= Live()[p].claims.scopes
                       then Some(Live()[p]) else None
    {
      var pending := tokens.Keys;
      while pending != {}
        invariant pending <= tokens.Keys
        invariant forall h | h in tokens.Keys - pending ::
                    !(PairOf(tokens[h].claims) == (user, conversation)
                      && tokens[h].claims.generation == generation && scopes <= tokens[h].claims.scopes)
        decreases pending
      {
        var h :| h in pending;
        var claims := tokens[h].claims;
        if claims.user == user && claims.conversation == conversation
           && claims.generation == generation && scopes <= claims.scopes {
          return Some(tokens[h]);
        }
        pending := pending - {h};
      }
      found := None;
    }

    /** Drop every entry whose claims `op` revokes; the three invalidations are this. */
    method Retain(op: Op)
      requires Valid() && !op.Issue?
      modifies this
      ensures Valid() && Live() == Step(old(Live()), op)
    {
      ghost var before := Live();
      RetainRepresents(hash, tokens, before, op);
      tokens := map h | h in tokens && !Revokes(op, tokens[h].claims) :: tokens[h];
      RepresentsOne(hash, tokens, Live(), Step(before, op));
    }

    method InvalidateConversation(user: string, conversation: string)
      requires Valid()
      modifies this
      ensures Valid() && Live() == Step(old(Live()), Op.InvalidateConversation(user, conversation))
    {
      Retain(Op.InvalidateConversation(user, conversation));
    }

    method InvalidateConversationId(conversation: string)
      requires Valid()
      modifies this
      ensures Valid() && Live() == Step(old(Live()), Op.InvalidateConversationId(conversation))
    {
      Retain(Op.InvalidateConversationId(conversation));
    }

    method InvalidateGeneration(conversation: string, generation: string)
      requires Valid()
      modifies this
      ensures Valid() && Live() == Step(old(Live()), Op.InvalidateGeneration(conversation, generation))
    {
      Retain(Op.InvalidateGeneration(conversation, generation));
    }

    /** `random` is the draw from the operating system, `now` the clock. */
    method Issue(user: string, conversation: string, generation: string, scopes: seq<Scope>, random: seq<Byte>,
          now: int)
      returns (issued: Grant)
      requires Valid() && |random| == 32 && !Held(Live(), Hex(random))
      modifies this
      ensures Valid()
      ensures var op := Op.Issue(user, conversation, generation, (set s | s in scopes), Hex(random), now);
              issued == Issued(old(Live()), op) && Live() == Step(old(Live()), op)
    {
      var wanted := set s | s in scopes;
      var existing := ExistingToken(user, conversation, generation, wanted);
      if existing.Some? {
        return existing.value;
      }
      var token := Hex(random);
      issued := Grant(token, Claims(user, conversation, wanted, now, generation));
      ghost var before, op := Live(), Op.Issue(user, conversation, generation, wanted, token, now);
      IssueClearsThenInserts(before, op);
      InvalidateConversation(user, conversation);
      InsertRepresents(hash, tokens, Live(), issued);
      tokens := tokens[hash(token) := issued];
      RepresentsIsUniquePerPair(hash, tokens, Step(before, op));
      RepresentsOne(hash, tokens, Live(), Step(before, op));
    }

    method Validate(raw: Option<string>, user: string, conversation: string, scope: Scope, generation: string)
      returns (result: Result<Claims, TokenError>)
      requires Valid()
      ensures result == Validated(Live(), raw, user, conversation, scope, generation)
    {
      if raw.None? || Trim(raw.value) == "" {
        return Err(Missing);
      }
      var key := hash(Trim(raw.value));
      if key !in tokens {
        return Err(Unknown);
      }
      assert Live()[PairOf(tokens[key].claims)].token == Trim(raw.value);
      result := CheckClaims(tokens[key].claims, user, conversation, scope, generation);
    }
  }
}
