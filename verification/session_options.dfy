/** The environment list handed to an agent factory (types.rs). */
module SessionOptions {
  import opened Wrappers
  import opened Capabilities

  type Env = seq<(string, string)>

  const AIONUI_USER_ID_ENV := "AIONUI_USER_ID"
  const AIONUI_CONVERSATION_ID_ENV := "AIONUI_CONVERSATION_ID"
  const AIONUI_HELPER_BIN_ENV := "AIONUI_HELPER_BIN"
  const AIONUI_BASE_URL_ENV := "AIONUI_BASE_URL"
  const AIONUI_RUNTIME_TOKEN_ENV := "AIONUI_RUNTIME_TOKEN"

  const MANAGED := {AIONUI_USER_ID_ENV, AIONUI_CONVERSATION_ID_ENV, AIONUI_HELPER_BIN_ENV,
                    AIONUI_BASE_URL_ENV, AIONUI_RUNTIME_TOKEN_ENV}

  /** The entries whose key is not in `keys`, in order. */
  function Retained(env: Env, keys: set<string>): Env {
    if env == [] then []
    else if env[0].0 in keys then Retained(env[1..], keys)
    else [env[0]] + Retained(env[1..], keys)
  }

  function Entry(key: string, value: Option<string>): Env {
    if value.Some? then [(key, value.value)] else []
  }

  datatype RuntimeContext = RuntimeContext(
    user: string, conversation: string, helper: Option<string>, baseUrl: Option<string>, token: Option<string>)
  {
    /** The managed entries this context sets, the token last. */
    function Entries(): Env {
      Entry(AIONUI_USER_ID_ENV, Some(user)) + Entry(AIONUI_CONVERSATION_ID_ENV, Some(conversation))
      + Entry(AIONUI_HELPER_BIN_ENV, helper) + Entry(AIONUI_BASE_URL_ENV, baseUrl)
      + Entry(AIONUI_RUNTIME_TOKEN_ENV, token)
    }

    function Value(key: string): Option<string> {
      if key == AIONUI_USER_ID_ENV then Some(user)
      else if key == AIONUI_CONVERSATION_ID_ENV then Some(conversation)
      else if key == AIONUI_HELPER_BIN_ENV then helper
      else if key == AIONUI_BASE_URL_ENV then baseUrl
      else if key == AIONUI_RUNTIME_TOKEN_ENV then token
      else None
    }
  }

  function Applied(env: Env, context: RuntimeContext): Env {
    Retained(env, MANAGED) + context.Entries()
  }

  function WithToken(env: Env, token: string): Env {
    Retained(env, {AIONUI_RUNTIME_TOKEN_ENV}) + [(AIONUI_RUNTIME_TOKEN_ENV, token)]
  }

  class BuildTaskOptions {
    const userId: string
    const conversationId: string
    const team: bool
    var runtimeEnv: Env
    var runtimeCapabilities: RuntimeCapabilities

    constructor (userId: string, conversationId: string, team: bool, runtimeEnv: Env)
      ensures this.userId == userId && this.conversationId == conversationId && this.team == team
      ensures this.runtimeEnv == runtimeEnv && runtimeCapabilities == RuntimeCapabilities(None)
    {
      this.userId, this.conversationId, this.team := userId, conversationId, team;
      this.runtimeEnv := runtimeEnv;
      runtimeCapabilities := RuntimeCapabilities(None);
    }

    method ApplyConversationRuntimeContext(user: string, conversation: string, helper: Option<string>,
                                           baseUrl: Option<string>, token: Option<string>)
      modifies this
      ensures runtimeEnv == Applied(old(runtimeEnv), RuntimeContext(user, conversation, helper, baseUrl, token))
      ensures runtimeCapabilities == RuntimeCapabilities(Some(2))
    {
      runtimeEnv := Retained(runtimeEnv, MANAGED);
      ghost var kept := runtimeEnv;
      runtimeEnv := runtimeEnv + [(AIONUI_USER_ID_ENV, user)];
      runtimeEnv := runtimeEnv + [(AIONUI_CONVERSATION_ID_ENV, conversation)];
      ghost var entries := [(AIONUI_USER_ID_ENV, user), (AIONUI_CONVERSATION_ID_ENV, conversation)];
      assert entries == Entry(AIONUI_USER_ID_ENV, Some(user)) + Entry(AIONUI_CONVERSATION_ID_ENV, Some(conversation));
      assert runtimeEnv == kept + entries;
      if helper.Some? {
        runtimeEnv := runtimeEnv + [(AIONUI_HELPER_BIN_ENV, helper.value)];
      }
      assert runtimeEnv == kept + (entries + Entry(AIONUI_HELPER_BIN_ENV, helper));
      entries := entries + Entry(AIONUI_HELPER_BIN_ENV, helper);
      if baseUrl.Some? {
        runtimeEnv := runtimeEnv + [(AIONUI_BASE_URL_ENV, baseUrl.value)];
      }
      assert runtimeEnv == kept + (entries + Entry(AIONUI_BASE_URL_ENV, baseUrl));
      entries := entries + Entry(AIONUI_BASE_URL_ENV, baseUrl);
      if token.Some? {
        runtimeEnv := runtimeEnv + [(AIONUI_RUNTIME_TOKEN_ENV, token.value)];
      }
      assert runtimeEnv == kept + (entries + Entry(AIONUI_RUNTIME_TOKEN_ENV, token));
      runtimeCapabilities := RuntimeCapabilities(Some(CONVERSATION_RUNTIME_CONTEXT_VERSION));
    }

    /** The environment half of the task manager's token refresh. */
    method ReplaceToken(token: string)
      modifies this`runtimeEnv
      ensures runtimeEnv == WithToken(old(runtimeEnv), token)
    {
      runtimeEnv := Retained(runtimeEnv, {AIONUI_RUNTIME_TOKEN_ENV});
      runtimeEnv := runtimeEnv + [(AIONUI_RUNTIME_TOKEN_ENV, token)];
    }
  }

  // ---- The algebra of the list ----

  /** The values listed for a key, in order. */
  function Values(env: Env, key: string): seq<string> {
    if env == [] then []
    else (if env[0].0 == key then [env[0].1] else []) + Values(env[1..], key)
  }

  lemma ManagedKeysDiffer()
    ensures |AIONUI_USER_ID_ENV| == 14 && |AIONUI_CONVERSATION_ID_ENV| == 22 && |AIONUI_HELPER_BIN_ENV| == 17
    ensures |AIONUI_BASE_URL_ENV| == 15 && |AIONUI_RUNTIME_TOKEN_ENV| == 20
  {
  }

  lemma {:induction false} RetainedAppend(a: Env, b: Env, keys: set<string>)
    ensures Retained(a + b, keys) == Retained(a, keys) + Retained(b, keys)
  {
    if a == [] {
      assert a + b == b;
    } else {
      assert (a + b)[1..] == a[1..] + b;
      RetainedAppend(a[1..], b, keys);
    }
  }

  lemma {:induction false} RetainedTwice(env: Env, first: set<string>, second: set<string>)
    ensures Retained(Retained(env, first), second) == Retained(env, first + second)
  {
    if env == [] {
    } else {
      RetainedTwice(env[1..], first, second);
    }
  }

  lemma {:induction false} ValuesAppend(a: Env, b: Env, key: string)
    ensures Values(a + b, key) == Values(a, key) + Values(b, key)
  {
    if a == [] {
      assert a + b == b;
    } else {
      assert (a + b)[1..] == a[1..] + b;
      ValuesAppend(a[1..], b, key);
    }
  }

  lemma {:induction false} RetainedHasNone(env: Env, keys: set<string>, key: string)
    requires key in keys
    ensures Values(Retained(env, keys), key) == []
  {
    if env == [] {
    } else {
      RetainedHasNone(env[1..], keys, key);
    }
  }

  lemma EntryValues(key: string, value: Option<string>, other: string)
    ensures Values(Entry(key, value), other) == if key == other && value.Some? then [value.value] else []
  {
  }

  lemma EntriesRetained(context: RuntimeContext, keys: set<string>)
    ensures MANAGED <= keys ==> Retained(context.Entries(), keys) == []
    ensures keys == {AIONUI_RUNTIME_TOKEN_ENV} ==>
              Retained(context.Entries(), keys) == context.(token := None).Entries()
  {
    ManagedKeysDiffer();
    var u := Entry(AIONUI_USER_ID_ENV, Some(context.user));
    var c := Entry(AIONUI_CONVERSATION_ID_ENV, Some(context.conversation));
    var h, b := Entry(AIONUI_HELPER_BIN_ENV, context.helper), Entry(AIONUI_BASE_URL_ENV, context.baseUrl);
    var t := Entry(AIONUI_RUNTIME_TOKEN_ENV, context.token);
    RetainedAppend(u + c + h + b, t, keys);
    RetainedAppend(u + c + h, b, keys);
    RetainedAppend(u + c, h, keys);
    RetainedAppend(u, c, keys);
  }

  lemma EntriesValues(context: RuntimeContext, key: string)
    ensures Values(context.Entries(), key) == if context.Value(key).Some? then [context.Value(key).value] else []
  {
    var u := Entry(AIONUI_USER_ID_ENV, Some(context.user));
    var c := Entry(AIONUI_CONVERSATION_ID_ENV, Some(context.conversation));
    var h, b := Entry(AIONUI_HELPER_BIN_ENV, context.helper), Entry(AIONUI_BASE_URL_ENV, context.baseUrl);
    var t := Entry(AIONUI_RUNTIME_TOKEN_ENV, context.token);
    calc {
      Values(context.Entries(), key);
      { ValuesAppend(u + c + h + b, t, key); }
      Values(u + c + h + b, key) + Values(t, key);
      { ValuesAppend(u + c + h, b, key); }
      Values(u + c + h, key) + Values(b, key) + Values(t, key);
      { ValuesAppend(u + c, h, key); ValuesAppend(u, c, key); }
      Values(u, key) + Values(c, key) + Values(h, key) + Values(b, key) + Values(t, key);
    }
    EntryValues(AIONUI_USER_ID_ENV, Some(context.user), key);
    EntryValues(AIONUI_CONVERSATION_ID_ENV, Some(context.conversation), key);
    EntryValues(AIONUI_HELPER_BIN_ENV, context.helper, key);
    EntryValues(AIONUI_BASE_URL_ENV, context.baseUrl, key);
    EntryValues(AIONUI_RUNTIME_TOKEN_ENV, context.token, key);
    ManagedKeysDiffer();
  }

  /** Only the last context counts; with the same context twice this is idempotence. */
  lemma LastContextWins(env: Env, first: RuntimeContext, second: RuntimeContext)
    ensures Applied(Applied(env, first), second) == Applied(env, second)
  {
    ForeignEntriesStay(env, first);
  }

  /** Entries under other keys keep their values and their order. */
  lemma ForeignEntriesStay(env: Env, context: RuntimeContext)
    ensures Retained(Applied(env, context), MANAGED) == Retained(env, MANAGED)
  {
    RetainedAppend(Retained(env, MANAGED), context.Entries(), MANAGED);
    RetainedTwice(env, MANAGED, MANAGED);
    EntriesRetained(context, MANAGED);
    assert MANAGED + MANAGED == MANAGED;
  }

  lemma {:induction false} RetainedValues(env: Env, keys: set<string>, key: string)
    requires key !in keys
    ensures Values(Retained(env, keys), key) == Values(env, key)
  {
    if env == [] {
    } else {
      RetainedValues(env[1..], keys, key);
    }
  }

  lemma ForeignHasNoValue(context: RuntimeContext, key: string)
    requires key !in MANAGED
    ensures context.Value(key).None?
  {
    assert key != AIONUI_USER_ID_ENV && key != AIONUI_CONVERSATION_ID_ENV && key != AIONUI_HELPER_BIN_ENV;
    assert key != AIONUI_BASE_URL_ENV && key != AIONUI_RUNTIME_TOKEN_ENV;
  }

  lemma ForeignHasNoEntry(context: RuntimeContext, key: string)
    requires key !in MANAGED
    ensures Values(context.Entries(), key) == []
  {
    ForeignHasNoValue(context, key);
    EntriesValues(context, key);
  }

  /** A foreign key keeps its values, in their order. */
  lemma ForeignValuesStay(env: Env, context: RuntimeContext, key: string)
    requires key !in MANAGED
    ensures Values(Applied(env, context), key) == Values(env, key)
  {
    ValuesAppend(Retained(env, MANAGED), context.Entries(), key);
    RetainedValues(env, MANAGED, key);
    ForeignHasNoEntry(context, key);
  }

  /** Places of a list, from left to right. */
  ghost predicate Ascending(at: seq<nat>) {
    forall j, k | 0 <= j < k < |at| :: at[j] < at[k]
  }

  /** `kept` are the entries of `env` outside `keys`, taken from the places `at`. */
  ghost predicate KeptFrom(env: Env, keys: set<string>, kept: Env, at: seq<nat>) {
    && Ascending(at) && |at| == |kept|
    && (forall k | 0 <= k < |at| :: at[k] < |env| && env[at[k]].0 !in keys && kept[k] == env[at[k]])
    && (forall p: nat | p < |env| && env[p].0 !in keys :: p in at)
  }

  lemma KeptAppend(env: Env, last: (string, string), keys: set<string>, kept: Env, at: seq<nat>)
    requires KeptFrom(env, keys, kept, at)
    ensures last.0 in keys ==> KeptFrom(env + [last], keys, kept, at)
    ensures last.0 !in keys ==> KeptFrom(env + [last], keys, kept + [last], at + [|env|])
  {
  }

  lemma {:induction false} RetainedPlaces(env: Env, keys: set<string>) returns (at: seq<nat>)
    ensures KeptFrom(env, keys, Retained(env, keys), at)
  {
    if env == [] {
      at := [];
    } else {
      var before, last := env[..|env| - 1], env[|env| - 1];
      at := RetainedPlaces(before, keys);
      KeptAppend(before, last, keys, Retained(before, keys), at);
      RetainedAppend(before, [last], keys);
      assert env == before + [last];
      if last.0 !in keys {
        at := at + [|before|];
      }
    }
  }

  /** The foreign entries of the list come first, all of them and in their order; after them come
    * managed entries only. */
  lemma ForeignEntriesComeFirst(env: Env, context: RuntimeContext) returns (at: seq<nat>)
    ensures Ascending(at) && |at| <= |Applied(env, context)|
    ensures forall k | 0 <= k < |at| ::
              at[k] < |env| && env[at[k]].0 !in MANAGED && Applied(env, context)[k] == env[at[k]]
    ensures forall p: nat | p < |env| && env[p].0 !in MANAGED :: p in at
    ensures forall k | |at| <= k < |Applied(env, context)| :: Applied(env, context)[k].0 in MANAGED
  {
    at := RetainedPlaces(env, MANAGED);
  }

  /** The refresh leaves every entry but the tokens, in their order, and puts the token last. */
  lemma RefreshKeepsOtherEntries(env: Env, token: string) returns (at: seq<nat>)
    ensures Ascending(at) && |WithToken(env, token)| == |at| + 1
    ensures forall k | 0 <= k < |at| ::
              at[k] < |env| && env[at[k]].0 != "AIONUI_RUNTIME_TOKEN" && WithToken(env, token)[k] == env[at[k]]
    ensures forall p: nat | p < |env| && env[p].0 != "AIONUI_RUNTIME_TOKEN" :: p in at
    ensures WithToken(env, token)[|at|] == ("AIONUI_RUNTIME_TOKEN", token)
    ensures forall key | key != "AIONUI_RUNTIME_TOKEN" :: Values(WithToken(env, token), key) == Values(env, key)
  {
    var keys := {AIONUI_RUNTIME_TOKEN_ENV};
    at := RetainedPlaces(env, keys);
    forall key | key != "AIONUI_RUNTIME_TOKEN"
      ensures Values(WithToken(env, token), key) == Values(env, key)
    {
      ValuesAppend(Retained(env, keys), [(AIONUI_RUNTIME_TOKEN_ENV, token)], key);
      RetainedValues(env, keys, key);
    }
  }

  /** The variables the factory's process will see. */
  lemma ContextSetsVariables(env: Env, context: RuntimeContext)
    ensures Values(Applied(env, context), "AIONUI_USER_ID") == [context.user]
    ensures Values(Applied(env, context), "AIONUI_CONVERSATION_ID") == [context.conversation]
    ensures Values(Applied(env, context), "AIONUI_HELPER_BIN")
         == if context.helper.Some? then [context.helper.value] else []
    ensures Values(Applied(env, context), "AIONUI_BASE_URL")
         == if context.baseUrl.Some? then [context.baseUrl.value] else []
    ensures Values(Applied(env, context), "AIONUI_RUNTIME_TOKEN")
         == if context.token.Some? then [context.token.value] else []
  {
    ManagedKeysDiffer();
    ManagedKeysAreListedOnce(env, context, AIONUI_USER_ID_ENV);
    ManagedKeysAreListedOnce(env, context, AIONUI_CONVERSATION_ID_ENV);
    ManagedKeysAreListedOnce(env, context, AIONUI_HELPER_BIN_ENV);
    ManagedKeysAreListedOnce(env, context, AIONUI_BASE_URL_ENV);
    ManagedKeysAreListedOnce(env, context, AIONUI_RUNTIME_TOKEN_ENV);
  }

  /** Each managed key is listed once if the context has a value for it, and else not at all. */
  lemma ManagedKeysAreListedOnce(env: Env, context: RuntimeContext, key: string)
    requires key in MANAGED
    ensures Values(Applied(env, context), key) == if context.Value(key).Some? then [context.Value(key).value] else []
  {
    ValuesAppend(Retained(env, MANAGED), context.Entries(), key);
    RetainedHasNone(env, MANAGED, key);
    EntriesValues(context, key);
  }

  /** Refreshing the token gives the list the context with the new token would have given,
    * whatever token was there before. */
  lemma RefreshIsReapplying(env: Env, context: RuntimeContext, token: string)
    ensures WithToken(Applied(env, context), token) == Applied(env, context.(token := Some(token)))
  {
    var keys := {AIONUI_RUNTIME_TOKEN_ENV};
    RetainedAppend(Retained(env, MANAGED), context.Entries(), keys);
    RetainedTwice(env, MANAGED, keys);
    assert MANAGED + keys == MANAGED;
    EntriesRetained(context, keys);
    assert context.(token := Some(token)).Entries()
           == context.(token := None).Entries() + [(AIONUI_RUNTIME_TOKEN_ENV, token)];
  }

  /** After a refresh the list has exactly one token entry, the new one. */
  lemma RefreshLeavesOneToken(env: Env, token: string)
    ensures Values(WithToken(env, token), AIONUI_RUNTIME_TOKEN_ENV) == [token]
    ensures Retained(WithToken(env, token), {AIONUI_RUNTIME_TOKEN_ENV}) == Retained(env, {AIONUI_RUNTIME_TOKEN_ENV})
  {
    var keys, added := {AIONUI_RUNTIME_TOKEN_ENV}, Entry(AIONUI_RUNTIME_TOKEN_ENV, Some(token));
    ValuesAppend(Retained(env, keys), added, AIONUI_RUNTIME_TOKEN_ENV);
    RetainedHasNone(env, keys, AIONUI_RUNTIME_TOKEN_ENV);
    RetainedAppend(Retained(env, keys), added, keys);
    RetainedTwice(env, keys, keys);
    assert keys + keys == keys;
  }
}
