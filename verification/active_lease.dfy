/** The foreground leases of active_lease.rs: a lookup drops a lease it finds expired. */
module ActiveLeases {
  import opened Wrappers

  const ACTIVE_LEASE_TTL_MS := 90_000
  const I64_MAX := 0x7fff_ffff_ffff_ffff
  const I64_MIN := -0x8000_0000_0000_0000

  type Millis = t: int | I64_MIN <= t <= I64_MAX witness 0

  function Saturate(t: int): Millis {
    if t > I64_MAX then I64_MAX else if t < I64_MIN then I64_MIN else t
  }

  /** Saturation keeps what a signed 64-bit integer can hold and stops at its ends. */
  lemma SaturateClamps(t: int)
    ensures -9_223_372_036_854_775_808 <= t <= 9_223_372_036_854_775_807 ==> Saturate(t) == t
    ensures t > 9_223_372_036_854_775_807 ==> Saturate(t) == 9_223_372_036_854_775_807
    ensures t < -9_223_372_036_854_775_808 ==> Saturate(t) == -9_223_372_036_854_775_808
  {
  }

  type Leases = map<string, Millis>

  /** One operation and the clock reading it makes. */
  datatype Op =
    | Renew(ids: seq<string>, at: Millis)   // renew and renew_many
    | Lookup(id: string, at: Millis)

  /** The operation on the lease map. */
  function Step(leases: Leases, ttl: Millis, op: Op): Leases {
    match op
    case Renew(ids, at) => Inserted(leases, ids, Saturate(at + ttl))
    case Lookup(id, at) => if id in leases && leases[id] <= at then leases - {id} else leases
  }

  function Inserted(leases: Leases, ids: seq<string>, expires: Millis): Leases {
    if ids == [] then leases
    else Inserted(leases, ids[..|ids| - 1], expires)[ids[|ids| - 1] := expires]
  }

  lemma {:induction false} InsertedMaps(leases: Leases, ids: seq<string>, expires: Millis)
    ensures forall id :: id in Inserted(leases, ids, expires) <==> id in leases || id in ids
    ensures forall id | id in Inserted(leases, ids, expires) ::
              Inserted(leases, ids, expires)[id] == if id in ids then expires else leases[id]
  {
    if ids == [] {
    } else {
      InsertedMaps(leases, ids[..|ids| - 1], expires);
      assert ids == ids[..|ids| - 1] + [ids[|ids| - 1]];
    }
  }

  lemma InsertedOne(leases: Leases, id: string, expires: Millis)
    ensures Inserted(leases, [id], expires) == leases[id := expires]
  {
    assert [id][..0] == [];
    assert Inserted(leases, [id][..0], expires) == leases;
  }

  /** What a lookup at time `at` answers. */
  function Answer(leases: Leases, id: string, at: Millis): Option<Millis> {
    if id in leases && leases[id] > at then Some(leases[id]) else None
  }

  class ActiveLeaseRegistry {
    var leases: Leases
    const ttl: Millis

    constructor Default()
      ensures leases == map[] && ttl == 90_000
    {
      leases := map[];
      ttl := ACTIVE_LEASE_TTL_MS;
    }

    constructor (ttl: Millis)
      ensures leases == map[] && this.ttl == ttl
    {
      leases := map[];
      this.ttl := ttl;
    }

    method Renew(id: string, now: Millis) returns (expires: Millis)
      modifies this
      ensures expires == Saturate(now + ttl) && leases == Step(old(leases), ttl, Op.Renew([id], now))
    {
      expires := Saturate(now + ttl);
      InsertedOne(leases, id, expires);
      leases := leases[id := expires];
    }

    method RenewMany(ids: seq<string>, now: Millis) returns (count: nat, expires: Millis)
      modifies this
      ensures count == |ids| && expires == Saturate(now + ttl)
      ensures leases == Step(old(leases), ttl, Op.Renew(ids, now))
    {
      expires := Saturate(now + ttl);
      count := 0;
      while count < |ids|
        invariant count <= |ids|
        invariant leases == Inserted(old(leases), ids[..count], expires)
      {
        assert ids[..count + 1][..count] == ids[..count];
        leases := leases[ids[count] := expires];
        count := count + 1;
      }
      assert ids[..count] == ids;
    }

    method ActiveUntil(id: string, now: Millis) returns (until: Option<Millis>)
      modifies this
      ensures until == Answer(old(leases), id, now) && leases == Step(old(leases), ttl, Lookup(id, now))
    {
      if id !in leases {
        return None;
      }
      var expires := leases[id];
      if expires > now {
        until := Some(expires);
      } else {
        leases := leases - {id};
        until := None;
      }
    }

    method IsActive(id: string, now: Millis) returns (active: bool)
      modifies this
      ensures active == Answer(old(leases), id, now).Some? && leases == Step(old(leases), ttl, Lookup(id, now))
    {
      var until := ActiveUntil(id, now);
      active := until.Some?;
    }
  }

  // ---- Lazy expiry cannot be seen ----

  function Run(ops: seq<Op>, ttl: Millis): Leases {
    if ops == [] then map[] else Step(Run(ops[..|ops| - 1], ttl), ttl, ops[|ops| - 1])
  }

  /** The expiry the last renewal of `id` promised; lookups do not matter. */
  function LastRenewal(ops: seq<Op>, ttl: Millis, id: string): Option<Millis> {
    if ops == [] then None
    else
      var last := ops[|ops| - 1];
      if last.Renew? && id in last.ids then Some(Saturate(last.at + ttl))
      else LastRenewal(ops[..|ops| - 1], ttl, id)
  }

  /** What a lookup at `now` should answer: the last renewal's expiry, if it lies ahead. */
  function Promise(ops: seq<Op>, ttl: Millis, id: string, now: Millis): Option<Millis> {
    var renewal := LastRenewal(ops, ttl, id);
    if renewal.Some? && renewal.value > now then renewal else None
  }

  /** The lookup at place `k` read a clock at or past `expires`, and `id` was not renewed after. */
  predicate FoundExpired(ops: seq<Op>, id: string, expires: Millis, k: nat) {
    && k < |ops| && ops[k].Lookup? && ops[k].id == id && ops[k].at >= expires
    && forall j | k < j < |ops| :: !(ops[j].Renew? && id in ops[j].ids)
  }

  /** A lookup of `id` since its last renewal found the lease expired. */
  predicate SeenExpired(ops: seq<Op>, ttl: Millis, id: string) {
    var renewal := LastRenewal(ops, ttl, id);
    renewal.Some? && exists k: nat | k < |ops| :: FoundExpired(ops, id, renewal.value, k)
  }

  lemma SeenExpiredNext(ops: seq<Op>, ttl: Millis, id: string)
    requires ops != []
    ensures var before, last, renewal := ops[..|ops| - 1], ops[|ops| - 1], LastRenewal(ops[..|ops| - 1], ttl, id);
            SeenExpired(ops, ttl, id) <==>
              !(last.Renew? && id in last.ids)
              && (SeenExpired(before, ttl, id)
                  || (renewal.Some? && last.Lookup? && last.id == id && last.at >= renewal.value))
  {
    var n := |ops| - 1;
    var before, last, renewal := ops[..n], ops[n], LastRenewal(ops[..n], ttl, id);
    var renewed := last.Renew? && id in last.ids;
    assert !renewed ==> LastRenewal(ops, ttl, id) == renewal;
    if SeenExpired(ops, ttl, id) {
      var k: nat :| k < |ops| && FoundExpired(ops, id, LastRenewal(ops, ttl, id).value, k);
      if k < n {
        assert !renewed;
        FoundInPrefix(ops, id, renewal.value, k);
      }
    }
    if SeenExpired(before, ttl, id) && !renewed {
      var k: nat :| k < n && FoundExpired(before, id, renewal.value, k);
      FoundInPrefix(ops, id, renewal.value, k);
      assert SeenExpired(ops, ttl, id);
    }
    if renewal.Some? && last.Lookup? && last.id == id && last.at >= renewal.value {
      assert FoundExpired(ops, id, renewal.value, n);
      assert SeenExpired(ops, ttl, id);
    }
  }

  lemma FoundInPrefix(ops: seq<Op>, id: string, expires: Millis, k: nat)
    requires k < |ops| - 1 && !(ops[|ops| - 1].Renew? && id in ops[|ops| - 1].ids)
    ensures FoundExpired(ops, id, expires, k) <==> FoundExpired(ops[..|ops| - 1], id, expires, k)
  {
    assert forall j | k < j < |ops| - 1 :: ops[j] == ops[..|ops| - 1][j];
  }

  /** What is stored is the last renewal, unless a lookup since has found it expired. */
  lemma {:induction false} StoredIsLastRenewal(ops: seq<Op>, ttl: Millis, id: string)
    ensures id in Run(ops, ttl) <==> LastRenewal(ops, ttl, id).Some? && !SeenExpired(ops, ttl, id)
    ensures id in Run(ops, ttl) ==> LastRenewal(ops, ttl, id) == Some(Run(ops, ttl)[id])
    decreases |ops|
  {
    if ops == [] {
    } else {
      var before, last := ops[..|ops| - 1], ops[|ops| - 1];
      StoredIsLastRenewal(before, ttl, id);
      SeenExpiredNext(ops, ttl, id);
      if last.Renew? {
        InsertedMaps(Run(before, ttl), last.ids, Saturate(last.at + ttl));
      }
    }
  }

  /** A lookup answers otherwise than the last renewal promised exactly if an earlier lookup since
    * then read a clock at or past the expiry and this one reads a clock before it. */
  lemma ExpiryShowsExactly(ops: seq<Op>, ttl: Millis, id: string, now: Millis)
    ensures Answer(Run(ops, ttl), id, now) != Promise(ops, ttl, id, now) <==>
              SeenExpired(ops, ttl, id) && now < LastRenewal(ops, ttl, id).value
  {
    StoredIsLastRenewal(ops, ttl, id);
  }

  ghost predicate ClockNeverGoesBack(ops: seq<Op>, now: Millis) {
    && (forall j, k | 0 <= j < k < |ops| :: ops[j].at <= ops[k].at)
    && (forall k | 0 <= k < |ops| :: ops[k].at <= now)
  }

  /** Under a clock that never goes back the removals done by lookups are invisible. */
  lemma LazyExpiryIsInvisible(ops: seq<Op>, ttl: Millis, id: string, now: Millis)
    requires ClockNeverGoesBack(ops, now)
    ensures Answer(Run(ops, ttl), id, now) == Promise(ops, ttl, id, now)
  {
    ExpiryShowsExactly(ops, ttl, id, now);
  }

  /** With a clock that goes back, an earlier lookup can be seen. */
  lemma ClockGoingBackShowsExpiry()
    ensures var ops := [Op.Renew(["c"], 0), Lookup("c", 10)];
            Promise(ops, 5, "c", 1) == Some(5) && Answer(Run(ops, 5), "c", 1) == None
  {
    var first, second := Op.Renew(["c"], 0), Lookup("c", 10);
    assert [first, second][..1] == [first] && [first][..0] == [];
    InsertedOne(map[], "c", 5);
    assert Run([first], 5) == map["c" := 5];
    assert LastRenewal([first], 5, "c") == Some(5);
  }
}
