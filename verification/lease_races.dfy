/** Lease lookups in their two separate accesses to the map, interleaved with everything else. */
module LeaseRaces {
  import opened ActiveLeases
  import opened Wrappers

  /** `Read` is the first access of a lookup and `Remove` the second: it names the place of its
    * read in the run, and happens only if that read found the lease expired. */
  datatype Event =
    | Renewed(ids: seq<string>, at: Millis)
    | Read(id: string, at: Millis)
    | Remove(read: nat)

  /** `doomed` holds the reads that found an expired lease and have not removed it yet. */
  datatype State = State(leases: Leases, doomed: set<nat>)

  function After(events: seq<Event>, ttl: Millis): State {
    if events == [] then State(map[], {})
    else
      var n := |events| - 1;
      var st := After(events[..n], ttl);
      match events[n]
      case Renewed(ids, at) => st.(leases := Inserted(st.leases, ids, Saturate(at + ttl)))
      case Read(id, at) =>
        if id in st.leases && st.leases[id] <= at then st.(doomed := st.doomed + {n}) else st
      case Remove(read) =>
        if read in st.doomed && read < n && events[read].Read?
        then State(st.leases - {events[read].id}, st.doomed - {read})
        else st
  }

  /** With nothing in between, a read and its removal are the lookup taken as one act; a renewal is
    * one act anyway. */
  lemma ReadThenRemoveIsLookup(events: seq<Event>, ttl: Millis, id: string, at: Millis)
    ensures After(events + [Read(id, at), Remove(|events|)], ttl).leases
         == Step(After(events, ttl).leases, ttl, Lookup(id, at))
    ensures After(events + [Read(id, at)], ttl).leases == After(events, ttl).leases
  {
    var all := events + [Read(id, at), Remove(|events|)];
    assert all[..|events| + 1] == events + [Read(id, at)];
    assert (events + [Read(id, at)])[..|events|] == events;
    NothingDoomedYet(events, ttl, |events|);
  }

  lemma {:induction false} NothingDoomedYet(events: seq<Event>, ttl: Millis, r: nat)
    requires r >= |events|
    ensures r !in After(events, ttl).doomed
  {
    if events == [] {
    } else {
      NothingDoomedYet(events[..|events| - 1], ttl, r);
    }
  }

  lemma RenewedIsRenewal(events: seq<Event>, ttl: Millis, ids: seq<string>, at: Millis)
    ensures After(events + [Renewed(ids, at)], ttl).leases == Step(After(events, ttl).leases, ttl, Op.Renew(ids, at))
  {
    assert (events + [Renewed(ids, at)])[..|events|] == events;
  }

  predicate Renews(event: Event, id: string) {
    event.Renewed? && id in event.ids
  }

  /** The place of the last renewal of `id`. */
  function LastRenewalAt(events: seq<Event>, id: string): (m: Option<nat>)
    ensures m.Some? ==> m.value < |events| && Renews(events[m.value], id)
  {
    if events == [] then None
    else if Renews(events[|events| - 1], id) then Some(|events| - 1)
    else LastRenewalAt(events[..|events| - 1], id)
  }

  function Expiry(events: seq<Event>, ttl: Millis, id: string): Option<Millis> {
    match LastRenewalAt(events, id)
    case Some(m) => Some(Saturate(events[m].at + ttl))
    case None => None
  }

  /** At place `k`, after the last renewal of `id`, a lookup of `id` removes the lease. */
  predicate RemovesAt(events: seq<Event>, ttl: Millis, id: string, k: nat) {
    && k < |events| && events[k].Remove? && events[k].read < k
    && events[k].read in After(events[..k], ttl).doomed
    && events[events[k].read].Read? && events[events[k].read].id == id
    && LastRenewalAt(events, id).Some? && LastRenewalAt(events, id).value < k
  }

  predicate WasRemoved(events: seq<Event>, ttl: Millis, id: string) {
    exists k: nat | k < |events| :: RemovesAt(events, ttl, id, k)
  }

  lemma RemovesInPrefix(events: seq<Event>, ttl: Millis, id: string, k: nat)
    requires k < |events| - 1 && !Renews(events[|events| - 1], id)
    ensures RemovesAt(events, ttl, id, k) <==> RemovesAt(events[..|events| - 1], ttl, id, k)
  {
    assert events[..|events| - 1][..k] == events[..k];
  }

  lemma WasRemovedNext(events: seq<Event>, ttl: Millis, id: string)
    requires events != []
    ensures WasRemoved(events, ttl, id) <==>
              !Renews(events[|events| - 1], id)
              && (WasRemoved(events[..|events| - 1], ttl, id) || RemovesAt(events, ttl, id, |events| - 1))
  {
    var n := |events| - 1;
    if WasRemoved(events, ttl, id) {
      var k: nat :| k < |events| && RemovesAt(events, ttl, id, k);
      if k < n {
        assert LastRenewalAt(events, id).value != n;
        RemovesInPrefix(events, ttl, id, k);
      }
    }
    if WasRemoved(events[..n], ttl, id) && !Renews(events[n], id) {
      var k: nat :| k < n && RemovesAt(events[..n], ttl, id, k);
      RemovesInPrefix(events, ttl, id, k);
      assert WasRemoved(events, ttl, id);
    }
  }

  /** What one event does to the lease of `id`. */
  lemma LeaseNext(events: seq<Event>, ttl: Millis, id: string)
    requires events != []
    requires id in After(events[..|events| - 1], ttl).leases ==> LastRenewalAt(events[..|events| - 1], id).Some?
    ensures var before, leases := After(events[..|events| - 1], ttl).leases, After(events, ttl).leases;
            var n := |events| - 1;
            && (id in leases <==> Renews(events[n], id) || (id in before && !RemovesAt(events, ttl, id, n)))
            && (id in leases ==>
                  leases[id] == if Renews(events[n], id) then Saturate(events[n].at + ttl) else before[id])
  {
    var n := |events| - 1;
    var last := events[n];
    if last.Renewed? {
      InsertedMaps(After(events[..n], ttl).leases, last.ids, Saturate(last.at + ttl));
    } else {
      assert LastRenewalAt(events, id) == LastRenewalAt(events[..n], id);
    }
  }

  /** What is stored is the last renewal, unless a lookup has removed it since. */
  lemma {:induction false} StoredUnlessRemoved(events: seq<Event>, ttl: Millis, id: string)
    ensures var leases := After(events, ttl).leases;
            && (id in leases <==> Expiry(events, ttl, id).Some? && !WasRemoved(events, ttl, id))
            && (id in leases ==> Expiry(events, ttl, id) == Some(leases[id]))
    decreases |events|
  {
    if events == [] {
    } else {
      StoredUnlessRemoved(events[..|events| - 1], ttl, id);
      WasRemovedNext(events, ttl, id);
      LeaseNext(events, ttl, id);
    }
  }

  predicate Timed(event: Event) {
    event.Renewed? || event.Read?
  }

  ghost predicate ClockGoesForward(events: seq<Event>, now: Millis) {
    && (forall j, k | 0 <= j < k < |events| && Timed(events[j]) && Timed(events[k]) :: events[j].at <= events[k].at)
    && (forall k | 0 <= k < |events| && Timed(events[k]) :: events[k].at <= now)
  }

  /** A doomed read that came after the last renewal read a clock at or past its expiry. */
  lemma {:induction false} LateReadMeansExpired(events: seq<Event>, ttl: Millis, id: string, r: nat)
    requires r in After(events, ttl).doomed
    ensures r < |events| && events[r].Read?
    ensures events[r].id == id && LastRenewalAt(events, id).Some? && LastRenewalAt(events, id).value < r ==>
              Expiry(events, ttl, id).value <= events[r].at
    decreases |events|
  {
    var n := |events| - 1;
    if r in After(events[..n], ttl).doomed {
      LateReadMeansExpired(events[..n], ttl, id, r);
    } else {
      StoredUnlessRemoved(events[..n], ttl, id);
    }
  }

  /** A lookup that read before the last renewal of `id` removes that renewal's lease. */
  predicate RenewalLost(events: seq<Event>, ttl: Millis, id: string) {
    exists k: nat | k < |events| ::
      RemovesAt(events, ttl, id, k) && events[k].read < LastRenewalAt(events, id).value
  }

  lemma LateRemovalMeansExpired(events: seq<Event>, ttl: Millis, id: string, k: nat)
    requires RemovesAt(events, ttl, id, k) && LastRenewalAt(events, id).value <= events[k].read
    ensures Expiry(events, ttl, id).value <= events[events[k].read].at
  {
    LateReadMeansExpired(events[..k], ttl, id, events[k].read);
    SameLastRenewal(events, id, k);
  }

  lemma {:induction false} SameLastRenewal(events: seq<Event>, id: string, k: nat)
    requires k <= |events| && LastRenewalAt(events, id).Some? && LastRenewalAt(events, id).value < k
    ensures LastRenewalAt(events[..k], id) == LastRenewalAt(events, id)
    decreases |events|
  {
    if k == |events| {
      assert events[..k] == events;
    } else {
      var n := |events| - 1;
      assert events[..n][..k] == events[..k];
      SameLastRenewal(events[..n], id, k);
    }
  }

  /** Under a clock that never goes back a lookup answers otherwise than the last renewal promised
    * exactly if that renewal's lease was removed by a lookup whose read came before it, and the
    * expiry still lies ahead. */
  lemma RenewalLostExactly(events: seq<Event>, ttl: Millis, id: string, now: Millis)
    requires ClockGoesForward(events, now)
    ensures var expiry := Expiry(events, ttl, id);
            var promise := if expiry.Some? && expiry.value > now then expiry else None;
            Answer(After(events, ttl).leases, id, now) != promise <==>
              RenewalLost(events, ttl, id) && expiry.value > now
  {
    StoredUnlessRemoved(events, ttl, id);
    if WasRemoved(events, ttl, id) && Expiry(events, ttl, id).value > now {
      var k: nat :| k < |events| && RemovesAt(events, ttl, id, k);
      if LastRenewalAt(events, id).value <= events[k].read {
        LateRemovalMeansExpired(events, ttl, id, k);
        assert Timed(events[events[k].read]);
      }
    }
  }

  // ---- Told at the renewal ----

  /** Some run goes on from `before` and this renewal without renewing `id` again, and a lookup
    * before the promised expiry then answers otherwise. */
  ghost predicate CanBeLost(before: seq<Event>, ids: seq<string>, at: Millis, ttl: Millis, id: string) {
    exists more, now :: IsLost(before, ids, at, ttl, id, more, now)
  }

  ghost predicate IsLost(before: seq<Event>, ids: seq<string>, at: Millis, ttl: Millis, id: string,
                         more: seq<Event>, now: Millis) {
    var events := before + [Renewed(ids, at)] + more;
    && (forall k | 0 <= k < |more| :: !Renews(more[k], id))
    && ClockGoesForward(events, now) && now < Saturate(at + ttl)
    && Answer(After(events, ttl).leases, id, now) != Some(Saturate(at + ttl))
  }

  /** A lookup of `id` has found the lease expired and not removed it yet. */
  ghost predicate LookupUnderWay(before: seq<Event>, ttl: Millis, id: string, d: nat) {
    d < |before| && d in After(before, ttl).doomed && before[d].Read? && before[d].id == id
  }

  lemma {:induction false} LastOfThese(before: seq<Event>, ids: seq<string>, at: Millis, id: string, more: seq<Event>)
    requires id in ids && forall k | 0 <= k < |more| :: !Renews(more[k], id)
    ensures LastRenewalAt(before + [Renewed(ids, at)] + more, id) == Some(|before|)
    decreases |more|
  {
    var events := before + [Renewed(ids, at)] + more;
    if more == [] {
      assert events == before + [Renewed(ids, at)];
    } else {
      var fewer := more[..|more| - 1];
      LastOfThese(before, ids, at, id, fewer);
      assert events[..|events| - 1] == before + [Renewed(ids, at)] + fewer;
      assert events[|events| - 1] == more[|more| - 1];
    }
  }

  /** A doomed read was doomed as soon as it had been made. */
  lemma {:induction false} DoomedBefore(events: seq<Event>, ttl: Millis, d: nat, n: nat)
    requires d in After(events, ttl).doomed && d < n <= |events|
    ensures d in After(events[..n], ttl).doomed
    decreases |events|
  {
    if n == |events| {
      assert events[..n] == events;
    } else {
      DoomedBefore(events[..|events| - 1], ttl, d, n);
      assert events[..|events| - 1][..n] == events[..n];
    }
  }

  lemma LostReadWasUnderWay(events: seq<Event>, ttl: Millis, id: string) returns (d: nat)
    requires RenewalLost(events, ttl, id)
    ensures LookupUnderWay(events[..LastRenewalAt(events, id).value], ttl, id, d)
  {
    var m := LastRenewalAt(events, id).value;
    var k: nat :| k < |events| && RemovesAt(events, ttl, id, k) && events[k].read < m;
    d := events[k].read;
    DoomedBefore(events[..k], ttl, d, m);
    assert events[..k][..m] == events[..m];
  }

  lemma LostMeansUnderWay(before: seq<Event>, ids: seq<string>, at: Millis, ttl: Millis, id: string,
                          more: seq<Event>, now: Millis)
    requires id in ids && IsLost(before, ids, at, ttl, id, more, now)
    ensures exists d :: LookupUnderWay(before, ttl, id, d)
  {
    var events := before + [Renewed(ids, at)] + more;
    LastOfThese(before, ids, at, id, more);
    assert events[|before|] == Renewed(ids, at) && events[..|before|] == before;
    RenewalLostExactly(events, ttl, id, now);
    var d := LostReadWasUnderWay(events, ttl, id);
  }

  lemma UnderWayCanLose(before: seq<Event>, ids: seq<string>, at: Millis, ttl: Millis, id: string, d: nat)
    requires id in ids && at < Saturate(at + ttl) && ClockGoesForward(before, at)
    requires LookupUnderWay(before, ttl, id, d)
    ensures IsLost(before, ids, at, ttl, id, [Remove(d)], at)
  {
    var n := |before|;
    var renewed := before + [Renewed(ids, at)];
    var events := renewed + [Remove(d)];
    LastOfThese(before, ids, at, id, [Remove(d)]);
    assert renewed[..n] == before && events[..n + 1] == renewed;
    assert RemovesAt(events, ttl, id, n + 1);
    assert forall k | 0 <= k < n :: events[k] == before[k];
    assert ClockGoesForward(events, at);
    RenewalLostExactly(events, ttl, id, at);
  }

  /** A renewal that promises anything can be lost exactly if, when it is made, a lookup of `id` is
    * between its read, which found the lease expired, and its removal. */
  lemma LossCanBeForeseen(before: seq<Event>, ids: seq<string>, at: Millis, ttl: Millis, id: string)
    requires id in ids && at < Saturate(at + ttl) && ClockGoesForward(before, at)
    ensures CanBeLost(before, ids, at, ttl, id) <==> exists d :: LookupUnderWay(before, ttl, id, d)
  {
    if CanBeLost(before, ids, at, ttl, id) {
      var more, now :| IsLost(before, ids, at, ttl, id, more, now);
      LostMeansUnderWay(before, ids, at, ttl, id, more, now);
    }
    if d :| LookupUnderWay(before, ttl, id, d) {
      UnderWayCanLose(before, ids, at, ttl, id, d);
    }
  }

  /** Such a run: the lease of "c" is renewed between the read and the removal of one lookup. */
  lemma RenewalCanBeLost()
    ensures var events := [Renewed(["c"], 0), Read("c", 10), Renewed(["c"], 11), Remove(1)];
            && ClockGoesForward(events, 12)
            && Expiry(events, 5, "c") == Some(16) && Answer(After(events, 5).leases, "c", 12) == None
  {
    var events := [Renewed(["c"], 0), Read("c", 10), Renewed(["c"], 11), Remove(1)];
    assert events[..3][..2] == events[..2] && events[..2][..1] == events[..1] && events[..1][..0] == [];
    InsertedOne(map[], "c", 5);
    assert After(events[..1], 5) == State(map["c" := 5], {});
    assert After(events[..2], 5) == State(map["c" := 5], {1});
    InsertedOne(map["c" := 5], "c", 16);
    assert After(events[..3], 5) == State(map["c" := 16], {1});
    assert LastRenewalAt(events[..3], "c") == Some(2);
  }
}
