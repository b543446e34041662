/**
 * The scheduled reconciliation job of the bus tracker: from "now" and the
 * stored schedules it recomputes every bus's `isAssigned` flag and closes
 * trips whose day has passed, with four bulk updates, and reports how many
 * documents each update modified.
 *
 * Dates are millisecond timestamps. The job runs in a fixed local time zone
 * whose offset from UTC is `offset` milliseconds.
 */
module Reconciliation {

  const MsPerDay: int := 86_400_000

  type BusId = string
  type TripId = string

  datatype Schedule = Schedule(busId: BusId, isActive: bool, endDate: int)
  datatype Bus = Bus(id: BusId, isAssigned: bool)
  datatype TripStatus = NotStarted | InProgress | Completed | Cancelled
  datatype Trip = Trip(id: TripId, busId: BusId, status: TripStatus, tripDate: int)

  /**
   * The job's result record `{assigned, unassigned, cancelledTrip, completedTrip}`,
   * one modified count per bulk update, in the order the updates run.
   */
  datatype Counts = Counts(assignedBuses: nat, unassignedBuses: nat, cancelledTrips: nat, completedTrips: nat)

  /** The three collections the job touches. */
  datatype Db = Db(schedules: seq<Schedule>, buses: seq<Bus>, trips: seq<Trip>)
  datatype Run = Run(after: Db, counts: Counts)

  // ---------------------------------------------------------------------------
  // Today

  /** `new Date()` followed by `setHours(0, 0, 0, 0)`: the instant of the last local midnight. */
  function LocalMidnight(now: int, offset: int): (today: int)
    ensures (today + offset) % MsPerDay == 0
    ensures today <= now < today + MsPerDay
  {
    now - (now + offset) % MsPerDay
  }

  /** Only one local midnight lies in the day-long window that ends at `now`. */
  lemma LocalMidnightUnique(now: int, offset: int, d: int)
    requires (d + offset) % MsPerDay == 0
    requires d <= now < d + MsPerDay
    ensures d == LocalMidnight(now, offset)
  {
    var t := LocalMidnight(now, offset);
    var k1 := (d + offset) / MsPerDay;
    var k2 := (t + offset) / MsPerDay;
    assert d + offset == MsPerDay * k1;
    assert t + offset == MsPerDay * k2;
    assert d - t == MsPerDay * (k1 - k2);
  }

  /** Every instant of the same local day yields the same `today`; in particular, setting the hours twice changes nothing. */
  lemma SameDaySameToday(now: int, later: int, offset: int)
    requires LocalMidnight(now, offset) <= later < LocalMidnight(now, offset) + MsPerDay
    ensures LocalMidnight(later, offset) == LocalMidnight(now, offset)
  {
    LocalMidnightUnique(later, offset, LocalMidnight(now, offset));
  }

  // ---------------------------------------------------------------------------
  // The active set: schedules.distinct("busId", {isActive: true, endDate: {$gte: today}})

  predicate IsActiveOn(s: Schedule, today: int)
  {
    s.isActive && s.endDate >= today
  }

  function ActiveBusIds(schedules: seq<Schedule>, today: int): set<BusId>
  {
    set s | s in schedules && IsActiveOn(s, today) :: s.busId
  }

  predicate NoDuplicates<T(==)>(xs: seq<T>)
  {
    forall i, j :: 0 <= i < j < |xs| ==> xs[i] != xs[j]
  }

  /** `distinct`: each bus id of an active, unexpired schedule, once, in unspecified order. */
  method DistinctActiveBusIds(schedules: seq<Schedule>, today: int) returns (ids: seq<BusId>)
    ensures forall id :: id in ids <==> id in ActiveBusIds(schedules, today)
    ensures NoDuplicates(ids)
  {
    ids := [];
    var i := 0;
    while i < |schedules|
      invariant 0 <= i <= |schedules|
      invariant forall id :: id in ids <==> id in ActiveBusIds(schedules[..i], today)
      invariant NoDuplicates(ids)
    {
      var s := schedules[i];
      assert schedules[..i + 1] == schedules[..i] + [s];
      if IsActiveOn(s, today) && s.busId !in ids {
        ids := ids + [s.busId];
      }
      i := i + 1;
    }
    assert schedules[..i] == schedules;
  }

  // ---------------------------------------------------------------------------
  // The two bus updates: updateMany({_id: {$in | $nin: activeBusIds}}, {$set: {isAssigned: v}})

  datatype BusFilter = IdIn(ids: set<BusId>) | IdNotIn(ids: set<BusId>)

  predicate BusMatches(f: BusFilter, b: Bus)
  {
    match f
    case IdIn(ids) => b.id in ids
    case IdNotIn(ids) => b.id !in ids
  }

  /** One document under `$set: {isAssigned: v}` when the filter selects it. */
  function AssignOne(b: Bus, f: BusFilter, v: bool): Bus
  {
    if BusMatches(f, b) then b.(isAssigned := v) else b
  }

  function AssignAll(bs: seq<Bus>, f: BusFilter, v: bool): seq<Bus>
  {
    seq(|bs|, i requires 0 <= i < |bs| => AssignOne(bs[i], f, v))
  }

  /** The update's `modifiedCount`: documents the filter selects whose flag actually changes. */
  function AssignModified(bs: seq<Bus>, f: BusFilter, v: bool): nat
    decreases |bs|
  {
    if bs == [] then 0
    else
      var b := bs[|bs| - 1];
      AssignModified(bs[..|bs| - 1], f, v) + (if BusMatches(f, b) && b.isAssigned != v then 1 else 0)
  }

  // ---------------------------------------------------------------------------
  // The two trip updates: updateMany({status: s, tripDate: {$lt: today}}, {$set: {status: to}})

  datatype TripFilter = StaleWith(status: TripStatus, before: int)

  predicate TripMatches(f: TripFilter, t: Trip)
  {
    t.status == f.status && t.tripDate < f.before
  }

  function MoveOne(t: Trip, f: TripFilter, to: TripStatus): Trip
  {
    if TripMatches(f, t) then t.(status := to) else t
  }

  function MoveAll(ts: seq<Trip>, f: TripFilter, to: TripStatus): seq<Trip>
  {
    seq(|ts|, i requires 0 <= i < |ts| => MoveOne(ts[i], f, to))
  }

  function MoveModified(ts: seq<Trip>, f: TripFilter, to: TripStatus): nat
    decreases |ts|
  {
    if ts == [] then 0
    else
      var t := ts[|ts| - 1];
      MoveModified(ts[..|ts| - 1], f, to) + (if TripMatches(f, t) && t.status != to then 1 else 0)
  }

  // ---------------------------------------------------------------------------
  // The whole job on values

  function ReconcileDb(db: Db, today: int): Run
  {
    var active := ActiveBusIds(db.schedules, today);
    var buses1 := AssignAll(db.buses, IdIn(active), true);
    var buses2 := AssignAll(buses1, IdNotIn(active), false);
    var trips1 := MoveAll(db.trips, StaleWith(NotStarted, today), Cancelled);
    var trips2 := MoveAll(trips1, StaleWith(InProgress, today), Completed);
    Run(Db(db.schedules, buses2, trips2),
        Counts(AssignModified(db.buses, IdIn(active), true),
               AssignModified(buses1, IdNotIn(active), false),
               MoveModified(db.trips, StaleWith(NotStarted, today), Cancelled),
               MoveModified(trips1, StaleWith(InProgress, today), Completed)))
  }

  /** Where a trip ends up: cancelled if it never started before its day passed, completed if it was left running, otherwise as it was. */
  function ReconciledStatus(t: Trip, today: int): TripStatus
  {
    if t.tripDate < today && t.status == NotStarted then Cancelled
    else if t.tripDate < today && t.status == InProgress then Completed
    else t.status
  }

  /** Position of a status in NOT_STARTED -> IN_PROGRESS -> {COMPLETED, CANCELLED}. */
  function Rank(s: TripStatus): nat
  {
    match s
    case NotStarted => 0
    case InProgress => 1
    case Completed => 2
    case Cancelled => 2
  }

  /** After the job a bus is assigned exactly when some active, unexpired schedule names it; nothing else about a bus changes. */
  lemma ReconcileAssignsExactlyActive(db: Db, today: int)
    ensures var after := ReconcileDb(db, today).after;
      |after.buses| == |db.buses| &&
      forall i :: 0 <= i < |db.buses| ==>
        after.buses[i].id == db.buses[i].id &&
        (after.buses[i].isAssigned <==> exists s :: s in db.schedules && IsActiveOn(s, today) && s.busId == db.buses[i].id)
  {
    var after := ReconcileDb(db, today).after;
    var active := ActiveBusIds(db.schedules, today);
    forall i | 0 <= i < |db.buses|
      ensures after.buses[i].isAssigned <==> exists s :: s in db.schedules && IsActiveOn(s, today) && s.busId == db.buses[i].id
    {
      if db.buses[i].id in active {
        var s :| s in db.schedules && IsActiveOn(s, today) && s.busId == db.buses[i].id;
      }
    }
  }

  /** Each trip lands on `ReconciledStatus`; its id, bus and date are untouched and its status never moves backwards. */
  lemma ReconcileTrips(db: Db, today: int)
    ensures var after := ReconcileDb(db, today).after;
      |after.trips| == |db.trips| &&
      forall i :: 0 <= i < |db.trips| ==>
        after.trips[i] == db.trips[i].(status := ReconciledStatus(db.trips[i], today)) &&
        Rank(db.trips[i].status) <= Rank(after.trips[i].status) &&
        (Rank(db.trips[i].status) == 2 ==> after.trips[i] == db.trips[i])
  {
  }

  /** Schedules are read and never written. */
  lemma ReconcileKeepsSchedules(db: Db, today: int)
    ensures ReconcileDb(db, today).after.schedules == db.schedules
  {
  }

  /** A flag update counts nothing once every document it selects already holds the value. */
  lemma {:induction false} AssignModifiedNone(bs: seq<Bus>, f: BusFilter, v: bool)
    requires forall i :: 0 <= i < |bs| && BusMatches(f, bs[i]) ==> bs[i].isAssigned == v
    ensures AssignModified(bs, f, v) == 0
    decreases |bs|
  {
    if bs != [] {
      AssignModifiedNone(bs[..|bs| - 1], f, v);
    }
  }

  lemma {:induction false} MoveModifiedNone(ts: seq<Trip>, f: TripFilter, to: TripStatus)
    requires forall i :: 0 <= i < |ts| ==> !TripMatches(f, ts[i]) || ts[i].status == to
    ensures MoveModified(ts, f, to) == 0
    decreases |ts|
  {
    if ts != [] {
      MoveModifiedNone(ts[..|ts| - 1], f, to);
    }
  }

  /** Running the job again on the same day changes nothing and reports zero in every count. */
  lemma ReconcileIdempotent(db: Db, today: int)
    ensures var after := ReconcileDb(db, today).after;
      ReconcileDb(after, today) == Run(after, Counts(0, 0, 0, 0))
  {
    var after := ReconcileDb(db, today).after;
    var active := ActiveBusIds(db.schedules, today);
    ReconcileAssignsExactlyActive(db, today);
    ReconcileTrips(db, today);
    var b1 := AssignAll(after.buses, IdIn(active), true);
    assert b1 == after.buses;
    assert AssignAll(b1, IdNotIn(active), false) == after.buses;
    AssignModifiedNone(after.buses, IdIn(active), true);
    AssignModifiedNone(b1, IdNotIn(active), false);
    var t1 := MoveAll(after.trips, StaleWith(NotStarted, today), Cancelled);
    assert t1 == after.trips;
    assert MoveAll(t1, StaleWith(InProgress, today), Completed) == after.trips;
    MoveModifiedNone(after.trips, StaleWith(NotStarted, today), Cancelled);
    MoveModifiedNone(t1, StaleWith(InProgress, today), Completed);
  }

  /** A first update never disturbs what a second update over disjoint documents counts. */
  lemma {:induction false} AssignModifiedDisjoint(bs: seq<Bus>, active: set<BusId>)
    ensures AssignModified(AssignAll(bs, IdIn(active), true), IdNotIn(active), false)
         == AssignModified(bs, IdNotIn(active), false)
    decreases |bs|
  {
    if bs != [] {
      var n := |bs| - 1;
      assert AssignAll(bs, IdIn(active), true)[..n] == AssignAll(bs[..n], IdIn(active), true);
      AssignModifiedDisjoint(bs[..n], active);
    }
  }

  lemma {:induction false} MoveModifiedAfterCancel(ts: seq<Trip>, today: int)
    ensures MoveModified(MoveAll(ts, StaleWith(NotStarted, today), Cancelled), StaleWith(InProgress, today), Completed)
         == MoveModified(ts, StaleWith(InProgress, today), Completed)
    decreases |ts|
  {
    if ts != [] {
      var n := |ts| - 1;
      assert MoveAll(ts, StaleWith(NotStarted, today), Cancelled)[..n] == MoveAll(ts[..n], StaleWith(NotStarted, today), Cancelled);
      MoveModifiedAfterCancel(ts[..n], today);
    }
  }

  /**
   * The reported counts, each taken over the collections as they were before
   * the job: buses newly assigned, buses newly released, stale trips never
   * started, and stale trips left running (a trip cancelled by the third
   * update is not matched again by the fourth).
   */
  lemma ReconcileCounts(db: Db, today: int)
    ensures var active := ActiveBusIds(db.schedules, today);
      ReconcileDb(db, today).counts ==
        Counts(AssignModified(db.buses, IdIn(active), true),
               AssignModified(db.buses, IdNotIn(active), false),
               MoveModified(db.trips, StaleWith(NotStarted, today), Cancelled),
               MoveModified(db.trips, StaleWith(InProgress, today), Completed))
  {
    AssignModifiedDisjoint(db.buses, ActiveBusIds(db.schedules, today));
    MoveModifiedAfterCancel(db.trips, today);
  }

  // ---------------------------------------------------------------------------
  // The store the job runs against, updated in place

  class Store {
    var schedules: seq<Schedule>
    var buses: seq<Bus>
    var trips: seq<Trip>

    constructor (schedules: seq<Schedule>, buses: seq<Bus>, trips: seq<Trip>)
      ensures this.schedules == schedules && this.buses == buses && this.trips == trips
    {
      this.schedules := schedules;
      this.buses := buses;
      this.trips := trips;
    }

    function Snapshot(): Db
      reads this
    {
      Db(schedules, buses, trips)
    }

    /** `buses.updateMany(f, {$set: {isAssigned: v}})`, returning `modifiedCount`. */
    method UpdateBuses(f: BusFilter, v: bool) returns (modifiedCount: nat)
      modifies this`buses
      ensures buses == AssignAll(old(buses), f, v)
      ensures modifiedCount == AssignModified(old(buses), f, v)
    {
      modifiedCount := 0;
      var i := 0;
      while i < |buses|
        invariant 0 <= i <= |buses| == |old(buses)|
        invariant forall k :: 0 <= k < i ==> buses[k] == AssignOne(old(buses)[k], f, v)
        invariant forall k :: i <= k < |buses| ==> buses[k] == old(buses)[k]
        invariant modifiedCount == AssignModified(old(buses)[..i], f, v)
      {
        assert old(buses)[..i + 1][..i] == old(buses)[..i];
        var b := buses[i];
        if BusMatches(f, b) {
          if b.isAssigned != v {
            modifiedCount := modifiedCount + 1;
          }
          buses := buses[i := b.(isAssigned := v)];
        }
        i := i + 1;
      }
      assert old(buses)[..i] == old(buses);
    }

    /** `trips.updateMany(f, {$set: {status: to}})`, returning `modifiedCount`. */
    method UpdateTrips(f: TripFilter, to: TripStatus) returns (modifiedCount: nat)
      modifies this`trips
      ensures trips == MoveAll(old(trips), f, to)
      ensures modifiedCount == MoveModified(old(trips), f, to)
    {
      modifiedCount := 0;
      var i := 0;
      while i < |trips|
        invariant 0 <= i <= |trips| == |old(trips)|
        invariant forall k :: 0 <= k < i ==> trips[k] == MoveOne(old(trips)[k], f, to)
        invariant forall k :: i <= k < |trips| ==> trips[k] == old(trips)[k]
        invariant modifiedCount == MoveModified(old(trips)[..i], f, to)
      {
        assert old(trips)[..i + 1][..i] == old(trips)[..i];
        var t := trips[i];
        if TripMatches(f, t) {
          if t.status != to {
            modifiedCount := modifiedCount + 1;
          }
          trips := trips[i := t.(status := to)];
        }
        i := i + 1;
      }
      assert old(trips)[..i] == old(trips);
    }

    /** The job: today, the active set, two assignment updates, two trip updates, the four counts. */
    method Reconcile(now: int, offset: int) returns (counts: Counts)
      modifies this`buses, this`trips
      ensures Snapshot() == ReconcileDb(old(Snapshot()), LocalMidnight(now, offset)).after
      ensures counts == ReconcileDb(old(Snapshot()), LocalMidnight(now, offset)).counts
      ensures forall i :: 0 <= i < |buses| ==> (buses[i].isAssigned <==> buses[i].id in ActiveBusIds(schedules, LocalMidnight(now, offset)))
    {
      var today := LocalMidnight(now, offset);
      var activeBusIds := DistinctActiveBusIds(schedules, today);
      // `$in` / `$nin` test membership in the array `distinct` returned.
      var active := set id | id in activeBusIds;
      assert active == ActiveBusIds(schedules, today);
      var assignResult := UpdateBuses(IdIn(active), true);
      var unassignResult := UpdateBuses(IdNotIn(active), false);
      var autoCancelledResult := UpdateTrips(StaleWith(NotStarted, today), Cancelled);
      var autoCompletedResult := UpdateTrips(StaleWith(InProgress, today), Completed);
      counts := Counts(assignResult, unassignResult, autoCancelledResult, autoCompletedResult);
    }
  }
}
