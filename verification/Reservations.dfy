/** Balance reservations: budget held for an action with a time to live, then committed,
    released or expired. */
module Reservations {
  import opened Common
  import opened PolicyEngine

  datatype Reservation = Reservation(id: string, actionId: string, amount: int, expiresAt: nat)

  /** Every amount that ever entered the reservation map, and the five ways it can leave. */
  datatype Tally = Tally(acquired: int, committed: int, released: int, pruned: int, replaced: int)

  const NOTHING := Tally(0, 0, 0, 0, 0)

  /** `limit` is the mandate's daily limit; `peak` the largest one in force so far. */
  datatype Budget = Budget(limit: int, peak: int, book: Book, active: map<string, Reservation>, tally: Tally)

  datatype Acquired = Granted(reservation: Reservation) | Refused | Throws

  const DEFAULT_TTL_SECONDS: nat := 300

  // ---------------------------------------------------------------- specification

  function Amounts(active: map<string, Reservation>): map<string, int> {
    map k | k in active :: active[k].amount
  }

  ghost function Held(active: map<string, Reservation>): int { Sum(Amounts(active)) }

  function Live(active: map<string, Reservation>, t: nat): map<string, Reservation> {
    map k | k in active && active[k].expiresAt > t :: active[k]
  }

  ghost function Prune(b: Budget, t: nat): Budget {
    var live := Live(b.active, t);
    b.(active := live, tally := b.tally.(pruned := b.tally.pruned + Held(b.active) - Held(live)))
  }

  ghost function Acquire(b: Budget, actionId: string, amount: Option<int>, ttl: nat, t: nat): (Budget, Acquired) {
    var p := Prune(b, t);
    if amount.None? then (p, Throws)
    else
      var day := DayId(t);
      var q := p.(book := Read(p.book, day));
      if SpentOn(p.book, day) + Held(p.active) + amount.value > b.limit then (q, Refused)
      else
        var r := Reservation("res-" + actionId, actionId, amount.value, t + ttl);
        var displaced := if actionId in q.active then q.active[actionId].amount else 0;
        (q.(active := q.active[actionId := r],
            tally := q.tally.(acquired := q.tally.acquired + amount.value,
                              replaced := q.tally.replaced + displaced)),
         Granted(r))
  }

  ghost function Commit(b: Budget, actionId: string, t: nat): (Budget, bool) {
    if actionId !in b.active then (b, false)
    else
      var amount := b.active[actionId].amount;
      (b.(book := Record(b.book, amount, DayId(t)),
          active := b.active - {actionId},
          tally := b.tally.(committed := b.tally.committed + amount)), true)
  }

  ghost function Release(b: Budget, actionId: string): (Budget, bool) {
    if actionId !in b.active then (b, false)
    else
      (b.(active := b.active - {actionId},
          tally := b.tally.(released := b.tally.released + b.active[actionId].amount)), true)
  }

  /** The mandate's daily limit is replaced; reservations and spend stay. */
  function ChangeLimit(b: Budget, limit: int): Budget {
    b.(limit := limit, peak := Max(b.peak, limit))
  }

  // ---------------------------------------------------------------- the service

  class BalanceReservationService {
    var activeReservations: map<string, Reservation>
    const policyEngine: PolicyEngineService
    ghost var peak: int
    ghost var tally: Tally

    ghost function View(): Budget
      reads this, policyEngine
    {
      Budget(policyEngine.mandate.dailyAutonomousLimit, peak, policyEngine.View(), activeReservations, tally)
    }

    constructor (engine: PolicyEngineService)
      ensures policyEngine == engine
      ensures View() == Budget(engine.mandate.dailyAutonomousLimit, engine.mandate.dailyAutonomousLimit,
                               engine.View(), map[], NOTHING)
    {
      policyEngine := engine;
      activeReservations := map[];
      peak, tally := engine.mandate.dailyAutonomousLimit, NOTHING;
    }

    /** Keeps the history up to date when the mandate was replaced; the service itself is not told. */
    ghost method LimitChanged(before: Budget)
      requires View() == before.(limit := policyEngine.mandate.dailyAutonomousLimit)
      modifies this`peak
      ensures View() == ChangeLimit(before, policyEngine.mandate.dailyAutonomousLimit)
    {
      peak := Max(peak, policyEngine.mandate.dailyAutonomousLimit);
    }

    method PruneExpired(currentTimestamp: nat) returns (pruned: nat)
      modifies this
      ensures View() == Prune(old(View()), currentTimestamp)
      ensures pruned == |old(activeReservations)| - |activeReservations|
    {
      hide Live, Kept, Held;
      ghost var start := activeReservations;
      pruned := 0;
      var entries := activeReservations.Keys;
      KeptAtTheEnds(start, currentTimestamp);
      while entries != {}
        invariant entries <= start.Keys
        invariant activeReservations == Kept(start, entries, currentTimestamp)
        invariant pruned + |activeReservations| == |start|
        invariant tally == old(tally) && peak == old(peak)
        decreases |entries|
      {
        var actionId :| actionId in entries;
        KeptWithOneLess(start, entries, currentTimestamp, actionId);
        if activeReservations[actionId].expiresAt <= currentTimestamp {
          activeReservations := activeReservations - {actionId};
          pruned := pruned + 1;
        }
        entries := entries - {actionId};
      }
      tally := tally.(pruned := tally.pruned + Held(start) - Held(activeReservations));
    }

    /** What is left while `entries` are still to be looked at. */
    static ghost function Kept(start: map<string, Reservation>, entries: set<string>, t: nat)
      : map<string, Reservation>
    {
      map k | k in start && (k in entries || start[k].expiresAt > t) :: start[k]
    }

    static lemma KeptAtTheEnds(start: map<string, Reservation>, t: nat)
      ensures Kept(start, start.Keys, t) == start && Kept(start, {}, t) == Live(start, t)
    {
    }

    static lemma KeptWithOneLess(start: map<string, Reservation>, entries: set<string>, t: nat, actionId: string)
      requires actionId in entries && entries <= start.Keys
      ensures var kept := Kept(start, entries, t);
              && actionId in kept && kept[actionId] == start[actionId]
              && |kept - {actionId}| == |kept| - 1
              && Kept(start, entries - {actionId}, t)
                 == if start[actionId].expiresAt <= t then kept - {actionId} else kept
    {
      var kept := Kept(start, entries, t);
      assert (kept - {actionId}).Keys == kept.Keys - {actionId};
      assert |(kept - {actionId}).Keys| == |kept - {actionId}| && |kept.Keys| == |kept|;
    }

    method GetTotalReservedAmount(currentTimestamp: nat) returns (total: int)
      modifies this
      ensures View() == Prune(old(View()), currentTimestamp)
      ensures total == Held(activeReservations)
    {
      var _ := PruneExpired(currentTimestamp);
      total := TotalOf(activeReservations);
    }

    static method TotalOf(active: map<string, Reservation>) returns (total: int)
      ensures total == Held(active)
    {
      total := 0;
      var entries := active.Keys;
      assert Amounts(active) - entries == map[];
      while entries != {}
        invariant entries <= active.Keys
        invariant total == Sum(Amounts(active) - entries)
        decreases |entries|
      {
        var actionId :| actionId in entries;
        SumWithout(Amounts(active), entries, actionId);
        total := total + active[actionId].amount;
        entries := entries - {actionId};
      }
      assert Amounts(active) - {} == Amounts(active);
    }

    method AcquireReservation(actionId: string, amountStr: Option<int>, ttlSeconds: nat, currentTimestamp: nat)
      returns (outcome: Acquired)
      modifies this, policyEngine`dailySpentMap
      ensures (View(), outcome) == Acquire(old(View()), actionId, amountStr, ttlSeconds, currentTimestamp)
    {
      var _ := PruneExpired(currentTimestamp);
      ghost var pruned := View();
      if amountStr.None? {
        return Throws;
      }
      var amount := amountStr.value;
      var currentDailySpent := policyEngine.GetDailySpent(currentTimestamp);
      ghost var read := View();
      var currentReserved := GetTotalReservedAmount(currentTimestamp);
      assert View() == read by {
        PruneTwice(pruned, currentTimestamp);
        assert read.active == Live(read.active, currentTimestamp);
      }
      if currentDailySpent + currentReserved + amount > policyEngine.mandate.dailyAutonomousLimit {
        return Refused;
      }
      var reservation := Reservation("res-" + actionId, actionId, amount, currentTimestamp + ttlSeconds);
      tally := tally.(acquired := tally.acquired + amount,
                      replaced := tally.replaced +
                        if actionId in activeReservations then activeReservations[actionId].amount else 0);
      activeReservations := activeReservations[actionId := reservation];
      outcome := Granted(reservation);
    }

    method CommitReservation(actionId: string, currentTimestamp: nat) returns (committed: bool)
      modifies this, policyEngine`dailySpentMap, policyEngine`ledger
      ensures (View(), committed) == Commit(old(View()), actionId, currentTimestamp)
    {
      if actionId !in activeReservations {
        return false;
      }
      var reservation := activeReservations[actionId];
      policyEngine.RecordAutonomousSpend(reservation.amount, currentTimestamp);
      tally := tally.(committed := tally.committed + reservation.amount);
      activeReservations := activeReservations - {actionId};
      committed := true;
    }

    method ReleaseReservation(actionId: string) returns (released: bool)
      modifies this
      ensures (View(), released) == Release(old(View()), actionId)
    {
      released := actionId in activeReservations;
      if released {
        tally := tally.(released := tally.released + activeReservations[actionId].amount);
      } else {
        assert activeReservations - {actionId} == activeReservations;
      }
      activeReservations := activeReservations - {actionId};
    }
  }

  lemma PruneTwice(b: Budget, t: nat)
    ensures Live(Live(b.active, t), t) == Live(b.active, t)
  {
  }

  // ---------------------------------------------------------------- arithmetic of holding

  lemma HeldPut(active: map<string, Reservation>, id: string, r: Reservation)
    ensures Held(active[id := r]) == Held(active) - (if id in active then active[id].amount else 0) + r.amount
  {
    SumPut(Amounts(active), id, r.amount);
    assert Amounts(active[id := r]) == Amounts(active)[id := r.amount];
  }

  lemma HeldRemove(active: map<string, Reservation>, id: string)
    requires id in active
    ensures Held(active - {id}) == Held(active) - active[id].amount
  {
    SumRemove(Amounts(active), id);
    assert Amounts(active - {id}) == Amounts(active) - {id};
  }

  ghost predicate NonNegative(active: map<string, Reservation>) {
    forall k :: k in active ==> 0 <= active[k].amount
  }

  lemma HeldLive(active: map<string, Reservation>, t: nat)
    requires NonNegative(active)
    ensures NonNegative(Live(active, t))
    ensures 0 <= Held(Live(active, t)) <= Held(active)
  {
    var live := Live(active, t);
    SumMonotone(Amounts(live), Amounts(active));
    SumNonNegative(Amounts(live));
  }

  // ---------------------------------------------------------------- the daily limit

  /** On day `today` and every later one, what is spent and what is held fit the largest limit so far
      together; no later day has any spend yet, and no day ever exceeded that limit. */
  ghost predicate Solvent(b: Budget, today: nat) {
    && Consistent(b.book)
    && NonNegative(b.active)
    && 0 <= Held(b.active)
    && b.limit <= b.peak
    && (forall d :: 0 <= SpentOn(b.book, d) <= b.peak)
    && (forall d :: d > today ==> SpentOn(b.book, d) == 0)
    && SpentOn(b.book, today) + Held(b.active) <= b.peak
  }

  lemma FreshBudgetIsSolvent(limit: nat, today: nat)
    ensures Solvent(Budget(limit, limit, Book(map[], map[]), map[], NOTHING), today)
  {
  }

  lemma SolventOnALaterDay(b: Budget, today: nat, later: nat)
    requires Solvent(b, today) && today <= later
    ensures Solvent(b, later)
  {
  }

  /** Pruning forgets exactly what has expired. */
  lemma PruneForgets(b: Budget, t: nat)
    ensures var after := Prune(b, t);
            && after.book == b.book && after.limit == b.limit
            && (forall k :: k in after.active <==> k in b.active && t < b.active[k].expiresAt)
            && (forall k :: k in after.active ==> after.active[k] == b.active[k])
  {
  }

  lemma PruneKeepsSolvent(b: Budget, t: nat, today: nat)
    requires Solvent(b, today)
    ensures Solvent(Prune(b, t), today)
  {
    HeldLive(b.active, t);
  }

  /** A reservation is granted exactly when the amount parses and, with what is spent today and still held,
      stays within the limit in force; and then the two together do. */
  lemma GrantedIff(b: Budget, id: string, amount: Option<int>, ttl: nat, t: nat)
    requires NonNegative(b.active)
    ensures var (after, got) := Acquire(b, id, amount, ttl, t);
            var held := Sum(map k | k in b.active && b.active[k].expiresAt > t :: b.active[k].amount);
            && (got.Granted? <==> amount.Some? && SpentOn(b.book, DayId(t)) + held + amount.value <= b.limit)
            && (got.Throws? <==> amount.None?)
            && (got.Granted? ==>
                  && got.reservation == Reservation("res-" + id, id, amount.value, t + ttl)
                  && id in after.active && after.active[id] == got.reservation
                  && SpentOn(after.book, DayId(t)) + Held(after.active) <= b.limit)
            && (forall k :: k != id ==>
                  (k in after.active <==> k in b.active && b.active[k].expiresAt > t)
                  && (k in after.active ==> after.active[k] == b.active[k]))
  {
    assert Amounts(Live(b.active, t)) == map k | k in b.active && b.active[k].expiresAt > t :: b.active[k].amount;
    ReadKeepsSpend(Prune(b, t).book, DayId(t));
    if amount.Some? {
      HeldPut(Live(b.active, t), id, Reservation("res-" + id, id, amount.value, t + ttl));
    }
  }

  lemma AcquireKeepsSolvent(b: Budget, id: string, amount: Option<int>, ttl: nat, t: nat)
    requires Solvent(b, DayId(t))
    requires amount.Some? ==> 0 <= amount.value
    ensures Solvent(Acquire(b, id, amount, ttl, t).0, DayId(t))
  {
    PruneKeepsSolvent(b, t, DayId(t));
    var p := Prune(b, t);
    ReadKeepsSpend(p.book, DayId(t));
    if amount.Some? {
      var r := Reservation("res-" + id, id, amount.value, t + ttl);
      HeldPut(p.active, id, r);
      var after := Acquire(b, id, amount, ttl, t).0;
      if after.active == p.active[id := r] {
        SumNonNegative(Amounts(after.active));
      }
    }
  }

  /** A commit moves a held amount into the spend of the day it happens on, whether or not the
      reservation has expired and whether or not that day is the one it was acquired on. */
  lemma CommitKeepsSolvent(b: Budget, id: string, t: nat)
    requires Solvent(b, DayId(t))
    ensures Solvent(Commit(b, id, t).0, DayId(t))
  {
    if id in b.active {
      HeldRemove(b.active, id);
      RecordAddsExactly(b.book, b.active[id].amount, DayId(t));
      SumNonNegative(Amounts(b.active - {id}));
    }
  }

  lemma ReleaseKeepsSolvent(b: Budget, id: string, today: nat)
    requires Solvent(b, today)
    ensures Solvent(Release(b, id).0, today)
  {
    if id in b.active {
      HeldRemove(b.active, id);
      SumNonNegative(Amounts(b.active - {id}));
    }
  }

  lemma ChangeLimitKeepsSolvent(b: Budget, limit: int, today: nat)
    requires Solvent(b, today)
    ensures Solvent(ChangeLimit(b, limit), today)
  {
  }

  // ---------------------------------------------------------------- runs

  datatype Step =
    | AcquireStep(actionId: string, amount: Option<int>, ttl: nat, at: nat)
    | CommitStep(actionId: string, at: nat)
    | ReleaseStep(actionId: string, at: nat)
    | PruneStep(at: nat)
    | LimitStep(limit: int, at: nat)

  ghost function Apply(b: Budget, s: Step): Budget {
    match s
    case AcquireStep(id, amount, ttl, at) => Acquire(b, id, amount, ttl, at).0
    case CommitStep(id, at) => Commit(b, id, at).0
    case ReleaseStep(id, at) => Release(b, id).0
    case PruneStep(at) => Prune(b, at)
    case LimitStep(limit, at) => ChangeLimit(b, limit)
  }

  ghost function Run(b: Budget, steps: seq<Step>): Budget {
    if steps == [] then b else Apply(Run(b, steps[..|steps| - 1]), steps[|steps| - 1])
  }

  /** The clock never goes back, and no request is for a negative amount. */
  ghost predicate Timely(start: nat, steps: seq<Step>) {
    && (forall i :: 0 <= i < |steps| ==> start <= steps[i].at)
    && (forall i, j :: 0 <= i < j < |steps| ==> steps[i].at <= steps[j].at)
    && (forall i :: 0 <= i < |steps| && steps[i].AcquireStep? && steps[i].amount.Some? ==> 0 <= steps[i].amount.value)
  }

  function LastTime(start: nat, steps: seq<Step>): nat {
    if steps == [] then start else steps[|steps| - 1].at
  }

  lemma DayIsMonotone(s: nat, t: nat)
    requires s <= t
    ensures DayId(s) <= DayId(t)
  {
  }

  /** Every run keeps spent-today plus held within the largest limit in force so far, and so every day's
      spend, across day rollover, late commits and changes of the mandate. */
  lemma {:induction false} EveryRunIsSolvent(b: Budget, start: nat, steps: seq<Step>)
    requires Solvent(b, DayId(start)) && Timely(start, steps)
    ensures Solvent(Run(b, steps), DayId(LastTime(start, steps)))
    ensures forall d :: SpentOn(Run(b, steps).book, d) <= Run(b, steps).peak
  {
    if steps == [] {
    } else {
      var init, last := steps[..|steps| - 1], steps[|steps| - 1];
      EveryRunIsSolvent(b, start, init);
      var mid := Run(b, init);
      DayIsMonotone(LastTime(start, init), last.at);
      SolventOnALaterDay(mid, DayId(LastTime(start, init)), DayId(last.at));
      hide Solvent, Acquire, Commit, Release, Prune;
      match last
      case AcquireStep(id, amount, ttl, at) => AcquireKeepsSolvent(mid, id, amount, ttl, at);
      case CommitStep(id, at) => CommitKeepsSolvent(mid, id, at);
      case ReleaseStep(id, at) => ReleaseKeepsSolvent(mid, id, DayId(at));
      case PruneStep(at) => PruneKeepsSolvent(mid, at, DayId(at));
      case LimitStep(limit, at) => ChangeLimitKeepsSolvent(mid, limit, DayId(at));
    }
    DaysAreWithinPeak(Run(b, steps), DayId(LastTime(start, steps)));
  }

  lemma DaysAreWithinPeak(b: Budget, today: nat)
    requires Solvent(b, today)
    ensures forall d :: SpentOn(b.book, d) <= b.peak
  {
  }

  /** The limits a run names. */
  ghost predicate IsNamed(b: Budget, steps: seq<Step>, limit: int) {
    limit == b.limit || exists i :: 0 <= i < |steps| && steps[i].LimitStep? && steps[i].limit == limit
  }

  /** The peak is one of the limits in force so far and none of them is larger, if it was so at the start;
      while the mandate does not change it is the limit. */
  lemma {:induction false} PeakIsTheLargestLimit(b: Budget, steps: seq<Step>)
    requires b.peak == b.limit
    ensures IsNamed(b, steps, Run(b, steps).peak)
    ensures forall limit :: IsNamed(b, steps, limit) ==> limit <= Run(b, steps).peak
  {
    if steps == [] {
    } else {
      var init, last := steps[..|steps| - 1], steps[|steps| - 1];
      PeakIsTheLargestLimit(b, init);
      StepMovesPeak(Run(b, init), last);
      if !last.LimitStep? || last.limit < Run(b, init).peak {
        if Run(b, init).peak != b.limit {
          var i :| 0 <= i < |init| && init[i].LimitStep? && init[i].limit == Run(b, init).peak;
          assert steps[i] == init[i];
        }
      } else {
        assert steps[|steps| - 1].limit == Run(b, steps).peak;
      }
      forall limit | IsNamed(b, steps, limit) ensures limit <= Run(b, steps).peak {
        if limit == b.limit {
          assert IsNamed(b, init, limit);
        } else {
          var i :| 0 <= i < |steps| && steps[i].LimitStep? && steps[i].limit == limit;
          if i < |init| {
            assert init[i] == steps[i];
            assert IsNamed(b, init, limit);
          }
        }
      }
    }
  }

  lemma StepMovesPeak(b: Budget, s: Step)
    ensures Apply(b, s).peak == if s.LimitStep? then Max(b.peak, s.limit) else b.peak
  {
  }

  // ---------------------------------------------------------------- conservation

  /** Whatever was acquired is held, or left by exactly one of the four exits or was replaced. */
  ghost predicate Balanced(b: Budget) {
    b.tally.acquired ==
      Held(b.active) + b.tally.committed + b.tally.released + b.tally.pruned + b.tally.replaced
  }

  lemma ApplyConserves(b: Budget, s: Step)
    requires Balanced(b) && Consistent(b.book)
    ensures Balanced(Apply(b, s)) && Consistent(Apply(b, s).book)
    ensures Sum(Apply(b, s).book.ledger) - Sum(b.book.ledger)
         == Apply(b, s).tally.committed - b.tally.committed
  {
    match s
    case AcquireStep(id, amount, ttl, at) =>
      var p := Prune(b, at);
      ReadKeepsSpend(p.book, DayId(at));
      if amount.Some? {
        HeldPut(p.active, id, Reservation("res-" + id, id, amount.value, at + ttl));
      }
    case CommitStep(id, at) =>
      if id in b.active {
        HeldRemove(b.active, id);
        RecordAddsExactly(b.book, b.active[id].amount, DayId(at));
      }
    case ReleaseStep(id, at) =>
      if id in b.active {
        HeldRemove(b.active, id);
      }
    case PruneStep(at) =>
    case LimitStep(limit, at) =>
  }

  /** Over every run, with any amounts and any clock: nothing acquired is lost or counted twice, and the
      spend of all days together grows by exactly the commits that found their reservation. */
  lemma {:induction false} EveryRunConserves(b: Budget, steps: seq<Step>)
    requires Balanced(b) && Consistent(b.book)
    ensures Balanced(Run(b, steps)) && Consistent(Run(b, steps).book)
    ensures Sum(Run(b, steps).book.ledger) - Sum(b.book.ledger)
         == Run(b, steps).tally.committed - b.tally.committed
  {
    if steps == [] {
    } else {
      EveryRunConserves(b, steps[..|steps| - 1]);
      ApplyConserves(Run(b, steps[..|steps| - 1]), steps[|steps| - 1]);
    }
  }
}
