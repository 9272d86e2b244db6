/**
 * The period-cost formula of the cost query: the months of a subscription that
 * fall inside the query window, times its monthly price, summed over every row
 * the query's WHERE clause lets through.
 */
module Proration {
  import opened Wrappers
  import opened Calendar
  import opened Models
  import opened Queries

  /** SQL `COALESCE(d, fallback)`. */
  function Coalesce(d: Option<Date>, fallback: Date): Date
  {
    if d.Some? then d.value else fallback
  }

  /**
   * `idx(LEAST(COALESCE(end_date, $1), $1)) - idx(GREATEST(start_date, $2)) + 1`
   * with `$1` the window end, `$2` the window start and `idx` the month number.
   * Nothing clamps it at zero.
   */
  function BilledMonths(s: Subscription, windowStart: Date, windowEnd: Date): int
  {
    Index(Least(Coalesce(s.endDate, windowEnd), windowEnd)) - Index(Greatest(s.startDate, windowStart)) + 1
  }

  /** `price * BilledMonths`, the summand of the cost query. */
  function Contribution(s: Subscription, windowStart: Date, windowEnd: Date): int
  {
    s.price * BilledMonths(s, windowStart, windowEnd)
  }

  /** The fixed part of the WHERE clause: `start_date <= $1 AND (end_date IS NULL OR end_date >= $2)`. */
  predicate InWindow(s: Subscription, windowStart: Date, windowEnd: Date)
  {
    NotAfter(s.startDate, windowEnd) && (s.endDate.None? || NotAfter(windowStart, s.endDate.value))
  }

  /** A row the cost query sums over: inside the window and selected by the optional filters. */
  predicate Counted(s: Subscription, f: CostFilter)
  {
    InWindow(s, f.startDate, f.endDate) && Selected(f.userId, f.serviceName, s)
  }

  /** What one row adds to the total. */
  function Charge(s: Subscription, f: CostFilter): int
  {
    if Counted(s, f) then Contribution(s, f.startDate, f.endDate) else 0
  }

  /** The sum of the charges of the rows named by `ids`; the empty sum is 0 (`COALESCE(SUM(...), 0)`). */
  ghost function SumCharges(rows: map<Uuid, Subscription>, ids: set<Uuid>, f: CostFilter): int
    requires ids <= rows.Keys
    decreases ids
  {
    if ids == {} then 0
    else
      var k :| k in ids;
      Charge(rows[k], f) + SumCharges(rows, ids - {k}, f)
  }

  /** The value the cost query returns for a table. */
  ghost function TotalCost(rows: map<Uuid, Subscription>, f: CostFilter): int
  {
    SumCharges(rows, rows.Keys, f)
  }

  /** A subscription whose end, when it has one, is not before its start. */
  predicate WellOrdered(s: Subscription)
  {
    s.endDate.Some? ==> NotAfter(s.startDate, s.endDate.value)
  }

  // ---------------------------------------------------------------------------
  // One row

  /** The billed months in month numbers: overlap of [start, end or window end] and the window. */
  lemma BilledMonthsByIndex(s: Subscription, windowStart: Date, windowEnd: Date)
    ensures var last := if s.endDate.Some? && Index(s.endDate.value) < Index(windowEnd)
                        then Index(s.endDate.value) else Index(windowEnd);
            var first := if Index(windowStart) < Index(s.startDate) then Index(s.startDate) else Index(windowStart);
            BilledMonths(s, windowStart, windowEnd) == last - first + 1
  {
  }

  /**
   * A well-ordered row inside a well-ordered window is billed for at least one
   * month, so it adds at least its price.
   */
  lemma CountedRowAddsAtLeastPrice(s: Subscription, windowStart: Date, windowEnd: Date)
    requires WellOrdered(s) && NotAfter(windowStart, windowEnd)
    requires InWindow(s, windowStart, windowEnd)
    requires s.price >= 0
    ensures BilledMonths(s, windowStart, windowEnd) >= 1
    ensures Contribution(s, windowStart, windowEnd) >= s.price
  {
    NotAfterIsIndexOrder(windowStart, windowEnd);
    NotAfterIsIndexOrder(s.startDate, windowEnd);
    if s.endDate.Some? {
      NotAfterIsIndexOrder(s.startDate, s.endDate.value);
      NotAfterIsIndexOrder(windowStart, s.endDate.value);
    }
    var m := BilledMonths(s, windowStart, windowEnd);
    assert m >= 1;
    assert s.price * m == s.price + s.price * (m - 1);
  }

  /** A row that covers the whole window is billed for every month of it. */
  lemma CoveringRowBillsWholeWindow(s: Subscription, windowStart: Date, windowEnd: Date)
    requires NotAfter(s.startDate, windowStart)
    requires s.endDate.None? || NotAfter(windowEnd, s.endDate.value)
    ensures BilledMonths(s, windowStart, windowEnd) == Index(windowEnd) - Index(windowStart) + 1
    ensures Contribution(s, windowStart, windowEnd) == s.price * (Index(windowEnd) - Index(windowStart) + 1)
  {
    NotAfterIsIndexOrder(s.startDate, windowStart);
    if s.endDate.Some? {
      NotAfterIsIndexOrder(windowEnd, s.endDate.value);
    }
  }

  /** A row that starts after the window or ends before it is filtered out and adds nothing. */
  lemma DisjointRowAddsNothing(s: Subscription, f: CostFilter)
    requires Index(f.endDate) < Index(s.startDate) || (s.endDate.Some? && Index(s.endDate.value) < Index(f.startDate))
    ensures !Counted(s, f) && Charge(s, f) == 0
  {
    NotAfterIsIndexOrder(s.startDate, f.endDate);
    if s.endDate.Some? {
      NotAfterIsIndexOrder(f.startDate, s.endDate.value);
    }
  }

  /** For a fixed positive number of billed months, a higher price adds strictly more. */
  lemma ContributionGrowsWithPrice(s: Subscription, windowStart: Date, windowEnd: Date, higher: int)
    requires BilledMonths(s, windowStart, windowEnd) > 0
    requires s.price < higher
    ensures Contribution(s, windowStart, windowEnd) < Contribution(s.(price := higher), windowStart, windowEnd)
  {
    var m := BilledMonths(s, windowStart, windowEnd);
    assert BilledMonths(s.(price := higher), windowStart, windowEnd) == m;
    assert higher * m - s.price * m == (higher - s.price) * m;
  }

  /**
   * Nothing stops a row whose end precedes its start: it passes the WHERE clause
   * and its contribution is negative (here -2 months at 100).
   */
  lemma InvertedRowAddsNegative()
    ensures var s := Subscription(Uuid(0), "x", 100, Uuid(0), YearMonth(2025, 6), Some(YearMonth(2025, 3)), 0, 0);
            var f := CostFilter(None, "", YearMonth(2025, 1), YearMonth(2025, 12));
            Counted(s, f) && Charge(s, f) == -200
  {
  }

  /**
   * Nothing stops a window whose start follows its end either: an open-ended row
   * from before both passes the WHERE clause and adds a negative amount.
   */
  lemma InvertedWindowAddsNegative()
    ensures var s := Subscription(Uuid(0), "x", 100, Uuid(0), YearMonth(2025, 1), None, 0, 0);
            var f := CostFilter(None, "", YearMonth(2025, 6), YearMonth(2025, 3));
            Counted(s, f) && Charge(s, f) == -200
  {
  }

  /** The worked examples: a year at 400 costs 4800, one month of it 400, a later start nothing, half a year at 300 costs 1800. */
  lemma WorkedExamples()
    ensures var s := Subscription(Uuid(0), "x", 400, Uuid(0), YearMonth(2025, 1), Some(YearMonth(2025, 12)), 0, 0);
            && Charge(s, CostFilter(None, "", YearMonth(2025, 1), YearMonth(2025, 12))) == 4800
            && Charge(s, CostFilter(None, "", YearMonth(2025, 6), YearMonth(2025, 6))) == 400
    ensures var s := Subscription(Uuid(0), "x", 300, Uuid(0), YearMonth(2025, 3), None, 0, 0);
            Charge(s, CostFilter(None, "", YearMonth(2025, 1), YearMonth(2025, 2))) == 0
    ensures var s := Subscription(Uuid(0), "x", 300, Uuid(0), YearMonth(2025, 1), None, 0, 0);
            Charge(s, CostFilter(None, "", YearMonth(2025, 1), YearMonth(2025, 6))) == 1800
  {
  }

  // ---------------------------------------------------------------------------
  // The sum over the table

  /** The sum does not depend on the order the rows are visited in. */
  lemma {:induction false} SumChargesPick(rows: map<Uuid, Subscription>, ids: set<Uuid>, f: CostFilter, k: Uuid)
    requires ids <= rows.Keys && k in ids
    ensures SumCharges(rows, ids, f) == Charge(rows[k], f) + SumCharges(rows, ids - {k}, f)
    decreases ids
  {
    var j :| j in ids && SumCharges(rows, ids, f) == Charge(rows[j], f) + SumCharges(rows, ids - {j}, f);
    if j != k {
      SumChargesPick(rows, ids - {j}, f, k);
      SumChargesPick(rows, ids - {k}, f, j);
      assert ids - {j} - {k} == ids - {k} - {j};
    }
  }

  /** The sum reads only the rows it names. */
  lemma {:induction false} SumChargesFrame(rows: map<Uuid, Subscription>, other: map<Uuid, Subscription>, ids: set<Uuid>, f: CostFilter)
    requires ids <= rows.Keys && ids <= other.Keys
    requires forall k :: k in ids ==> rows[k] == other[k]
    ensures SumCharges(rows, ids, f) == SumCharges(other, ids, f)
    decreases ids
  {
    if ids != {} {
      var k :| k in ids;
      SumChargesPick(rows, ids, f, k);
      SumChargesPick(other, ids, f, k);
      SumChargesFrame(rows, other, ids - {k}, f);
    }
  }

  lemma {:induction false} SumChargesZero(rows: map<Uuid, Subscription>, ids: set<Uuid>, f: CostFilter)
    requires ids <= rows.Keys
    requires forall k :: k in ids ==> !Counted(rows[k], f)
    ensures SumCharges(rows, ids, f) == 0
    decreases ids
  {
    if ids != {} {
      var k :| k in ids;
      SumChargesPick(rows, ids, f, k);
      SumChargesZero(rows, ids - {k}, f);
    }
  }

  lemma {:induction false} SumChargesNonNegative(rows: map<Uuid, Subscription>, ids: set<Uuid>, f: CostFilter)
    requires ids <= rows.Keys
    requires NotAfter(f.startDate, f.endDate)
    requires forall k :: k in ids ==> WellOrdered(rows[k]) && rows[k].price >= 0
    ensures SumCharges(rows, ids, f) >= 0
    decreases ids
  {
    if ids != {} {
      var k :| k in ids;
      SumChargesPick(rows, ids, f, k);
      SumChargesNonNegative(rows, ids - {k}, f);
      if Counted(rows[k], f) {
        CountedRowAddsAtLeastPrice(rows[k], f.startDate, f.endDate);
      }
    }
  }

  /** When no row passes the WHERE clause, the total is 0. */
  lemma TotalCostOfNothingIsZero(rows: map<Uuid, Subscription>, f: CostFilter)
    requires forall k :: k in rows ==> !Counted(rows[k], f)
    ensures TotalCost(rows, f) == 0
  {
    SumChargesZero(rows, rows.Keys, f);
  }

  /**
   * With well-ordered rows of non-negative price and a well-ordered window, the
   * total is not negative; neither ordering is checked by the service.
   */
  lemma TotalCostNonNegative(rows: map<Uuid, Subscription>, f: CostFilter)
    requires NotAfter(f.startDate, f.endDate)
    requires forall k :: k in rows ==> WellOrdered(rows[k]) && rows[k].price >= 0
    ensures TotalCost(rows, f) >= 0
  {
    SumChargesNonNegative(rows, rows.Keys, f);
  }

  /** Inserting a row adds exactly its charge to the total. */
  lemma TotalCostAfterInsert(rows: map<Uuid, Subscription>, s: Subscription, f: CostFilter)
    requires s.id !in rows
    ensures TotalCost(rows[s.id := s], f) == TotalCost(rows, f) + Charge(s, f)
  {
    var grown := rows[s.id := s];
    SumChargesPick(grown, grown.Keys, f, s.id);
    assert grown.Keys - {s.id} == rows.Keys;
    forall k | k in rows.Keys ensures grown[k] == rows[k] {}
    SumChargesFrame(grown, rows, rows.Keys, f);
  }

  /** Deleting a row removes exactly its charge from the total. */
  lemma TotalCostAfterDelete(rows: map<Uuid, Subscription>, id: Uuid, f: CostFilter)
    requires id in rows
    ensures TotalCost(rows - {id}, f) == TotalCost(rows, f) - Charge(rows[id], f)
  {
    var shrunk := rows - {id};
    SumChargesPick(rows, rows.Keys, f, id);
    assert rows.Keys - {id} == shrunk.Keys;
    forall k | k in shrunk.Keys ensures rows[k] == shrunk[k] {}
    SumChargesFrame(rows, shrunk, shrunk.Keys, f);
  }
}
