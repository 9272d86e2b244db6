/**
 * The Postgres-backed subscription repository. The store holds the
 * `subscriptions` table; each method builds its statement, runs it against the
 * table and maps "no rows" to `ErrNotFound`. `dbError`, when given, is the
 * failure the driver reports for the statement, which the method wraps with its
 * own operation name and returns without changing anything.
 */
module Repository {
  import opened Wrappers
  import opened Models
  import opened Errors
  import opened Queries
  import opened Proration
  import opened Table

  /** The page the list query returns of the ordered rows: OFFSET and LIMIT only when positive. */
  function ListPage(all: seq<Subscription>, f: SubscriptionFilter): seq<Subscription>
  {
    Page(all, if f.limit > 0 then Some(f.limit) else None, if f.offset > 0 then Some(f.offset) else None)
  }

  /** Adding an element a set lacks adds one occurrence to its multiset. */
  lemma AddToSet<T>(a: set<T>, x: T)
    requires x !in a
    ensures multiset(a + {x}) == multiset(a) + multiset{x}
  {
  }

  class SubscriptionStore {
    var rows: Rows

    ghost predicate Valid()
      reads this
    {
      Keyed(rows)
    }

    constructor ()
      ensures Valid() && rows == map[]
    {
      rows := map[];
    }

    /** INSERT of all eight columns. */
    method Create(s: Subscription, dbError: Option<string>) returns (r: Outcome<Error>)
      requires Valid()
      modifies this
      ensures Valid()
      ensures dbError.Some? ==> r == Fail(Wrapped("failed to create subscription", dbError.value)) && rows == old(rows)
      ensures dbError.None? && Inserted(old(rows), s).Ok? ==> r == Pass && rows == Inserted(old(rows), s).value
      ensures dbError.None? && Inserted(old(rows), s).Err? ==> r == Fail(Inserted(old(rows), s).error) && rows == old(rows)
    {
      if dbError.Some? {
        return Fail(Wrapped("failed to create subscription", dbError.value));
      }
      if s.id in rows {
        return Fail(Wrapped("failed to create subscription", DuplicateKey));
      }
      rows := rows[s.id := s];
      r := Pass;
    }

    /** SELECT of one row by id. */
    method GetByID(id: Uuid, dbError: Option<string>) returns (r: Result<Subscription, Error>)
      ensures dbError.Some? ==> r == Err(Wrapped("failed to get subscription", dbError.value))
      ensures dbError.None? ==> r == Lookup(rows, id)
    {
      if dbError.Some? {
        return Err(Wrapped("failed to get subscription", dbError.value));
      }
      if id !in rows {
        return Err(NotFound);
      }
      r := Ok(rows[id]);
    }

    /**
     * The list query: the WHERE clause from the filters, `ORDER BY created_at
     * DESC`, then OFFSET and LIMIT when they are positive.
     */
    method GetAll(f: SubscriptionFilter, dbError: Option<string>) returns (r: Result<seq<Subscription>, Error>)
      requires Valid()
      ensures dbError.Some? ==> r == Err(Wrapped("failed to get subscriptions", dbError.value))
      ensures dbError.None? ==> r.Ok? && exists all :: Listing(rows, f, all) && r.value == ListPage(all, f)
    {
      if dbError.Some? {
        return Err(Wrapped("failed to get subscriptions", dbError.value));
      }
      var q := BuildSelectQuery(f);
      var all: seq<Subscription> := [];
      var remaining := rows.Keys;
      ghost var visited: set<Uuid> := {};
      while remaining != {}
        invariant remaining <= rows.Keys && visited == rows.Keys - remaining
        invariant NewestFirst(all)
        invariant multiset(all) == multiset(SelectedAmong(rows, visited, f.userId, f.serviceName))
        decreases remaining
      {
        var k :| k in remaining;
        ghost var before := SelectedAmong(rows, visited, f.userId, f.serviceName);
        SelectedAmongGrows(rows, visited, k, f.userId, f.serviceName);
        if AllHold(q.conditions, q.args, rows[k]) {
          assert Selected(f.userId, f.serviceName, rows[k]);
          all := InsertNewest(rows[k], all);
          AddToSet(before, rows[k]);
        } else {
          assert !Selected(f.userId, f.serviceName, rows[k]);
          assert before + {} == before;
        }
        remaining := remaining - {k};
        visited := visited + {k};
      }
      assert visited == rows.Keys;
      r := Ok(Page(all, BoundInt(q.limitSlot, q.args), BoundInt(q.offsetSlot, q.args)));
      assert Listing(rows, f, all) && r.value == ListPage(all, f);
    }

    /** UPDATE of the five editable columns of the row with `s.id`. */
    method Update(s: Subscription, dbError: Option<string>) returns (r: Outcome<Error>)
      requires Valid()
      modifies this
      ensures Valid()
      ensures dbError.Some? ==> r == Fail(Wrapped("failed to update subscription", dbError.value)) && rows == old(rows)
      ensures dbError.None? && Replaced(old(rows), s).Ok? ==> r == Pass && rows == Replaced(old(rows), s).value
      ensures dbError.None? && Replaced(old(rows), s).Err? ==> r == Fail(NotFound) && rows == old(rows)
    {
      if dbError.Some? {
        return Fail(Wrapped("failed to update subscription", dbError.value));
      }
      if s.id !in rows {
        return Fail(NotFound);
      }
      rows := rows[s.id := WithColumns(rows[s.id], s)];
      r := Pass;
    }

    /**
     * The locked read-modify-write: the row is read under a lock, `mutate`
     * changes it, and its editable columns are written back in the same
     * transaction; any failure rolls the transaction back.
     */
    method UpdateAtomically(id: Uuid, mutate: Subscription -> Result<Subscription, Error>)
      returns (r: Result<Subscription, Error>)
      requires Valid()
      modifies this
      ensures Valid()
      ensures (r, rows) == Atomically(old(rows), id, mutate)
    {
      if id !in rows {
        return Err(NotFound);
      }
      var locked := rows[id];
      var changed := mutate(locked);
      if changed.Err? {
        return Err(changed.error);
      }
      rows := rows[id := WithColumns(locked, changed.value)];
      r := Ok(changed.value);
    }

    /** DELETE of the row with `id`. */
    method Delete(id: Uuid, dbError: Option<string>) returns (r: Outcome<Error>)
      requires Valid()
      modifies this
      ensures Valid()
      ensures dbError.Some? ==> r == Fail(Wrapped("failed to delete subscription", dbError.value)) && rows == old(rows)
      ensures dbError.None? && Removed(old(rows), id).Ok? ==> r == Pass && rows == Removed(old(rows), id).value
      ensures dbError.None? && Removed(old(rows), id).Err? ==> r == Fail(NotFound) && rows == old(rows)
    {
      if dbError.Some? {
        return Fail(Wrapped("failed to delete subscription", dbError.value));
      }
      if id !in rows {
        return Fail(NotFound);
      }
      rows := rows - {id};
      r := Pass;
    }

    /**
     * The cost query: the sum, over the rows its WHERE clause lets through, of
     * price times the months billed inside the window; 0 when no row qualifies.
     */
    method GetTotalCost(f: CostFilter, dbError: Option<string>) returns (r: Result<int, Error>)
      ensures dbError.Some? ==> r == Err(Wrapped("failed to calculate total cost", dbError.value))
      ensures dbError.None? ==> r == Ok(TotalCost(rows, f))
    {
      if dbError.Some? {
        return Err(Wrapped("failed to calculate total cost", dbError.value));
      }
      var q := BuildCostQuery(f);
      var windowEnd, windowStart := q.args[0].date, q.args[1].date;
      var total := 0;
      var remaining := rows.Keys;
      ghost var visited: set<Uuid> := {};
      while remaining != {}
        invariant remaining <= rows.Keys && visited == rows.Keys - remaining
        invariant total == SumCharges(rows, visited, f)
        decreases remaining
      {
        var k :| k in remaining;
        var s := rows[k];
        if InWindow(s, windowStart, windowEnd) && AllHold(q.conditions, q.args, s) {
          total := total + s.price * BilledMonths(s, windowStart, windowEnd);
        }
        SumChargesPick(rows, visited + {k}, f, k);
        assert visited + {k} - {k} == visited;
        remaining := remaining - {k};
        visited := visited + {k};
      }
      assert visited == rows.Keys;
      r := Ok(total);
    }
  }
}
