/**
 * The `subscriptions` table as a value, and what each statement the store sends
 * does to it: INSERT, SELECT by id, UPDATE of the editable columns, DELETE, the
 * ordered and paged list query, and the locked read-modify-write.
 */
module Table {
  import opened Wrappers
  import opened Models
  import opened Errors
  import opened Queries
  import opened Proration

  /** The rows, by primary key. */
  type Rows = map<Uuid, Subscription>

  /** Every row is stored under its own id. */
  predicate Keyed(rows: Rows)
  {
    forall k :: k in rows ==> rows[k].id == k
  }

  /** A database failure wrapped with the operation's name (`fmt.Errorf("<operation>: %w", err)`). */
  function Wrapped(operation: string, cause: string): Error
  {
    Storage(operation + ": " + cause)
  }

  /** The cause the database gives for a second row with the same primary key. */
  const DuplicateKey := "duplicate key value violates unique constraint"

  // ---------------------------------------------------------------------------
  // Single-row statements

  /** `SELECT ... WHERE id = $1`; no row is `ErrNotFound`. */
  function Lookup(rows: Rows, id: Uuid): Result<Subscription, Error>
  {
    if id in rows then Ok(rows[id]) else Err(NotFound)
  }

  /** `INSERT` of all eight columns; the primary key refuses an id already present. */
  function Inserted(rows: Rows, s: Subscription): Result<Rows, Error>
  {
    if s.id in rows then Err(Wrapped("failed to create subscription", DuplicateKey))
    else Ok(rows[s.id := s])
  }

  /**
   * The row after `UPDATE ... SET service_name, price, start_date, end_date,
   * updated_at`: those five columns come from `s`, the rest stay as stored.
   */
  function WithColumns(stored: Subscription, s: Subscription): (r: Subscription)
    ensures r.id == stored.id && r.userId == stored.userId && r.createdAt == stored.createdAt
    ensures r.serviceName == s.serviceName && r.price == s.price && r.startDate == s.startDate
    ensures r.endDate == s.endDate && r.updatedAt == s.updatedAt
  {
    stored.(serviceName := s.serviceName, price := s.price, startDate := s.startDate,
            endDate := s.endDate, updatedAt := s.updatedAt)
  }

  /** `UPDATE ... WHERE id = $6`; no row affected is `ErrNotFound`. */
  function Replaced(rows: Rows, s: Subscription): Result<Rows, Error>
  {
    if s.id in rows then Ok(rows[s.id := WithColumns(rows[s.id], s)]) else Err(NotFound)
  }

  /** `DELETE ... WHERE id = $1`; no row affected is `ErrNotFound`. */
  function Removed(rows: Rows, id: Uuid): Result<Rows, Error>
  {
    if id in rows then Ok(rows - {id}) else Err(NotFound)
  }

  /**
   * The locked read-modify-write: read the row (`ErrNotFound` when there is
   * none), let `mutate` change it (its error rolls everything back), write the
   * editable columns to the row that was read, and return the changed value.
   */
  function Atomically(rows: Rows, id: Uuid, mutate: Subscription -> Result<Subscription, Error>)
    : (Result<Subscription, Error>, Rows)
  {
    if id !in rows then (Err(NotFound), rows)
    else
      var changed := mutate(rows[id]);
      if changed.Err? then (Err(changed.error), rows)
      else (Ok(changed.value), rows[id := WithColumns(rows[id], changed.value)])
  }

  lemma CreatedRowIsFound(rows: Rows, s: Subscription, other: Uuid)
    requires s.id !in rows
    ensures Inserted(rows, s).Ok?
    ensures Lookup(Inserted(rows, s).value, s.id) == Ok(s)
    ensures other != s.id ==> Lookup(Inserted(rows, s).value, other) == Lookup(rows, other)
  {
  }

  lemma CreateTwiceFails(rows: Rows, s: Subscription, t: Subscription)
    requires s.id !in rows && t.id == s.id
    ensures Inserted(rows, s).Ok? && Inserted(Inserted(rows, s).value, t).Err?
  {
  }

  lemma CreateKeepsKeyed(rows: Rows, s: Subscription)
    requires Keyed(rows) && Inserted(rows, s).Ok?
    ensures Keyed(Inserted(rows, s).value)
  {
  }

  /** An update never creates a row, never removes one, and touches only its own. */
  lemma UpdateTouchesOneRow(rows: Rows, s: Subscription, other: Uuid)
    requires Keyed(rows)
    ensures Replaced(rows, s).Ok? <==> Lookup(rows, s.id).Ok?
    ensures Replaced(rows, s).Ok? ==> Replaced(rows, s).value.Keys == rows.Keys && Keyed(Replaced(rows, s).value)
    ensures Replaced(rows, s).Ok? && other != s.id ==> Lookup(Replaced(rows, s).value, other) == Lookup(rows, other)
  {
  }

  /** Reading back after an update gives the stored identity with the new column values. */
  lemma UpdatedRowReadsBack(rows: Rows, s: Subscription)
    requires Keyed(rows) && s.id in rows
    ensures Replaced(rows, s).Ok?
    ensures var r := Lookup(Replaced(rows, s).value, s.id);
            && r.Ok? && r.value.id == s.id
            && r.value.userId == rows[s.id].userId && r.value.createdAt == rows[s.id].createdAt
            && r.value.serviceName == s.serviceName && r.value.price == s.price
            && r.value.startDate == s.startDate && r.value.endDate == s.endDate
            && r.value.updatedAt == s.updatedAt
  {
  }

  lemma UpdateIsIdempotent(rows: Rows, s: Subscription)
    requires s.id in rows
    ensures Replaced(Replaced(rows, s).value, s) == Replaced(rows, s)
  {
    var once := WithColumns(rows[s.id], s);
    var after := rows[s.id := once];
    assert WithColumns(after[s.id], s) == once;
    assert after[s.id := once] == after;
  }

  /** A deleted row is gone and a second delete of it reports `ErrNotFound`. */
  lemma DeletedRowIsGone(rows: Rows, id: Uuid, other: Uuid)
    requires id in rows
    ensures Removed(rows, id).Ok?
    ensures Lookup(Removed(rows, id).value, id) == Err(NotFound)
    ensures Removed(Removed(rows, id).value, id) == Err(NotFound)
    ensures other != id ==> Lookup(Removed(rows, id).value, other) == Lookup(rows, other)
  {
  }

  lemma DeleteAfterCreateRestores(rows: Rows, s: Subscription)
    requires s.id !in rows
    ensures Inserted(rows, s).Ok?
    ensures Removed(Inserted(rows, s).value, s.id) == Ok(rows)
  {
    assert rows[s.id := s] - {s.id} == rows;
  }

  /** Updating a row changes the period total by the difference of its old and new charges. */
  lemma UpdateChangesTotalByDifference(rows: Rows, s: Subscription, f: CostFilter)
    requires Keyed(rows) && s.id in rows
    ensures Replaced(rows, s).Ok?
    ensures TotalCost(Replaced(rows, s).value, f)
            == TotalCost(rows, f) - Charge(rows[s.id], f) + Charge(WithColumns(rows[s.id], s), f)
  {
    var rest := rows - {s.id};
    var updated := WithColumns(rows[s.id], s);
    TotalCostAfterDelete(rows, s.id, f);
    TotalCostAfterInsert(rest, updated, f);
    assert rest[s.id := updated] == rows[s.id := updated];
  }

  /** When `mutate` succeeds, the locked update writes what an UPDATE of the changed row at that id writes. */
  lemma AtomicallyIsReadThenUpdate(rows: Rows, id: Uuid, mutate: Subscription -> Result<Subscription, Error>)
    requires Keyed(rows) && id in rows && mutate(rows[id]).Ok?
    ensures var changed := mutate(rows[id]).value;
            Atomically(rows, id, mutate) == (Ok(changed), Replaced(rows, changed.(id := id)).value)
  {
  }

  /** A missing row or a failing `mutate` leaves the table as it was. */
  lemma AtomicallyFailureChangesNothing(rows: Rows, id: Uuid, mutate: Subscription -> Result<Subscription, Error>)
    requires id !in rows || mutate(rows[id]).Err?
    ensures Atomically(rows, id, mutate).0.Err? && Atomically(rows, id, mutate).1 == rows
    ensures id !in rows ==> Atomically(rows, id, mutate).0 == Err(NotFound)
  {
  }

  /** Two locked updates of one row in a row: the second starts from the first's result, so the last write wins. */
  lemma SequentialAtomicUpdatesLastWins(rows: Rows, id: Uuid)
    requires Keyed(rows) && id in rows
    ensures var first := Atomically(rows, id, (s: Subscription) => Ok(s.(price := 500)));
            var second := Atomically(first.1, id, (s: Subscription) => Ok(s.(price := 700)));
            && first.0.Ok? && first.0.value.price == 500
            && second.0.Ok? && second.0.value.price == 700
            && Lookup(second.1, id) == Ok(rows[id].(price := 700))
            && second.1.Keys == rows.Keys
  {
    var first := Atomically(rows, id, (s: Subscription) => Ok(s.(price := 500)));
    assert first.1[id] == rows[id].(price := 500);
    var second := Atomically(first.1, id, (s: Subscription) => Ok(s.(price := 700)));
    assert second.1[id] == rows[id].(price := 700);
  }

  // ---------------------------------------------------------------------------
  // The list query

  /** `ORDER BY created_at DESC`. */
  predicate NewestFirst(s: seq<Subscription>)
  {
    forall i, j :: 0 <= i < j < |s| ==> s[i].createdAt >= s[j].createdAt
  }

  /** The rows among `keys` that the optional filters select. */
  function SelectedAmong(rows: Rows, keys: set<Uuid>, userId: Option<Uuid>, serviceName: string): set<Subscription>
  {
    set k | k in keys && k in rows && Selected(userId, serviceName, rows[k]) :: rows[k]
  }

  /** `all` is the result of the list query before LIMIT and OFFSET: every selected row once, newest first. */
  predicate Listing(rows: Rows, f: SubscriptionFilter, all: seq<Subscription>)
  {
    NewestFirst(all) && multiset(all) == multiset(SelectedAmong(rows, rows.Keys, f.userId, f.serviceName))
  }

  /** How many rows `OFFSET offset` skips of `count`. */
  function Skipped(count: nat, offset: Option<int>): (n: nat)
    ensures n <= count
    ensures offset.Some? && 0 <= offset.value <= count ==> n == offset.value
    ensures offset.Some? && offset.value > count ==> n == count
    ensures offset.None? || offset.value < 0 ==> n == 0
  {
    if offset.None? || offset.value < 0 then 0
    else if offset.value > count then count
    else offset.value
  }

  /** `[LIMIT l] [OFFSET o]` applied to the ordered rows. */
  function Page<T>(all: seq<T>, limit: Option<int>, offset: Option<int>): (page: seq<T>)
    ensures |page| <= |all| - Skipped(|all|, offset)
    ensures limit.Some? && limit.value >= 0 ==> |page| <= limit.value
    ensures limit.Some? && 0 <= limit.value <= |all| - Skipped(|all|, offset) ==> |page| == limit.value
    ensures (limit.None? || limit.value >= |all| - Skipped(|all|, offset)) ==> |page| == |all| - Skipped(|all|, offset)
    ensures forall i :: 0 <= i < |page| ==> page[i] == all[Skipped(|all|, offset) + i]
  {
    var rest := all[Skipped(|all|, offset)..];
    if limit.Some? && 0 <= limit.value < |rest| then rest[..limit.value] else rest
  }

  /** Two consecutive pages of `n` rows together are the page of `2n` rows at the first offset. */
  lemma {:induction false} PagesTile<T>(all: seq<T>, n: nat, o: nat)
    ensures Page(all, Some(n), Some(o)) + Page(all, Some(n), Some(o + n)) == Page(all, Some(2 * n), Some(o))
  {
    var a, b, c := Page(all, Some(n), Some(o)), Page(all, Some(n), Some(o + n)), Page(all, Some(2 * n), Some(o));
    if o + n <= |all| {
      assert |a| == n;
      assert |a + b| == |c|;
    } else {
      assert |b| == 0;
      assert |a| == |c|;
    }
    forall i | 0 <= i < |c| ensures (a + b)[i] == c[i] {
      if i >= |a| {
        assert (a + b)[i] == b[i - |a|];
      }
    }
  }

  /** Without a positive limit or offset the list query returns every selected row. */
  lemma NoPagingReturnsAll<T>(all: seq<T>)
    ensures Page(all, None, None) == all
  {
  }

  /** Putting a row into a newest-first list at its place; equal timestamps go in front. */
  function InsertNewest(x: Subscription, sorted: seq<Subscription>): (r: seq<Subscription>)
    requires NewestFirst(sorted)
    ensures NewestFirst(r)
    ensures multiset(r) == multiset(sorted) + multiset{x}
    decreases |sorted|
  {
    if sorted == [] || sorted[0].createdAt <= x.createdAt then
      ConsNewest(x, sorted);
      [x] + sorted
    else
      var tail := InsertNewest(x, sorted[1..]);
      assert sorted == [sorted[0]] + sorted[1..];
      forall y | y in tail ensures y.createdAt <= sorted[0].createdAt {
        assert y in multiset(tail);
        if y != x {
          assert y in sorted[1..];
        }
      }
      ConsNewest(sorted[0], tail);
      [sorted[0]] + tail
  }

  /** A row no younger than every row of a newest-first list can go in front of it. */
  lemma ConsNewest(x: Subscription, s: seq<Subscription>)
    requires NewestFirst(s)
    requires forall y :: y in s ==> y.createdAt <= x.createdAt
    ensures NewestFirst([x] + s)
  {
    var r := [x] + s;
    forall i, j | 0 <= i < j < |r| ensures r[i].createdAt >= r[j].createdAt {
      assert r[j] == s[j - 1];
      if i > 0 {
        assert r[i] == s[i - 1];
      }
    }
  }

  /** Visiting one more key adds its row to the selected set when the filters select it. */
  lemma SelectedAmongGrows(rows: Rows, keys: set<Uuid>, k: Uuid, userId: Option<Uuid>, serviceName: string)
    requires Keyed(rows) && k in rows && k !in keys
    ensures rows[k] !in SelectedAmong(rows, keys, userId, serviceName)
    ensures SelectedAmong(rows, keys + {k}, userId, serviceName)
            == SelectedAmong(rows, keys, userId, serviceName)
               + (if Selected(userId, serviceName, rows[k]) then {rows[k]} else {})
  {
  }

  /** The selected rows are no more than the keys they come from. */
  lemma {:induction false} SelectedAmongIsSmall(rows: Rows, keys: set<Uuid>, userId: Option<Uuid>, serviceName: string)
    ensures |SelectedAmong(rows, keys, userId, serviceName)| <= |keys|
    decreases keys
  {
    var selected := SelectedAmong(rows, keys, userId, serviceName);
    if keys == {} {
      assert selected == {};
    } else {
      var k :| k in keys;
      var rest := SelectedAmong(rows, keys - {k}, userId, serviceName);
      SelectedAmongIsSmall(rows, keys - {k}, userId, serviceName);
      if k in rows {
        assert selected <= rest + {rows[k]};
        SubsetIsSmaller(selected, rest + {rows[k]});
      } else {
        assert selected == rest;
      }
    }
  }

  lemma {:induction false} SubsetIsSmaller<T>(a: set<T>, b: set<T>)
    requires a <= b
    ensures |a| <= |b|
    decreases b
  {
    if a != {} {
      var x :| x in a;
      SubsetIsSmaller(a - {x}, b - {x});
    }
  }
}
