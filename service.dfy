/**
 * The subscription service: checks and converts request fields, builds the
 * stored record, patches records field by field, and wraps the period total in
 * a response with its currency. The clock (`time.Now()`) and the id generator
 * (`uuid.New()`) are inputs of the methods; the UUID text parser (`uuid.Parse`)
 * is a function the service is given.
 */
module Service {
  import opened Wrappers
  import opened Calendar
  import opened Models
  import opened Errors
  import opened Proration
  import opened Table
  import opened Repository

  /** The currency every total is reported in. */
  const Currency := "RUB"

  // ---------------------------------------------------------------------------
  // Create

  /**
   * The checks of `Create` in their order (user id, then start date, then the end
   * date when one is given) and the record it builds from a request that passes.
   */
  function NewSubscription(req: CreateSubscriptionReq, parseUuid: string -> Option<Uuid>, id: Uuid, now: Timestamp)
    : Result<Subscription, Error>
  {
    var userId := parseUuid(req.userId);
    if userId.None? then Err(InvalidUserId)
    else
      var start := ParseMonthYear(req.startDate);
      if start.None? then Err(InvalidStartDate)
      else if req.endDate != "" && ParseMonthYear(req.endDate).None? then Err(InvalidEndDate)
      else
        var end := if req.endDate == "" then None else ParseMonthYear(req.endDate);
        Ok(Subscription(id, req.serviceName, req.price, userId.value, start.value, end, now, now))
  }

  /** A request is accepted exactly when its user id and its dates parse; an empty end date is open-ended. */
  lemma CreateAcceptsExactly(req: CreateSubscriptionReq, parseUuid: string -> Option<Uuid>, id: Uuid, now: Timestamp)
    ensures NewSubscription(req, parseUuid, id, now).Ok?
            <==> parseUuid(req.userId).Some? && ParseMonthYear(req.startDate).Some?
                 && (req.endDate == "" || ParseMonthYear(req.endDate).Some?)
  {
  }

  /** The user id is checked first and the start date before the end date. */
  lemma CreateCheckOrder(req: CreateSubscriptionReq, parseUuid: string -> Option<Uuid>, id: Uuid, now: Timestamp)
    ensures parseUuid(req.userId).None? ==> NewSubscription(req, parseUuid, id, now) == Err(InvalidUserId)
    ensures parseUuid(req.userId).Some? && ParseMonthYear(req.startDate).None?
            ==> NewSubscription(req, parseUuid, id, now) == Err(InvalidStartDate)
    ensures parseUuid(req.userId).Some? && ParseMonthYear(req.startDate).Some?
            && req.endDate != "" && ParseMonthYear(req.endDate).None?
            ==> NewSubscription(req, parseUuid, id, now) == Err(InvalidEndDate)
  {
  }

  /**
   * The record built: the new id, the request's name and price, the parsed user
   * id and dates (which print back as the request's text), no end date exactly
   * when the request has none, and both timestamps equal to the clock.
   */
  lemma CreatedRecord(req: CreateSubscriptionReq, parseUuid: string -> Option<Uuid>, id: Uuid, now: Timestamp)
    requires NewSubscription(req, parseUuid, id, now).Ok?
    ensures var s := NewSubscription(req, parseUuid, id, now).value;
            && s.id == id && s.serviceName == req.serviceName && s.price == req.price
            && Some(s.userId) == parseUuid(req.userId)
            && 0 <= s.startDate.year <= 9999 && FormatMonthYear(s.startDate) == req.startDate
            && (s.endDate.None? <==> req.endDate == "")
            && (s.endDate.Some? ==> 0 <= s.endDate.value.year <= 9999 && FormatMonthYear(s.endDate.value) == req.endDate)
            && s.createdAt == now && s.updatedAt == now
  {
    var s := NewSubscription(req, parseUuid, id, now).value;
    assert Some(s.startDate) == ParseMonthYear(req.startDate);
    if req.endDate != "" {
      assert s.endDate == ParseMonthYear(req.endDate);
    }
  }

  /** Nothing compares the two dates: an end before the start is accepted. */
  lemma CreateAcceptsEndBeforeStart(parseUuid: string -> Option<Uuid>, id: Uuid, now: Timestamp)
    requires parseUuid("u").Some?
    ensures var req := CreateSubscriptionReq("x", 100, "u", "06-2025", "03-2025");
            && NewSubscription(req, parseUuid, id, now).Ok?
            && !WellOrdered(NewSubscription(req, parseUuid, id, now).value)
  {
    assert ParseMonthYear("06-2025") == Some(YearMonth(2025, 6));
    assert ParseMonthYear("03-2025") == Some(YearMonth(2025, 3));
  }

  // ---------------------------------------------------------------------------
  // Update

  /**
   * The field-by-field patch of `Update`: a non-empty name, a positive price and
   * non-empty dates replace the stored values; a date that does not parse fails
   * the update, the start date being checked first.
   */
  function ApplyPatch(s: Subscription, req: UpdateSubscriptionReq): Result<Subscription, Error>
  {
    var named := if req.serviceName != "" then s.(serviceName := req.serviceName) else s;
    var priced := if req.price > 0 then named.(price := req.price) else named;
    if req.startDate != "" && ParseMonthYear(req.startDate).None? then Err(InvalidStartDate)
    else
      var started := if req.startDate != "" then priced.(startDate := ParseMonthYear(req.startDate).value) else priced;
      if req.endDate != "" && ParseMonthYear(req.endDate).None? then Err(InvalidEndDate)
      else Ok(if req.endDate != "" then started.(endDate := ParseMonthYear(req.endDate)) else started)
  }

  /** Each field the request sets is replaced, each field it leaves empty is kept, and the identity never changes. */
  lemma PatchFields(s: Subscription, req: UpdateSubscriptionReq)
    requires ApplyPatch(s, req).Ok?
    ensures var p := ApplyPatch(s, req).value;
            && p.id == s.id && p.userId == s.userId && p.createdAt == s.createdAt && p.updatedAt == s.updatedAt
            && p.serviceName == (if req.serviceName != "" then req.serviceName else s.serviceName)
            && p.price == (if req.price > 0 then req.price else s.price)
            && (req.startDate == "" ==> p.startDate == s.startDate)
            && (req.startDate != "" ==> FormatMonthYear(p.startDate) == req.startDate)
            && (req.endDate == "" ==> p.endDate == s.endDate)
            && (req.endDate != "" ==> p.endDate.Some? && FormatMonthYear(p.endDate.value) == req.endDate)
  {
    var p := ApplyPatch(s, req).value;
    if req.startDate != "" {
      assert Some(p.startDate) == ParseMonthYear(req.startDate);
    }
  }

  /** A patch can set an end date but never remove one. */
  lemma PatchNeverClearsEndDate(s: Subscription, req: UpdateSubscriptionReq)
    requires s.endDate.Some? && ApplyPatch(s, req).Ok?
    ensures ApplyPatch(s, req).value.endDate.Some?
  {
  }

  /** A patch fails exactly when a non-empty date does not parse, and the start date is reported first. */
  lemma PatchFailsExactly(s: Subscription, req: UpdateSubscriptionReq)
    ensures ApplyPatch(s, req).Err?
            <==> (req.startDate != "" && ParseMonthYear(req.startDate).None?) || (req.endDate != "" && ParseMonthYear(req.endDate).None?)
    ensures req.startDate != "" && ParseMonthYear(req.startDate).None? ==> ApplyPatch(s, req) == Err(InvalidStartDate)
    ensures ApplyPatch(s, req).Err? && (req.startDate == "" || ParseMonthYear(req.startDate).Some?)
            ==> ApplyPatch(s, req) == Err(InvalidEndDate)
  {
  }

  /** Applying the same patch twice gives the same record as applying it once. */
  lemma PatchIsIdempotent(s: Subscription, req: UpdateSubscriptionReq)
    requires ApplyPatch(s, req).Ok?
    ensures ApplyPatch(ApplyPatch(s, req).value, req) == ApplyPatch(s, req)
  {
  }

  /** The empty request changes nothing. */
  lemma EmptyPatchIsIdentity(s: Subscription)
    ensures ApplyPatch(s, UpdateSubscriptionReq("", 0, "", "")) == Ok(s)
  {
  }

  /** The patch as a callback that also stamps the update time. */
  function PatchAt(req: UpdateSubscriptionReq, now: Timestamp): Subscription -> Result<Subscription, Error>
  {
    s => var p := ApplyPatch(s, req); if p.Err? then Err(p.error) else Ok(p.value.(updatedAt := now))
  }

  /**
   * `Update` as written, when the database reports no failure: read the row,
   * patch it, stamp it, write it back.
   */
  function UpdatePath(rows: Rows, id: Uuid, req: UpdateSubscriptionReq, now: Timestamp): (Result<Subscription, Error>, Rows)
  {
    var read := Lookup(rows, id);
    if read.Err? then (Err(read.error), rows)
    else
      var p := ApplyPatch(read.value, req);
      if p.Err? then (Err(p.error), rows)
      else
        var stamped := p.value.(updatedAt := now);
        var written := Replaced(rows, stamped);
        if written.Err? then (Err(written.error), rows) else (Ok(stamped), written.value)
  }

  /**
   * Read-then-write gives the same result and the same table as the locked
   * read-modify-write with the patch as its callback; the two differ only when
   * another writer runs between the read and the write.
   */
  lemma UpdatePathIsAtomicUpdate(rows: Rows, id: Uuid, req: UpdateSubscriptionReq, now: Timestamp)
    requires Keyed(rows)
    ensures UpdatePath(rows, id, req, now) == Atomically(rows, id, PatchAt(req, now))
  {
    if id in rows && ApplyPatch(rows[id], req).Ok? {
      var stamped := ApplyPatch(rows[id], req).value.(updatedAt := now);
      PatchFields(rows[id], req);
      assert stamped.id == id;
      assert WithColumns(rows[id], stamped) == WithColumns(rows[id], PatchAt(req, now)(rows[id]).value);
    }
  }

  /** Updating a missing id reports `ErrNotFound` and leaves the table alone. */
  lemma UpdateOfMissingRow(rows: Rows, id: Uuid, req: UpdateSubscriptionReq, now: Timestamp)
    requires id !in rows
    ensures UpdatePath(rows, id, req, now) == (Err(NotFound), rows)
  {
  }

  /** Every stored price is at least 1. */
  predicate PricesPositive(rows: Rows)
  {
    forall k :: k in rows ==> rows[k].price >= 1
  }

  /** A create request that passes binding (`min=1` on the price) builds a record with a positive price. */
  lemma BoundCreateHasPositivePrice(req: CreateSubscriptionReq, parseUuid: string -> Option<Uuid>, id: Uuid, now: Timestamp)
    requires CreateReqBinds(req, parseUuid) && NewSubscription(req, parseUuid, id, now).Ok?
    ensures NewSubscription(req, parseUuid, id, now).value.price >= 1
  {
  }

  /** Storing a bound create request keeps every stored price positive. */
  lemma BoundCreateKeepsPricesPositive(rows: Rows, req: CreateSubscriptionReq, parseUuid: string -> Option<Uuid>,
                                       id: Uuid, now: Timestamp)
    requires PricesPositive(rows) && CreateReqBinds(req, parseUuid) && NewSubscription(req, parseUuid, id, now).Ok?
    ensures var stored := Inserted(rows, NewSubscription(req, parseUuid, id, now).value);
            stored.Ok? ==> PricesPositive(stored.value)
  {
    BoundCreateHasPositivePrice(req, parseUuid, id, now);
  }

  /**
   * An update request that passes binding (`omitempty,min=1`) replaces the price
   * only with a positive one, so every stored price stays positive.
   */
  lemma BoundUpdateKeepsPricesPositive(rows: Rows, id: Uuid, req: UpdateSubscriptionReq, now: Timestamp)
    requires PricesPositive(rows) && UpdateReqBinds(req)
    ensures UpdatePath(rows, id, req, now).0.Ok? ==> UpdatePath(rows, id, req, now).0.value.price >= 1
    ensures PricesPositive(UpdatePath(rows, id, req, now).1)
  {
    if id in rows && ApplyPatch(rows[id], req).Ok? {
      PatchFields(rows[id], req);
    }
  }

  /**
   * Rows written through the bound requests have positive prices, which is the
   * price hypothesis of the non-negative total; the date orderings remain unchecked.
   */
  lemma BoundRowsTotalNonNegative(rows: Rows, f: CostFilter)
    requires PricesPositive(rows) && NotAfter(f.startDate, f.endDate)
    requires forall k :: k in rows ==> WellOrdered(rows[k])
    ensures TotalCost(rows, f) >= 0
  {
    TotalCostNonNegative(rows, f);
  }

  /**
   * Create, read back, then change only the price: the row read back is the
   * created record with both timestamps equal; after the update the price is
   * the new one, the name and dates are kept and the update time has advanced.
   */
  lemma CreateReadUpdateScenario(rows: Rows, req: CreateSubscriptionReq, parseUuid: string -> Option<Uuid>,
                                 id: Uuid, created: Timestamp, later: Timestamp)
    requires Keyed(rows) && id !in rows && created < later
    requires NewSubscription(req, parseUuid, id, created).Ok?
    ensures var s := NewSubscription(req, parseUuid, id, created).value;
            var stored := Inserted(rows, s);
            && stored.Ok? && Lookup(stored.value, id) == Ok(s) && s.createdAt == s.updatedAt
            && var (result, after) := UpdatePath(stored.value, id, UpdateSubscriptionReq("", 600, "", ""), later);
               && result.Ok? && Lookup(after, id) == result
               && result.value.price == 600 && result.value.serviceName == s.serviceName
               && result.value.startDate == s.startDate && result.value.endDate == s.endDate
               && result.value.createdAt == s.createdAt && result.value.updatedAt > s.updatedAt
  {
    var s := NewSubscription(req, parseUuid, id, created).value;
    CreatedRecord(req, parseUuid, id, created);
    var rows1 := rows[id := s];
    var patch := UpdateSubscriptionReq("", 600, "", "");
    assert ApplyPatch(s, patch) == Ok(s.(price := 600));
    var stamped := s.(price := 600).(updatedAt := later);
    assert WithColumns(rows1[id], stamped) == stamped;
  }

  class SubscriptionService {
    const repo: SubscriptionStore
    const parseUuid: string -> Option<Uuid>

    constructor (repo: SubscriptionStore, parseUuid: string -> Option<Uuid>)
      ensures this.repo == repo && this.parseUuid == parseUuid
    {
      this.repo := repo;
      this.parseUuid := parseUuid;
    }

    /** Create: check the fields in order, build the record, store it. */
    method Create(req: CreateSubscriptionReq, newId: Uuid, now: Timestamp, dbError: Option<string>)
      returns (r: Result<Subscription, Error>)
      requires repo.Valid()
      modifies repo
      ensures repo.Valid()
      ensures NewSubscription(req, parseUuid, newId, now).Err?
              ==> r == NewSubscription(req, parseUuid, newId, now) && repo.rows == old(repo.rows)
      ensures NewSubscription(req, parseUuid, newId, now).Ok? && dbError.None? && newId !in old(repo.rows)
              ==> r == NewSubscription(req, parseUuid, newId, now) && repo.rows == old(repo.rows)[newId := r.value]
      ensures NewSubscription(req, parseUuid, newId, now).Ok? && dbError.Some?
              ==> r == Err(Wrapped("failed to create subscription", dbError.value)) && repo.rows == old(repo.rows)
      ensures NewSubscription(req, parseUuid, newId, now).Ok? && dbError.None? && newId in old(repo.rows)
              ==> r == Err(Wrapped("failed to create subscription", DuplicateKey)) && repo.rows == old(repo.rows)
    {
      var userId := parseUuid(req.userId);
      if userId.None? {
        return Err(InvalidUserId);
      }
      var startDate := ParseMonthYear(req.startDate);
      if startDate.None? {
        return Err(InvalidStartDate);
      }
      var endDate: Option<Date> := None;
      if req.endDate != "" {
        var ed := ParseMonthYear(req.endDate);
        if ed.None? {
          return Err(InvalidEndDate);
        }
        endDate := ed;
      }
      var subscription := Subscription(newId, req.serviceName, req.price, userId.value, startDate.value, endDate, now, now);
      var stored := repo.Create(subscription, dbError);
      if stored.Fail? {
        return Err(stored.error);
      }
      r := Ok(subscription);
    }

    method GetByID(id: Uuid, dbError: Option<string>) returns (r: Result<Subscription, Error>)
      ensures dbError.Some? ==> r == Err(Wrapped("failed to get subscription", dbError.value))
      ensures dbError.None? ==> r == Lookup(repo.rows, id)
    {
      r := repo.GetByID(id, dbError);
    }

    method GetAll(f: SubscriptionFilter, dbError: Option<string>) returns (r: Result<seq<Subscription>, Error>)
      requires repo.Valid()
      ensures dbError.Some? ==> r == Err(Wrapped("failed to get subscriptions", dbError.value))
      ensures dbError.None? ==> r.Ok? && exists all :: Listing(repo.rows, f, all) && r.value == ListPage(all, f)
    {
      r := repo.GetAll(f, dbError);
    }

    /**
     * Update as written: read the row (`readError` is the read's failure), patch
     * it, stamp it with the clock, and write it back (`writeError` is the
     * write's failure). Any failure leaves the table unchanged.
     */
    method Update(id: Uuid, req: UpdateSubscriptionReq, now: Timestamp, readError: Option<string>, writeError: Option<string>)
      returns (r: Result<Subscription, Error>)
      requires repo.Valid()
      modifies repo
      ensures repo.Valid()
      ensures readError.Some? ==> r == Err(Wrapped("failed to get subscription", readError.value)) && repo.rows == old(repo.rows)
      ensures readError.None? && writeError.None? ==> (r, repo.rows) == UpdatePath(old(repo.rows), id, req, now)
      ensures readError.None? && writeError.Some? ==> repo.rows == old(repo.rows) && r.Err?
      ensures readError.None? && UpdatePath(old(repo.rows), id, req, now).0.Err?
              ==> r == UpdatePath(old(repo.rows), id, req, now).0 && repo.rows == old(repo.rows)
      ensures readError.None? && writeError.Some? && UpdatePath(old(repo.rows), id, req, now).0.Ok?
              ==> r == Err(Wrapped("failed to update subscription", writeError.value))
    {
      var read := repo.GetByID(id, readError);
      if read.Err? {
        return Err(read.error);
      }
      var subscription := read.value;
      if req.serviceName != "" {
        subscription := subscription.(serviceName := req.serviceName);
      }
      if req.price > 0 {
        subscription := subscription.(price := req.price);
      }
      if req.startDate != "" {
        var startDate := ParseMonthYear(req.startDate);
        if startDate.None? {
          return Err(InvalidStartDate);
        }
        subscription := subscription.(startDate := startDate.value);
      }
      if req.endDate != "" {
        var endDate := ParseMonthYear(req.endDate);
        if endDate.None? {
          return Err(InvalidEndDate);
        }
        subscription := subscription.(endDate := endDate);
      }
      subscription := subscription.(updatedAt := now);
      assert ApplyPatch(read.value, req) == Ok(subscription.(updatedAt := read.value.updatedAt));
      var written := repo.Update(subscription, writeError);
      if written.Fail? {
        return Err(written.error);
      }
      r := Ok(subscription);
    }

    method Delete(id: Uuid, dbError: Option<string>) returns (r: Outcome<Error>)
      requires repo.Valid()
      modifies repo
      ensures repo.Valid()
      ensures dbError.Some? ==> r == Fail(Wrapped("failed to delete subscription", dbError.value)) && repo.rows == old(repo.rows)
      ensures dbError.None? && Removed(old(repo.rows), id).Ok? ==> r == Pass && repo.rows == Removed(old(repo.rows), id).value
      ensures dbError.None? && Removed(old(repo.rows), id).Err? ==> r == Fail(NotFound) && repo.rows == old(repo.rows)
    {
      r := repo.Delete(id, dbError);
    }

    /** The period total from the store, reported in roubles; a store failure is passed on. */
    method GetTotalCost(f: CostFilter, dbError: Option<string>) returns (r: Result<TotalCostResponse, Error>)
      ensures dbError.Some? ==> r == Err(Wrapped("failed to calculate total cost", dbError.value))
      ensures dbError.None? ==> r == Ok(TotalCostResponse(TotalCost(repo.rows, f), Currency))
    {
      var total := repo.GetTotalCost(f, dbError);
      if total.Err? {
        return Err(total.error);
      }
      r := Ok(TotalCostResponse(total.value, Currency));
    }
  }
}
