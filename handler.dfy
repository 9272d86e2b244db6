/**
 * The HTTP handlers of `/subscriptions`: reading path and query parameters,
 * binding request bodies, building the list and cost filters, and turning a
 * service error into a status code and an `{"error": ...}` body.
 */
module Handler {
  import opened Wrappers
  import opened Calendar
  import opened Models
  import opened Errors
  import opened Proration
  import opened Table
  import opened Repository
  import opened Service
  import opened Decimal

  const StatusOK := 200
  const StatusCreated := 201
  const StatusNoContent := 204
  const StatusBadRequest := 400
  const StatusNotFound := 404
  const StatusInternalServerError := 500

  /** The JSON a handler writes. */
  datatype Body =
    | ErrorBody(error: string)
    | SubscriptionBody(subscription: Subscription)
    | ListBody(subscriptions: seq<Subscription>)
    | CostBody(cost: TotalCostResponse)
    | NoBody

  datatype Response = Response(status: int, body: Body)

  /** The query string; `c.Query(key)` is the empty string for a key that is absent. */
  type Query = map<string, string>

  function Param(q: Query, key: string): string
  {
    if key in q then q[key] else ""
  }

  function BadRequest(message: string): Response
  {
    Response(StatusBadRequest, ErrorBody(message))
  }

  /** A server error carrying the error's text: how Create, the list and the total report any service error. */
  function ServerError(e: Error): Response
  {
    Response(StatusInternalServerError, ErrorBody(Message(e)))
  }

  /** How Get, Update and Delete report a service error. */
  function ErrorResponse(e: Error): (r: Response)
    ensures r.status == StatusNotFound <==> e == NotFound
    ensures r.status != StatusNotFound ==> r == ServerError(e)
    ensures r.status == StatusNotFound ==> r.body == ErrorBody(Message(e))
  {
    if e == NotFound then Response(StatusNotFound, ErrorBody("subscription not found"))
    else ServerError(e)
  }

  /** A bad date in an update body is a client mistake reported as a server error. */
  lemma BadUpdateDateIsServerError()
    ensures ErrorResponse(InvalidStartDate).status == StatusInternalServerError
    ensures ErrorResponse(InvalidEndDate).status == StatusInternalServerError
  {
  }

  /** The `user_id` query parameter: absent when empty, otherwise whatever the UUID parser makes of it. */
  function UserIdParam(q: Query, parseUuid: string -> Option<Uuid>): Option<Uuid>
  {
    if Param(q, "user_id") == "" then None else parseUuid(Param(q, "user_id"))
  }

  /** The `user_id` query parameter is absent or a UUID. */
  predicate UserIdParamOk(q: Query, parseUuid: string -> Option<Uuid>)
  {
    Param(q, "user_id") == "" || parseUuid(Param(q, "user_id")).Some?
  }

  /**
   * The filter a list query asks for: its user id and name, `limit` when that is
   * a positive integer and 20 otherwise, `offset` when that is a non-negative
   * integer and 0 otherwise.
   */
  predicate ListFilterFrom(q: Query, parseUuid: string -> Option<Uuid>, f: SubscriptionFilter)
  {
    && f.userId == UserIdParam(q, parseUuid)
    && f.serviceName == Param(q, "service_name")
    && f.limit == (var l := ParseQueryInt(Param(q, "limit")); if l.Some? && l.value > 0 then l.value else 20)
    && f.offset == (var o := ParseQueryInt(Param(q, "offset")); if o.Some? && o.value >= 0 then o.value else 0)
  }

  /** The filter a cost query asks for: its two parsed months, its name and its user id. */
  predicate CostFilterFrom(q: Query, parseUuid: string -> Option<Uuid>, f: CostFilter)
  {
    && ParseMonthYear(Param(q, "start_date")) == Some(f.startDate)
    && ParseMonthYear(Param(q, "end_date")) == Some(f.endDate)
    && f.serviceName == Param(q, "service_name")
    && f.userId == UserIdParam(q, parseUuid)
  }

  /**
   * The list filter: no user id unless one is given (and then it must parse), the
   * name as given, `limit` 20 unless a positive integer is given, `offset` 0
   * unless a non-negative integer is given; other values are ignored.
   */
  method BuildListFilter(q: Query, parseUuid: string -> Option<Uuid>) returns (r: Result<SubscriptionFilter, Response>)
    ensures r.Ok? <==> UserIdParamOk(q, parseUuid)
    ensures r.Err? ==> r == Err(BadRequest("invalid user_id format"))
    ensures r.Ok? ==> ListFilterFrom(q, parseUuid, r.value) && r.value.limit >= 1 && r.value.offset >= 0
  {
    var filter := SubscriptionFilter(None, Param(q, "service_name"), 20, 0);

    var userIdText := Param(q, "user_id");
    if userIdText != "" {
      var userId := parseUuid(userIdText);
      if userId.None? {
        return Err(BadRequest("invalid user_id format"));
      }
      filter := filter.(userId := userId);
    }

    var limitText := Param(q, "limit");
    if limitText != "" {
      var l := ParseQueryInt(limitText);
      if l.Some? && l.value > 0 {
        filter := filter.(limit := l.value);
      }
    }

    var offsetText := Param(q, "offset");
    if offsetText != "" {
      var o := ParseQueryInt(offsetText);
      if o.Some? && o.value >= 0 {
        filter := filter.(offset := o.value);
      }
    }
    r := Ok(filter);
  }

  /**
   * The cost filter: both window ends are required, the start is parsed before
   * the end, then the optional user id; nothing compares start and end.
   */
  method BuildCostFilter(q: Query, parseUuid: string -> Option<Uuid>) returns (r: Result<CostFilter, Response>)
    ensures Param(q, "start_date") == "" || Param(q, "end_date") == ""
            ==> r == Err(BadRequest("start_date and end_date are required"))
    ensures Param(q, "start_date") != "" && Param(q, "end_date") != "" && ParseMonthYear(Param(q, "start_date")).None?
            ==> r == Err(BadRequest("invalid start_date format, expected MM-YYYY"))
    ensures Param(q, "end_date") != "" && ParseMonthYear(Param(q, "start_date")).Some? && ParseMonthYear(Param(q, "end_date")).None?
            ==> r == Err(BadRequest("invalid end_date format, expected MM-YYYY"))
    ensures ParseMonthYear(Param(q, "start_date")).Some? && ParseMonthYear(Param(q, "end_date")).Some?
            && Param(q, "user_id") != "" && parseUuid(Param(q, "user_id")).None?
            ==> r == Err(BadRequest("invalid user_id format"))
    ensures r.Ok? <==> ParseMonthYear(Param(q, "start_date")).Some? && ParseMonthYear(Param(q, "end_date")).Some?
                       && UserIdParamOk(q, parseUuid)
    ensures r.Err? ==> r.error.status == StatusBadRequest
    ensures r.Ok? ==> CostFilterFrom(q, parseUuid, r.value)
  {
    var startText := Param(q, "start_date");
    var endText := Param(q, "end_date");
    if startText == "" || endText == "" {
      return Err(BadRequest("start_date and end_date are required"));
    }
    var startDate := ParseMonthYear(startText);
    if startDate.None? {
      return Err(BadRequest("invalid start_date format, expected MM-YYYY"));
    }
    var endDate := ParseMonthYear(endText);
    if endDate.None? {
      return Err(BadRequest("invalid end_date format, expected MM-YYYY"));
    }
    var filter := CostFilter(None, Param(q, "service_name"), startDate.value, endDate.value);

    var userIdText := Param(q, "user_id");
    if userIdText != "" {
      var userId := parseUuid(userIdText);
      if userId.None? {
        return Err(BadRequest("invalid user_id format"));
      }
      filter := filter.(userId := userId);
    }
    r := Ok(filter);
  }

  /** A list filter with a positive limit never yields more rows than the limit. */
  lemma ListPageRespectsLimit(all: seq<Subscription>, f: SubscriptionFilter)
    requires f.limit >= 1
    ensures |ListPage(all, f)| <= f.limit
  {
  }

  /** With the default filter a listing is the 20 newest selected rows. */
  lemma DefaultPageIsNewestTwenty(all: seq<Subscription>, f: SubscriptionFilter)
    requires f.limit == 20 && f.offset == 0
    ensures ListPage(all, f) == if |all| <= 20 then all else all[..20]
  {
    var p := ListPage(all, f);
    if |all| <= 20 {
      assert p == all;
    } else {
      assert p == all[..20];
    }
  }

  class SubscriptionHandler {
    const svc: SubscriptionService

    constructor (svc: SubscriptionService)
      ensures this.svc == svc
    {
      this.svc := svc;
    }

    /**
     * POST /subscriptions. `body` is the decoded JSON (`None` when it does not
     * decode); the binding rules run before the service.
     */
    method CreateSubscription(body: Option<CreateSubscriptionReq>, newId: Uuid, now: Timestamp, dbError: Option<string>)
      returns (r: Response)
      requires svc.repo.Valid()
      modifies svc.repo
      ensures svc.repo.Valid()
      ensures r.status == StatusBadRequest <==> body.None? || !CreateReqBinds(body.value, svc.parseUuid)
      ensures r.status == StatusBadRequest ==> r == BadRequest("invalid request body")
      ensures body.Some? && CreateReqBinds(body.value, svc.parseUuid)
              ==> var made := NewSubscription(body.value, svc.parseUuid, newId, now);
                  && (made.Err? ==> r == ServerError(made.error))
                  && (made.Ok? && dbError.None? && newId !in old(svc.repo.rows)
                      ==> r == Response(StatusCreated, SubscriptionBody(made.value))
                          && svc.repo.rows == old(svc.repo.rows)[newId := made.value])
                  && (made.Ok? && dbError.Some? ==> r == ServerError(Wrapped("failed to create subscription", dbError.value)))
                  && (made.Ok? && dbError.None? && newId in old(svc.repo.rows)
                      ==> r == ServerError(Wrapped("failed to create subscription", DuplicateKey)))
      ensures r.status in {StatusCreated, StatusBadRequest, StatusInternalServerError}
      ensures r.status == StatusCreated
              ==> && r.body.SubscriptionBody?
                  && Ok(r.body.subscription) == NewSubscription(body.value, svc.parseUuid, newId, now)
                  && svc.repo.rows == old(svc.repo.rows)[newId := r.body.subscription]
      ensures r.status != StatusCreated ==> svc.repo.rows == old(svc.repo.rows)
    {
      if body.None? || !CreateReqBinds(body.value, svc.parseUuid) {
        return BadRequest("invalid request body");
      }
      var created := svc.Create(body.value, newId, now, dbError);
      if created.Err? {
        return ServerError(created.error);
      }
      r := Response(StatusCreated, SubscriptionBody(created.value));
    }

    /** GET /subscriptions/{id}. */
    method GetSubscription(idText: string, dbError: Option<string>) returns (r: Response)
      ensures svc.parseUuid(idText).None? ==> r == BadRequest("invalid subscription ID")
      ensures svc.parseUuid(idText).Some? && dbError.None?
              ==> var found := Lookup(svc.repo.rows, svc.parseUuid(idText).value);
                  r == if found.Ok? then Response(StatusOK, SubscriptionBody(found.value)) else ErrorResponse(found.error)
      ensures svc.parseUuid(idText).Some? && dbError.Some?
              ==> r == Response(StatusInternalServerError, ErrorBody(Message(Wrapped("failed to get subscription", dbError.value))))
    {
      var id := svc.parseUuid(idText);
      if id.None? {
        return BadRequest("invalid subscription ID");
      }
      var found := svc.GetByID(id.value, dbError);
      if found.Err? {
        return ErrorResponse(found.error);
      }
      r := Response(StatusOK, SubscriptionBody(found.value));
    }

    /** GET /subscriptions. */
    method GetAllSubscriptions(q: Query, dbError: Option<string>) returns (r: Response)
      requires svc.repo.Valid()
      ensures !UserIdParamOk(q, svc.parseUuid) ==> r == BadRequest("invalid user_id format")
      ensures UserIdParamOk(q, svc.parseUuid) && dbError.Some?
              ==> r == ServerError(Wrapped("failed to get subscriptions", dbError.value))
      ensures UserIdParamOk(q, svc.parseUuid) && dbError.None?
              ==> && r.status == StatusOK && r.body.ListBody?
                  && exists f: SubscriptionFilter, all ::
                       ListFilterFrom(q, svc.parseUuid, f) && Listing(svc.repo.rows, f, all) && r.body.subscriptions == ListPage(all, f)
      ensures r.status == StatusOK ==> r.body.ListBody? && |r.body.subscriptions| <= |svc.repo.rows|
    {
      var filter := BuildListFilter(q, svc.parseUuid);
      if filter.Err? {
        return filter.error;
      }
      var listed := svc.GetAll(filter.value, dbError);
      if listed.Err? {
        return ServerError(listed.error);
      }
      r := Response(StatusOK, ListBody(listed.value));
      ghost var all :| Listing(svc.repo.rows, filter.value, all) && listed.value == ListPage(all, filter.value);
      ListingIsBounded(svc.repo.rows, filter.value, all);
    }

    /** PUT /subscriptions/{id}. */
    method UpdateSubscription(idText: string, body: Option<UpdateSubscriptionReq>, now: Timestamp,
                              readError: Option<string>, writeError: Option<string>)
      returns (r: Response)
      requires svc.repo.Valid()
      modifies svc.repo
      ensures svc.repo.Valid()
      ensures svc.parseUuid(idText).None? ==> r == BadRequest("invalid subscription ID") && svc.repo.rows == old(svc.repo.rows)
      ensures svc.parseUuid(idText).Some? && (body.None? || !UpdateReqBinds(body.value))
              ==> r == BadRequest("invalid request body") && svc.repo.rows == old(svc.repo.rows)
      ensures svc.parseUuid(idText).Some? && body.Some? && UpdateReqBinds(body.value) && readError.Some?
              ==> r == ServerError(Wrapped("failed to get subscription", readError.value)) && svc.repo.rows == old(svc.repo.rows)
      ensures svc.parseUuid(idText).Some? && body.Some? && UpdateReqBinds(body.value) && readError.None?
              ==> var (result, rows) := UpdatePath(old(svc.repo.rows), svc.parseUuid(idText).value, body.value, now);
                  && (result.Err? ==> r == ErrorResponse(result.error) && svc.repo.rows == old(svc.repo.rows))
                  && (result.Ok? && writeError.None? ==> r == Response(StatusOK, SubscriptionBody(result.value)) && svc.repo.rows == rows)
                  && (result.Ok? && writeError.Some?
                      ==> r == ServerError(Wrapped("failed to update subscription", writeError.value)) && svc.repo.rows == old(svc.repo.rows))
      ensures r.status != StatusOK ==> svc.repo.rows == old(svc.repo.rows)
    {
      var id := svc.parseUuid(idText);
      if id.None? {
        return BadRequest("invalid subscription ID");
      }
      if body.None? || !UpdateReqBinds(body.value) {
        return BadRequest("invalid request body");
      }
      var updated := svc.Update(id.value, body.value, now, readError, writeError);
      if updated.Err? {
        return ErrorResponse(updated.error);
      }
      r := Response(StatusOK, SubscriptionBody(updated.value));
    }

    /** DELETE /subscriptions/{id}. */
    method DeleteSubscription(idText: string, dbError: Option<string>) returns (r: Response)
      requires svc.repo.Valid()
      modifies svc.repo
      ensures svc.repo.Valid()
      ensures svc.parseUuid(idText).None? ==> r == BadRequest("invalid subscription ID") && svc.repo.rows == old(svc.repo.rows)
      ensures svc.parseUuid(idText).Some? && dbError.None?
              ==> var id := svc.parseUuid(idText).value;
                  (id in old(svc.repo.rows) ==> r == Response(StatusNoContent, NoBody) && svc.repo.rows == old(svc.repo.rows) - {id})
                  && (id !in old(svc.repo.rows) ==> r == ErrorResponse(NotFound) && svc.repo.rows == old(svc.repo.rows))
      ensures svc.parseUuid(idText).Some? && dbError.Some?
              ==> r == ServerError(Wrapped("failed to delete subscription", dbError.value))
      ensures dbError.Some? ==> svc.repo.rows == old(svc.repo.rows)
    {
      var id := svc.parseUuid(idText);
      if id.None? {
        return BadRequest("invalid subscription ID");
      }
      var deleted := svc.Delete(id.value, dbError);
      if deleted.Fail? {
        return ErrorResponse(deleted.error);
      }
      r := Response(StatusNoContent, NoBody);
    }

    /** GET /subscriptions/cost. */
    method GetTotalCost(q: Query, dbError: Option<string>) returns (r: Response)
      ensures r.status in {StatusOK, StatusBadRequest, StatusInternalServerError}
      ensures Param(q, "start_date") == "" || Param(q, "end_date") == ""
              ==> r == BadRequest("start_date and end_date are required")
      ensures Param(q, "start_date") != "" && Param(q, "end_date") != "" && ParseMonthYear(Param(q, "start_date")).None?
              ==> r == BadRequest("invalid start_date format, expected MM-YYYY")
      ensures Param(q, "end_date") != "" && ParseMonthYear(Param(q, "start_date")).Some? && ParseMonthYear(Param(q, "end_date")).None?
              ==> r == BadRequest("invalid end_date format, expected MM-YYYY")
      ensures ParseMonthYear(Param(q, "start_date")).Some? && ParseMonthYear(Param(q, "end_date")).Some?
              && !UserIdParamOk(q, svc.parseUuid)
              ==> r == BadRequest("invalid user_id format")
      ensures r.status == StatusBadRequest
              <==> !(ParseMonthYear(Param(q, "start_date")).Some? && ParseMonthYear(Param(q, "end_date")).Some?
                     && UserIdParamOk(q, svc.parseUuid))
      ensures r.status == StatusOK
              <==> && dbError.None? && ParseMonthYear(Param(q, "start_date")).Some?
                   && ParseMonthYear(Param(q, "end_date")).Some? && UserIdParamOk(q, svc.parseUuid)
      ensures ParseMonthYear(Param(q, "start_date")).Some? && ParseMonthYear(Param(q, "end_date")).Some?
              && UserIdParamOk(q, svc.parseUuid) && dbError.Some?
              ==> r == ServerError(Wrapped("failed to calculate total cost", dbError.value))
      ensures r.status == StatusOK ==> exists f: CostFilter ::
                CostFilterFrom(q, svc.parseUuid, f)
                && r == Response(StatusOK, CostBody(TotalCostResponse(TotalCost(svc.repo.rows, f), Currency)))
    {
      var filter := BuildCostFilter(q, svc.parseUuid);
      if filter.Err? {
        return filter.error;
      }
      var total := svc.GetTotalCost(filter.value, dbError);
      if total.Err? {
        return ServerError(total.error);
      }
      r := Response(StatusOK, CostBody(total.value));
    }
  }

  /** A listing holds each stored row at most once, so a page of it is no longer than the table. */
  lemma ListingIsBounded(rows: Rows, f: SubscriptionFilter, all: seq<Subscription>)
    requires Listing(rows, f, all)
    ensures |ListPage(all, f)| <= |rows|
  {
    var selected := SelectedAmong(rows, rows.Keys, f.userId, f.serviceName);
    assert |all| == |multiset(all)| == |multiset(selected)| == |selected|;
    SelectedAmongIsSmall(rows, rows.Keys, f.userId, f.serviceName);
    assert |rows.Keys| == |rows|;
  }
}
