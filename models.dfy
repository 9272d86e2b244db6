/** The data contracts of the subscription service and the binding rules on its request bodies. */
module Models {
  import opened Wrappers
  import opened Calendar

  /** A UUID is 128 bits; its text form is handled by a parser the service is given. */
  datatype Uuid = Uuid(bits: bv128)

  /** A reading of the server clock (`time.Now()`), supplied by the caller. */
  type Timestamp = int

  /** One stored subscription; `endDate == None` means open-ended. */
  datatype Subscription = Subscription(
    id: Uuid,
    serviceName: string,
    price: int,
    userId: Uuid,
    startDate: Date,
    endDate: Option<Date>,
    createdAt: Timestamp,
    updatedAt: Timestamp)

  /** Body of a create request; dates are `MM-YYYY` text, `endDate` may be empty. */
  datatype CreateSubscriptionReq = CreateSubscriptionReq(
    serviceName: string,
    price: int,
    userId: string,
    startDate: string,
    endDate: string)

  /** Body of an update request; every field may be left at its zero value. */
  datatype UpdateSubscriptionReq = UpdateSubscriptionReq(
    serviceName: string,
    price: int,
    startDate: string,
    endDate: string)

  /** Criteria of the list query. */
  datatype SubscriptionFilter = SubscriptionFilter(
    userId: Option<Uuid>,
    serviceName: string,
    limit: int,
    offset: int)

  /** Criteria of the cost query: the window is always given, the rest is optional. */
  datatype CostFilter = CostFilter(
    userId: Option<Uuid>,
    serviceName: string,
    startDate: Date,
    endDate: Date)

  datatype TotalCostResponse = TotalCostResponse(totalCost: int, currency: string)

  /**
   * The `binding` tags of a create request: `service_name` required (non-empty),
   * `price` required with `min=1`, `user_id` required and a UUID, `start_date`
   * required; `end_date` carries no rule.
   */
  predicate CreateReqBinds(req: CreateSubscriptionReq, parseUuid: string -> Option<Uuid>)
  {
    && req.serviceName != ""
    && req.price >= 1
    && req.userId != "" && parseUuid(req.userId).Some?
    && req.startDate != ""
  }

  /** The `binding` tags of an update request: only `price` has one, `omitempty,min=1`. */
  predicate UpdateReqBinds(req: UpdateSubscriptionReq)
  {
    req.price == 0 || req.price >= 1
  }

  /** The request body of the integration test `{"service_name":"","price":0}` fails binding. */
  lemma EmptyCreateRequestDoesNotBind(parseUuid: string -> Option<Uuid>)
    ensures !CreateReqBinds(CreateSubscriptionReq("", 0, "", "", ""), parseUuid)
  {
  }

  /** The keys of a subscription's JSON object; `end_date` is `omitempty`. */
  function JsonKeys(s: Subscription): (keys: seq<string>)
    ensures "end_date" in keys <==> s.endDate.Some?
    ensures forall k :: k in ["id", "service_name", "price", "user_id", "start_date", "created_at", "updated_at"] ==> k in keys
  {
    ["id", "service_name", "price", "user_id", "start_date"]
    + (if s.endDate.Some? then ["end_date"] else [])
    + ["created_at", "updated_at"]
  }
}
