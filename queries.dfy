/**
 * The SQL the store sends for the list and cost queries, as built clause by
 * clause: the WHERE conditions, the LIMIT/OFFSET tail and the positional
 * arguments `$1, $2, ...` they refer to.
 */
module Queries {
  import opened Wrappers
  import opened Calendar
  import opened Models
  import opened SqlPattern

  /** A value bound to a placeholder. */
  datatype Arg = UuidArg(id: Uuid) | TextArg(text: string) | IntArg(n: int) | DateArg(date: Date)

  /** One condition of the WHERE clause; `slot` is the number `n` of its placeholder `$n`. */
  datatype Condition =
    | UserIdEquals(slot: nat)       // user_id = $n
    | ServiceNameILike(slot: nat)   // service_name ILIKE $n

  /**
   * `SELECT ... FROM subscriptions [WHERE c1 AND c2] ORDER BY created_at DESC
   *  [LIMIT $l] [OFFSET $o]`; the ORDER BY clause is in every list query.
   */
  datatype SelectQuery = SelectQuery(
    conditions: seq<Condition>,
    limitSlot: Option<nat>,
    offsetSlot: Option<nat>,
    args: seq<Arg>)

  /**
   * The cost query: the fixed window test `start_date <= $1 AND (end_date IS NULL
   * OR end_date >= $2)`, with `$1` the window end and `$2` the window start, ANDed
   * with the extra conditions.
   */
  datatype CostQuery = CostQuery(conditions: seq<Condition>, args: seq<Arg>)

  /** The placeholder numbers in the order the condition texts mention them. */
  function ConditionSlots(cs: seq<Condition>): (slots: seq<nat>)
    ensures |slots| == |cs|
    ensures forall i :: 0 <= i < |cs| ==> slots[i] == cs[i].slot
  {
    if cs == [] then [] else [cs[0].slot] + ConditionSlots(cs[1..])
  }

  function OptionSlot(slot: Option<nat>): seq<nat>
  {
    if slot.Some? then [slot.value] else []
  }

  /** Placeholders of a list query in order of appearance. */
  function SelectSlots(q: SelectQuery): seq<nat>
  {
    ConditionSlots(q.conditions) + OptionSlot(q.limitSlot) + OptionSlot(q.offsetSlot)
  }

  /** Placeholders of a cost query in order of first appearance. */
  function CostSlots(q: CostQuery): seq<nat>
  {
    [1, 2] + ConditionSlots(q.conditions)
  }

  /** The placeholders are `$1, $2, ..., $n` in this order and there are exactly `n` arguments. */
  predicate Consecutive(slots: seq<nat>, argCount: nat)
  {
    |slots| == argCount && forall i :: 0 <= i < |slots| ==> slots[i] == i + 1
  }

  /** Whether one condition holds of a row, with its placeholder bound from `args`. */
  predicate ConditionHolds(c: Condition, args: seq<Arg>, s: Subscription)
  {
    && 1 <= c.slot <= |args|
    && match c
       case UserIdEquals(n) => args[n - 1].UuidArg? && s.userId == args[n - 1].id
       case ServiceNameILike(n) => args[n - 1].TextArg? && ILike(s.serviceName, args[n - 1].text)
  }

  predicate AllHold(cs: seq<Condition>, args: seq<Arg>, s: Subscription)
  {
    forall i :: 0 <= i < |cs| ==> ConditionHolds(cs[i], args, s)
  }

  /** The integer bound to an optional LIMIT or OFFSET placeholder. */
  function BoundInt(slot: Option<nat>, args: seq<Arg>): Option<int>
  {
    if slot.Some? && 1 <= slot.value <= |args| && args[slot.value - 1].IntArg?
    then Some(args[slot.value - 1].n)
    else None
  }

  /**
   * What the optional filters mean: an equal user id when one is given, and a
   * service name that matches `'%' + name + '%'` under ILIKE when one is given.
   */
  predicate Selected(userId: Option<Uuid>, serviceName: string, s: Subscription)
  {
    && (userId.Some? ==> s.userId == userId.value)
    && (serviceName != "" ==> ILike(s.serviceName, "%" + serviceName + "%"))
  }

  /**
   * The clause builder of `GetAll`: each present filter appends its condition
   * and its argument and moves `argNum` on; LIMIT only for a positive limit,
   * OFFSET only for a positive offset.
   */
  method BuildSelectQuery(f: SubscriptionFilter) returns (q: SelectQuery)
    ensures Consecutive(SelectSlots(q), |q.args|)
    ensures forall s :: AllHold(q.conditions, q.args, s) <==> Selected(f.userId, f.serviceName, s)
    ensures BoundInt(q.limitSlot, q.args) == (if f.limit > 0 then Some(f.limit) else None)
    ensures BoundInt(q.offsetSlot, q.args) == (if f.offset > 0 then Some(f.offset) else None)
    ensures q.limitSlot.Some? <==> f.limit > 0
    ensures q.offsetSlot.Some? <==> f.offset > 0
  {
    var conditions: seq<Condition> := [];
    var args: seq<Arg> := [];
    var argNum := 1;

    if f.userId.Some? {
      conditions := conditions + [UserIdEquals(argNum)];
      args := args + [UuidArg(f.userId.value)];
      argNum := argNum + 1;
    }
    if f.serviceName != "" {
      conditions := conditions + [ServiceNameILike(argNum)];
      args := args + [TextArg("%" + f.serviceName + "%")];
      argNum := argNum + 1;
    }
    assert Consecutive(ConditionSlots(conditions), |args|) && argNum == |args| + 1;
    forall s: Subscription
      ensures AllHold(conditions, args, s) <==> Selected(f.userId, f.serviceName, s)
    {
      if f.userId.Some? {
        assert conditions[0] == UserIdEquals(1) && args[0] == UuidArg(f.userId.value);
      }
      if f.serviceName != "" {
        var n := if f.userId.Some? then 2 else 1;
        assert conditions[n - 1] == ServiceNameILike(n);
        assert args[n - 1] == TextArg("%" + f.serviceName + "%");
      }
    }
    ghost var whereArgs := args;

    var limitSlot: Option<nat> := None;
    var offsetSlot: Option<nat> := None;
    if f.limit > 0 {
      limitSlot := Some(argNum);
      args := args + [IntArg(f.limit)];
      argNum := argNum + 1;
    }
    if f.offset > 0 {
      offsetSlot := Some(argNum);
      args := args + [IntArg(f.offset)];
    }
    q := SelectQuery(conditions, limitSlot, offsetSlot, args);
    forall s: Subscription
      ensures AllHold(q.conditions, q.args, s) <==> AllHold(conditions, whereArgs, s)
    {
      forall i | 0 <= i < |conditions|
        ensures ConditionHolds(conditions[i], q.args, s) <==> ConditionHolds(conditions[i], whereArgs, s)
      {
        assert q.args[conditions[i].slot - 1] == whereArgs[conditions[i].slot - 1];
      }
    }
  }

  /**
   * The clause builder of `GetTotalCost`: `$1` is the window end, `$2` the window
   * start, and the optional filters take `$3` onwards.
   */
  method BuildCostQuery(f: CostFilter) returns (q: CostQuery)
    ensures Consecutive(CostSlots(q), |q.args|)
    ensures q.args[0] == DateArg(f.endDate) && q.args[1] == DateArg(f.startDate)
    ensures forall s :: AllHold(q.conditions, q.args, s) <==> Selected(f.userId, f.serviceName, s)
  {
    var conditions: seq<Condition> := [];
    var args: seq<Arg> := [];
    var argNum := 1;

    args := args + [DateArg(f.endDate), DateArg(f.startDate)];
    argNum := 3;

    if f.userId.Some? {
      conditions := conditions + [UserIdEquals(argNum)];
      args := args + [UuidArg(f.userId.value)];
      argNum := argNum + 1;
    }
    if f.serviceName != "" {
      conditions := conditions + [ServiceNameILike(argNum)];
      args := args + [TextArg("%" + f.serviceName + "%")];
    }
    q := CostQuery(conditions, args);

    forall s: Subscription
      ensures AllHold(q.conditions, q.args, s) <==> Selected(f.userId, f.serviceName, s)
    {
      if f.userId.Some? {
        assert q.conditions[0] == UserIdEquals(3) && q.args[2] == UuidArg(f.userId.value);
      }
      if f.serviceName != "" {
        var n := if f.userId.Some? then 4 else 3;
        assert q.conditions[n - 3] == ServiceNameILike(n);
        assert q.args[n - 1] == TextArg("%" + f.serviceName + "%");
      }
    }
  }
}
