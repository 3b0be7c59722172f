/**
 * The values that flow through the spied ThingsBoard services, the argument
 * matchers used to verify them, and the recorded call history of a spy.
 *
 * A spy records every invocation as a `Call`: which operation was invoked and
 * the argument list with any varargs expanded in place.  Verification with a
 * list of matchers counts the recorded calls of that operation whose argument
 * list has exactly as many entries as there are matchers and whose arguments
 * are matched position by position.
 */
module RecordedCalls {

  /** The kinds of ThingsBoard entities (the `EntityType` enum). */
  datatype EntityType =
    | TENANT | CUSTOMER | USER | DASHBOARD | ASSET | DEVICE | ALARM
    | RULE_CHAIN | RULE_NODE | ENTITY_VIEW | WIDGETS_BUNDLE | WIDGET_TYPE
    | TENANT_PROFILE | DEVICE_PROFILE | API_USAGE_STATE | TB_RESOURCE
    | OTA_PACKAGE | EDGE | RPC | QUEUE

  /** A UUID, kept as its canonical text. */
  datatype Uuid = Uuid(text: string)

  /** An entity id: its kind (which fixes its Java class) and its uuid. */
  datatype EntityId = EntityId(kind: EntityType, uuid: Uuid)

  /**
   * A named entity (an implementation of `HasName`).  `className` is the fully
   * qualified name of its runtime class; `state` stands for its other fields,
   * which take part in `equals`.
   */
  datatype Entity = Entity(className: string, state: string)

  /** An action recorded in the audit log, by its enum constant name. */
  datatype ActionType = ActionType(name: string)

  /** An edge event type, by its enum constant name. */
  datatype EdgeEventType = EdgeEventType(name: string)

  /** A thrown exception as seen by a matcher: its class and its message. */
  datatype Exception = Exception(className: string, message: string)

  /** A runtime class, as far as `Mockito.any(Class)` can tell values apart. */
  datatype ClassTag =
    | IdClass(kind: EntityType)
    | EntityClass(name: string)
    | StringClass
    | ActionTypeClass
    | EdgeEventTypeClass
    | TbMsgClass
    | LifecycleEventClass
    | ExceptionClass(name: string)

  /** An argument of a recorded call; `Null` is Java's `null`. */
  datatype Value =
    | Null
    | Id(id: EntityId)
    | Named(entity: Entity)
    | Str(s: string)
    | Action(action: ActionType)
    | EdgeEvent(edgeType: EdgeEventType)
    | Msg(payload: string)
    | Lifecycle(event: string)
    | Error(error: Exception)

  /** The runtime class of a non-null value. */
  function ClassOf(v: Value): ClassTag
    requires v != Null
  {
    match v
    case Id(id) => IdClass(id.kind)
    case Named(e) => EntityClass(e.className)
    case Str(_) => StringClass
    case Action(_) => ActionTypeClass
    case EdgeEvent(_) => EdgeEventTypeClass
    case Msg(_) => TbMsgClass
    case Lifecycle(_) => LifecycleEventClass
    case Error(e) => ExceptionClass(e.className)
  }

  /** Java's `cls.isInstance(v)`: false for null. */
  predicate IsInstance(v: Value, cls: ClassTag) {
    v != Null && ClassOf(v) == cls
  }

  /**
   * Argument matchers: `Mockito.eq`, `Mockito.any(Class)`, `Mockito.isNull`,
   * `Mockito.any()` and `Mockito.argThat`.
   */
  datatype Matcher =
    | Eq(v: Value)
    | OfKind(cls: ClassTag)
    | IsNull
    | Any
    | Pred(f: Value -> bool)

  predicate Matches(m: Matcher, v: Value) {
    match m
    case Eq(x) => v == x
    case OfKind(cls) => IsInstance(v, cls)
    case IsNull => v == Null
    case Any => true
    case Pred(f) => f(v)
  }

  /** The four operations of the spied services. */
  datatype Op =
    | LogEntityAction
    | PushMsgToRuleEngine
    | SendNotificationMsgToEdgeService
    | BroadcastEntityStateChangeEvent

  datatype Call = Call(op: Op, args: seq<Value>)

  predicate ArgsMatch(ms: seq<Matcher>, args: seq<Value>) {
    |ms| == |args| && forall i :: 0 <= i < |ms| ==> Matches(ms[i], args[i])
  }

  predicate CallMatches(c: Call, op: Op, ms: seq<Matcher>) {
    c.op == op && ArgsMatch(ms, c.args)
  }

  /** The number of recorded calls of `op` whose arguments `ms` match. */
  function Count(log: seq<Call>, op: Op, ms: seq<Matcher>): (n: nat)
    ensures n <= |log|
    ensures n == 0 <==> forall i :: 0 <= i < |log| ==> !CallMatches(log[i], op, ms)
  {
    if log == [] then 0
    else Count(log[..|log| - 1], op, ms) + (if CallMatches(log[|log| - 1], op, ms) then 1 else 0)
  }

  /**
   * `Mockito.verify(spy, times(n)).op(ms...)`; `never()` is `n == 0`.
   * Mockito refuses a negative `n`, so no history passes it.
   */
  predicate Verify(log: seq<Call>, op: Op, n: int, ms: seq<Matcher>)
    ensures Verify(log, op, n, ms) ==> 0 <= n <= |log|
    ensures n == 0 ==> (Verify(log, op, n, ms) <==> forall i :: 0 <= i < |log| ==> !CallMatches(log[i], op, ms))
    ensures Verify(log, op, n, ms) && n > 0 ==> exists i :: 0 <= i < |log| && CallMatches(log[i], op, ms)
  {
    Count(log, op, ms) == n
  }

  /** A history of one call counts 1 when that call matches and 0 otherwise. */
  lemma CountSingle(c: Call, op: Op, ms: seq<Matcher>)
    ensures Count([c], op, ms) == if CallMatches(c, op, ms) then 1 else 0
  {
    assert [c][..0] == [];
  }

  /** Counting distributes over the concatenation of two histories. */
  lemma {:induction false} CountAppend(a: seq<Call>, b: seq<Call>, op: Op, ms: seq<Matcher>)
    ensures Count(a + b, op, ms) == Count(a, op, ms) + Count(b, op, ms)
  {
    if b == [] {
      assert a + b == a;
    } else {
      assert (a + b)[..|a + b| - 1] == a + b[..|b| - 1];
      CountAppend(a, b[..|b| - 1], op, ms);
    }
  }

  /** The number of recorded calls that satisfy `p`, whatever their operation. */
  function CountWhere(log: seq<Call>, p: Call -> bool): (n: nat)
    ensures n <= |log|
    ensures n == 0 <==> forall i :: 0 <= i < |log| ==> !p(log[i])
  {
    if log == [] then 0
    else CountWhere(log[..|log| - 1], p) + (if p(log[|log| - 1]) then 1 else 0)
  }

  /** Matchers that accept exactly the calls satisfying `p` count exactly those calls. */
  lemma {:induction false} CountIsCountWhere(log: seq<Call>, op: Op, ms: seq<Matcher>, p: Call -> bool)
    requires forall c :: CallMatches(c, op, ms) <==> p(c)
    ensures Count(log, op, ms) == CountWhere(log, p)
  {
    if log != [] {
      CountIsCountWhere(log[..|log| - 1], op, ms, p);
    }
  }

  /** `ms` pins every argument to one value: each matcher is `Eq(xs[i])`, or `IsNull` where `xs[i]` is null. */
  predicate Pins(ms: seq<Matcher>, xs: seq<Value>) {
    |ms| == |xs| &&
    forall i :: 0 <= i < |ms| ==> (ms[i].Eq? && ms[i].v == xs[i]) || (ms[i].IsNull? && xs[i] == Null)
  }

  lemma PinnedCallMatches(c: Call, op: Op, ms: seq<Matcher>, xs: seq<Value>)
    requires Pins(ms, xs)
    ensures CallMatches(c, op, ms) <==> c == Call(op, xs)
  {
    if CallMatches(c, op, ms) {
      assert c.args == xs by {
        forall i | 0 <= i < |xs| ensures c.args[i] == xs[i] {
          assert Matches(ms[i], c.args[i]);
        }
      }
    }
  }

  /** A verification whose matchers pin every argument counts the occurrences of that one call. */
  lemma {:induction false} CountPinned(log: seq<Call>, op: Op, ms: seq<Matcher>, xs: seq<Value>)
    requires Pins(ms, xs)
    ensures Count(log, op, ms) == multiset(log)[Call(op, xs)]
  {
    if log != [] {
      var init, last := log[..|log| - 1], log[|log| - 1];
      assert log == init + [last];
      CountPinned(init, op, ms, xs);
      PinnedCallMatches(last, op, ms, xs);
    }
  }
}
